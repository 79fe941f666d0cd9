/** Building UberDict storage: the plain constructor and `fromkeys` (entries
    kept verbatim), and the recursive conversions `fromdict` and `todict`,
    with Python's structural dict equality to compare their results. */
module Conversions {
  import opened Keys
  import opened Values

  /** `dict(pairs)`: the pairs inserted raw in order, so a later pair with the
      same key overwrites an earlier one. Every entry comes from some pair. */
  function FromPairs(pairs: seq<(Key, Val)>): (r: map<Key, Val>)
    ensures r.Keys == set i | 0 <= i < |pairs| :: pairs[i].0
    ensures forall k :: k in r ==> exists i :: 0 <= i < |pairs| && pairs[i] == (k, r[k])
  {
    if pairs == [] then map[]
    else
      var init := pairs[..|pairs| - 1];
      var last := pairs[|pairs| - 1];
      var r := FromPairs(init)[last.0 := last.1];
      assert forall k :: k in r && k != last.0 ==>
        exists i :: 0 <= i < |init| && init[i] == (k, r[k]) && pairs[i] == init[i];
      r
  }

  /** The last pair with a given key decides its value. */
  lemma {:induction false} LastPairWins(pairs: seq<(Key, Val)>, i: nat)
    requires i < |pairs|
    requires forall j :: i < j < |pairs| ==> pairs[j].0 != pairs[i].0
    ensures pairs[i].0 in FromPairs(pairs) && FromPairs(pairs)[pairs[i].0] == pairs[i].1
  {
    if i < |pairs| - 1 {
      var init := pairs[..|pairs| - 1];
      LastPairWins(init, i);
    }
  }

  /** `dict(pairs, **kwargs)`: the keyword entries are inserted after the
      pairs, under their names as `str` keys. */
  function InitMap(pairs: seq<(Key, Val)>, kwargs: map<string, Val>): (r: map<Key, Val>)
    ensures r.Keys == FromPairs(pairs).Keys + set n | n in kwargs :: Str(n)
    ensures forall n :: n in kwargs ==> r[Str(n)] == kwargs[n]
    ensures forall k :: k in r && !(k.Str? && k.s in kwargs) ==> r[k] == FromPairs(pairs)[k]
  {
    FromPairs(pairs) + map n | n in kwargs :: Str(n) := kwargs[n]
  }

  /** `UberDict.fromkeys(keys, v)`: every element of `keys`, dotted or not,
      becomes one flat entry holding `v`. */
  function FromKeysMap(keys: seq<Key>, v: Val): (r: map<Key, Val>)
    ensures r.Keys == set i | 0 <= i < |keys| :: keys[i]
    ensures forall k :: k in r ==> r[k] == v
  {
    var pairs := seq(|keys|, i requires 0 <= i < |keys| => (keys[i], v));
    assert forall i :: 0 <= i < |pairs| ==> pairs[i] == (keys[i], v);
    assert (set i | 0 <= i < |pairs| :: pairs[i].0) == set i | 0 <= i < |keys| :: keys[i];
    FromPairs(pairs)
  }

  /** The value `fromdict` stores for `v` when `v` is dot-free (`DotFree`):
      a plain dict becomes an UberDict with its values converted in turn; an
      UberDict is kept as it is, its contents unconverted; any other value is
      kept. A dotted key inside a nested plain dict goes through the path
      setter instead, which this function does not follow. */
  function Promote(v: Val): (r: Val)
    ensures !r.PD?
    ensures !v.PD? ==> r == v
    ensures v.PD? ==> r.UD? && r.m.Keys == v.m.Keys
  {
    match v
    case PD(m) => UD(map k | k in m :: Promote(m[k]))
    case _ => v
  }

  /** The storage `fromdict(src)` builds when every key it inserts is simple. */
  function FromDictMap(src: map<Key, Val>): (r: map<Key, Val>)
    ensures r.Keys == src.Keys
  {
    map k | k in src :: Promote(src[k])
  }

  /** The simple keys among `ks`. */
  function SimpleKeys(ks: set<Key>): set<Key>
  {
    set k | k in ks && !IsPathKey(k)
  }

  /** Adding a key adds it to the simple keys exactly when it is simple. */
  lemma SimpleKeysAdd(ks: set<Key>, k: Key)
    ensures SimpleKeys(ks + {k}) == SimpleKeys(ks) + (if IsPathKey(k) then {} else {k})
  {
  }

  /** Every key `fromdict` inserts into a new UberDict is simple: the keys of
      `v` when it is a dict, and those of the plain dicts among its values. */
  predicate DotFree(v: Val)
  {
    IsDict(v) ==> forall k :: k in v.m ==> !IsPathKey(k) && (v.m[k].PD? ==> DotFree(v.m[k]))
  }

  /** The entries of `src` under the keys `ks`, converted as `fromdict`
      stores them. */
  function Converted(src: map<Key, Val>, ks: set<Key>): map<Key, Val>
  {
    map k | k in ks && k in src :: Promote(src[k])
  }

  /** All of `src` converted is what `fromdict` builds from dot-free input. */
  lemma ConvertedAll(src: map<Key, Val>)
    ensures Converted(src, src.Keys) == FromDictMap(src)
  {
  }

  /** An entry of a dot-free dict has a simple key, and a plain dict stored
      there is dot-free in turn. */
  lemma DotFreeEntry(src: map<Key, Val>, k: Key)
    requires k in src
    ensures DotFree(PD(src)) ==> !IsPathKey(k) && (src[k].PD? ==> DotFree(src[k]))
  {
  }

  /** The value `todict` stores for `v`: an UberDict becomes a plain dict with
      its values converted in turn; any other value, a plain dict included, is
      kept as it is. */
  function Demote(v: Val): (r: Val)
    ensures !r.UD?
    ensures !v.UD? ==> r == v
    ensures v.UD? ==> r.PD? && r.m.Keys == v.m.Keys
  {
    match v
    case UD(m) => PD(map k | k in m :: Demote(m[k]))
    case _ => v
  }

  /** The plain dict `todict` returns for an UberDict holding `m`. */
  function ToDictMap(m: map<Key, Val>): (r: map<Key, Val>)
    ensures r.Keys == m.Keys
  {
    map k | k in m :: Demote(m[k])
  }

  /** Python's `==` on these values: dicts of either kind are equal when they
      have the same keys and equal values; other values are equal when they
      are the same value. */
  predicate PyEq(a: Val, b: Val)
  {
    if IsDict(a) && IsDict(b) then
      a.m.Keys == b.m.Keys && forall k :: k in a.m ==> PyEq(a.m[k], b.m[k])
    else a == b
  }

  /** A value with no UberDict inside it, at any depth. */
  predicate Plain(v: Val)
  {
    match v
    case UD(_) => false
    case PD(m) => forall k :: k in m ==> Plain(m[k])
    case _ => true
  }

  /** A value with no plain dict inside it, at any depth. */
  predicate NoPlain(v: Val)
  {
    match v
    case PD(_) => false
    case UD(m) => forall k :: k in m ==> NoPlain(m[k])
    case _ => true
  }

  /** `fromdict` converts recursively: a value holding no UberDict comes out
      holding no plain dict, at any depth. */
  lemma {:induction false} PromoteDeep(v: Val)
    requires Plain(v)
    ensures NoPlain(Promote(v))
  {
    if v.PD? {
      forall k | k in v.m ensures NoPlain(Promote(v).m[k]) {
        PromoteDeep(v.m[k]);
      }
    }
  }

  /** `todict` converts recursively: a value holding no plain dict comes out
      holding no UberDict, at any depth. */
  lemma {:induction false} DemoteDeep(v: Val)
    requires NoPlain(v)
    ensures Plain(Demote(v))
  {
    if v.UD? {
      forall k | k in v.m ensures Plain(Demote(v).m[k]) {
        DemoteDeep(v.m[k]);
      }
    }
  }

  /** Structural equality is reflexive. */
  lemma {:induction false} PyEqReflexive(v: Val)
    ensures PyEq(v, v)
  {
    if IsDict(v) {
      forall k | k in v.m ensures PyEq(v.m[k], v.m[k]) {
        PyEqReflexive(v.m[k]);
      }
    }
  }

  /** `todict` changes only container types: its result equals its input. */
  lemma {:induction false} DemoteEqual(v: Val)
    ensures PyEq(Demote(v), v)
  {
    if v.UD? {
      forall k | k in v.m ensures PyEq(Demote(v).m[k], v.m[k]) {
        DemoteEqual(v.m[k]);
      }
    } else {
      PyEqReflexive(v);
    }
  }

  /** On dot-free input `fromdict` changes only container types: its result
      equals its input. */
  lemma {:induction false} PromoteEqual(v: Val)
    ensures PyEq(Promote(v), v)
  {
    if v.PD? {
      forall k | k in v.m ensures PyEq(Promote(v).m[k], v.m[k]) {
        PromoteEqual(v.m[k]);
      }
    } else {
      PyEqReflexive(v);
    }
  }

  /** Converting dot-free input to UberDicts and back gives a value equal to
      the original, and the very same value when the original held no
      UberDict. */
  lemma {:induction false} PromoteDemote(v: Val)
    ensures PyEq(Demote(Promote(v)), v)
    ensures Plain(v) ==> Demote(Promote(v)) == v
  {
    match v
    case PD(m) =>
      forall k | k in m
        ensures PyEq(Demote(Promote(m[k])), m[k])
        ensures Plain(v) ==> Demote(Promote(m[k])) == m[k]
      {
        PromoteDemote(m[k]);
      }
      assert Plain(v) ==> Demote(Promote(v)).m == m;
    case UD(_) =>
      DemoteEqual(v);
    case _ =>
  }

  /** `todict(fromdict(d)) == d` for dot-free `d`, at the level of storage
      maps: equal in Python's sense always, and identical when `d` holds no
      UberDict. */
  lemma RoundTrip(d: map<Key, Val>)
    ensures PyEq(PD(ToDictMap(FromDictMap(d))), PD(d))
    ensures Plain(PD(d)) ==> ToDictMap(FromDictMap(d)) == d
  {
    PromoteDemote(PD(d));
    assert Demote(Promote(PD(d))) == PD(ToDictMap(FromDictMap(d)));
  }
}
