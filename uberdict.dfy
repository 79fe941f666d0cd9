/** The UberDict class: a dict whose item access resolves dotted path keys
    through nested UberDicts and whose attribute access reaches the same
    storage. */
module UberDicts {
  import opened Keys
  import opened Values
  import Paths
  import Conversions
  import PathProperties

  class UberDict {
    /** The raw dict storage: what the base `dict` methods see. */
    var m: map<Key, Val>

    /** `UberDict(pairs, **kwargs)`: plain dict construction, entries kept
        verbatim (nested plain dicts stay plain, dotted keys stay flat). */
    constructor (pairs: seq<(Key, Val)>, kwargs: map<string, Val>)
      ensures m == Conversions.InitMap(pairs, kwargs)
    {
      m := Conversions.InitMap(pairs, kwargs);
    }

    /** `UberDict(mapping, **kwargs)`: the mapping's entries verbatim, then the
        keyword entries. */
    constructor FromMapping(src: map<Key, Val>, kwargs: map<string, Val>)
      ensures m.Keys == src.Keys + set n | n in kwargs :: Str(n)
      ensures forall n :: n in kwargs ==> m[Str(n)] == kwargs[n]
      ensures forall k :: k in src && !(k.Str? && k.s in kwargs) ==> m[k] == src[k]
    {
      m := src + map n | n in kwargs :: Str(n) := kwargs[n];
    }

    /** `self[key]`: the literal entry first; on a miss, a path key is split
        and its tokens looked up one after another from this UberDict. */
    method GetItem(key: Key) returns (r: Result<Val>)
      ensures r == Paths.GetItem(m, key)
    {
      if key in m {
        return Ok(m[key]);
      }
      if !IsPathKey(key) {
        return Err(KeyError(key));
      }
      var tokens := Split(key.s);
      var obj := UD(m);
      var i := 0;
      while i < |tokens|
        invariant 0 <= i <= |tokens|
        invariant Paths.Walk(UD(m), tokens) == Paths.Walk(obj, tokens[i..])
      {
        var token := tokens[i];
        assert tokens[i..][0] == token && tokens[i..][1..] == tokens[i + 1..];
        if !IsDict(obj) {
          return Err(KeyError(Str(token)));
        }
        if obj.PD? {
          return Err(TypeError);
        }
        if Str(token) !in obj.m {
          return Err(KeyError(Str(token)));
        }
        obj := obj.m[Str(token)];
        i := i + 1;
      }
      return Ok(obj);
    }

    /** `self[key] = v`. On failure nothing has been stored. */
    method SetItem(key: Key, v: Val) returns (r: Result<()>)
      modifies this
      ensures var s := Paths.SetItem(old(m), key, v);
              if s.Ok? then r == Ok(()) && m == s.value else r == Err(s.error) && m == old(m)
    {
      var s := Paths.SetItem(m, key, v);
      if s.Ok? {
        m := s.value;
        r := Ok(());
      } else {
        r := Err(s.error);
      }
    }

    /** `del self[key]`, with the simple-key test applied only to `str` keys.
        On failure nothing has been deleted. */
    method DelItem(key: Key) returns (r: Result<()>)
      modifies this
      ensures var d := Paths.DelItem(old(m), key);
              if d.Ok? then r == Ok(()) && m == d.value else r == Err(d.error) && m == old(m)
    {
      var d := Paths.DelItem(m, key);
      if d.Ok? {
        m := d.value;
        r := Ok(());
      } else {
        r := Err(d.error);
      }
    }

    /** `self.name` when no real attribute has that name: item access on the
        whole name (so a dotted name is still resolved as a path), with a
        `KeyError(t)` turned into an AttributeError naming `t`. */
    method GetAttr(name: string) returns (r: Result<Val>)
      ensures var g := Paths.GetItem(m, Str(name));
              && (g.Ok? ==> r == g)
              && (g == Err(TypeError) ==> r == g)
              && (g.Err? && g.error.KeyError? ==> r == Err(AttributeError(NoAttribute(g.error.key.s))))
    {
      r := GetItem(Str(name));
      if r.Err? && r.error.KeyError? {
        r := Err(AttributeError(NoAttribute(r.error.key.s)));
      }
    }

    /** `self.name = v`: a raw store under the whole name, never split, which
        item access then reads back. */
    method SetAttr(name: string, v: Val)
      modifies this
      ensures m == old(m)[Str(name) := v]
      ensures Paths.GetItem(m, Str(name)) == Ok(v)
    {
      m := m[Str(name) := v];
    }

    /** `del self.name`: item deletion of the whole name, with a `KeyError(t)`
        turned into an AttributeError naming `t`. */
    method DelAttr(name: string) returns (r: Result<()>)
      modifies this
      ensures var d := Paths.DelItem(old(m), Str(name));
              && (d.Ok? ==> r == Ok(()) && m == d.value)
              && (d.Err? ==> m == old(m))
              && (d.Err? && !d.error.KeyError? ==> r == Err(d.error))
              && (d.Err? && d.error.KeyError? ==> r == Err(AttributeError(NoAttribute(d.error.key.s))))
    {
      r := DelItem(Str(name));
      if r.Err? && r.error.KeyError? {
        r := Err(AttributeError(NoAttribute(r.error.key.s)));
      }
    }

    /** `self.get(key, default)`: `self[key]`, or `default` exactly when that
        raises KeyError; a type error is not caught. */
    method Get(key: Key, default: Val) returns (r: Result<Val>)
      ensures var g := Paths.GetItem(m, key);
              && (g.Ok? ==> r == g)
              && (g.Err? && g.error.KeyError? ==> r == Ok(default))
              && (g == Err(TypeError) ==> r == g)
    {
      r := GetItem(key);
      if r.Err? && r.error.KeyError? {
        r := Ok(default);
      }
    }

    /** `key in self`: true iff `self[key]` succeeds, false iff it raises
        KeyError; a type error is not caught. */
    method Contains(key: Key) returns (r: Result<bool>)
      ensures r == Ok(true) <==> Paths.GetItem(m, key).Ok?
      ensures r == Ok(false) <==> Paths.GetItem(m, key).Err? && Paths.GetItem(m, key).error.KeyError?
      ensures r == Err(TypeError) <==> Paths.GetItem(m, key) == Err(TypeError)
    {
      var g := GetItem(key);
      if g.Ok? {
        r := Ok(true);
      } else if g.error.KeyError? {
        r := Ok(false);
      } else {
        r := Err(g.error);
      }
    }

    /** `self.setdefault(key, default)`: an existing value is returned with
        nothing changed; after a KeyError, `self[key] = default` is attempted
        and `default` returned if it succeeded. */
    method SetDefault(key: Key, default: Val) returns (r: Result<Val>)
      modifies this
      ensures var g := Paths.GetItem(old(m), key);
              var s := Paths.SetItem(old(m), key, default);
              if g.Err? && g.error.KeyError? then
                if s.Ok? then r == Ok(default) && m == s.value else r == Err(s.error) && m == old(m)
              else r == g && m == old(m)
      ensures r.Ok? ==> Paths.GetItem(m, key) == r
    {
      r := GetItem(key);
      if r.Err? && r.error.KeyError? {
        ghost var before := m;
        var s := SetItem(key, default);
        r := if s.Ok? then Ok(default) else Err(s.error);
        if s.Ok? {
          PathProperties.ReadAfterWrite(before, key, default);
        }
      }
    }

    /** `UberDict.fromkeys(keys, v)`. */
    static method FromKeys(keys: seq<Key>, v: Val) returns (ud: UberDict)
      ensures fresh(ud)
      ensures ud.m == Conversions.FromKeysMap(keys, v)
    {
      var pairs := seq(|keys|, i requires 0 <= i < |keys| => (keys[i], v));
      ud := new UberDict(pairs, map[]);
      assert ud.m == Conversions.FromPairs(pairs);
    }

    /** `self.copy()`: a new UberDict with the same entries. */
    method Copy() returns (c: UberDict)
      ensures fresh(c)
      ensures c.m == m
    {
      c := new UberDict.FromMapping(m, map[]);
    }

    /** `UberDict.fromdict(src)`: a new UberDict filled, in the source's
        iteration order (any order here), through `ud[k] = v`, with each plain
        dict value converted first. Simple keys become the result's keys; a
        dotted key goes through the path setter, so it never stays flat and
        fails when its first token names no entry of `src`. */
    static method FromDict(src: map<Key, Val>) returns (r: Result<UberDict>)
      decreases PD(src)
      ensures r.Ok? ==> fresh(r.value)
      ensures r.Ok? ==> r.value.m.Keys == Conversions.SimpleKeys(src.Keys)
      ensures (exists k :: k in src && IsPathKey(k) && Paths.Root(k) !in src) ==> r.Err?
      ensures Conversions.DotFree(PD(src)) ==> r.Ok? && r.value.m == Conversions.FromDictMap(src)
    {
      var ud := new UberDict.FromMapping(map[], map[]);
      var todo := src.Keys;
      ghost var done: set<Key> := {};
      while todo != {}
        invariant todo !! done && todo + done == src.Keys
        invariant fresh(ud)
        invariant ud.m.Keys == Conversions.SimpleKeys(done)
        invariant forall k :: k in done && IsPathKey(k) ==> Paths.Root(k) in src
        invariant Conversions.DotFree(PD(src)) ==> ud.m == Conversions.Converted(src, done)
        decreases todo
      {
        var k :| k in todo;
        var v := src[k];
        Conversions.DotFreeEntry(src, k);
        if v.PD? {
          var c := FromDict(v.m);
          if c.Err? {
            return Err(c.error);
          }
          v := UD(c.value.m);
        }
        assert Conversions.DotFree(PD(src)) ==> v == Conversions.Promote(src[k]);
        ghost var before := ud.m;
        var s := ud.SetItem(k, v);
        if s.Err? {
          return Err(s.error);
        }
        FromDictStep(src, done, k, v, before, ud.m);
        todo, done := todo - {k}, done + {k};
      }
      Conversions.ConvertedAll(src);
      return Ok(ud);
    }

    /** `self.todict()`. */
    method ToDict() returns (d: map<Key, Val>)
      ensures d == Conversions.ToDictMap(m)
    {
      d := PlainOf(m);
    }

    /** The plain dict `todict` builds from an UberDict holding `src`: every
        entry copied, each UberDict value converted in turn. */
    static method PlainOf(src: map<Key, Val>) returns (d: map<Key, Val>)
      decreases UD(src)
      ensures d == Conversions.ToDictMap(src)
    {
      d := map[];
      var todo := src.Keys;
      while todo != {}
        invariant todo <= src.Keys
        invariant d == map k | k in src.Keys - todo :: Conversions.Demote(src[k])
        decreases todo
      {
        var k :| k in todo;
        var v := src[k];
        if v.UD? {
          var inner := PlainOf(v.m);
          v := PD(inner);
        }
        d := d[k := v];
        todo := todo - {k};
      }
    }
  }

  /** One insertion of `fromdict`'s loop keeps its invariants: the keys so
      far are the simple source keys inserted, every dotted key inserted had
      its first token among the source keys, and on dot-free input each
      entry is the converted source value. */
  lemma FromDictStep(src: map<Key, Val>, done: set<Key>, k: Key, v: Val,
                     before: map<Key, Val>, after: map<Key, Val>)
    requires k in src && k !in done && done <= src.Keys
    requires before.Keys == Conversions.SimpleKeys(done)
    requires forall j :: j in done && IsPathKey(j) ==> Paths.Root(j) in src
    requires Conversions.DotFree(PD(src)) ==>
               v == Conversions.Promote(src[k]) && before == Conversions.Converted(src, done)
    requires Paths.SetItem(before, k, v) == Ok(after)
    ensures after.Keys == Conversions.SimpleKeys(done + {k})
    ensures forall j :: j in done + {k} && IsPathKey(j) ==> Paths.Root(j) in src
    ensures Conversions.DotFree(PD(src)) ==> after == Conversions.Converted(src, done + {k})
  {
    Conversions.SimpleKeysAdd(done, k);
    if Conversions.DotFree(PD(src)) {
      Conversions.DotFreeEntry(src, k);
      assert after == before[k := v];
    }
  }
}
