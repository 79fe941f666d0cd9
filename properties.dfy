/** What item access promises across operations: how a path read decomposes,
    where it fails, what a path write or delete is then seen to have done,
    and how literal dotted keys interact with path keys. */
module PathProperties {
  import opened Keys
  import opened Values
  import opened Paths

  /** Walking a path in two pieces is walking the first piece and then the
      second from where it ended; a failure in the first piece ends the walk. */
  lemma {:induction false} WalkAppend(obj: Val, a: seq<string>, b: seq<string>)
    ensures Walk(obj, a + b) == match Walk(obj, a)
                                case Ok(x) => Walk(x, b)
                                case Err(e) => Err(e)
  {
    if a != [] {
      assert (a + b)[0] == a[0] && (a + b)[1..] == a[1..] + b;
      if obj.UD? && Str(a[0]) in obj.m {
        WalkAppend(obj.m[Str(a[0])], a[1..], b);
      }
    } else {
      assert a + b == b;
    }
  }

  /** Why the walk cannot step from `c` over token `t`, given the error raised. */
  predicate FailsAt(c: Val, t: string, e: Error)
  {
    if c.PD? then e == TypeError else e == KeyError(Str(t)) && !(c.UD? && Str(t) in c.m)
  }

  /** A failed walk fails at the first token it cannot step over: every
      earlier token resolved, and the error names that token (or is the type
      error of a plain dict reached there). */
  lemma {:induction false} WalkFailure(obj: Val, ts: seq<string>)
    requires Walk(obj, ts).Err?
    ensures exists i :: 0 <= i < |ts| && Walk(obj, ts[..i]).Ok? &&
                        FailsAt(Walk(obj, ts[..i]).value, ts[i], Walk(obj, ts).error)
  {
    assert ts[..0] == [];
    if obj.UD? && Str(ts[0]) in obj.m {
      var child := obj.m[Str(ts[0])];
      WalkFailure(child, ts[1..]);
      var j :| 0 <= j < |ts[1..]| && Walk(child, ts[1..][..j]).Ok? &&
               FailsAt(Walk(child, ts[1..][..j]).value, ts[1..][j], Walk(child, ts[1..]).error);
      assert ts[..j + 1][0] == ts[0] && ts[..j + 1][1..] == ts[1..][..j];
      assert Walk(obj, ts[..j + 1]) == Walk(child, ts[1..][..j]);
    }
  }

  /** Reading "a.b" (no literal entry of that name) is reading "a" and then
      reading "b" from the UberDict found there; a plain dict found there is a
      type error and any other value a `KeyError` on "b". */
  lemma PathIsStepwise(m: map<Key, Val>, a: string, b: string)
    requires '.' !in a && '.' !in b
    requires Str(a + "." + b) !in m
    ensures GetItem(m, Str(a + "." + b)) ==
            match GetItem(m, Str(a))
            case Ok(UD(m2)) => GetItem(m2, Str(b))
            case Ok(PD(_)) => Err(TypeError)
            case Ok(_) => Err(KeyError(Str(b)))
            case Err(e) => Err(e)
  {
    var s := a + "." + b;
    assert '.' in s by { assert s[|a|] == '.'; }
    SplitDotted(a, b);
    SplitDotFree(b);
    assert Split(s) == [a, b];
    assert [a, b][1..] == [b] && [b][1..] == [];
    assert GetItem(m, Str(s)) == Walk(UD(m), [a, b]);
    if Str(a) in m {
      assert Walk(UD(m), [a, b]) == Walk(m[Str(a)], [b]);
    }
  }

  /** Why the lookup `c[t]` of a path write fails, given the error raised. */
  predicate LookupFailsAt(c: Val, t: string, e: Error)
  {
    if IsDict(c) then e == KeyError(Str(t)) && Str(t) !in c.m else e == TypeError
  }

  /** The non-terminal lookups of a path write fail at the first token they
      cannot step over: `KeyError` on the first missing one, or the type
      error of the first non-dict value met. */
  lemma {:induction false} LookupsFailure(obj: Val, ts: seq<string>)
    requires Lookups(obj, ts).Err?
    ensures exists i :: 0 <= i < |ts| && Lookups(obj, ts[..i]).Ok? &&
                        LookupFailsAt(Lookups(obj, ts[..i]).value, ts[i], Lookups(obj, ts).error)
  {
    assert ts[..0] == [];
    if IsDict(obj) && Str(ts[0]) in obj.m {
      var child := obj.m[Str(ts[0])];
      LookupsFailure(child, ts[1..]);
      var j :| 0 <= j < |ts[1..]| && Lookups(child, ts[1..][..j]).Ok? &&
               LookupFailsAt(Lookups(child, ts[1..][..j]).value, ts[1..][j], Lookups(child, ts[1..]).error);
      assert ts[..j + 1][0] == ts[0] && ts[..j + 1][1..] == ts[1..][..j];
      assert Lookups(obj, ts[..j + 1]) == Lookups(child, ts[1..][..j]);
    }
  }

  /** A path write succeeds exactly when its non-terminal lookups reach an
      UberDict; otherwise it raises the lookups' error, or a type error when
      the container reached is not an UberDict. */
  lemma {:induction false} SetInOutcome(obj: Val, nts: seq<string>, t: string, v: Val)
    ensures SetIn(obj, nts, t, v).Ok? <==> Lookups(obj, nts).Ok? && Lookups(obj, nts).value.UD?
    ensures SetIn(obj, nts, t, v).Err? ==>
            SetIn(obj, nts, t, v).error == match Lookups(obj, nts)
                                           case Err(e) => e
                                           case Ok(_) => TypeError
  {
    if nts != [] && IsDict(obj) && Str(nts[0]) in obj.m {
      SetInOutcome(obj.m[Str(nts[0])], nts[1..], t, v);
    }
  }

  /** `ud[key] = v` for a path key fails exactly as its lookups from the
      UberDict itself do, or with a type error at a terminal container that
      is not an UberDict; it never fails otherwise. */
  lemma SetItemOutcome(m: map<Key, Val>, key: Key, v: Val)
    requires IsPathKey(key)
    ensures var f := Lookups(UD(m), NonTerminals(Split(key.s)));
            SetItem(m, key, v).Err? <==> f.Err? || !f.value.UD?
    ensures var f := Lookups(UD(m), NonTerminals(Split(key.s)));
            f.Err? ==> SetItem(m, key, v) == Err(f.error)
    ensures var f := Lookups(UD(m), NonTerminals(Split(key.s)));
            f.Ok? && !f.value.UD? ==> SetItem(m, key, v) == Err(TypeError)
  {
    var ts := Split(key.s);
    SetInOutcome(UD(m), NonTerminals(ts), Terminal(ts), v);
  }

  /** A path write changes each container along the path only where the path
      continues: at depth `i` the container the lookups reach afterwards has
      the kind and keys it had (plus the terminal at the last level), and
      every entry other than the next token's is unchanged; at the last level
      the terminal holds the value written. */
  lemma {:induction false} SetInFrame(obj: Val, nts: seq<string>, t: string, v: Val, i: nat)
    requires SetIn(obj, nts, t, v).Ok?
    requires i <= |nts|
    ensures Lookups(obj, nts[..i]).Ok? && Lookups(SetIn(obj, nts, t, v).value, nts[..i]).Ok?
    ensures var c := Lookups(obj, nts[..i]).value;
            var c' := Lookups(SetIn(obj, nts, t, v).value, nts[..i]).value;
            && IsDict(c) && c'.UD? == c.UD? && c'.PD? == c.PD?
            && c'.m.Keys == c.m.Keys + (if i == |nts| then {Str(t)} else {})
            && (forall k :: k in c.m && k != Str((nts + [t])[i]) ==> c'.m[k] == c.m[k])
            && (i == |nts| ==> c'.m[Str(t)] == v)
  {
    if i == 0 {
      assert nts[..0] == [];
    } else {
      var k := Str(nts[0]);
      var child := obj.m[k];
      SetInFrame(child, nts[1..], t, v, i - 1);
      assert nts[..i][0] == nts[0] && nts[..i][1..] == nts[1..][..i - 1];
      assert (nts + [t])[i] == (nts[1..] + [t])[i - 1];
      var o' := SetIn(obj, nts, t, v).value;
      assert o'.m[k] == SetIn(child, nts[1..], t, v).value;
      assert Lookups(obj, nts[..i]) == Lookups(child, nts[1..][..i - 1]);
      assert Lookups(o', nts[..i]) == Lookups(SetIn(child, nts[1..], t, v).value, nts[1..][..i - 1]);
    }
  }

  /** `ud["a.b"] = v`, step by step: a missing entry "a" raises `KeyError("a")`,
      an entry that is not an UberDict a type error; otherwise "b" is stored
      in that UberDict and all its other entries are kept. */
  lemma SetStepwise(m: map<Key, Val>, a: string, b: string, v: Val)
    requires '.' !in a && '.' !in b
    ensures SetItem(m, Str(a + "." + b), v) ==
            if Str(a) !in m then Err(KeyError(Str(a)))
            else if !m[Str(a)].UD? then Err(TypeError)
            else Ok(m[Str(a) := UD(m[Str(a)].m[Str(b) := v])])
  {
    var s := a + "." + b;
    assert '.' in s by { assert s[|a|] == '.'; }
    SplitDotted(a, b);
    SplitDotFree(b);
    assert Split(s) == [a, b];
    assert NonTerminals([a, b]) == [a] && Terminal([a, b]) == b && [a][1..] == [];
    assert SetItem(m, Str(s), v) == match SetIn(UD(m), [a], b, v)
                                    case Ok(d) => Ok(d.m)
                                    case Err(e) => Err(e);
    if Str(a) in m {
      assert SetIn(UD(m), [a], b, v) == match SetIn(m[Str(a)], [], b, v)
                                        case Ok(c) => Ok(UD(m[Str(a) := c]))
                                        case Err(e) => Err(e);
    }
  }

  /** Why the fetch `c.get(t)` of a path delete fails, given the error raised:
      a missing entry and a stored `None` alike, or a value with no `.get`. */
  predicate FetchFailsAt(c: Val, t: string, e: Error)
  {
    if IsDict(c) then e == KeyError(Str(t)) && (Str(t) !in c.m || c.m[Str(t)] == NoneVal)
    else e == AttributeError(NoGet(c))
  }

  /** The non-terminal fetches of a path delete fail at the first token they
      cannot step over: `KeyError` on the first one missing or holding
      `None`, or the AttributeError of the first value without `.get`. */
  lemma {:induction false} FetchesFailure(obj: Val, ts: seq<string>)
    requires Fetches(obj, ts).Err?
    ensures exists i :: 0 <= i < |ts| && Fetches(obj, ts[..i]).Ok? &&
                        FetchFailsAt(Fetches(obj, ts[..i]).value, ts[i], Fetches(obj, ts).error)
  {
    assert ts[..0] == [];
    if IsDict(obj) && Str(ts[0]) in obj.m && obj.m[Str(ts[0])] != NoneVal {
      var child := obj.m[Str(ts[0])];
      FetchesFailure(child, ts[1..]);
      var j :| 0 <= j < |ts[1..]| && Fetches(child, ts[1..][..j]).Ok? &&
               FetchFailsAt(Fetches(child, ts[1..][..j]).value, ts[1..][j], Fetches(child, ts[1..]).error);
      assert ts[..j + 1][0] == ts[0] && ts[..j + 1][1..] == ts[1..][..j];
      assert Fetches(obj, ts[..j + 1]) == Fetches(child, ts[1..][..j]);
    }
  }

  /** A path delete succeeds exactly when its fetches reach an UberDict that
      holds the terminal; otherwise it raises the fetches' error, a type error
      at a container that is not an UberDict, or `KeyError(terminal)`. */
  lemma {:induction false} DelInOutcome(obj: Val, nts: seq<string>, t: string)
    ensures DelIn(obj, nts, t).Ok? <==>
            Fetches(obj, nts).Ok? && Fetches(obj, nts).value.UD? && Str(t) in Fetches(obj, nts).value.m
    ensures DelIn(obj, nts, t).Err? ==>
            DelIn(obj, nts, t).error == match Fetches(obj, nts)
                                        case Err(e) => e
                                        case Ok(c) => if c.UD? then KeyError(Str(t)) else TypeError
  {
    if nts != [] && IsDict(obj) && Str(nts[0]) in obj.m && obj.m[Str(nts[0])] != NoneVal {
      DelInOutcome(obj.m[Str(nts[0])], nts[1..], t);
    }
  }

  /** A path delete changes each container along the path only where the
      path continues: at depth `i` the container the fetches reach afterwards
      has the kind and keys it had (less the terminal at the last level,
      which was there), and every entry other than the next token's is
      unchanged. */
  lemma {:induction false} DelInFrame(obj: Val, nts: seq<string>, t: string, i: nat)
    requires DelIn(obj, nts, t).Ok?
    requires i <= |nts|
    ensures Fetches(obj, nts[..i]).Ok? && Fetches(DelIn(obj, nts, t).value, nts[..i]).Ok?
    ensures var c := Fetches(obj, nts[..i]).value;
            var c' := Fetches(DelIn(obj, nts, t).value, nts[..i]).value;
            && IsDict(c) && c'.UD? == c.UD? && c'.PD? == c.PD?
            && (i == |nts| ==> Str(t) in c.m)
            && c'.m.Keys == c.m.Keys - (if i == |nts| then {Str(t)} else {})
            && (forall k :: k in c'.m && k != Str((nts + [t])[i]) ==> c'.m[k] == c.m[k])
  {
    if i == 0 {
      assert nts[..0] == [];
    } else {
      var k := Str(nts[0]);
      var child := obj.m[k];
      DelInFrame(child, nts[1..], t, i - 1);
      assert nts[..i][0] == nts[0] && nts[..i][1..] == nts[1..][..i - 1];
      assert (nts + [t])[i] == (nts[1..] + [t])[i - 1];
      var o' := DelIn(obj, nts, t).value;
      assert o'.m[k] == DelIn(child, nts[1..], t).value;
      assert Fetches(obj, nts[..i]) == Fetches(child, nts[1..][..i - 1]);
      assert Fetches(o', nts[..i]) == Fetches(DelIn(child, nts[1..], t).value, nts[1..][..i - 1]);
    }
  }

  /** `del ud[key]` for a path key fails exactly as its fetches from the
      UberDict itself do, with a type error at a terminal container that is
      not an UberDict, or with `KeyError(terminal)` when that UberDict lacks
      the terminal; it never fails otherwise. */
  lemma DelItemOutcome(m: map<Key, Val>, key: Key)
    requires IsPathKey(key)
    ensures var f := Fetches(UD(m), NonTerminals(Split(key.s)));
            DelItem(m, key).Err? <==> f.Err? || !f.value.UD? || Str(Terminal(Split(key.s))) !in f.value.m
    ensures var f := Fetches(UD(m), NonTerminals(Split(key.s)));
            f.Err? ==> DelItem(m, key) == Err(f.error)
    ensures var f := Fetches(UD(m), NonTerminals(Split(key.s)));
            f.Ok? && !f.value.UD? ==> DelItem(m, key) == Err(TypeError)
    ensures var f := Fetches(UD(m), NonTerminals(Split(key.s)));
            f.Ok? && f.value.UD? && Str(Terminal(Split(key.s))) !in f.value.m ==>
              DelItem(m, key) == Err(KeyError(Str(Terminal(Split(key.s)))))
  {
    var ts := Split(key.s);
    DelInOutcome(UD(m), NonTerminals(ts), Terminal(ts));
  }

  /** `del ud["a.b"]`, step by step: a missing or `None` entry "a" raises
      `KeyError("a")`, an entry that is not an UberDict a type error, an
      UberDict without "b" `KeyError("b")`; otherwise "b" is removed from it. */
  lemma DeleteStepwise(m: map<Key, Val>, a: string, b: string)
    requires '.' !in a && '.' !in b
    ensures DelItem(m, Str(a + "." + b)) ==
            if Str(a) !in m || m[Str(a)] == NoneVal then Err(KeyError(Str(a)))
            else if !m[Str(a)].UD? then Err(TypeError)
            else if Str(b) !in m[Str(a)].m then Err(KeyError(Str(b)))
            else Ok(m[Str(a) := UD(m[Str(a)].m - {Str(b)})])
  {
    var s := a + "." + b;
    assert '.' in s by { assert s[|a|] == '.'; }
    SplitDotted(a, b);
    SplitDotFree(b);
    assert Split(s) == [a, b];
    assert NonTerminals([a, b]) == [a] && Terminal([a, b]) == b && [a][1..] == [];
    assert DelItem(m, Str(s)) == match DelIn(UD(m), [a], b)
                                 case Ok(d) => Ok(d.m)
                                 case Err(e) => Err(e);
    if Str(a) in m && m[Str(a)] != NoneVal {
      assert DelIn(UD(m), [a], b) == match DelIn(m[Str(a)], [], b)
                                     case Ok(c) => Ok(UD(m[Str(a) := c]))
                                     case Err(e) => Err(e);
    }
  }

  /** After a successful path write, walking the written path yields the
      stored value, unless the walk meets a plain dict, which the write may
      pass through but a read may not. */
  lemma {:induction false} WalkAfterSet(obj: Val, nts: seq<string>, t: string, v: Val)
    requires SetIn(obj, nts, t, v).Ok?
    ensures Walk(SetIn(obj, nts, t, v).value, nts + [t]) ==
            if Walk(obj, nts + [t]) == Err(TypeError) then Err(TypeError) else Ok(v)
  {
    var o2 := SetIn(obj, nts, t, v).value;
    if nts == [] {
      assert [t][1..] == [];
    } else {
      var k := Str(nts[0]);
      assert (nts + [t])[0] == nts[0] && (nts + [t])[1..] == nts[1..] + [t];
      if obj.UD? {
        WalkAfterSet(obj.m[k], nts[1..], t, v);
      }
    }
  }

  /** Read after write: once `ud[key] = v` succeeded, `ud[key]` returns `v`,
      except where the read must fail with a type error because the path runs
      through a plain dict. A path key must not also be a literal entry, which
      a read would find first. */
  lemma ReadAfterWrite(m: map<Key, Val>, key: Key, v: Val)
    requires SetItem(m, key, v).Ok?
    requires !IsPathKey(key) || key !in m
    ensures GetItem(SetItem(m, key, v).value, key) ==
            if GetItem(m, key) == Err(TypeError) then Err(TypeError) else Ok(v)
  {
    if IsPathKey(key) {
      var ts := Split(key.s);
      assert NonTerminals(ts) + [Terminal(ts)] == ts;
      WalkAfterSet(UD(m), NonTerminals(ts), Terminal(ts), v);
    }
  }

  /** A literal entry whose key contains '.' shadows the path of the same
      name: a path write succeeds without touching it, and reads keep
      returning the literal entry. */
  lemma LiteralShadowsPathWrite(m: map<Key, Val>, key: Key, v: Val)
    requires IsPathKey(key) && key in m
    requires SetItem(m, key, v).Ok?
    ensures key in SetItem(m, key, v).value
    ensures GetItem(SetItem(m, key, v).value, key) == Ok(m[key])
  {
  }

  /** After a successful path delete the walk to the deleted entry fails with
      `KeyError(terminal)` where it had found it, and keeps failing with a
      type error where it met a plain dict. */
  lemma {:induction false} WalkAfterDel(obj: Val, nts: seq<string>, t: string)
    requires DelIn(obj, nts, t).Ok?
    ensures Walk(obj, nts + [t]).Ok? || Walk(obj, nts + [t]) == Err(TypeError)
    ensures Walk(DelIn(obj, nts, t).value, nts + [t]) ==
            if Walk(obj, nts + [t]) == Err(TypeError) then Err(TypeError) else Err(KeyError(Str(t)))
  {
    if nts == [] {
      assert [t][1..] == [];
    } else {
      var k := Str(nts[0]);
      assert (nts + [t])[0] == nts[0] && (nts + [t])[1..] == nts[1..] + [t];
      if obj.UD? {
        WalkAfterDel(obj.m[k], nts[1..], t);
      }
    }
  }

  /** Read after delete: once `del ud[key]` succeeded, `ud[key]` fails with
      `KeyError` on the deleted key or terminal token (or with the type error
      the read already met). */
  lemma ReadAfterDelete(m: map<Key, Val>, key: Key)
    requires DelItem(m, key).Ok?
    requires !IsPathKey(key) || key !in m
    ensures GetItem(m, key).Ok? || GetItem(m, key) == Err(TypeError)
    ensures GetItem(DelItem(m, key).value, key) ==
            if GetItem(m, key) == Err(TypeError) then Err(TypeError)
            else if IsPathKey(key) then Err(KeyError(Str(Terminal(Split(key.s)))))
            else Err(KeyError(key))
  {
    if IsPathKey(key) {
      var ts := Split(key.s);
      assert NonTerminals(ts) + [Terminal(ts)] == ts;
      WalkAfterDel(UD(m), NonTerminals(ts), Terminal(ts));
    }
  }

  /** A simple key is plain dict storage: writing stores it, reading gives it
      back, deleting removes exactly it, and a missing one fails with
      `KeyError` on the whole key. */
  lemma SimpleKeyRoundTrip(m: map<Key, Val>, k: Key, v: Val)
    requires !IsPathKey(k)
    ensures SetItem(m, k, v) == Ok(m[k := v])
    ensures GetItem(m[k := v], k) == Ok(v)
    ensures DelItem(m[k := v], k) == Ok(m - {k})
    ensures GetItem(m - {k}, k) == Err(KeyError(k))
  {
    assert m[k := v] - {k} == m - {k};
  }

  /** The delete as written refuses every non-`str` key with a type error,
      even one that is stored and that reads and writes accept; the corrected
      delete removes it. */
  lemma NonStrKeyDelete(m: map<Key, Val>, k: Key, v: Val)
    requires !k.Str?
    ensures GetItem(m[k := v], k) == Ok(v)
    ensures DelItemAsWritten(m[k := v], k) == Err(TypeError)
    ensures DelItem(m[k := v], k) == Ok(m - {k})
  {
    assert m[k := v] - {k} == m - {k};
  }

  /** An entry stored flat under a dotted name (as attribute assignment and the
      plain constructor do) is read back by item access, because the literal
      lookup comes first, but item deletion walks the path instead and, when
      the first token names no entry, fails with `KeyError` on that token. */
  lemma FlatDottedEntry(m: map<Key, Val>, name: string, v: Val)
    requires '.' in name
    requires Str(Head(name)) !in m
    ensures GetItem(m[Str(name) := v], Str(name)) == Ok(v)
    ensures DelItem(m[Str(name) := v], Str(name)) == Err(KeyError(Str(Head(name))))
  {
  }
}
