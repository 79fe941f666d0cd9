/** What item access does to an UberDict's storage: the literal-first read,
    the token walk of a path key, and the path write and delete that update a
    nested UberDict. Every function here takes the raw storage `m` of the
    UberDict the operation is applied to. */
module Paths {
  import opened Keys
  import opened Values

  /** The tokens before the last one. */
  function NonTerminals(ts: seq<string>): seq<string>
    requires |ts| >= 1
  {
    ts[..|ts| - 1]
  }

  /** The last token. */
  function Terminal(ts: seq<string>): string
    requires |ts| >= 1
  {
    ts[|ts| - 1]
  }

  /** The top-level entry an item operation on `key` reads or rewrites. */
  function Root(key: Key): Key
  {
    if IsPathKey(key) then Str(Head(key.s)) else key
  }

  /** The token walk of a read that missed the literal key: each token is
      looked up in the current value; a non-dict fails with `KeyError(token)`,
      a plain dict with a type error (the raw UberDict lookup cannot be
      applied to it), a missing token with `KeyError(token)`. */
  function Walk(obj: Val, ts: seq<string>): (r: Result<Val>)
    ensures r.Err? ==> r.error == TypeError ||
                       (r.error.KeyError? && exists i :: 0 <= i < |ts| && r.error.key == Str(ts[i]))
  {
    if ts == [] then Ok(obj)
    else match obj
      case UD(m) =>
        if Str(ts[0]) in m then
          var r := Walk(m[Str(ts[0])], ts[1..]);
          assert r.Err? && r.error.KeyError? ==> exists i :: 1 <= i < |ts| && r.error.key == Str(ts[i]);
          r
        else Err(KeyError(Str(ts[0])))
      case PD(_) => Err(TypeError)
      case _ => Err(KeyError(Str(ts[0])))
  }

  /** `ud[key]`: the stored entry when `key` is literally present, even when it
      contains '.'; otherwise `KeyError(key)` for a simple key and the token
      walk from the UberDict itself for a path key. */
  function GetItem(m: map<Key, Val>, key: Key): (r: Result<Val>)
    ensures key in m ==> r == Ok(m[key])
    ensures r.Err? ==> key !in m && (r.error == TypeError || r.error.KeyError?)
    ensures r.Err? && r.error.KeyError? && key.Str? ==> r.error.key.Str?
  {
    if key in m then Ok(m[key])
    else if !IsPathKey(key) then Err(KeyError(key))
    else Walk(UD(m), Split(key.s))
  }

  /** The path write below `obj`: every non-terminal is looked up with the
      container's own item access (a dict of either kind; any other value is
      not subscriptable by a string), nothing missing is created, and the
      terminal is stored raw into the container reached, which must be an
      UberDict. */
  function SetIn(obj: Val, nts: seq<string>, t: string, v: Val): (r: Result<Val>)
    ensures r.Ok? ==> IsDict(obj) && r.value.UD? == obj.UD? && r.value.PD? == obj.PD?
    ensures r.Ok? && nts == [] ==> obj.UD?
    ensures r.Ok? && nts == [] ==> r.value.m.Keys == obj.m.Keys + {Str(t)} && r.value.m[Str(t)] == v
    ensures r.Ok? && nts != [] ==> Str(nts[0]) in obj.m && r.value.m.Keys == obj.m.Keys
    ensures r.Ok? ==> forall k :: k in obj.m && k != Str((nts + [t])[0]) ==> r.value.m[k] == obj.m[k]
    ensures r.Err? ==> r.error == TypeError ||
                       (r.error.KeyError? && exists i :: 0 <= i < |nts| && r.error.key == Str(nts[i]))
  {
    if nts == [] then
      if obj.UD? then Ok(UD(obj.m[Str(t) := v])) else Err(TypeError)
    else if !IsDict(obj) then Err(TypeError)
    else
      var k := Str(nts[0]);
      if k !in obj.m then Err(KeyError(k))
      else match SetIn(obj.m[k], nts[1..], t, v)
        case Ok(c) => Ok(WithMap(obj, obj.m[k := c]))
        case Err(e) =>
          assert e.KeyError? ==> exists i :: 1 <= i < |nts| && e.key == Str(nts[i]);
          Err(e)
  }

  /** The lookups `obj = obj[token]` of a path write's non-terminals: a dict
      of either kind answers with its entry (a token has no '.', so an
      UberDict answers raw) or `KeyError(token)`; any other value is not
      subscriptable by a string. */
  function Lookups(obj: Val, ts: seq<string>): (r: Result<Val>)
    ensures r.Err? ==> r.error == TypeError ||
                       (r.error.KeyError? && exists i :: 0 <= i < |ts| && r.error.key == Str(ts[i]))
  {
    if ts == [] then Ok(obj)
    else if !IsDict(obj) then Err(TypeError)
    else if Str(ts[0]) !in obj.m then Err(KeyError(Str(ts[0])))
    else
      var r := Lookups(obj.m[Str(ts[0])], ts[1..]);
      assert r.Err? && r.error.KeyError? ==> exists i :: 1 <= i < |ts| && r.error.key == Str(ts[i]);
      r
  }

  /** `ud[key] = v`: the new storage. A simple key is stored raw; a path key
      is written below the UberDict itself. */
  function SetItem(m: map<Key, Val>, key: Key, v: Val): (r: Result<map<Key, Val>>)
    ensures r.Ok? ==> r.value.Keys == m.Keys + (if IsPathKey(key) then {} else {key})
    ensures r.Ok? ==> forall k :: k in m && k != Root(key) ==> r.value[k] == m[k]
    ensures IsPathKey(key) && Root(key) !in m ==> r == Err(KeyError(Root(key)))
    ensures !IsPathKey(key) ==> r.Ok? && r.value[key] == v
  {
    if !IsPathKey(key) then Ok(m[key := v])
    else
      var ts := Split(key.s);
      match SetIn(UD(m), NonTerminals(ts), Terminal(ts), v)
      case Ok(d) =>
        assert NonTerminals(ts) + [Terminal(ts)] == ts;
        Ok(d.m)
      case Err(e) => Err(e)
  }

  /** The message of the AttributeError raised by calling `.get` on a value
      that has no such method. */
  function NoGet(v: Val): string
    requires !IsDict(v)
  {
    "'" + TypeName(v) + "' object has no attribute 'get'"
  }

  /** The fetches `obj.get(token)` of a path delete's non-terminals: a dict
      of either kind answers with its entry or `None`, and a `None` answer,
      missing or stored, fails with `KeyError(token)`; any other value has no
      `.get`. */
  function Fetches(obj: Val, ts: seq<string>): (r: Result<Val>)
    ensures r.Ok? && ts != [] ==> r.value != NoneVal
    ensures r.Err? ==> r.error.AttributeError? ||
                       (r.error.KeyError? && exists i :: 0 <= i < |ts| && r.error.key == Str(ts[i]))
  {
    if ts == [] then Ok(obj)
    else if !IsDict(obj) then Err(AttributeError(NoGet(obj)))
    else if Str(ts[0]) !in obj.m || obj.m[Str(ts[0])] == NoneVal then Err(KeyError(Str(ts[0])))
    else
      var r := Fetches(obj.m[Str(ts[0])], ts[1..]);
      assert r.Err? && r.error.KeyError? ==> exists i :: 1 <= i < |ts| && r.error.key == Str(ts[i]);
      r
  }

  /** The path delete below `obj`: every non-terminal is fetched with `.get`,
      so a missing entry and a stored `None` both fail with `KeyError(token)`
      and a leaf with no `.get` fails with an AttributeError; the terminal is
      deleted raw from the container reached, which must be an UberDict. */
  function DelIn(obj: Val, nts: seq<string>, t: string): (r: Result<Val>)
    ensures r.Ok? ==> IsDict(obj) && r.value.UD? == obj.UD? && r.value.PD? == obj.PD?
    ensures r.Ok? && nts == [] ==> Str(t) in obj.m && r.value.m.Keys == obj.m.Keys - {Str(t)}
    ensures r.Ok? && nts != [] ==> Str(nts[0]) in obj.m && r.value.m.Keys == obj.m.Keys
    ensures r.Ok? ==> forall k :: k in r.value.m && k != Str((nts + [t])[0]) ==> r.value.m[k] == obj.m[k]
    ensures r.Err? && r.error.KeyError? ==> exists i :: 0 <= i < |nts + [t]| && r.error.key == Str((nts + [t])[i])
  {
    if nts == [] then
      if !obj.UD? then Err(TypeError)
      else if Str(t) in obj.m then Ok(UD(obj.m - {Str(t)}))
      else
        assert Str(t) == Str((nts + [t])[0]);
        Err(KeyError(Str(t)))
    else if !IsDict(obj) then Err(AttributeError(NoGet(obj)))
    else
      var k := Str(nts[0]);
      if k !in obj.m || obj.m[k] == NoneVal then
        assert k == Str((nts + [t])[0]);
        Err(KeyError(k))
      else match DelIn(obj.m[k], nts[1..], t)
        case Ok(c) => Ok(WithMap(obj, obj.m[k := c]))
        case Err(e) =>
          assert nts[1..] + [t] == (nts + [t])[1..];
          Err(e)
  }

  /** `del ud[key]` with a simple-key test that first asks whether the key is
      a `str`, as the read and write paths do: a simple key is deleted raw,
      a path key below the UberDict itself. */
  function DelItem(m: map<Key, Val>, key: Key): (r: Result<map<Key, Val>>)
    ensures r.Ok? ==> Root(key) in m
    ensures r.Ok? ==> r.value.Keys == m.Keys - (if IsPathKey(key) then {} else {key})
    ensures r.Ok? ==> forall k :: k in r.value && k != Root(key) ==> r.value[k] == m[k]
    ensures Root(key) !in m ==> r == Err(KeyError(Root(key)))
    ensures r.Err? && r.error.KeyError? && key.Str? ==> r.error.key.Str?
  {
    if !IsPathKey(key) then
      if key in m then Ok(m - {key}) else Err(KeyError(key))
    else
      var ts := Split(key.s);
      match DelIn(UD(m), NonTerminals(ts), Terminal(ts))
      case Ok(d) =>
        assert NonTerminals(ts) + [Terminal(ts)] == ts;
        Ok(d.m)
      case Err(e) => Err(e)
  }

  /** `del ud[key]` as written: the simple-key test is `'.' not in key` on any
      key, and `in` on an `int` or `None` raises a type error. */
  function DelItemAsWritten(m: map<Key, Val>, key: Key): (r: Result<map<Key, Val>>)
    ensures !key.Str? ==> r == Err(TypeError)
    ensures key.Str? ==> r == DelItem(m, key)
  {
    if !key.Str? then Err(TypeError) else DelItem(m, key)
  }
}
