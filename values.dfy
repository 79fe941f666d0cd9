/** The values an UberDict stores, and the exceptions its operations raise. */
module Values {
  import opened Keys

  /** A stored value. Leaves stand for every non-dict Python value the code
      can meet (their only relevant traits are that they are not dicts and
      that `int` and `str` have no `.get`); `UD` is an UberDict and `PD` a
      plain `dict`, each given by its raw key/value storage. */
  datatype Val =
    | NoneVal
    | IntVal(n: int)
    | StrVal(t: string)
    | UD(m: map<Key, Val>)
    | PD(m: map<Key, Val>)

  /** `isinstance(v, dict)`: true of UberDicts and plain dicts alike. */
  predicate IsDict(v: Val)
  {
    v.UD? || v.PD?
  }

  /** The same kind of dict as `d`, holding `m`. */
  function WithMap(d: Val, m: map<Key, Val>): (r: Val)
    requires IsDict(d)
    ensures r.UD? == d.UD? && r.PD? == d.PD? && r.m == m
  {
    if d.UD? then UD(m) else PD(m)
  }

  /** Python's name for the type of a leaf, as it appears in error messages.
      Only leaves are ever named: the message in question is that of a
      missing `.get`, which every dict has. */
  function TypeName(v: Val): string
    requires !IsDict(v)
  {
    match v
    case NoneVal => "NoneType"
    case IntVal(_) => "int"
    case StrVal(_) => "str"
  }

  /** The three exceptions the operations raise. `KeyError` carries the key
      or token that failed, `AttributeError` its message. */
  datatype Error =
    | KeyError(key: Key)
    | TypeError
    | AttributeError(message: string)

  /** An operation either returns a value or raises. */
  datatype Result<T> = Ok(value: T) | Err(error: Error)

  /** The message of the AttributeError that replaces `KeyError(name)`. The
      attribute hooks only ever see a `KeyError` on a `str` key or token, so
      the name is the text itself. */
  function NoAttribute(name: string): string
  {
    "no attribute '" + name + "'"
  }
}
