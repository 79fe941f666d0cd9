# UberDict in Dafny

A model of `UberDict` from `uberdict/__init__.py`. `UberDict` is a Python `dict` subclass with two additions:

- **Path keys.** A `str` key that contains `.` is split into tokens. Item access (`ud["a.b.c"]`) then resolves those tokens through nested dicts.
- **Attribute access.** `ud.name` reads, writes and deletes the same storage as item access.

The model has six modules:

- `Keys` (`keys.dfy`). The key kinds the code distinguishes: `str`, `int` and `None`. Also the path-key test, and Python's `str.split('.')` with its inverse `'.'.join`.
- `Values` (`values.dfy`). The stored values form a tree. A value is a leaf (`None`, an `int`, a `str`), an UberDict (`UD`) or a plain `dict` (`PD`). This module also holds the three exceptions the code raises (`KeyError(key)`, `TypeError`, `AttributeError(message)`) and a `Result` type carrying either a value or one of them.
- `Paths` (`paths.dfy`). What `__getitem__`, `__setitem__` and `__delitem__` do to an UberDict's raw storage, written as pure functions. A path write or delete rebuilds the tree along the path. This stands for the in-place update of the nested UberDict that the code performs.
- `PathProperties` (`properties.dfy`). Lemmas that relate these operations to each other: read after write, read after delete, how a path read decomposes and where it fails, and how literal dotted keys interact with path keys.
- `Conversions` (`conversions.dfy`). Plain construction, `fromkeys`, and the value conversions of `fromdict` and `todict`. It also defines Python's structural `==` on dicts and proves the round trip between the two conversions.
- `UberDicts` (`uberdict.dfy`). The class `UberDict`, with a field `m` holding the raw storage. The read path (`GetItem`) is a loop over the tokens, as in the source. `fromdict` and `todict` are loops over the source's keys with recursion into nested dicts. Every method is proved against the `Paths` and `Conversions` functions.

How the code behaves where its docstrings, comments or tests suggest otherwise (the model follows the code):

- A read tries the literal key first (line 19). An entry stored under a dotted name is therefore read back by item access too, and it shadows the path of the same name.
- `__getattr__` and `__delattr__` call `__getitem__` and `__delitem__` (lines 64 and 73), so dotted attribute names are still resolved as paths. Only `__setattr__` stores raw (line 69).
- A path read that reaches a non-dict value raises `KeyError(token)` (lines 26-27), not a type error. Reaching a plain dict raises a type error, because `super(UberDict, obj)` rejects it (line 28).
- A path delete walks with `.get` (line 54). A stored `None` counts as missing. A terminal container that is a plain dict is a type error (line 60).
- `fromdict` inserts with `ud[k] = v` (line 103), so a dotted source key goes through the path setter and never stays flat.
- `pop` is not overridden, so it is the raw `dict.pop`.

## Model

| member | source | states |
|---|---|---|
| `Keys.IsPathKey` | uberdict/__init__.py:21 | a key is resolved as a path exactly when it is a `str` containing `.` (the same test as lines 32 and, for `str` keys, 47); every other key is used verbatim |
| `Keys.Split` | uberdict/__init__.py:23 | splitting on `.` gives at least one token, exactly one iff the text has no `.`, and no token contains `.` |
| `Keys.JoinSplit` | uberdict/__init__.py:23 | joining the tokens of a split with `.` gives back the key text |
| `Keys.SplitJoin` | uberdict/__init__.py:23 | splitting a `.`-join of dot-free tokens gives back those tokens |
| `Keys.SplitDotted` | uberdict/__init__.py:23 | splitting `a + "." + b` with dot-free `a` gives `a` followed by the tokens of `b` |
| `Paths.Walk` | uberdict/__init__.py:23-29 | a failed token walk raises either a type error or `KeyError` on one of the path's tokens |
| `Paths.GetItem` | uberdict/__init__.py:17-29 | a key stored literally, dotted or not, reads back its own entry; a failing read means the key is not literally stored and raises only `KeyError` or a type error; the `KeyError` of a `str` key names a `str` |
| `Paths.SetIn` | uberdict/__init__.py:35-44 | a successful path write keeps each container's kind and key set (adding only the terminal key at the last level) and leaves every top-level entry off the path unchanged (at every depth: `PathProperties.SetInFrame`); the terminal container must be an UberDict and the first non-terminal must already exist; failures are type errors or `KeyError` on a non-terminal token (which one: `PathProperties.SetInOutcome`) |
| `Paths.SetItem` | uberdict/__init__.py:31-44 | a simple key is always stored; a path key never adds a top-level key and fails with `KeyError(first token)` when that token is missing (no intermediate is created); every top-level entry other than the one the key starts from is unchanged, and below it `PathProperties.SetInFrame` frames each container on the path (the failures in full: `PathProperties.SetItemOutcome`) |
| `Paths.DelIn` | uberdict/__init__.py:50-60 | a successful path delete keeps the top container's kind, removes the terminal key when that container is the one reached, and leaves every other top-level entry unchanged (at every depth: `PathProperties.DelInFrame`); a `KeyError` names a token of the path (which one: `PathProperties.DelInOutcome`) |
| `Paths.DelItem` | uberdict/__init__.py:46-60 | a successful delete removes exactly the simple key (or leaves the top-level keys of a path delete unchanged) and touches no other top-level entry (below it: `PathProperties.DelInFrame`); a missing first token or simple key fails with `KeyError` on it, and a `KeyError` for a `str` key names a `str` (the failures in full: `PathProperties.DelItemOutcome`) |
| `Paths.DelItemAsWritten` | uberdict/__init__.py:46-48 | as the source is written, deleting any non-`str` key is a type error; `str` keys behave as in `Paths.DelItem` |
| `PathProperties.WalkAppend` | uberdict/__init__.py:25-28 | walking `a + b` is walking `a` and then `b` from the value reached; a failure in `a` is the result |
| `PathProperties.WalkFailure` | uberdict/__init__.py:25-28 | a failed walk fails at the first token it cannot step over: every earlier prefix resolved, a plain dict there gives a type error, otherwise `KeyError(that token)` |
| `PathProperties.PathIsStepwise` | uberdict/__init__.py:18-29 | with no literal entry `"a.b"`, `ud["a.b"]` is `ud["a"]` followed by `["b"]` on the UberDict found; a plain dict there is a type error, any other value `KeyError("b")` |
| `PathProperties.LookupsFailure` | uberdict/__init__.py:38-43 | the non-terminal lookups of a path write fail at the first token they cannot step over: every earlier prefix resolved, `KeyError(token)` when a dict there lacks it, a type error when the value there is not a dict |
| `Paths.Lookups` | uberdict/__init__.py:38-43 | the `obj = obj[token]` walk of a path write fails only with a type error or `KeyError` on one of its tokens (which one: `PathProperties.LookupsFailure`) |
| `Paths.Fetches` | uberdict/__init__.py:53-59 | the `.get` walk of a path delete never ends on a `None` after a step, and fails only with the AttributeError of `.get` or `KeyError` on one of its tokens (which one: `PathProperties.FetchesFailure`) |
| `PathProperties.SetInFrame` | uberdict/__init__.py:37-44 | after a successful path write, each container along the path keeps its kind, its keys (gaining only the terminal at the last level) and every entry but the next token's; the terminal holds the value |
| `PathProperties.SetStepwise` | uberdict/__init__.py:34-44 | `ud["a.b"] = v` raises `KeyError("a")` for a missing entry "a", a type error for a non-UberDict there, and otherwise stores "b" in that UberDict, keeping its other entries |
| `PathProperties.DelInFrame` | uberdict/__init__.py:52-60 | after a successful path delete, each container along the path keeps its kind, its keys (losing only the terminal, which was there, at the last level) and every entry but the next token's |
| `PathProperties.SetInOutcome` | uberdict/__init__.py:37-44 | a path write succeeds iff its lookups reach an UberDict; otherwise it raises the lookups' error, or a type error at a terminal container that is not an UberDict |
| `PathProperties.SetItemOutcome` | uberdict/__init__.py:34-44 | `ud[key] = v` for a path key fails iff the lookups from `ud` fail or reach a non-UberDict, with exactly the lookups' error or the type error |
| `PathProperties.FetchesFailure` | uberdict/__init__.py:53-59 | the non-terminal fetches of a path delete fail at the first token they cannot step over: `KeyError(token)` when a dict there lacks it or holds `None` for it, the AttributeError of `.get` when the value there is not a dict |
| `PathProperties.DelInOutcome` | uberdict/__init__.py:52-60 | a path delete succeeds iff its fetches reach an UberDict holding the terminal; otherwise it raises the fetches' error, a type error at a container that is not an UberDict, or `KeyError(terminal)` |
| `PathProperties.DelItemOutcome` | uberdict/__init__.py:49-60 | `del ud[key]` for a path key fails iff the fetches from `ud` fail, reach a non-UberDict or reach one without the terminal, with exactly that error |
| `PathProperties.DeleteStepwise` | uberdict/__init__.py:49-60 | `del ud["a.b"]` raises `KeyError("a")` for a missing or `None` entry "a", a type error for a non-UberDict there, `KeyError("b")` when that UberDict lacks "b", and otherwise removes exactly "b" from it |
| `PathProperties.WalkAfterSet` | uberdict/__init__.py:35-44 | after a successful path write, walking the written path yields the stored value unless the walk meets a plain dict |
| `PathProperties.ReadAfterWrite` | uberdict/__init__.py:17-44 | when `key` is not also stored literally: after `ud[key] = v` succeeds, `ud[key]` returns `v` unless the read already failed with a type error (a path through a plain dict) |
| `PathProperties.LiteralShadowsPathWrite` | uberdict/__init__.py:17-44 | a path write whose dotted key is also stored literally leaves that literal entry in place, and reads keep returning it |
| `PathProperties.WalkAfterDel` | uberdict/__init__.py:50-60 | after a successful path delete, the walk that had found the terminal entry now fails with `KeyError(terminal)` |
| `PathProperties.ReadAfterDelete` | uberdict/__init__.py:17-60 | when `key` is not also stored literally: after `del ud[key]` succeeds, `ud[key]` raises `KeyError` on the key (simple) or terminal token (path), or the type error the read already raised |
| `PathProperties.SimpleKeyRoundTrip` | uberdict/__init__.py:17-48 | for a simple key, set stores the value, get returns it, delete removes exactly that entry, and a missing key fails with `KeyError(key)` |
| `PathProperties.NonStrKeyDelete` | uberdict/__init__.py:46-48 | a stored `int` or `None` key that reads and writes accept is refused by the delete as written with a type error; the corrected delete removes it |
| `PathProperties.FlatDottedEntry` | uberdict/__init__.py:17-60 | an entry stored flat under a dotted name is read back by item access, but item deletion walks the path and fails with `KeyError(first token)` |
| `Conversions.FromPairs` | uberdict/__init__.py:6-15 | construction from pairs has exactly the pairs' keys, and every entry comes from one of the pairs |
| `Conversions.LastPairWins` | uberdict/__init__.py:6-15 | the last pair with a given key decides that key's value |
| `Conversions.InitMap` | uberdict/__init__.py:6-15 | keyword entries are added under `str` keys and win over pairs; every other entry is the pairs' entry, verbatim |
| `Conversions.FromKeysMap` | uberdict/__init__.py:83-85 | `fromkeys` has exactly the sequence's elements as keys, dotted ones flat, each holding the given value |
| `Conversions.Promote` | uberdict/__init__.py:98-104 | on dot-free input (`Conversions.DotFree`), `fromdict` never stores a plain dict; it turns a plain dict into an UberDict with the same keys and keeps every other value, an UberDict included, unchanged |
| `Conversions.Demote` | uberdict/__init__.py:114-120 | `todict` never stores an UberDict; it turns an UberDict into a plain dict with the same keys and keeps every other value, a plain dict included, unchanged |
| `Conversions.PromoteEqual` | uberdict/__init__.py:88-104 | on dot-free input, the converted value equals the original under Python's `==` |
| `Conversions.PromoteDeep` | uberdict/__init__.py:92-102 | `fromdict` converts recursively: a value holding no UberDict comes out holding no plain dict at any depth |
| `Conversions.DemoteDeep` | uberdict/__init__.py:110-118 | `todict` converts recursively: a value holding no plain dict comes out holding no UberDict at any depth |
| `Conversions.DemoteEqual` | uberdict/__init__.py:106-120 | the plain-dict value equals the original under Python's `==` |
| `Conversions.PromoteDemote` | uberdict/__init__.py:88-120 | on dot-free input, converting a value to UberDicts and back gives an equal value, and the identical value when it held no UberDict |
| `Conversions.RoundTrip` | uberdict/__init__.py:88-120 | `todict(fromdict(d)) == d` for the dot-free storage `fromdict` builds, and identical storage when `d` holds no UberDict |
| `UberDicts.UberDict.constructor` | uberdict/__init__.py:6-15 | `UberDict(pairs, **kwargs)` holds plain construction's entries, verbatim |
| `UberDicts.UberDict.FromMapping` | uberdict/__init__.py:6-15 | `UberDict(mapping, **kwargs)` holds the mapping's entries verbatim plus the keyword entries, which win |
| `UberDicts.UberDict.GetItem` | uberdict/__init__.py:17-29 | the token loop returns exactly what `Paths.GetItem` specifies |
| `UberDicts.UberDict.SetItem` | uberdict/__init__.py:31-44 | the storage becomes `Paths.SetItem`'s result; on failure the error is raised and nothing is stored |
| `UberDicts.UberDict.DelItem` | uberdict/__init__.py:46-60 | the storage becomes `Paths.DelItem`'s result (the corrected delete, see "## Findings"); on failure the error is raised and nothing is deleted |
| `UberDicts.UberDict.GetAttr` | uberdict/__init__.py:62-66 | attribute read is item read of the whole name, with `KeyError(t)` turned into `AttributeError("no attribute 't'")` and other errors passed on |
| `UberDicts.UberDict.SetAttr` | uberdict/__init__.py:68-69 | attribute write stores the whole name as one flat key, which item access then reads back |
| `UberDicts.UberDict.DelAttr` | uberdict/__init__.py:71-75 | attribute delete is item delete of the whole name, with `KeyError(t)` turned into `AttributeError("no attribute 't'")`; storage is unchanged on failure |
| `UberDicts.UberDict.Get` | uberdict/__init__.py:77-81 | `get` returns `ud[key]`, or the default exactly when that raises `KeyError`; a type error is passed on |
| `UberDicts.UberDict.Contains` | uberdict/__init__.py:143-149 | `key in ud` is true iff `ud[key]` succeeds and false iff it raises `KeyError`; a type error is passed on |
| `UberDicts.UberDict.SetDefault` | uberdict/__init__.py:131-141 | an existing value is returned with storage unchanged; after a `KeyError` the default is stored by item assignment and returned; after success `ud[key]` returns what was returned |
| `UberDicts.UberDict.FromKeys` | uberdict/__init__.py:83-85 | `fromkeys` builds a fresh UberDict holding `Conversions.FromKeysMap` |
| `UberDicts.UberDict.Copy` | uberdict/__init__.py:122-129 | a copy is a fresh UberDict whose storage equals the original's |
| `UberDicts.UberDict.FromDict` | uberdict/__init__.py:87-104 | for any iteration order: the result's keys are the source's simple keys; a dotted key whose first token is no source key makes it fail; on dot-free input it succeeds with the converted entries |
| `UberDicts.UberDict.ToDict` | uberdict/__init__.py:106-120 | `todict` returns the plain-dict conversion of the storage |
| `UberDicts.UberDict.PlainOf` | uberdict/__init__.py:114-120 | the entry loop with recursion into UberDict values builds exactly the plain-dict conversion |

## Findings

| source | as written | input that shows it | evidently intended | confidence | as-written member | corrected member |
|---|---|---|---|---|---|---|
| uberdict/__init__.py:47 | `'.' not in key` is evaluated on every key, and `in` on an `int` or `None` raises TypeError | `ud = UberDict(); ud[1] = 'one'; del ud[1]` (reads and writes accept the key, the delete raises TypeError) | treat a non-`str` key as simple, as `__getitem__` (line 21) and `__setitem__` (line 32) do, and delete it raw | medium; not executed | `Paths.DelItemAsWritten`, shown by `PathProperties.NonStrKeyDelete` | `Paths.DelItem`, with `PathProperties.SimpleKeyRoundTrip` and `PathProperties.ReadAfterDelete`; the class's `DelItem` and `DelAttr` use it |

## Left out

- Inherited `dict` methods that the class does not override are not modelled: `pop`, `popitem`, `update`, `keys`/`values`/`items`, `clear`, `len`, `__eq__`, iteration and pickling. They contain no repository logic. Python's `==` appears only as the predicate `Conversions.PyEq`, used to state the round trip.
- Python's attribute protocol is not modelled. `__getattr__` runs only when normal attribute lookup fails, so method names such as `keys` shadow entries. `GetAttr`, `SetAttr` and `DelAttr` are ordinary methods.
- Object identity and aliasing are not modelled. Values form a tree, so a write or delete through a path rebuilds the containers along the path. Two references to one nested UberDict, the sharing of nested objects after `copy` or `setdefault`, and `is` checks cannot be expressed.
- Non-dict values are only `None`, `int` and `str`. Lists, tuples, floats, bytes and user objects with their own `__getitem__` or `get` are not modelled; with such a value on a path, the write and delete walks could behave differently. Keys are limited in the same way, and numeric cross-type equality (`0 == 0.0`) is left out.
- Exception messages are not modelled, with two exceptions. The first is the AttributeError messages the code builds (lines 66 and 75). The second is Python's own message for a missing `.get` in a path delete ("'int' object has no attribute 'get'"). A type error carries no message.
- `UberDicts.UberDict.FromDict`: states the exact result only for input whose inserted keys are all simple. With dotted keys, the result depends on the iteration order of the source dict, which the model leaves open. For that case it states only the result's keys, and that a dotted key whose first token names no source key makes it fail.
- `Conversions.Promote`: is `fromdict`'s conversion only for dot-free input. A dotted key inside a nested plain dict is inserted through the path setter (line 103): `fromdict({'x': {'a.b': 1}})` raises `KeyError('a')`, where `Promote` keeps the key flat. `PromoteEqual`, `PromoteDemote` and `RoundTrip` inherit the same scope. `UberDicts.UberDict.FromDict` states which of its results `Promote` describes.
- `classmethod` dispatch on a subclass of `UberDict` (`cls` in `fromdict`) is not modelled.
- `setup.py` (packaging metadata and reading the README file) and `__version__` carry no logic.
