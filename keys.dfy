/** Keys of an UberDict and the dotted-path syntax of item access. */
module Keys {

  /** A hashable dictionary key. The model covers the three kinds of key the
      code distinguishes: `str` keys (which may be path keys), `int` keys and `None`. */
  datatype Key = Str(s: string) | Int(i: int) | NoneKey

  /** A key is a path key iff it is a `str` containing '.'; every other key is
      used verbatim by item access. */
  predicate IsPathKey(k: Key)
  {
    k.Str? && '.' in k.s
  }

  /** Python's `s.split('.')`: the maximal runs between dots, empty runs
      included ("a..b" gives three tokens, "a." gives "a" and ""). */
  function Split(s: string): (r: seq<string>)
    ensures |r| >= 1
    ensures |r| == 1 <==> '.' !in s
    ensures forall i :: 0 <= i < |r| ==> '.' !in r[i]
  {
    if s == [] then [""]
    else if s[0] == '.' then [""] + Split(s[1..])
    else
      var rest := Split(s[1..]);
      [[s[0]] + rest[0]] + rest[1..]
  }

  /** Python's `'.'.join(ts)`. */
  function Join(ts: seq<string>): string
    requires |ts| >= 1
  {
    if |ts| == 1 then ts[0] else ts[0] + "." + Join(ts[1..])
  }

  /** The first token of a path: what the root lookup of every path operation uses. */
  function Head(s: string): string
  {
    Split(s)[0]
  }

  /** Joining the tokens of a split gives back the original text. */
  lemma {:induction false} JoinSplit(s: string)
    ensures Join(Split(s)) == s
  {
    if s == [] {
    } else if s[0] == '.' {
      JoinSplit(s[1..]);
      assert Split(s)[1..] == Split(s[1..]);
    } else {
      var rest := Split(s[1..]);
      JoinSplit(s[1..]);
      var r := Split(s);
      if |rest| == 1 {
        assert r == [[s[0]] + rest[0]];
      } else {
        assert r[1..] == rest[1..];
        assert Join(r) == ([s[0]] + rest[0]) + "." + Join(rest[1..]);
        assert Join(rest) == rest[0] + "." + Join(rest[1..]);
      }
      assert s == [s[0]] + s[1..];
    }
  }

  /** Splitting a dot-free head followed by a dot splits off exactly that head. */
  lemma {:induction false} SplitDotted(a: string, b: string)
    requires '.' !in a
    ensures Split(a + "." + b) == [a] + Split(b)
  {
    if a == [] {
      assert a + "." + b == ['.'] + b;
      assert (['.'] + b)[1..] == b;
    } else {
      SplitDotted(a[1..], b);
      var s := a + "." + b;
      assert s[0] == a[0] && s[1..] == a[1..] + "." + b;
      var rest := Split(s[1..]);
      assert rest[0] == a[1..] && rest[1..] == Split(b);
      assert [a[0]] + a[1..] == a;
    }
  }

  /** Splitting a join of dot-free tokens gives back the tokens. */
  lemma {:induction false} SplitJoin(ts: seq<string>)
    requires |ts| >= 1
    requires forall i :: 0 <= i < |ts| ==> '.' !in ts[i]
    ensures Split(Join(ts)) == ts
  {
    if |ts| == 1 {
      SplitDotFree(ts[0]);
    } else {
      SplitJoin(ts[1..]);
      SplitDotted(ts[0], Join(ts[1..]));
      assert ts == [ts[0]] + ts[1..];
    }
  }

  /** A dot-free text is a single token. */
  lemma SplitDotFree(s: string)
    requires '.' !in s
    ensures Split(s) == [s]
  {
    JoinSplit(s);
  }
}
