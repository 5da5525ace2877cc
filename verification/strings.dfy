/** The usual optional value, standing in for Python's `None`. */
module Wrappers {

  datatype Option<+T> = None | Some(value: T)
}

/**
 * Character-level counterparts of the Python string operations the notifier
 * relies on, `str.split` and `os.path.basename`, and `Join`, the inverse of
 * `Split` that the path lemmas reason with.
 */
module Strings {

  /** The part of `s` before the first `c`, or all of `s` when there is none. */
  function Before(s: string, c: char): (r: string)
    ensures |r| <= |s| && r == s[..|r|]
    ensures c !in r
    ensures |r| == |s| || s[|r|] == c
  {
    if s == [] || s[0] == c then [] else [s[0]] + Before(s[1..], c)
  }

  /** `Before` is determined by where the first `c` stands. */
  lemma {:induction false} BeforeFirst(a: string, c: char, b: string)
    requires c !in a
    ensures Before(a + [c] + b, c) == a
  {
    if a != [] {
      assert (a + [c] + b)[1..] == a[1..] + [c] + b;
      BeforeFirst(a[1..], c, b);
    }
  }

  /** The part of `s` after its last character in `seps`, or all of `s` when there is none. */
  function AfterLast(s: string, seps: set<char>): (r: string)
    ensures |r| <= |s| && r == s[|s| - |r|..]
    ensures forall i :: 0 <= i < |r| ==> r[i] !in seps
    ensures |r| == |s| || s[|s| - |r| - 1] in seps
  {
    if s == [] || s[|s| - 1] in seps then []
    else AfterLast(s[..|s| - 1], seps) + [s[|s| - 1]]
  }

  /** The pieces in `parts` joined together with `c` between neighbours. */
  function Join(parts: seq<string>, c: char): string
  {
    if |parts| == 0 then []
    else if |parts| == 1 then parts[0]
    else parts[0] + [c] + Join(parts[1..], c)
  }

  /** Python's `s.split(c)`: the maximal runs of `s` free of `c`, empty runs included. */
  function Split(s: string, c: char): (r: seq<string>)
    ensures |r| >= 1
    ensures forall i :: 0 <= i < |r| ==> c !in r[i]
    ensures r[0] == Before(s, c)
    ensures Join(r, c) == s
    decreases |s|
  {
    var head := Before(s, c);
    if |head| == |s| then [s]
    else
      var tail := Split(s[|head| + 1..], c);
      assert s == head + [c] + s[|head| + 1..];
      [head] + tail
  }

  /** Splitting undoes joining when no piece holds the separator. */
  lemma {:induction false} SplitJoin(parts: seq<string>, c: char)
    requires |parts| >= 1
    requires forall i :: 0 <= i < |parts| ==> c !in parts[i]
    ensures Split(Join(parts, c), c) == parts
  {
    if |parts| == 1 {
      assert Before(parts[0], c) == parts[0];
    } else {
      var rest := Join(parts[1..], c);
      BeforeFirst(parts[0], c, rest);
      var s := parts[0] + [c] + rest;
      assert s[|parts[0]| + 1..] == rest;
      SplitJoin(parts[1..], c);
      assert parts == [parts[0]] + parts[1..];
    }
  }
}
