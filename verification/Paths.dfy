/** Paths that are joined with a slash. */
module Paths {
  /** The part before the first slash. */
  function Head(path: string): string {
    if path == [] || path[0] == '/' then [] else [path[0]] + Head(path[1..])
  }

  lemma {:induction false} HeadOfJoin(a: string, b: string)
    requires '/' !in a
    ensures Head(a + "/" + b) == a
  {
    if a != [] {
      assert (a + "/" + b)[1..] == a[1..] + "/" + b;
      HeadOfJoin(a[1..], b);
    }
  }

  /** A path splits in only one way at its first slash. */
  lemma SplitsOnce(a: string, b: string, c: string, d: string)
    requires '/' !in a && '/' !in c && a + "/" + b == c + "/" + d
    ensures a == c && b == d
  {
    HeadOfJoin(a, b);
    HeadOfJoin(c, d);
    assert b == (a + "/" + b)[|a| + 1..] && d == (c + "/" + d)[|c| + 1..];
  }
}
