/** Matching Accept headers against content types (pkg/server/mime.go), and the two checks that the
    server makes for a request (pkg/server/server.go). */
module Accept {
  /** A parsed content type; the parameters play no part in matching. */
  datatype ContentType = ContentType(full: string, root: string, sub: string) {
    predicate MatchesAll() { root == "*" && sub == "*" }

    predicate MatchesAllSubtypes() { root != "*" && sub == "*" }
  }

  // ---- string helpers of the Go library ----

  /** strings.Split with a one-character separator. */
  function Split(s: string, sep: char): (parts: seq<string>)
    ensures parts != []
  {
    if s == [] then [[]]
    else
      var rest := Split(s[1..], sep);
      if s[0] == sep then [[]] + rest else [[s[0]] + rest[0]] + rest[1..]
  }

  /** The part before the first occurrence of a character; all of it if there is none. */
  function Before(s: string, c: char): (r: string)
    ensures |r| <= |s| && r == s[..|r|] && c !in r && (|r| < |s| ==> s[|r|] == c)
  {
    if s == [] || s[0] == c then [] else [s[0]] + Before(s[1..], c)
  }

  predicate IsSpace(c: char) {
    c == '\t' || c == '\n' || c == 11 as char || c == 12 as char || c == '\r' || c == ' ' || c == 0x85 as char || c == 0xA0 as char
  }

  function TrimLeft(s: string): string {
    if s != [] && IsSpace(s[0]) then TrimLeft(s[1..]) else s
  }

  function TrimRight(s: string): string {
    if s != [] && IsSpace(s[|s| - 1]) then TrimRight(s[..|s| - 1]) else s
  }

  function TrimSpace(s: string): string {
    TrimRight(TrimLeft(s))
  }

  // ---- the meaning of an Accept header ----

  /** One item of the header without parameters: the media range. */
  function MediaRange(item: string): string {
    TrimSpace(Before(item, ';'))
  }

  predicate Spaces(s: string) {
    forall c :: c in s ==> IsSpace(c)
  }

  /** No white space at either end. */
  predicate Tight(s: string) {
    s != [] ==> !IsSpace(s[0]) && !IsSpace(s[|s| - 1])
  }

  lemma {:induction false} TrimsLeft(s: string)
    ensures |TrimLeft(s)| <= |s| && TrimLeft(s) == s[|s| - |TrimLeft(s)|..] && Spaces(s[..|s| - |TrimLeft(s)|])
    ensures TrimLeft(s) != [] ==> !IsSpace(TrimLeft(s)[0])
  {
    if s != [] && IsSpace(s[0]) {
      TrimsLeft(s[1..]);
      var n := |s| - |TrimLeft(s)|;
      assert s[1..][n - 1..] == s[n..] && s[..n] == [s[0]] + s[1..][..n - 1];
    }
  }

  lemma {:induction false} TrimsRight(s: string)
    ensures |TrimRight(s)| <= |s| && TrimRight(s) == s[..|TrimRight(s)|] && Spaces(s[|TrimRight(s)|..])
    ensures TrimRight(s) != [] ==> !IsSpace(TrimRight(s)[|TrimRight(s)| - 1])
  {
    if s != [] && IsSpace(s[|s| - 1]) {
      TrimsRight(s[..|s| - 1]);
      var n := |TrimRight(s)|;
      assert s[..|s| - 1][..n] == s[..n] && s[n..] == s[..|s| - 1][n..] + [s[|s| - 1]];
    }
  }

  /** Trimming takes away white space at both ends, and all of it. */
  lemma TrimsSpace(s: string) returns (before: string, after: string)
    ensures s == before + TrimSpace(s) + after && Spaces(before) && Spaces(after) && Tight(TrimSpace(s))
  {
    var left := TrimLeft(s);
    TrimsLeft(s);
    TrimsRight(left);
    before, after := s[..|s| - |left|], left[|TrimRight(left)|..];
    assert s == before + left && left == TrimRight(left) + after;
    if TrimRight(left) != [] { assert TrimRight(left)[0] == left[0]; }
  }

  lemma {:induction false} LeftOf(before: string, s: string)
    requires Spaces(before) && (s != [] ==> !IsSpace(s[0]))
    ensures TrimLeft(before + s) == s
  {
    if before == [] {
      assert before + s == s;
    } else {
      assert (before + s)[0] == before[0] && before[0] in before && (before + s)[1..] == before[1..] + s;
      LeftOf(before[1..], s);
    }
  }

  lemma {:induction false} RightOf(s: string, after: string)
    requires Spaces(after) && (s != [] ==> !IsSpace(s[|s| - 1]))
    ensures TrimRight(s + after) == s
    decreases |after|
  {
    if after == [] {
      assert s + after == s;
    } else {
      var c, rest := after[|after| - 1], after[..|after| - 1];
      assert (s + after)[|s + after| - 1] == c && c in after && (s + after)[..|s + after| - 1] == s + rest;
      RightOf(s, rest);
    }
  }

  lemma {:induction false} AllSpaces(s: string)
    requires Spaces(s)
    ensures TrimSpace(s) == []
  {
    LeftOf(s, []);
    assert s + [] == s;
  }

  /** White space around a media range, and parameters after it, do not matter. */
  lemma MediaRangeIsTrimmed(before: string, range: string, after: string, params: string)
    requires Spaces(before) && Spaces(after) && Tight(range) && ';' !in range
    requires params == [] || params[0] == ';'
    ensures MediaRange(before + range + after + params) == range
  {
    var item := before + range + after;
    BeforeParams(item, params);
    if range == [] {
      assert item == before + after;
      AllSpaces(item);
    } else {
      assert item == before + (range + after) && (range + after)[0] == range[0];
      LeftOf(before, range + after);
      RightOf(range, after);
    }
  }

  lemma BeforeParams(item: string, params: string)
    requires ';' !in item && (params == [] || params[0] == ';')
    ensures Before(item + params, ';') == item
  {
    if params == [] {
      assert item + params == item;
      BeforeAll(item, ';');
    } else {
      BeforeJoined(item, ';', params[1..]);
      assert item + params == item + [';'] + params[1..];
    }
  }

  lemma {:induction false} BeforeAll(s: string, c: char)
    requires c !in s
    ensures Before(s, c) == s
  {
    if s != [] { BeforeAll(s[1..], c); }
  }

  function RootOf(range: string): string {
    Before(range, '/')
  }

  function SubOf(range: string): string {
    var root := RootOf(range);
    if |root| < |range| then range[|root| + 1..] else []
  }

  /** A slash with something on either side. */
  predicate WellFormed(range: string) {
    RootOf(range) != [] && SubOf(range) != []
  }

  /** The range is a/b, cut at its first slash. */
  predicate IsPair(range: string, a: string, b: string) {
    range == a + "/" + b && '/' !in a && a != [] && b != []
  }

  /** A range that names a single type. */
  ghost predicate IsConcrete(range: string) {
    exists a, b :: IsPair(range, a, b) && a != "*" && b != "*"
  }

  /** Whether a media range covers a content type: it is the range of everything, the range of the root
      type, or the type itself. */
  ghost predicate Covers(range: string, t: ContentType) {
    || range == "*/*"
    || IsPair(range, t.root, "*")
    || (range == t.full && IsConcrete(range))
  }

  /** Some item of the header covers the content type. */
  ghost predicate Accepts(header: string, t: ContentType) {
    exists i :: 0 <= i < |Split(header, ',')| && Covers(MediaRange(Split(header, ',')[i]), t)
  }

  predicate AcceptsAll(header: string) {
    exists i :: 0 <= i < |Split(header, ',')| && MediaRange(Split(header, ',')[i]) == "*/*"
  }

  lemma {:induction false} BeforeJoined(a: string, c: char, b: string)
    requires c !in a
    ensures Before(a + [c] + b, c) == a
  {
    if a != [] {
      assert (a + [c] + b)[1..] == a[1..] + [c] + b;
      BeforeJoined(a[1..], c, b);
    }
  }

  /** Cutting at the first slash finds the two parts of a pair, and nothing else. */
  lemma CutFindsPair(range: string, a: string, b: string)
    ensures IsPair(range, a, b) <==> WellFormed(range) && RootOf(range) == a && SubOf(range) == b
  {
    if IsPair(range, a, b) {
      BeforeJoined(a, '/', b);
    }
    if WellFormed(range) && RootOf(range) == a && SubOf(range) == b {
      assert range == range[..|a|] + [range[|a|]] + range[|a| + 1..];
    }
  }

  // ---- the indexes ----

  /** An index answers two questions: the keys of its two maps, or the fields of its one value. */
  datatype Index = Index(contentTypes: set<string>, rootContentTypes: set<string>) {
    predicate ContainsContentType(value: string) { value in contentTypes }

    predicate ContainsRootContentType(value: string) { value in rootContentTypes }

    /** The registry's own lookup of a content type, which may be a wildcard. */
    predicate Contains(t: ContentType) {
      if t.MatchesAll() then true
      else if t.MatchesAllSubtypes() then ContainsRootContentType(t.root)
      else ContainsContentType(t.full)
    }
  }

  function Single(t: ContentType): Index {
    Index({t.full}, {t.root})
  }

  function Multi(ts: seq<ContentType>): Index {
    Index(set t | t in ts :: t.full, set t | t in ts :: t.root)
  }

  /** The constructor of the map-based index. */
  method NewMultiContentTypeIndex(ts: seq<ContentType>) returns (index: Index)
    ensures index == Multi(ts)
  {
    index := Index({}, {});
    for i := 0 to |ts|
      invariant index == Multi(ts[..i])
    {
      assert ts[..i + 1] == ts[..i] + [ts[i]];
      index := Index(index.contentTypes + {ts[i].full}, index.rootContentTypes + {ts[i].root});
    }
    assert ts[..|ts|] == ts;
  }

  /** What one item of the header contributes to the loop. */
  predicate ItemServed(index: Index, item: string) {
    var range := MediaRange(item);
    && WellFormed(range)
    && if SubOf(range) == "*" then RootOf(range) == "*" || index.ContainsRootContentType(RootOf(range))
       else RootOf(range) != "*" && index.ContainsContentType(range)
  }

  predicate AnyServed(index: Index, items: seq<string>) {
    exists i :: 0 <= i < |items| && ItemServed(index, items[i])
  }

  predicate Served(index: Index, header: string) {
    AnyServed(index, Split(header, ','))
  }

  /** The loop over the items. */
  method CanServeAccept(index: Index, header: string) returns (ok: bool)
    ensures ok == Served(index, header)
  {
    var items := Split(header, ',');
    var i := 0;
    while i < |items|
      invariant 0 <= i <= |items|
      invariant forall k :: 0 <= k < i ==> !ItemServed(index, items[k])
    {
      var contentType := items[i];
      contentType := Before(contentType, ';');
      contentType := TrimSpace(contentType);
      var root, sub := RootOf(contentType), SubOf(contentType);
      var found := |root| < |contentType|;
      assert contentType == MediaRange(items[i]);
      if !found || |root| == 0 || |sub| == 0 {
        i := i + 1;
        continue;
      }
      if sub == "*" {
        if root == "*" || index.ContainsRootContentType(root) {
          assert ItemServed(index, items[i]);
          return true;
        }
      } else if root != "*" && index.ContainsContentType(contentType) {
        assert ItemServed(index, items[i]);
        return true;
      }
      i := i + 1;
    }
    return false;
  }

  // ---- what the indexes mean ----

  lemma SingleItem(t: ContentType, item: string)
    ensures ItemServed(Single(t), item) <==> Covers(MediaRange(item), t)
  {
    var range := MediaRange(item);
    var root, sub := RootOf(range), SubOf(range);
    CutFindsPair(range, root, sub);
    CutFindsPair(range, "*", "*");
    CutFindsPair(range, t.root, "*");
    if IsConcrete(range) {
      var a, b :| IsPair(range, a, b) && a != "*" && b != "*";
      CutFindsPair(range, a, b);
    }
  }

  /** The check of a response's own content type is what the header says about it. */
  lemma SingleMeansAccepted(t: ContentType, header: string)
    ensures Served(Single(t), header) <==> Accepts(header, t)
  {
    forall item ensures ItemServed(Single(t), item) <==> Covers(MediaRange(item), t) { SingleItem(t, item); }
  }

  /** An item that the map-based index serves is served by the index of one of its types alone. */
  lemma MultiItem(ts: seq<ContentType>, item: string)
    ensures ItemServed(Multi(ts), item) <==>
            (exists k :: 0 <= k < |ts| && ItemServed(Single(ts[k]), item)) || (ts == [] && MediaRange(item) == "*/*")
  {
    var range := MediaRange(item);
    CutFindsPair(range, "*", "*");
    if ItemServed(Multi(ts), item) && ts != [] {
      if RootOf(range) == "*" {
        assert ItemServed(Single(ts[0]), item);
      } else {
        var t :| t in ts && if SubOf(range) == "*" then t.root == RootOf(range) else t.full == range;
        var k :| 0 <= k < |ts| && ts[k] == t;
        assert ItemServed(Single(ts[k]), item);
      }
    }
    if k :| 0 <= k < |ts| && ItemServed(Single(ts[k]), item) {
      assert ts[k] in ts;
    }
  }

  /** The registry of all content types accepts a header exactly when the header accepts one of them;
      an empty registry accepts only the range of everything. */
  lemma MultiMeansSomeAccepted(ts: seq<ContentType>, header: string)
    ensures Served(Multi(ts), header) <==>
            (exists k :: 0 <= k < |ts| && Accepts(header, ts[k])) || (ts == [] && AcceptsAll(header))
  {
    var items := Split(header, ',');
    forall item ensures ItemServed(Multi(ts), item) <==>
            (exists k :: 0 <= k < |ts| && ItemServed(Single(ts[k]), item)) || (ts == [] && MediaRange(item) == "*/*") {
      MultiItem(ts, item);
    }
    forall k | 0 <= k < |ts| ensures Served(Single(ts[k]), header) <==> Accepts(header, ts[k]) {
      SingleMeansAccepted(ts[k], header);
    }
    if Served(Multi(ts), header) && ts != [] {
      var i :| 0 <= i < |items| && ItemServed(Multi(ts), items[i]);
      var k :| 0 <= k < |ts| && ItemServed(Single(ts[k]), items[i]);
      assert Served(Single(ts[k]), header);
    }
    if k :| 0 <= k < |ts| && Accepts(header, ts[k]) {
      var i :| 0 <= i < |items| && ItemServed(Single(ts[k]), items[i]);
      assert ItemServed(Multi(ts), items[i]);
    }
  }

  lemma {:induction false} NoComma(s: string)
    requires ',' !in s
    ensures Split(s, ',') == [s]
  {
    if s != [] {
      NoComma(s[1..]);
      assert s == [s[0]] + s[1..];
    }
  }

  /** The empty list accepts the range of everything, although it has no type that the range covers. */
  lemma EmptyListAcceptsEverything()
    ensures var none: seq<ContentType> := [];
            Served(Multi(none), "*/*") && !exists k :: 0 <= k < |none| && Accepts("*/*", none[k])
  {
    var none: seq<ContentType> := [];
    var all := "*/*";
    NoComma(all);
    assert Before(all, ';') == all by {
      assert all[1..] == "/*" && all[1..][1..] == "*" && all[1..][1..][1..] == [];
    }
    assert MediaRange(all) == all;
    assert AcceptsAll(all) by { assert MediaRange(Split(all, ',')[0]) == all; }
    MultiMeansSomeAccepted(none, all);
  }

  /** Either check of a request: without an Accept header it passes. */
  predicate Passes(index: Index, accept: string) {
    |accept| > 0 ==> Served(index, accept)
  }

  /** The early check turns away exactly the requests of which no response with a registered content
      type would pass the later check. */
  lemma EarlyCheckIsExact(ts: seq<ContentType>, accept: string)
    requires ts != []
    ensures Passes(Multi(ts), accept) <==> exists t :: t in ts && Passes(Single(t), accept)
  {
    assert ts[0] in ts;
    MultiMeansSomeAccepted(ts, accept);
    forall t ensures Served(Single(t), accept) <==> Accepts(accept, t) { SingleMeansAccepted(t, accept); }
    if k :| 0 <= k < |ts| && Accepts(accept, ts[k]) { assert ts[k] in ts; }
  }

  /** The registry contains a content type or wildcard exactly when one of its types alone would, or
      when everything matches. */
  lemma ContainsMeansSome(ts: seq<ContentType>, t: ContentType)
    ensures Multi(ts).Contains(t) <==> (exists k :: 0 <= k < |ts| && Single(ts[k]).Contains(t)) || (ts == [] && t.MatchesAll())
  {
    if Multi(ts).Contains(t) && ts != [] {
      if t.MatchesAll() {
        assert Single(ts[0]).Contains(t);
      } else if t.MatchesAllSubtypes() {
        var u :| u in ts && u.root == t.root;
        var k :| 0 <= k < |ts| && ts[k] == u;
        assert Single(ts[k]).Contains(t);
      } else {
        var u :| u in ts && u.full == t.full;
        var k :| 0 <= k < |ts| && ts[k] == u;
        assert Single(ts[k]).Contains(t);
      }
    }
    if exists k :: 0 <= k < |ts| && Single(ts[k]).Contains(t) {
      var k :| 0 <= k < |ts| && Single(ts[k]).Contains(t);
      assert ts[k] in ts;
    }
  }

  // ---- joining headers ----

  lemma {:induction false} SplitJoin(a: string, b: string, sep: char)
    ensures Split(a + [sep] + b, sep) == Split(a, sep) + Split(b, sep)
  {
    var s := a + [sep] + b;
    if a == [] {
      assert s[1..] == b;
    } else {
      assert s[0] == a[0] && s[1..] == a[1..] + [sep] + b;
      SplitJoin(a[1..], b, sep);
    }
  }

  /** Joining two headers with a comma accepts what either of them accepts. */
  lemma JoinDistributes(index: Index, a: string, b: string)
    ensures Served(index, a + "," + b) <==> Served(index, a) || Served(index, b)
  {
    SplitJoin(a, b, ',');
    AnyConcat(index, Split(a, ','), Split(b, ','));
  }

  lemma AnyConcat(index: Index, x: seq<string>, y: seq<string>)
    ensures AnyServed(index, x + y) <==> AnyServed(index, x) || AnyServed(index, y)
  {
    var s := x + y;
    forall i | 0 <= i < |x| ensures s[i] == x[i] {}
    forall i | 0 <= i < |y| ensures s[|x| + i] == y[i] {}
  }
}
