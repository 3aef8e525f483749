/** The base64 encoder (client/src/base64.cpp) in its three variants, with a decoder written from
    RFC 4648, and the URLs that are built from its output (client/src/client.cpp, make_url). */
module Base64 {
  import opened Wire
  import Paths

  datatype Variant = Standard | Url | UrlUnpadded

  type Sextet = x: bv8 | x < 64 witness 0

  // ---- the encoding, three bytes at a time ----

  function First(d0: Byte): Sextet { d0 >> 2 }
  function Second(d0: Byte, d1: Byte): Sextet { ((d0 & 3) << 4) | (d1 >> 4) }
  function Third(d1: Byte, d2: Byte): Sextet { ((d1 & 0x0F) << 2) | (d2 >> 6) }
  function Fourth(d2: Byte): Sextet { d2 & 0x3F }

  function Group(tab: Sextet -> char, d0: Byte, d1: Byte, d2: Byte): string {
    [tab(First(d0)), tab(Second(d0, d1)), tab(Third(d1, d2)), tab(Fourth(d2))]
  }

  function Tail(tab: Sextet -> char, unpadded: bool, rest: seq<Byte>): string
    requires |rest| < 3
  {
    if rest == [] then []
    else if |rest| == 1 then
      [tab(First(rest[0])), tab(Second(rest[0], 0))] + (if unpadded then [] else ['=', '='])
    else
      [tab(First(rest[0])), tab(Second(rest[0], rest[1])), tab(Third(rest[1], 0))] + (if unpadded then [] else ['='])
  }

  function Encoded(tab: Sextet -> char, unpadded: bool, data: seq<Byte>): string {
    if |data| < 3 then Tail(tab, unpadded, data)
    else Group(tab, data[0], data[1], data[2]) + Encoded(tab, unpadded, data[3..])
  }

  lemma NextGroup(tab: Sextet -> char, unpadded: bool, data: seq<Byte>, i: nat, before: string)
    requires i + 3 <= |data|
    ensures before + Encoded(tab, unpadded, data[i..]) ==
            before + Group(tab, data[i], data[i + 1], data[i + 2]) + Encoded(tab, unpadded, data[i + 3..])
  {}

  lemma LastBits(d: Byte)
    ensures (d & 3) << 4 == Second(d, 0) && (d & 0x0F) << 2 == Third(d, 0)
  {}

  /** What is left after the loop. */
  method EncodeTail(tab: Sextet -> char, unpadded: bool, rest: seq<Byte>) returns (out: string)
    requires |rest| < 3
    ensures out == Tail(tab, unpadded, rest)
  {
    out := [];
    if rest == [] {
      return;
    }
    var d0 := rest[0];
    if |rest| == 1 {
      LastBits(d0);
      out := out + [tab(d0 >> 2)];
      out := out + [tab((d0 & 3) << 4)];
      assert out == [tab(First(d0)), tab(Second(d0, 0))];
      if !unpadded { out := out + ['=']; }
      if !unpadded { out := out + ['=']; }
    } else {
      var d1 := rest[1];
      LastBits(d1);
      out := out + [tab(d0 >> 2)];
      out := out + [tab(((d0 & 3) << 4) | (d1 >> 4))];
      out := out + [tab((d1 & 0x0F) << 2)];
      assert out == [tab(First(d0)), tab(Second(d0, d1)), tab(Third(d1, 0))];
      if !unpadded { out := out + ['=']; }
    }
  }

  lemma Appended(s: string, a: char, b: char, c: char, d: char)
    ensures s + [a] + [b] + [c] + [d] == s + [a, b, c, d]
  {}

  /** The loop of the source. */
  method EncodeWith(tab: Sextet -> char, unpadded: bool, data: seq<Byte>) returns (out: string)
    ensures out == Encoded(tab, unpadded, data)
  {
    out := [];
    var i := 0;
    while |data| - i >= 3
      invariant 0 <= i <= |data|
      invariant out + Encoded(tab, unpadded, data[i..]) == Encoded(tab, unpadded, data)
      decreases |data| - i
    {
      var d0, d1, d2 := data[i], data[i + 1], data[i + 2];
      NextGroup(tab, unpadded, data, i, out);
      ghost var before := out;
      out := out + [tab(d0 >> 2)];
      out := out + [tab(((d0 & 3) << 4) | (d1 >> 4))];
      out := out + [tab(((d1 & 0x0F) << 2) | (d2 >> 6))];
      out := out + [tab(d2 & 0x3F)];
      Appended(before, tab(First(d0)), tab(Second(d0, d1)), tab(Third(d1, d2)), tab(Fourth(d2)));
      i := i + 3;
    }
    var tail := EncodeTail(tab, unpadded, data[i..]);
    out := out + tail;
  }

  // ---- decoding ----

  /** Decoding: groups of four characters, the last of which may be short, or padded with '='. */
  function Decoded(lookup: char -> Option<Sextet>, unpadded: bool, s: string): Option<seq<Byte>> {
    if s == [] then Some([])
    else if |s| < 4 then (if unpadded then DecodeShort(lookup, s) else None)
    else if s[3] == '=' then
      if unpadded || |s| > 4 then None
      else DecodeShort(lookup, if s[2] == '=' then s[..2] else s[..3])
    else
      match DecodeGroup(lookup, s[0], s[1], s[2], s[3])
      case None => None
      case Some(bytes) =>
        match Decoded(lookup, unpadded, s[4..])
        case None => None
        case Some(rest) => Some(bytes + rest)
  }

  function Byte0(a: bv8, b: bv8): Byte { (a << 2) | (b >> 4) }
  function Byte1(b: bv8, c: bv8): Byte { (b << 4) | (c >> 2) }
  function Byte2(c: bv8, d: bv8): Byte { (c << 6) | d }

  function DecodeGroup(lookup: char -> Option<Sextet>, c0: char, c1: char, c2: char, c3: char): Option<seq<Byte>> {
    var a, b, c, d := lookup(c0), lookup(c1), lookup(c2), lookup(c3);
    if a.None? || b.None? || c.None? || d.None? then None
    else Some([Byte0(a.value, b.value), Byte1(b.value, c.value), Byte2(c.value, d.value)])
  }

  function DecodeShort(lookup: char -> Option<Sextet>, s: string): Option<seq<Byte>>
    requires |s| < 4
  {
    if |s| < 2 then None
    else
      var a, b := lookup(s[0]), lookup(s[1]);
      if a.None? || b.None? then None
      else if |s| == 2 then Some([Byte0(a.value, b.value)])
      else
        var c := lookup(s[2]);
        if c.None? then None else Some([Byte0(a.value, b.value), Byte1(b.value, c.value)])
  }

  lemma Bits(d0: Byte, d1: Byte, d2: Byte)
    ensures Byte0(First(d0), Second(d0, d1)) == d0
    ensures Byte1(Second(d0, d1), Third(d1, d2)) == d1
    ensures Byte2(Third(d1, d2), Fourth(d2)) == d2
  {}

  /** The lookup finds every symbol of the table, and '=' is not one of them. */
  ghost predicate Inverse(tab: Sextet -> char, lookup: char -> Option<Sextet>) {
    forall x: Sextet :: lookup(tab(x)) == Some(x) && tab(x) != '='
  }

  lemma GroupDecodes(tab: Sextet -> char, lookup: char -> Option<Sextet>, d0: Byte, d1: Byte, d2: Byte)
    requires Inverse(tab, lookup)
    ensures var g := Group(tab, d0, d1, d2);
            DecodeGroup(lookup, g[0], g[1], g[2], g[3]) == Some([d0, d1, d2]) && '=' !in g
  {}

  lemma TailDecodes(tab: Sextet -> char, lookup: char -> Option<Sextet>, unpadded: bool, rest: seq<Byte>)
    requires Inverse(tab, lookup) && |rest| < 3
    ensures Decoded(lookup, unpadded, Tail(tab, unpadded, rest)) == Some(rest)
    ensures unpadded ==> '=' !in Tail(tab, unpadded, rest)
  {
    if rest != [] {
      var s := Tail(tab, unpadded, rest);
      var d1 := if |rest| == 1 then 0 else rest[1];
      Bits(rest[0], d1, 0);
      assert |rest| == 1 ==> rest == [rest[0]] && s[..2] == [s[0], s[1]];
      assert |rest| == 2 ==> rest == [rest[0], rest[1]] && s[..3] == [s[0], s[1], s[2]];
    }
  }

  lemma {:induction false} DecodesBack(tab: Sextet -> char, lookup: char -> Option<Sextet>, unpadded: bool, data: seq<Byte>)
    requires Inverse(tab, lookup)
    ensures Decoded(lookup, unpadded, Encoded(tab, unpadded, data)) == Some(data)
  {
    if |data| < 3 {
      TailDecodes(tab, lookup, unpadded, data);
    } else {
      var g, rest := Group(tab, data[0], data[1], data[2]), Encoded(tab, unpadded, data[3..]);
      GroupDecodes(tab, lookup, data[0], data[1], data[2]);
      DecodesBack(tab, lookup, unpadded, data[3..]);
      assert (g + rest)[4..] == rest;
      assert data == [data[0], data[1], data[2]] + data[3..];
    }
  }

  // ---- the alphabets ----

  /** n consecutive characters. */
  function Range(first: char, n: nat): (r: string)
    requires first as int + n < 0xD800
    ensures |r| == n && forall i :: 0 <= i < n ==> r[i] == (first as int + i) as char
  {
    seq(n, i requires 0 <= i < n => (first as int + i) as char)
  }

  /** A-Z, a-z, 0-9 and the two last characters. */
  function Alphabet(v: Variant): (tab: string)
    ensures |tab| == 64
  {
    Range('A', 26) + Range('a', 26) + Range('0', 10) + (if v.Standard? then ['+', '/'] else ['-', '_'])
  }

  function Symbol(v: Variant, x: Sextet): char {
    Alphabet(v)[x as int]
  }

  /** The value of a character, by the tables in sections 4 and 5 of RFC 4648. */
  function Lookup(v: Variant, c: char): Option<Sextet> {
    var value := LookupValue(v, c);
    if value < 64 then Some(value as bv8) else None
  }

  function LookupValue(v: Variant, c: char): nat {
    if 'A' <= c <= 'Z' then c as int - 65
    else if 'a' <= c <= 'z' then c as int - 97 + 26
    else if '0' <= c <= '9' then c as int - 48 + 52
    else if c == (if v.Standard? then '+' else '-') then 62
    else if c == (if v.Standard? then '/' else '_') then 63
    else 64
  }

  lemma LookupSymbol(v: Variant, x: Sextet)
    ensures Lookup(v, Symbol(v, x)) == Some(x)
    ensures Symbol(v, x) != '=' && (!v.Standard? ==> Symbol(v, x) != '/')
  {}

  function Table(v: Variant): Sextet -> char {
    (x: Sextet) => Symbol(v, x)
  }

  function Lookups(v: Variant): char -> Option<Sextet> {
    c => Lookup(v, c)
  }

  lemma TableInverse(v: Variant)
    ensures Inverse(Table(v), Lookups(v))
    ensures !v.Standard? ==> forall x: Sextet :: Table(v)(x) != '/'
  {
    forall x: Sextet ensures Lookups(v)(Table(v)(x)) == Some(x) && Table(v)(x) != '=' && (!v.Standard? ==> Table(v)(x) != '/') {
      LookupSymbol(v, x);
    }
  }

  // ---- the encoder ----

  function Encoding(v: Variant, data: seq<Byte>): string {
    Encoded(Table(v), v.UrlUnpadded?, data)
  }

  function Decode(v: Variant, s: string): Option<seq<Byte>> {
    Decoded(Lookups(v), v.UrlUnpadded?, s)
  }

  method Encode(v: Variant, data: seq<Byte>) returns (out: string)
    ensures out == Encoding(v, data)
  {
    out := EncodeWith(Table(v), v.UrlUnpadded?, data);
  }

  /** Decoding inverts the encoder, for every byte string and all three variants. */
  lemma RoundTrip(v: Variant, data: seq<Byte>)
    ensures Decode(v, Encoding(v, data)) == Some(data)
  {
    TableInverse(v);
    DecodesBack(Table(v), Lookups(v), v.UrlUnpadded?, data);
  }

  lemma {:induction false} EncodedLength(tab: Sextet -> char, unpadded: bool, data: seq<Byte>)
    ensures |Encoded(tab, unpadded, data)| == if unpadded then (4 * |data| + 2) / 3 else 4 * ((|data| + 2) / 3)
  {
    if |data| >= 3 { EncodedLength(tab, unpadded, data[3..]); }
  }

  /** Without padding the length is 4/3 of the number of bytes, rounded up; with padding it is the
      next multiple of four. */
  lemma Length(v: Variant, data: seq<Byte>)
    ensures |Encoding(v, data)| == if v.UrlUnpadded? then (4 * |data| + 2) / 3 else 4 * ((|data| + 2) / 3)
  {
    EncodedLength(Table(v), v.UrlUnpadded?, data);
  }

  function WithoutPadding(s: string): string {
    if s == [] then []
    else if s[0] == '=' then WithoutPadding(s[1..])
    else [s[0]] + WithoutPadding(s[1..])
  }

  lemma {:induction false} WithoutPaddingConcat(a: string, b: string)
    requires '=' !in a
    ensures WithoutPadding(a + b) == a + WithoutPadding(b)
  {
    if a == [] {
      assert a + b == b;
    } else {
      assert (a + b)[1..] == a[1..] + b;
      WithoutPaddingConcat(a[1..], b);
    }
  }

  lemma JustPadding()
    ensures WithoutPadding(['=']) == [] && WithoutPadding(['=', '=']) == []
  {}

  lemma {:induction false} Stripped(tab: Sextet -> char, lookup: char -> Option<Sextet>, data: seq<Byte>)
    requires Inverse(tab, lookup)
    ensures Encoded(tab, true, data) == WithoutPadding(Encoded(tab, false, data))
  {
    if |data| < 3 {
      var bare := Tail(tab, true, data);
      TailDecodes(tab, lookup, true, data);
      JustPadding();
      var padding := if data == [] then [] else if |data| == 1 then ['=', '='] else ['='];
      WithoutPaddingConcat(bare, padding);
      assert Tail(tab, false, data) == bare + padding;
    } else {
      GroupDecodes(tab, lookup, data[0], data[1], data[2]);
      WithoutPaddingConcat(Group(tab, data[0], data[1], data[2]), Encoded(tab, false, data[3..]));
      Stripped(tab, lookup, data[3..]);
    }
  }

  lemma {:induction false} SameTable(tab: Sextet -> char, tab': Sextet -> char, unpadded: bool, data: seq<Byte>)
    requires forall x: Sextet :: tab(x) == tab'(x)
    ensures Encoded(tab, unpadded, data) == Encoded(tab', unpadded, data)
  {
    if |data| >= 3 { SameTable(tab, tab', unpadded, data[3..]); }
  }

  /** The unpadded form is the padded one without its padding. */
  lemma UnpaddedIsStripped(data: seq<Byte>)
    ensures Encoding(UrlUnpadded, data) == WithoutPadding(Encoding(Url, data))
  {
    TableInverse(Url);
    Stripped(Table(Url), Lookups(Url), data);
    SameTable(Table(Url), Table(UrlUnpadded), true, data);
  }

  lemma {:induction false} OnlySymbols(tab: Sextet -> char, data: seq<Byte>, c: char)
    requires (forall x: Sextet :: tab(x) != c) && c != '='
    ensures c !in Encoded(tab, true, data) && c !in Encoded(tab, false, data)
  {
    if |data| >= 3 { OnlySymbols(tab, data[3..], c); }
  }

  /** The URL variants never produce a slash. */
  lemma NoSlash(v: Variant, data: seq<Byte>)
    requires !v.Standard?
    ensures '/' !in Encoding(v, data)
  {
    TableInverse(v);
    OnlySymbols(Table(v), data, '/');
  }

  /** The part of a content URL after the base URL. The code signs client id and path; here any bytes
      can be the signature. */
  function UrlPath(clientId: string, mac: seq<Byte>, path: string): string {
    clientId + "/" + (Encoding(UrlUnpadded, mac) + "/" + path)
  }

  /** A URL splits back into client id, signature and path in one way only, whatever the path contains. */
  lemma UrlSplitsUniquely(id: string, mac: seq<Byte>, path: string, id': string, mac': seq<Byte>, path': string)
    requires '/' !in id && '/' !in id' && UrlPath(id, mac, path) == UrlPath(id', mac', path')
    ensures id == id' && mac == mac' && path == path'
  {
    Paths.SplitsOnce(id, Encoding(UrlUnpadded, mac) + "/" + path, id', Encoding(UrlUnpadded, mac') + "/" + path');
    NoSlash(UrlUnpadded, mac);
    NoSlash(UrlUnpadded, mac');
    Paths.SplitsOnce(Encoding(UrlUnpadded, mac), path, Encoding(UrlUnpadded, mac'), path');
    RoundTrip(UrlUnpadded, mac);
    RoundTrip(UrlUnpadded, mac');
  }
}
