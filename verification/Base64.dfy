/** Base64 with padding (RFC 4648, sections 3.5 and 4). */
module Base64 {
  import opened Wrappers
  import opened Octets

  type Value = n: nat | n < 64

  const UPPER := "ABCDEFGHIJKLMNOPQRSTUVWXYZ"
  const LOWER := "abcdefghijklmnopqrstuvwxyz"
  const DIGITS := "0123456789"

  // kBase64 of the encoder.
  const ALPHABET := UPPER + LOWER + DIGITS + "+/"

  function Symbol(v: Value): char {
    if v < 26 then 'A' + v as char
    else if v < 52 then 'a' + (v - 26) as char
    else if v < 62 then '0' + (v - 52) as char
    else if v == 62 then '+'
    else '/'
  }

  /** The decoder's ranges. */
  function ValueOf(c: char): Option<Value> {
    if 'A' <= c <= 'Z' then Some((c - 'A') as nat)
    else if 'a' <= c <= 'z' then Some((c - 'a') as nat + 26)
    else if '0' <= c <= '9' then Some((c - '0') as nat + 52)
    else if c == '+' then Some(62)
    else if c == '/' then Some(63)
    else None
  }

  lemma UpperIs(v: Value)
    requires v < 26
    ensures UPPER[v] == 'A' + v as char
  {
  }

  lemma LowerIs(v: Value)
    requires v < 26
    ensures LOWER[v] == 'a' + v as char
  {
  }

  /** The encoder's table has the symbols in the order of their values. */
  lemma TableIs(v: Value)
    ensures ALPHABET[v] == Symbol(v)
  {
    if v < 26 {
      UpperIs(v);
      assert ALPHABET[v] == UPPER[v];
    } else if v < 52 {
      LowerIs(v - 26);
      assert ALPHABET[v] == LOWER[v - 26];
    } else if v < 62 {
      assert ALPHABET[v] == DIGITS[v - 52];
    } else {
      assert ALPHABET[v] == "+/"[v - 62];
    }
  }

  /** Symbols and values are inverse to each other. */
  lemma SymbolsMatch(v: Value, c: char)
    ensures Symbol(v) != '='
    ensures ValueOf(c) == Some(v) <==> c == Symbol(v)
  {
  }

  // ----- Groups: up to three bytes, four characters -----

  // The four six-bit values of a group; those missing are padding.
  datatype Quad = Quad(v0: Value, v1: Value, v2: Option<Value>, v3: Option<Value>)

  predicate Proper(q: Quad) {
    q.v3.Some? ==> q.v2.Some?
  }

  function Sixes(g: Bytes): (q: Quad)
    requires 1 <= |g| <= 3
    ensures Proper(q)
  {
    if |g| == 1 then Quad(g[0] / 4, g[0] % 4 * 16, None, None)
    else if |g| == 2 then Quad(g[0] / 4, g[0] % 4 * 16 + g[1] / 16, Some(g[1] % 16 * 4), None)
    else Quad(g[0] / 4, g[0] % 4 * 16 + g[1] / 16, Some(g[1] % 16 * 4 + g[2] / 64), Some(g[2] % 64))
  }

  function Eights(q: Quad): (g: Bytes)
    requires Proper(q)
    ensures 1 <= |g| <= 3
  {
    var b0: byte := q.v0 * 4 + q.v1 / 16;
    if q.v2.None? then [b0]
    else
      var b1: byte := q.v1 % 16 * 16 + q.v2.value / 4;
      if q.v3.None? then [b0, b1] else [b0, b1, q.v2.value % 4 * 64 + q.v3.value]
  }

  /** The bits of the last symbol that no byte uses are zero. */
  function Cleared(q: Quad): Quad
    requires Proper(q)
  {
    if q.v2.None? then q.(v1 := q.v1 / 16 * 16)
    else if q.v3.None? then q.(v2 := Some(q.v2.value / 4 * 4))
    else q
  }

  lemma Digits4(hi: nat, lo: nat)
    requires lo < 4
    ensures (hi * 4 + lo) / 4 == hi && (hi * 4 + lo) % 4 == lo
  {
  }

  lemma Digits16(hi: nat, lo: nat)
    requires lo < 16
    ensures (hi * 16 + lo) / 16 == hi && (hi * 16 + lo) % 16 == lo
  {
  }

  lemma Digits64(hi: nat, lo: nat)
    requires lo < 64
    ensures (hi * 64 + lo) / 64 == hi && (hi * 64 + lo) % 64 == lo
  {
  }

  lemma SixesThenEights(g: Bytes)
    requires 1 <= |g| <= 3
    ensures Eights(Sixes(g)) == g
  {
    Digits16(g[0] % 4, if |g| > 1 then g[1] / 16 else 0);
    if |g| > 1 {
      Digits4(g[1] % 16, if |g| > 2 then g[2] / 64 else 0);
    }
  }

  lemma EightsThenSixes(q: Quad)
    requires Proper(q)
    ensures Sixes(Eights(q)) == Cleared(q)
  {
    Digits4(q.v0, q.v1 / 16);
    if q.v2.Some? {
      Digits16(q.v1 % 16, q.v2.value / 4);
    }
    if q.v3.Some? {
      Digits64(q.v2.value % 4, q.v3.value);
    }
  }

  // ----- Groups as text -----

  function Mark(v: Option<Value>): char {
    if v.None? then '=' else Symbol(v.value)
  }

  function Text(q: Quad): (r: string)
    ensures |r| == 4
  {
    [Symbol(q.v0), Symbol(q.v1), Mark(q.v2), Mark(q.v3)]
  }

  predicate Readable(c: char) {
    c == '=' || ValueOf(c).Some?
  }

  function Read(g: string): (r: Option<Quad>)
    requires |g| == 4
    ensures r.Some? ==> Proper(r.value)
  {
    var v0, v1, v2, v3 := ValueOf(g[0]), ValueOf(g[1]), ValueOf(g[2]), ValueOf(g[3]);
    if v0.None? || v1.None? || !Readable(g[2]) || !Readable(g[3]) || (g[2] == '=' && g[3] != '=') then None
    else Some(Quad(v0.value, v1.value, v2, v3))
  }

  lemma MarkReads(v: Option<Value>, c: char)
    ensures c == Mark(v) <==> Readable(c) && ValueOf(c) == v
    ensures v.None? <==> Mark(v) == '='
  {
    if v.Some? {
      SymbolsMatch(v.value, c);
    }
  }

  /** Reading and writing groups are inverse to each other. */
  lemma TextReads(q: Quad, g: string)
    requires Proper(q) && |g| == 4
    ensures Read(g) == Some(q) <==> g == Text(q)
  {
    MarkReads(Some(q.v0), g[0]);
    MarkReads(Some(q.v1), g[1]);
    MarkReads(q.v2, g[2]);
    MarkReads(q.v3, g[3]);
  }

  // ----- Whole texts -----

  function Texts(qs: seq<Quad>): string {
    if qs == [] then "" else Text(qs[0]) + Texts(qs[1..])
  }

  // The bytes of the first group, all but the last of which have three.
  function FirstSize(b: Bytes): nat {
    if |b| <= 3 then |b| else 3
  }

  function Groups(b: Bytes): seq<Quad>
    decreases |b|
  {
    if b == [] then [] else [Sixes(b[..FirstSize(b)])] + Groups(b[FirstSize(b)..])
  }

  function Encoded(b: Bytes): string {
    Texts(Groups(b))
  }

  /** The groups of a text, of which only the last may be padded. */
  function Quads(s: string): (r: Option<seq<Quad>>)
    ensures r.Some? ==> forall i :: 0 <= i < |r.value| ==> Proper(r.value[i])
  {
    if s == "" then Some([])
    else if |s| < 4 then None
    else
      var q, rest := Read(s[..4]), Quads(s[4..]);
      if q.None? || rest.None? || (q.value.v3.None? && s[4..] != "") then None
      else Some([q.value] + rest.value)
  }

  function Bytewise(qs: seq<Quad>): Bytes
    requires forall i :: 0 <= i < |qs| ==> Proper(qs[i])
  {
    if qs == [] then [] else Eights(qs[0]) + Bytewise(qs[1..])
  }

  /** What the text stands for, if it is base64. */
  function Decoded(s: string): Option<Bytes> {
    if Quads(s).None? then None else Some(Bytewise(Quads(s).value))
  }

  // All quads are full, but the last may be padded.
  predicate Padded(qs: seq<Quad>) {
    (forall i :: 0 <= i < |qs| ==> Proper(qs[i])) && forall i :: 0 <= i < |qs| - 1 ==> qs[i].v3.Some?
  }

  function ClearLast(qs: seq<Quad>): seq<Quad>
    requires Padded(qs)
  {
    if qs == [] then [] else qs[..|qs| - 1] + [Cleared(qs[|qs| - 1])]
  }

  lemma OneGroup(g: Bytes)
    requires 1 <= |g| <= 3
    ensures Encoded(g) == Text(Sixes(g))
  {
    assert g[..|g|] == g && g[|g|..] == [];
    assert Groups(g) == [Sixes(g)] + Groups([]) == [Sixes(g)];
    assert Texts([Sixes(g)]) == Text(Sixes(g)) + Texts([]);
  }

  /** Test vectors of section 10: f, fo and foo. */
  lemma VectorOfOne()
    ensures Encoded([0x66]) == "Zg=="
  {
    OneGroup([0x66]);
  }

  lemma VectorOfTwo()
    ensures Encoded([0x66, 0x6f]) == "Zm8="
  {
    OneGroup([0x66, 0x6f]);
  }

  lemma VectorOfThree()
    ensures Encoded([0x66, 0x6f, 0x6f]) == "Zm9v"
  {
    OneGroup([0x66, 0x6f, 0x6f]);
  }

  lemma TextsLength(qs: seq<Quad>)
    ensures |Texts(qs)| == 4 * |qs|
  {
  }

  // ----- Bytes and groups -----

  lemma {:induction false} GroupsCount(b: Bytes)
    ensures |Groups(b)| == (|b| + 2) / 3
    decreases |b|
  {
    if |b| > 3 {
      GroupsCount(b[3..]);
    } else if b != [] {
      assert b[|b|..] == [];
    }
  }

  lemma {:induction false} GroupsPadded(b: Bytes)
    ensures Padded(Groups(b))
    decreases |b|
  {
    if b != [] {
      var rest := Groups(b[FirstSize(b)..]);
      GroupsPadded(b[FirstSize(b)..]);
      assert Groups(b) == [Sixes(b[..FirstSize(b)])] + rest;
    }
  }

  lemma SplitFirst(b: Bytes)
    ensures b[..FirstSize(b)] + b[FirstSize(b)..] == b
  {
  }

  lemma {:induction false} GroupsHold(b: Bytes)
    ensures Padded(Groups(b)) && Bytewise(Groups(b)) == b
    decreases |b|
  {
    GroupsPadded(b);
    if b != [] {
      var n := FirstSize(b);
      GroupsHold(b[n..]);
      SixesThenEights(b[..n]);
      SplitFirst(b);
      assert Groups(b)[1..] == Groups(b[n..]);
    }
  }

  lemma {:induction false} BytewiseCount(qs: seq<Quad>)
    requires Padded(qs)
    ensures |Bytewise(qs)| <= 3 * |qs| && (qs != [] ==> 3 * |qs| - 2 <= |Bytewise(qs)|)
    decreases |qs|
  {
    if qs != [] {
      BytewiseCount(qs[1..]);
    }
  }

  lemma {:induction false} BytewiseGroups(qs: seq<Quad>)
    requires Padded(qs)
    ensures Groups(Bytewise(qs)) == ClearLast(qs)
    decreases |qs|
  {
    if |qs| == 1 {
      EightsThenSixes(qs[0]);
      OnlyGroup(qs[0]);
      assert qs[1..] == [];
    } else if |qs| > 1 {
      BytewiseGroups(qs[1..]);
      FullGroup(qs[0]);
      FirstGroup(Eights(qs[0]), Bytewise(qs[1..]));
      ClearLastCons(qs);
    }
  }

  lemma FullGroup(q: Quad)
    requires Proper(q) && q.v3.Some?
    ensures |Eights(q)| == 3 && Sixes(Eights(q)) == q
  {
    EightsThenSixes(q);
  }

  lemma ClearLastCons(qs: seq<Quad>)
    requires Padded(qs) && |qs| > 1
    ensures Padded(qs[1..]) && ClearLast(qs) == [qs[0]] + ClearLast(qs[1..])
  {
  }

  lemma OnlyGroup(q: Quad)
    requires Proper(q)
    ensures Groups(Eights(q) + []) == [Sixes(Eights(q))]
  {
    var b := Eights(q);
    assert b + [] == b && b[..FirstSize(b)] == b && b[FirstSize(b)..] == [];
  }

  lemma FirstGroup(first: Bytes, rest: Bytes)
    requires |first| == 3
    ensures Groups(first + rest) == [Sixes(first)] + Groups(rest)
  {
    var b := first + rest;
    assert b[..FirstSize(b)] == first && b[FirstSize(b)..] == rest;
  }

  // ----- Text and groups -----

  lemma {:induction false} TextsAreQuads(qs: seq<Quad>)
    requires Padded(qs)
    ensures Quads(Texts(qs)) == Some(qs)
    decreases |qs|
  {
    if qs != [] {
      TextsAreQuads(qs[1..]);
      TextReads(qs[0], Text(qs[0]));
      var s := Text(qs[0]) + Texts(qs[1..]);
      assert s[..4] == Text(qs[0]) && s[4..] == Texts(qs[1..]);
      TextsLength(qs[1..]);
      assert [qs[0]] + qs[1..] == qs;
    }
  }

  lemma {:induction false} QuadsAreTexts(s: string)
    requires Quads(s).Some?
    ensures Padded(Quads(s).value) && Texts(Quads(s).value) == s
    decreases |s|
  {
    if s != "" {
      QuadsAreTexts(s[4..]);
      TextReads(Read(s[..4]).value, s[..4]);
      assert Quads(s).value[1..] == Quads(s[4..]).value;
      assert s == s[..4] + s[4..];
    }
  }

  // ----- Main results -----

  /** Decoding undoes encoding, and four characters stand for every three bytes begun. */
  lemma RoundTrip(b: Bytes)
    ensures Decoded(Encoded(b)) == Some(b)
    ensures |Encoded(b)| == 4 * ((|b| + 2) / 3)
  {
    GroupsHold(b);
    GroupsCount(b);
    TextsAreQuads(Groups(b));
    TextsLength(Groups(b));
  }

  /** Encoding an accepted text again gives it back, except for the bits of its last symbol
      before the padding that stand for no byte, which come out as zeros. */
  lemma Reencoded(s: string)
    requires Decoded(s).Some?
    ensures Padded(Quads(s).value) && Texts(Quads(s).value) == s
    ensures Encoded(Decoded(s).value) == Texts(ClearLast(Quads(s).value))
    ensures |Encoded(Decoded(s).value)| == |s|
  {
    QuadsAreTexts(s);
    BytewiseGroups(Quads(s).value);
    TextsLength(ClearLast(Quads(s).value));
    TextsLength(Quads(s).value);
  }

  /** An accepted text is exactly what encoding gives, if and only if those bits are zero. */
  lemma CanonicalIff(s: string)
    requires Decoded(s).Some?
    ensures Padded(Quads(s).value)
    ensures Encoded(Decoded(s).value) == s <==> ClearLast(Quads(s).value) == Quads(s).value
  {
    Reencoded(s);
    var qs := Quads(s).value;
    var cleared := ClearLast(qs);
    if Texts(cleared) == Texts(qs) {
      TextsAreQuads(cleared);
      TextsAreQuads(qs);
    }
  }

  /** The bytes of an accepted text fit in three quarters of its length. */
  lemma DecodedFits(s: string)
    requires Decoded(s).Some?
    ensures 4 * |Decoded(s).value| <= 3 * |s|
    ensures |s| == 4 * ((|Decoded(s).value| + 2) / 3)
  {
    var qs := Quads(s).value;
    QuadsAreTexts(s);
    assert |s| == 4 * |qs| by { TextsLength(qs); }
    BytewiseCount(qs);
    Thirds(|qs|, |Bytewise(qs)|);
  }

  lemma Thirds(n: nat, bytes: nat)
    requires bytes <= 3 * n && (n > 0 ==> 3 * n - 2 <= bytes)
    ensures n == (bytes + 2) / 3
  {
  }

  // ----- The encoder -----

  // Three bytes as one number of 24 bits, zeros for those that are missing.
  function Packed(a: nat, b: nat, c: nat): nat {
    (a * 0x100 + b) * 0x100 + c
  }

  lemma Cut64(x: nat, q: nat, r: nat)
    requires x == q * 64 + r && r < 64
    ensures x / 64 == q && x % 64 == r
  {
  }

  lemma Cut12(x: nat, q: nat, r: nat)
    requires x == q * 0x1000 + r && r < 0x1000
    ensures x / 0x1000 == q
  {
  }

  lemma Cut18(x: nat, q: nat, r: nat)
    requires x == q * 0x4_0000 + r && r < 0x4_0000
    ensures x / 0x4_0000 == q
  {
  }

  /** The number shifted and masked gives the sixes of the bytes. */
  lemma PackedSixes(a: byte, b: byte, c: byte)
    ensures var p := Packed(a, b, c);
            && p / 0x4_0000 == a / 4
            && p / 0x1000 % 64 == a % 4 * 16 + b / 16
            && p / 64 % 64 == b % 16 * 4 + c / 64
            && p % 64 == c % 64
  {
    var p := Packed(a, b, c);
    var a1, a0, b1, b0, c1, c0 := a / 4, a % 4, b / 16, b % 16, c / 64, c % 64;
    Cut18(p, a1, a0 * 0x1_0000 + b * 0x100 + c);
    Cut12(p, a * 16 + b1, b0 * 0x100 + c);
    Cut64(a * 16 + b1, a1, a0 * 16 + b1);
    Cut64(p, a * 0x400 + b * 4 + c1, c0);
    Cut64(a * 0x400 + b * 4 + c1, a * 16 + b1, b0 * 4 + c1);
  }

  method Base64Encode(input: Bytes) returns (ret: string)
    ensures ret == Encoded(input)
  {
    ret := "";
    var ptr := 0;
    assert input[0..] == input;
    while ptr < |input|
      invariant ptr <= |input|
      invariant ret + Encoded(input[ptr..]) == Encoded(input)
    {
      ghost var rest := input[ptr..];
      var n := if |input| - ptr < 3 then |input| - ptr else 3;
      var four := EncodeGroup(input[ptr..ptr + n]);
      assert rest[..FirstSize(rest)] == input[ptr..ptr + n] && rest[FirstSize(rest)..] == input[ptr + n..];
      ret := ret + four;
      ptr := ptr + n;
    }
  }

  /** The body of the loop, for the bytes it takes. */
  method EncodeGroup(g: Bytes) returns (four: string)
    requires 1 <= |g| <= 3
    ensures four == Text(Sixes(g))
  {
    var packed, padding := PackBytes(g);
    PackedAll(g);
    four := [ALPHABET[packed / 0x4_0000], ALPHABET[packed / 0x1000 % 64]];
    if padding != 2 {
      four := four + [ALPHABET[packed / 64 % 64]];
    }
    if padding == 0 {
      four := four + [ALPHABET[packed % 64]];
    }
    four := four + (if padding == 0 then "" else if padding == 1 then "=" else "==");
  }

  method PackBytes(g: Bytes) returns (packed: nat, padding: nat)
    requires 1 <= |g| <= 3
    ensures packed == PackedTo(g, 3) && padding == 3 - |g|
  {
    packed := 0;
    var i := 0;
    while i < 3 && i < |g|
      invariant i <= |g| && packed == PackedTo(g, i)
    {
      packed := packed * 0x100 + g[i];
      i := i + 1;
    }
    padding := if i == 2 then 1 else if i == 1 then 2 else 0;
    while i < 3
      invariant |g| <= i <= 3 && packed == PackedTo(g, i)
    {
      packed := packed * 0x100;
      i := i + 1;
    }
  }

  function PackedTo(g: Bytes, i: nat): nat {
    if i == 0 then 0 else PackedTo(g, i - 1) * 0x100 + (if i <= |g| then g[i - 1] else 0)
  }

  lemma PackedIs(g: Bytes, a: nat, b: nat, c: nat)
    requires 1 <= |g| <= 3 && a == g[0] && b == (if |g| > 1 then g[1] else 0) && c == (if |g| > 2 then g[2] else 0)
    ensures PackedTo(g, 3) == Packed(a, b, c)
  {
    assert PackedTo(g, 1) == a;
    assert PackedTo(g, 2) == a * 0x100 + b;
  }

  lemma PackedSymbols(g: Bytes, p: nat)
    requires 1 <= |g| <= 3 && p < 0x100_0000
    requires var q := Sixes(g);
             && p / 0x4_0000 == q.v0 && p / 0x1000 % 64 == q.v1
             && (q.v2.Some? ==> p / 64 % 64 == q.v2.value) && (q.v3.Some? ==> p % 64 == q.v3.value)
    ensures var q := Sixes(g);
            && ALPHABET[p / 0x4_0000] == Symbol(q.v0) && ALPHABET[p / 0x1000 % 64] == Symbol(q.v1)
            && (q.v2.Some? ==> ALPHABET[p / 64 % 64] == Symbol(q.v2.value))
            && (q.v3.Some? ==> ALPHABET[p % 64] == Symbol(q.v3.value))
  {
    TableIs(p / 0x4_0000);
    TableIs(p / 0x1000 % 64);
    TableIs(p / 64 % 64);
    TableIs(p % 64);
  }

  lemma PackedAll(g: Bytes)
    requires 1 <= |g| <= 3
    ensures PackedTo(g, 3) < 0x100_0000
    ensures var q, p := Sixes(g), PackedTo(g, 3);
            && ALPHABET[p / 0x4_0000] == Symbol(q.v0) && ALPHABET[p / 0x1000 % 64] == Symbol(q.v1)
            && (q.v2.Some? ==> ALPHABET[p / 64 % 64] == Symbol(q.v2.value))
            && (q.v3.Some? ==> ALPHABET[p % 64] == Symbol(q.v3.value))
  {
    var b: byte := if |g| > 1 then g[1] else 0;
    var c: byte := if |g| > 2 then g[2] else 0;
    PackedIs(g, g[0], b, c);
    PackedSixes(g[0], b, c);
    PackedSymbols(g, Packed(g[0], b, c));
  }

  // ----- The decoder -----

  predicate Clean(g: string, n: nat)
    requires n <= |g|
  {
    (forall j :: 0 <= j < n ==> Readable(g[j])) && forall j, k :: 0 <= j < k < n && g[j] == '=' ==> g[k] == '='
  }

  function Pads(g: string, n: nat): nat
    requires n <= |g|
  {
    if n == 0 then 0 else Pads(g, n - 1) + (if g[n - 1] == '=' then 1 else 0)
  }

  function PackedChars(g: string, n: nat): nat
    requires n <= |g|
  {
    if n == 0 then 0
    else PackedChars(g, n - 1) * 64 + (if ValueOf(g[n - 1]).Some? then ValueOf(g[n - 1]).value else 0)
  }

  /** The checks made character by character are those of a group. */
  lemma ChecksRead(g: string)
    requires |g| == 4
    ensures Read(g).Some? <==> Clean(g, 4) && Pads(g, 4) <= 2
    ensures Read(g).Some? ==> Pads(g, 4) == if Read(g).value.v2.None? then 2 else if Read(g).value.v3.None? then 1 else 0
  {
    assert ValueOf('=').None?;
    assert Pads(g, 1) == (if g[0] == '=' then 1 else 0);
    assert Pads(g, 2) == Pads(g, 1) + (if g[1] == '=' then 1 else 0);
    assert Pads(g, 3) == Pads(g, 2) + (if g[2] == '=' then 1 else 0);
  }

  lemma Cut8(x: nat, q: nat, r: nat)
    requires x == q * 0x100 + r && r < 0x100
    ensures x / 0x100 == q && x % 0x100 == r
  {
  }

  lemma Cut16(x: nat, q: nat, r: nat)
    requires x == q * 0x1_0000 + r && r < 0x1_0000
    ensures x / 0x1_0000 == q
  {
  }

  lemma PackedEights(v0: Value, v1: Value, v2: Value, v3: Value)
    ensures var p := ((v0 * 64 + v1) * 64 + v2) * 64 + v3;
            && p / 0x1_0000 % 0x100 == v0 * 4 + v1 / 16
            && p / 0x100 % 0x100 == v1 % 16 * 16 + v2 / 4
            && p % 0x100 == v2 % 4 * 64 + v3
  {
    var p := ((v0 * 64 + v1) * 64 + v2) * 64 + v3;
    var b0, b1, b2 := v0 * 4 + v1 / 16, v1 % 16 * 16 + v2 / 4, v2 % 4 * 64 + v3;
    Cut16(p, b0, b1 * 0x100 + b2);
    Cut8(p, b0 * 0x100 + b1, b2);
    Cut8(b0 * 0x100 + b1, b0, b1);
  }

  /** The bytes cut out of the packed number are those of the group. */
  lemma PackedBytes(g: string)
    requires |g| == 4 && Read(g).Some?
    ensures var b, p := Eights(Read(g).value), PackedChars(g, 4);
            && |b| == 3 - Pads(g, 4)
            && b[0] == p / 0x1_0000 % 0x100
            && (|b| > 1 ==> b[1] == p / 0x100 % 0x100)
            && (|b| > 2 ==> b[2] == p % 0x100)
  {
    ChecksRead(g);
    var q := Read(g).value;
    var v2: Value := if q.v2.Some? then q.v2.value else 0;
    var v3: Value := if q.v3.Some? then q.v3.value else 0;
    assert PackedChars(g, 1) == q.v0;
    assert PackedChars(g, 2) == q.v0 * 64 + q.v1;
    assert PackedChars(g, 3) == (q.v0 * 64 + q.v1) * 64 + v2;
    assert PackedChars(g, 4) == ((q.v0 * 64 + q.v1) * 64 + v2) * 64 + v3;
    PackedEights(q.v0, q.v1, v2, v3);
  }

  /** The inner loop: the values of at most four characters, or no. */
  method ReadGroup(g: string) returns (ok: bool, packed: nat, padding: nat)
    requires |g| <= 4
    ensures ok <==> Clean(g, |g|)
    ensures ok ==> packed == PackedChars(g, |g|) && padding == Pads(g, |g|)
  {
    ok, packed, padding := true, 0, 0;
    for i := 0 to |g|
      invariant Clean(g, i) && packed == PackedChars(g, i) && padding == Pads(g, i)
      invariant padding > 0 <==> i > 0 && g[i - 1] == '='
    {
      if g[i] == '=' {
        padding := padding + 1;
        packed := packed * 64;
        continue;
      }
      if padding > 0 || ValueOf(g[i]).None? {
        return false, packed, padding;
      }
      packed := packed * 64 + ValueOf(g[i]).value;
    }
  }

  lemma DecodedStep(s: string)
    requires s != ""
    ensures |s| < 4 ==> Decoded(s).None?
    ensures |s| >= 4 && (Read(s[..4]).None? || (Read(s[..4]).value.v3.None? && |s| > 4)) ==> Decoded(s).None?
    ensures |s| >= 4 && Read(s[..4]).Some? && (Read(s[..4]).value.v3.Some? || |s| == 4) ==>
      && (Decoded(s).Some? <==> Decoded(s[4..]).Some?)
      && (Decoded(s).Some? ==> Decoded(s).value == Eights(Read(s[..4]).value) + Decoded(s[4..]).value)
  {
    if |s| >= 4 && Quads(s[4..]).Some? && Read(s[..4]).Some? {
      var q, rest := Read(s[..4]).value, Quads(s[4..]).value;
      assert ([q] + rest)[1..] == rest;
    }
  }

  // What is decoded already, and what the rest will give.
  predicate Onward(input: string, done: Bytes, rest: string) {
    && (Decoded(input).Some? <==> Decoded(rest).Some?)
    && (Decoded(input).Some? ==> Decoded(input).value == done + Decoded(rest).value)
  }

  lemma OnwardStep(input: string, done: Bytes, rest: string)
    requires Onward(input, done, rest) && |rest| >= 4 && Read(rest[..4]).Some?
    requires Read(rest[..4]).value.v3.Some? || |rest| == 4
    ensures Onward(input, done + Eights(Read(rest[..4]).value), rest[4..])
  {
    DecodedStep(rest);
    if Decoded(input).Some? {
      var e, later := Eights(Read(rest[..4]).value), Decoded(rest[4..]).value;
      assert done + (e + later) == (done + e) + later;
    }
  }

  /** One to three bytes into the buffer. */
  method WriteGroup(buf: array<byte>, write: nat, packed: nat, padding: nat, ghost e: Bytes) returns (write': nat)
    requires padding <= 2 && |e| == 3 - padding && write + |e| <= buf.Length
    requires e[0] == packed / 0x1_0000 % 0x100
    requires (|e| > 1 ==> e[1] == packed / 0x100 % 0x100) && (|e| > 2 ==> e[2] == packed % 0x100)
    modifies buf
    ensures write' == write + |e| && buf[..write'] == old(buf[..write]) + e
  {
    write' := write;
    buf[write'] := packed / 0x1_0000 % 0x100;
    write' := write' + 1;
    if padding != 2 {
      buf[write'] := packed / 0x100 % 0x100;
      write' := write' + 1;
    }
    if padding == 0 {
      buf[write'] := packed % 0x100;
      write' := write' + 1;
    }
  }

  function OrEmpty(r: Option<Bytes>): Bytes {
    if r.Some? then r.value else []
  }

  /** Writes into a buffer of three quarters of the input; a text that is not base64 gives
      nothing, like the empty one. */
  method Base64Decode(input: string) returns (result: Bytes)
    ensures result == OrEmpty(Decoded(input))
  {
    var buf := new byte[|input| * 3 / 4];
    var write: nat := 0;
    var ptr := 0;
    assert input[0..] == input && buf[..0] == [];
    assert forall b: Bytes :: [] + b == b;
    while ptr < |input|
      invariant ptr <= |input| && 4 * write <= 3 * ptr && write <= buf.Length
      invariant Onward(input, buf[..write], input[ptr..])
    {
      ghost var rest, done := input[ptr..], buf[..write];
      DecodedStep(rest);
      var n := if |input| - ptr < 4 then |input| - ptr else 4;
      var g := input[ptr..ptr + n];
      var ok, packed, padding := ReadGroup(g);
      ptr := ptr + n;
      if !ok || n != 4 {
        if n == 4 { ChecksRead(g); assert rest[..4] == g; }
        return [];
      }
      ChecksRead(g);
      assert rest[..4] == g && rest[4..] == input[ptr..];
      if padding > 0 && ptr != |input| {
        return [];
      }
      if padding > 2 {
        return [];
      }
      OnwardStep(input, done, rest);
      PackedBytes(g);
      write := WriteGroup(buf, write, packed, padding, Eights(Read(g).value));
    }
    assert input[ptr..] == "";
    return buf[..write];
  }
}
