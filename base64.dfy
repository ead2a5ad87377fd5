/** `btoa`, the browser's base64 encoder, which the dashboard uses to turn
    the JSON of a data snapshot into a cache key. A string is encoded as the
    Latin-1 bytes of its characters; a character above U+00FF makes `btoa`
    throw, modelled as `None`. */
module Base64 {
  import opened Common

  /** A byte value. */
  predicate IsByte(x: int)
  {
    0 <= x < 256
  }

  predicate Bytes(b: seq<int>)
  {
    forall i :: 0 <= i < |b| ==> IsByte(b[i])
  }

  /** The base64 alphabet: A-Z, a-z, 0-9, '+', '/'. */
  function Symbol(k: int): (c: char)
    requires 0 <= k < 64
    ensures c != '='
  {
    if k < 26 then (('A' as int) + k) as char
    else if k < 52 then (('a' as int) + (k - 26)) as char
    else if k < 62 then (('0' as int) + (k - 52)) as char
    else if k == 62 then '+'
    else '/'
  }

  /** The inverse of `Symbol`. */
  function SymbolValue(c: char): (k: int)
    ensures 0 <= k < 64
  {
    if 'A' <= c <= 'Z' then (c as int) - ('A' as int)
    else if 'a' <= c <= 'z' then (c as int) - ('a' as int) + 26
    else if '0' <= c <= '9' then (c as int) - ('0' as int) + 52
    else if c == '+' then 62
    else 63
  }

  lemma SymbolRoundTrip(k: int)
    requires 0 <= k < 64
    ensures SymbolValue(Symbol(k)) == k
  {
  }

  /** Three bytes become four symbols; one or two trailing bytes are padded
      with '='. */
  function Encode(b: seq<int>): (r: string)
    requires Bytes(b)
    ensures |r| == (|b| + 2) / 3 * 4
    decreases |b|
  {
    if |b| >= 3 then
      var rest := Encode(b[3..]);
      LengthStep(|b|);
      Group(b[0], b[1], b[2]) + rest
    else Tail(b)
  }

  /** The end of the input: one or two bytes padded, or nothing. */
  function Tail(b: seq<int>): (r: string)
    requires Bytes(b) && |b| < 3
    ensures |r| == (|b| + 2) / 3 * 4
  {
    if |b| == 2 then Pair(b[0], b[1])
    else if |b| == 1 then Single(b[0])
    else []
  }

  /** Three more bytes are four more symbols. */
  lemma LengthStep(n: int)
    requires n >= 3
    ensures (n - 3 + 2) / 3 * 4 + 4 == (n + 2) / 3 * 4
  {
    assert n + 2 == (n - 3 + 2) + 3;
  }

  /** Two trailing bytes: three symbols and one '='. */
  function Pair(x: int, y: int): (r: string)
    requires IsByte(x) && IsByte(y)
    ensures |r| == 4 && r[3] == '=' && r[2] != '='
  {
    [Symbol(x / 4), Symbol(x % 4 * 16 + y / 16), Symbol(y % 16 * 4), '=']
  }

  /** One trailing byte: two symbols and two '='. */
  function Single(x: int): (r: string)
    requires IsByte(x)
    ensures |r| == 4 && r[2] == '=' && r[3] == '='
  {
    [Symbol(x / 4), Symbol(x % 4 * 16), '=', '=']
  }

  /** The character codes of a string. */
  function Codes(s: string): (b: seq<int>)
    ensures |b| == |s|
    ensures forall i :: 0 <= i < |s| ==> b[i] == s[i] as int
  {
    seq(|s|, i requires 0 <= i < |s| => s[i] as int)
  }

  predicate Latin1(s: string)
  {
    forall i :: 0 <= i < |s| ==> s[i] as int < 256
  }

  /** `btoa(s)`, or `None` where `btoa` throws. */
  function Btoa(s: string): (r: Option<string>)
    ensures r.Some? <==> Latin1(s)
    ensures r.Some? ==> |r.value| == (|s| + 2) / 3 * 4
  {
    if Latin1(s) then Some(Encode(Codes(s))) else None
  }

  /* ---------- the first symbols depend only on the first bytes ---------- */

  /** The first `4 * n` symbols encode the first `3 * n` bytes and nothing
      else. */
  lemma {:induction false} EncodePrefix(b: seq<int>, n: nat)
    requires Bytes(b) && 3 * n <= |b|
    ensures 4 * n <= |Encode(b)|
    ensures Encode(b)[..4 * n] == Encode(b[..3 * n])
    decreases n
  {
    if n > 0 {
      var head := b[..3 * n];
      assert head[..3] == b[..3];
      assert head[3..] == b[3..][..3 * (n - 1)];
      EncodePrefix(b[3..], n - 1);
    }
  }

  /** So the first 16 characters of `btoa(s)` are those of `btoa` of the first
      12 characters of `s`. */
  lemma BtoaPrefix(s: string)
    requires Latin1(s) && |s| >= 12
    ensures |Btoa(s).value| >= 16
    ensures Btoa(s).value[..16] == Btoa(s[..12]).value
  {
    EncodePrefix(Codes(s), 4);
    assert Codes(s)[..12] == Codes(s[..12]);
  }

  /** The four symbols of three bytes. */
  function Group(x: int, y: int, z: int): string
    requires IsByte(x) && IsByte(y) && IsByte(z)
  {
    [Symbol(x / 4), Symbol(x % 4 * 16 + y / 16), Symbol(y % 16 * 4 + z / 64), Symbol(z % 64)]
  }

  lemma EncodeGroup(x: int, y: int, z: int, rest: seq<int>)
    requires IsByte(x) && IsByte(y) && IsByte(z) && Bytes(rest)
    ensures Bytes([x, y, z] + rest)
    ensures Encode([x, y, z] + rest) == Group(x, y, z) + Encode(rest)
  {
    assert ([x, y, z] + rest)[3..] == rest;
  }

  /** `btoa('{"reputation')` */
  lemma ReputationPrefixEncoding()
    ensures Btoa("{\"reputation") == Some("eyJyZXB1dGF0aW9u")
  {
    ReputationCodes();
    ReputationGroups();
    EncodeGroup(105, 111, 110, []);
    EncodeGroup(116, 97, 116, [105, 111, 110] + []);
    EncodeGroup(101, 112, 117, [116, 97, 116] + ([105, 111, 110] + []));
    EncodeGroup(123, 34, 114, [101, 112, 117] + ([116, 97, 116] + ([105, 111, 110] + [])));
    assert Encode([]) == "";
    assert "eyJy" + ("ZXB1" + ("dGF0" + ("aW9u" + ""))) == "eyJyZXB1dGF0aW9u";
  }

  lemma ReputationCodes()
    ensures Latin1("{\"reputation")
    ensures Codes("{\"reputation") == [123, 34, 114] + ([101, 112, 117] + ([116, 97, 116] + ([105, 111, 110] + [])))
  {
  }

  lemma ReputationGroups()
    ensures Group(123, 34, 114) == "eyJy" && Group(101, 112, 117) == "ZXB1"
    ensures Group(116, 97, 116) == "dGF0" && Group(105, 111, 110) == "aW9u"
  {
  }

  /* ---------- decoding ---------- */

  /** `atob` of four symbols. */
  function DecodeGroup(g: string): (r: seq<int>)
    requires |g| == 4
  {
    var i0 := SymbolValue(g[0]);
    var i1 := SymbolValue(g[1]);
    var i2 := SymbolValue(g[2]);
    var i3 := SymbolValue(g[3]);
    if g[2] == '=' then [i0 * 4 + i1 / 16]
    else if g[3] == '=' then [i0 * 4 + i1 / 16, i1 % 16 * 16 + i2 / 4]
    else [i0 * 4 + i1 / 16, i1 % 16 * 16 + i2 / 4, i2 % 4 * 64 + i3]
  }

  function Decode(t: string): seq<int>
    decreases |t|
  {
    if |t| < 4 then [] else DecodeGroup(t[..4]) + Decode(t[4..])
  }

  /** Splitting a byte into its high and low bits and joining them again. */
  lemma JoinBits(x: int, hi: int, lo: int, k: int)
    requires 0 <= x && 0 < k && hi == x / k && lo == x % k
    ensures hi * k + lo == x
  {
  }

  lemma SplitBits16(q: int, r: int)
    requires 0 <= r < 16
    ensures (q * 16 + r) / 16 == q && (q * 16 + r) % 16 == r
  {
  }

  lemma SplitBits4(q: int, r: int)
    requires 0 <= r < 4
    ensures (q * 4 + r) / 4 == q && (q * 4 + r) % 4 == r
  {
  }

  lemma GroupRoundTrip(x: int, y: int, z: int)
    requires IsByte(x) && IsByte(y) && IsByte(z)
    ensures DecodeGroup(Group(x, y, z)) == [x, y, z]
  {
    var i0, i1, i2, i3 := x / 4, x % 4 * 16 + y / 16, y % 16 * 4 + z / 64, z % 64;
    SymbolRoundTrip(i0);
    SymbolRoundTrip(i1);
    SymbolRoundTrip(i2);
    SymbolRoundTrip(i3);
    SplitBits16(x % 4, y / 16);
    SplitBits4(y % 16, z / 64);
    JoinBits(x, i0, x % 4, 4);
    JoinBits(y, y / 16, y % 16, 16);
    JoinBits(z, z / 64, i3, 64);
  }

  lemma PairRoundTrip(x: int, y: int)
    requires IsByte(x) && IsByte(y)
    ensures DecodeGroup(Pair(x, y)) == [x, y]
  {
    SymbolRoundTrip(x / 4);
    SymbolRoundTrip(x % 4 * 16 + y / 16);
    SymbolRoundTrip(y % 16 * 4);
    SplitBits16(x % 4, y / 16);
    JoinBits(x, x / 4, x % 4, 4);
    JoinBits(y, y / 16, y % 16, 16);
  }

  lemma SingleRoundTrip(x: int)
    requires IsByte(x)
    ensures DecodeGroup(Single(x)) == [x]
  {
    SymbolRoundTrip(x / 4);
    SymbolRoundTrip(x % 4 * 16);
    JoinBits(x, x / 4, x % 4, 4);
  }

  /** Decoding a group and what follows it. */
  lemma DecodeCons(g: string, rest: string)
    requires |g| == 4
    ensures Decode(g + rest) == DecodeGroup(g) + Decode(rest)
  {
    assert (g + rest)[..4] == g;
    assert (g + rest)[4..] == rest;
  }

  /** Decoding inverts encoding. */
  lemma {:induction false} DecodeEncode(b: seq<int>)
    requires Bytes(b)
    ensures Decode(Encode(b)) == b
    decreases |b|
  {
    if |b| >= 3 {
      DecodeEncode(b[3..]);
      DecodeEncodeStep(b[0], b[1], b[2], b[3..]);
      assert [b[0], b[1], b[2]] + b[3..] == b;
    } else {
      DecodeEncodeShort(b);
      assert Encode(b) == Tail(b);
    }
  }

  /** The padded tails of one or two bytes, and the empty input. */
  lemma DecodeEncodeShort(b: seq<int>)
    requires Bytes(b) && |b| < 3
    ensures Decode(Tail(b)) == b
  {
    if |b| == 2 {
      PairRoundTrip(b[0], b[1]);
      DecodeCons(Pair(b[0], b[1]), "");
      assert Pair(b[0], b[1]) + "" == Pair(b[0], b[1]);
    } else if |b| == 1 {
      SingleRoundTrip(b[0]);
      DecodeCons(Single(b[0]), "");
      assert Single(b[0]) + "" == Single(b[0]);
    }
  }

  /** The step for a leading group of three bytes. */
  lemma DecodeEncodeStep(x: int, y: int, z: int, rest: seq<int>)
    requires IsByte(x) && IsByte(y) && IsByte(z) && Bytes(rest)
    requires Decode(Encode(rest)) == rest
    ensures Bytes([x, y, z] + rest)
    ensures Decode(Encode([x, y, z] + rest)) == [x, y, z] + rest
  {
    EncodeGroup(x, y, z, rest);
    DecodeCons(Group(x, y, z), Encode(rest));
    GroupRoundTrip(x, y, z);
  }

  /** Different Latin-1 strings have different encodings. */
  lemma BtoaInjective(s1: string, s2: string)
    requires Btoa(s1).Some? && Btoa(s1) == Btoa(s2)
    ensures s1 == s2
  {
    DecodeEncode(Codes(s1));
    DecodeEncode(Codes(s2));
    assert Codes(s1) == Codes(s2);
    assert forall i :: 0 <= i < |s1| ==> s1[i] as int == s2[i] as int;
  }
}
