/** The text helpers of src/utils/formatters.ts: `truncateText`,
    `capitalizeFirst` and `formatPlatformName`. Upper-casing is ASCII. */
module Formatters {
  import opened Common

  /* ---------- JavaScript strings ---------- */

  /** A UTF-16 code unit: JavaScript strings are sequences of these, and
      `length` and `substring` count them. */
  type CodeUnit = x: int | 0 <= x < 0x1_0000

  predicate IsHighSurrogate(u: CodeUnit) { 0xD800 <= u < 0xDC00 }

  predicate IsLowSurrogate(u: CodeUnit) { 0xDC00 <= u < 0xE000 }

  /** The UTF-16 encoding of one character: the character itself below
      U+10000, a high and a low surrogate above. */
  function CodeUnits(c: char): (r: seq<CodeUnit>)
    ensures c as int < 0x1_0000 ==> r == [c as int]
    ensures c as int >= 0x1_0000 ==>
      && |r| == 2 && IsHighSurrogate(r[0]) && IsLowSurrogate(r[1])
      && (r[0] as int - 0xD800) * 0x400 + (r[1] as int - 0xDC00) + 0x1_0000 == c as int
  {
    var n := c as int;
    if n < 0x1_0000 then [n]
    else [0xD800 + (n - 0x1_0000) / 0x400, 0xDC00 + (n - 0x1_0000) % 0x400]
  }

  /** A text as a JavaScript string. */
  function Utf16(s: string): seq<CodeUnit>
  {
    if s == [] then [] else CodeUnits(s[0]) + Utf16(s[1..])
  }

  /** Every high surrogate is followed by a low one. */
  predicate PairsComplete(u: seq<CodeUnit>)
  {
    forall i :: 0 <= i < |u| && IsHighSurrogate(u[i]) ==> i + 1 < |u| && IsLowSurrogate(u[i + 1])
  }

  lemma {:induction false} Utf16Append(a: string, b: string)
    ensures Utf16(a + b) == Utf16(a) + Utf16(b)
  {
    if a == [] {
      assert a + b == b;
    } else {
      assert (a + b)[0] == a[0] && (a + b)[1..] == a[1..] + b;
      Utf16Append(a[1..], b);
    }
  }

  /** Text below U+10000 has one code unit per character. */
  lemma {:induction false} Utf16Bmp(s: string)
    requires forall i :: 0 <= i < |s| ==> s[i] as int < 0x1_0000
    ensures |Utf16(s)| == |s|
  {
    if s != [] {
      Utf16Bmp(s[1..]);
    }
  }

  /** Text wholly above U+10000 has two code units per character. */
  lemma {:induction false} Utf16Astral(s: string)
    requires forall i :: 0 <= i < |s| ==> s[i] as int >= 0x1_0000
    ensures |Utf16(s)| == 2 * |s|
  {
    if s != [] {
      Utf16Astral(s[1..]);
    }
  }

  /** The encoding of any text leaves no surrogate pair incomplete. */
  lemma {:induction false} Utf16PairsComplete(s: string)
    ensures PairsComplete(Utf16(s))
  {
    if s != [] {
      Utf16PairsComplete(s[1..]);
      var h := CodeUnits(s[0]);
      var u := Utf16(s);
      assert u == h + Utf16(s[1..]);
      forall i | 0 <= i < |u| && IsHighSurrogate(u[i])
        ensures i + 1 < |u| && IsLowSurrogate(u[i + 1])
      {
        if i >= |h| {
          assert u[i] == Utf16(s[1..])[i - |h|];
        }
      }
    }
  }

  /* ---------- truncateText ---------- */

  /** "..." */
  const Ellipsis: seq<CodeUnit> := [0x2E, 0x2E, 0x2E]

  /** `truncateText(text, maxLength = 100)`: a text longer than `maxLength`
      code units keeps its first `maxLength` code units followed by "..."
      (`substring` clamps a negative length to 0). */
  function TruncateText(text: seq<CodeUnit>, maxLength: int := 100): (r: seq<CodeUnit>)
    ensures |text| <= maxLength ==> r == text
    ensures |text| > maxLength && maxLength >= 0 ==> r == text[..maxLength] + Ellipsis && |r| == maxLength + 3
    ensures |text| > maxLength && maxLength < 0 ==> r == Ellipsis
  {
    if |text| <= maxLength then text
    else (if maxLength < 0 then [] else text[..maxLength]) + Ellipsis
  }

  /** Truncating what was already truncated to the same length changes
      nothing. */
  lemma TruncateIdempotent(text: seq<CodeUnit>, maxLength: int)
    ensures TruncateText(TruncateText(text, maxLength), maxLength) == TruncateText(text, maxLength)
  {
    var r := TruncateText(text, maxLength);
    if |text| > maxLength && maxLength >= 0 {
      assert r[..maxLength] == text[..maxLength];
    }
  }

  lemma EllipsisEncoding()
    ensures Utf16("...") == Ellipsis
  {
    assert "..."[1..] == "..";
    assert ".."[1..] == ".";
    assert "."[1..] == "";
  }

  /** For text below U+10000, code units are characters: the text is kept
      when it has at most `maxLength` characters, and otherwise cut after
      its first `maxLength` characters. */
  lemma TruncateBmp(text: string, maxLength: int)
    requires forall i :: 0 <= i < |text| ==> text[i] as int < 0x1_0000
    ensures |text| <= maxLength ==> TruncateText(Utf16(text), maxLength) == Utf16(text)
    ensures |text| > maxLength >= 0 ==> TruncateText(Utf16(text), maxLength) == Utf16(text[..maxLength] + "...")
  {
    Utf16Bmp(text);
    if |text| > maxLength >= 0 {
      var p := text[..maxLength];
      assert forall i :: 0 <= i < |p| ==> p[i] == text[i];
      Utf16Bmp(p);
      assert text == p + text[maxLength..];
      Utf16Append(p, text[maxLength..]);
      Utf16Append(p, "...");
      EllipsisEncoding();
    }
  }

  /** Ninety-nine letters and an emoji are 101 code units: the default cut
      keeps the emoji's high surrogate and drops its low one, so the result
      is the encoding of no text. */
  lemma TruncateSplitsPair()
    ensures var text := seq(99, _ => 'a') + "\U{1F600}";
      var r := TruncateText(Utf16(text));
      && |r| == 103 && r[99] == 0xD83D && !PairsComplete(r)
      && forall s: string :: Utf16(s) != r
  {
    var a := seq(99, _ => 'a');
    var text := a + "\U{1F600}";
    Utf16Bmp(a);
    Utf16Append(a, "\U{1F600}");
    assert Utf16("\U{1F600}") == CodeUnits('\U{1F600}');
    var r := TruncateText(Utf16(text));
    assert r[99] == 0xD83D && r[100] == 0x2E;
    forall s: string
      ensures Utf16(s) != r
    {
      Utf16PairsComplete(s);
    }
  }

  /** Sixty emoji are sixty characters but 120 code units, so the default
      length of 100 already cuts them. */
  lemma TruncateCountsCodeUnits()
    ensures var text := seq(60, _ => '\U{1F600}');
      TruncateText(Utf16(text)) != Utf16(text)
  {
    var text := seq(60, _ => '\U{1F600}');
    Utf16Astral(text);
  }

  /* ---------- capitalizeFirst ---------- */

  /** `str.charAt(0).toUpperCase() + str.slice(1)` */
  function CapitalizeFirst(s: string): (r: string)
    ensures |r| == |s|
    ensures |s| > 0 ==> r[0] == UpperChar(s[0]) && r[1..] == s[1..]
  {
    if s == "" then "" else [UpperChar(s[0])] + s[1..]
  }

  /* ---------- formatPlatformName ---------- */

  /** `s.split(sep)`: the pieces between separators; "" splits into [""]. */
  function Split(s: string, sep: char): (r: seq<string>)
    ensures |r| >= 1
    ensures forall i :: 0 <= i < |r| ==> sep !in r[i]
  {
    if s == "" then [""]
    else if s[0] == sep then [""] + Split(s[1..], sep)
    else
      var rest := Split(s[1..], sep);
      [[s[0]] + rest[0]] + rest[1..]
  }

  /** `parts.map(capitalizeFirst)` */
  function CapitalizeAll(parts: seq<string>): (r: seq<string>)
    ensures |r| == |parts|
    ensures forall i :: 0 <= i < |parts| ==> r[i] == CapitalizeFirst(parts[i])
  {
    seq(|parts|, i requires 0 <= i < |parts| => CapitalizeFirst(parts[i]))
  }

  /** `formatPlatformName(platform)`: split at '_', capitalise every piece,
      join with ' '. */
  function FormatPlatformName(platform: string): string
  {
    Join(CapitalizeAll(Split(platform, '_')), " ")
  }

  /** The same result character by character: '_' becomes ' ', a character
      that starts a piece (`start` for the first one) is upper-cased, and
      every other character is kept. */
  function Formatted(s: string, start: bool): (r: string)
    ensures |r| == |s|
    ensures forall i :: 0 <= i < |s| && s[i] == '_' ==> r[i] == ' '
    ensures forall i :: 0 <= i < |s| && s[i] != '_' && (if i == 0 then start else s[i - 1] == '_') ==>
      r[i] == UpperChar(s[i])
    ensures forall i :: 0 <= i < |s| && s[i] != '_' && !(if i == 0 then start else s[i - 1] == '_') ==>
      r[i] == s[i]
    ensures '_' !in r
  {
    if s == "" then ""
    else if s[0] == '_' then " " + Formatted(s[1..], true)
    else [if start then UpperChar(s[0]) else s[0]] + Formatted(s[1..], false)
  }

  /** Joining with a longer first part. */
  lemma JoinFirst(c: string, x: string, rest: seq<string>, sep: string)
    ensures Join([c + x] + rest, sep) == c + Join([x] + rest, sep)
  {
    if rest != [] {
      assert ([c + x] + rest)[1..] == rest;
      assert ([x] + rest)[1..] == rest;
    }
  }

  /** The first piece of `s` as it is, the others capitalised. */
  function PlatformNameTail(s: string): string
  {
    var parts := Split(s, '_');
    Join([parts[0]] + CapitalizeAll(parts[1..]), " ")
  }

  /** `formatPlatformName` is the character-by-character `Formatted`. */
  lemma {:induction false} PlatformNameIsFormatted(s: string)
    ensures FormatPlatformName(s) == Formatted(s, true)
    ensures PlatformNameTail(s) == Formatted(s, false)
    decreases |s|
  {
    if s != "" {
      PlatformNameIsFormatted(s[1..]);
      if s[0] == '_' {
        UnderscoreStep(s);
      } else {
        LetterStep(s);
      }
    }
  }

  /** A leading '_' is an empty first piece and then a space. */
  lemma UnderscoreStep(s: string)
    requires s != "" && s[0] == '_'
    requires FormatPlatformName(s[1..]) == Formatted(s[1..], true)
    ensures FormatPlatformName(s) == Formatted(s, true)
    ensures PlatformNameTail(s) == Formatted(s, false)
  {
    var rest := Split(s[1..], '_');
    assert Split(s, '_') == [""] + rest;
    CapitalizeAllCons("", rest);
    assert ([""] + rest)[1..] == rest;
  }

  /** A leading letter starts the first piece. */
  lemma LetterStep(s: string)
    requires s != "" && s[0] != '_'
    requires PlatformNameTail(s[1..]) == Formatted(s[1..], false)
    ensures FormatPlatformName(s) == Formatted(s, true)
    ensures PlatformNameTail(s) == Formatted(s, false)
  {
    LeadingLetter(s);
  }

  /** With a leading letter, both joins are that letter (upper-cased for
      the first piece) followed by the tail of the rest. */
  lemma LeadingLetter(s: string)
    requires s != "" && s[0] != '_'
    ensures FormatPlatformName(s) == [UpperChar(s[0])] + PlatformNameTail(s[1..])
    ensures PlatformNameTail(s) == [s[0]] + PlatformNameTail(s[1..])
  {
    var rest := Split(s[1..], '_');
    var tail := CapitalizeAll(rest[1..]);
    LeadingLetterPieces(s);
    JoinFirst([UpperChar(s[0])], rest[0], tail, " ");
    JoinFirst([s[0]], rest[0], tail, " ");
  }

  /** The pieces of a name that starts with a letter. */
  lemma LeadingLetterPieces(s: string)
    requires s != "" && s[0] != '_'
    ensures var rest := Split(s[1..], '_');
      && CapitalizeAll(Split(s, '_')) == [[UpperChar(s[0])] + rest[0]] + CapitalizeAll(rest[1..])
      && Split(s, '_')[0] == [s[0]] + rest[0]
      && Split(s, '_')[1..] == rest[1..]
  {
    var rest := Split(s[1..], '_');
    var first := [s[0]] + rest[0];
    var parts := [first] + rest[1..];
    assert Split(s, '_') == parts;
    assert parts[1..] == rest[1..];
    assert first[1..] == rest[0];
    CapitalizeAllCons(first, rest[1..]);
  }

  /** Capitalising a list is capitalising its head and then its tail. */
  lemma CapitalizeAllCons(x: string, xs: seq<string>)
    ensures CapitalizeAll([x] + xs) == [CapitalizeFirst(x)] + CapitalizeAll(xs)
  {
    var l := CapitalizeAll([x] + xs);
    var r := [CapitalizeFirst(x)] + CapitalizeAll(xs);
    assert |l| == |r|;
    forall i | 0 <= i < |l|
      ensures l[i] == r[i]
    {
      if i > 0 {
        assert ([x] + xs)[i] == xs[i - 1];
      }
    }
  }

  /** The platform name keeps the length, has no '_', turns each '_' into
      ' ' and upper-cases the first letter of every piece. */
  lemma PlatformNameShape(s: string)
    ensures var r := FormatPlatformName(s);
      && |r| == |s| && '_' !in r
      && (forall i :: 0 <= i < |s| && s[i] == '_' ==> r[i] == ' ')
      && (forall i :: 0 <= i < |s| && s[i] != '_' && (i == 0 || s[i - 1] == '_') ==> r[i] == UpperChar(s[i]))
      && (forall i :: 0 <= i < |s| && s[i] != '_' && i > 0 && s[i - 1] != '_' ==> r[i] == s[i])
  {
    PlatformNameIsFormatted(s);
  }

  /** How many times `c` occurs in `s`. */
  function CountChar(s: string, c: char): (n: nat)
    ensures n <= |s|
  {
    if s == "" then 0 else (if s[0] == c then 1 else 0) + CountChar(s[1..], c)
  }

  /** One piece more than separators. */
  lemma {:induction false} SplitCount(s: string, sep: char)
    ensures |Split(s, sep)| == CountChar(s, sep) + 1
    decreases |s|
  {
    if s != "" {
      SplitCount(s[1..], sep);
    }
  }

  /** Without spaces in the input, the spaces of `Formatted` are exactly
      its underscores. */
  lemma {:induction false} FormattedSpaces(s: string, start: bool)
    requires ' ' !in s
    ensures CountChar(Formatted(s, start), ' ') == CountChar(s, '_')
    decreases |s|
  {
    if s != "" {
      var r := Formatted(s, start);
      assert r[1..] == Formatted(s[1..], s[0] == '_');
      FormattedSpaces(s[1..], s[0] == '_');
    }
  }

  /** A name without spaces has as many space-separated words after
      formatting as it had '_'-separated pieces before. */
  lemma WordCountPreserved(s: string)
    requires ' ' !in s
    ensures |Split(FormatPlatformName(s), ' ')| == |Split(s, '_')|
  {
    PlatformNameIsFormatted(s);
    FormattedSpaces(s, true);
    SplitCount(s, '_');
    SplitCount(FormatPlatformName(s), ' ');
  }
}
