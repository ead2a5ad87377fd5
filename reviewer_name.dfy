/** The reviewer-name extraction of the response generator: capture group 1
    of `content.match(/(?:by|from|review by|posted by)\s+([A-Za-z]+)/i)`.

    The matcher follows the regular expression's own search order: start
    positions from left to right, and at each position the alternatives in
    the order written, each followed by `\s+` and a greedy run of ASCII
    letters. With the `i` flag and no `u` flag a character matches a letter of
    the pattern exactly when it is that letter in either ASCII case. */
module ReviewerName {
  import opened Common

  /** The alternatives of the pattern, in the order they are tried. */
  const Keywords: seq<string> := ["by", "from", "review by", "posted by"]

  /** The two one-word alternatives. */
  const ShortKeywords: seq<string> := ["by", "from"]

  /** `\s`: the WhiteSpace and LineTerminator code points of ECMAScript. */
  predicate IsSpace(c: char)
  {
    var n := c as int;
    n == 0x09 || n == 0x0A || n == 0x0B || n == 0x0C || n == 0x0D || n == 0x20
    || n == 0xA0 || n == 0x1680 || (0x2000 <= n && n <= 0x200A) || n == 0x2028
    || n == 0x2029 || n == 0x202F || n == 0x205F || n == 0x3000 || n == 0xFEFF
  }

  /** `[A-Za-z]` */
  predicate IsLetter(c: char)
  {
    ('A' <= c <= 'Z') || ('a' <= c <= 'z')
  }

  /** The lower-case keyword `kw` matches `s` at `i`, ignoring ASCII case. */
  predicate KeywordAt(s: string, i: nat, kw: string)
  {
    i + |kw| <= |s| && ToLower(s[i..i + |kw|]) == kw
  }

  /** Length of the run of `\s` characters starting at `e`. */
  function SpaceRun(s: string, e: nat): (n: nat)
    requires e <= |s|
    ensures e + n <= |s|
    decreases |s| - e
  {
    if e < |s| && IsSpace(s[e]) then 1 + SpaceRun(s, e + 1) else 0
  }

  /** The run of spaces is maximal. */
  lemma {:induction false} SpaceRunMaximal(s: string, e: nat)
    requires e <= |s|
    ensures forall k :: e <= k < e + SpaceRun(s, e) ==> IsSpace(s[k])
    ensures e + SpaceRun(s, e) == |s| || !IsSpace(s[e + SpaceRun(s, e)])
    decreases |s| - e
  {
    if e < |s| && IsSpace(s[e]) {
      SpaceRunMaximal(s, e + 1);
    }
  }

  /** Length of the run of ASCII letters starting at `e`. */
  function LetterRun(s: string, e: nat): (n: nat)
    requires e <= |s|
    ensures e + n <= |s|
    decreases |s| - e
  {
    if e < |s| && IsLetter(s[e]) then 1 + LetterRun(s, e + 1) else 0
  }

  /** The run of letters is maximal. */
  lemma {:induction false} LetterRunMaximal(s: string, e: nat)
    requires e <= |s|
    ensures forall k :: e <= k < e + LetterRun(s, e) ==> IsLetter(s[k])
    ensures e + LetterRun(s, e) == |s| || !IsLetter(s[e + LetterRun(s, e)])
    decreases |s| - e
  {
    if e < |s| && IsLetter(s[e]) {
      LetterRunMaximal(s, e + 1);
    }
  }

  /** Every character of `s[a..b]` is a `\s` character. */
  predicate AllSpaces(s: string, a: nat, b: nat)
    requires a <= b <= |s|
  {
    forall k :: a <= k < b ==> IsSpace(s[k])
  }

  /** `n` is what `\s+([A-Za-z]+)` captures at `e` when the spaces end at
      `e + w`: at least one space, then the whole run of letters. */
  predicate CaptureAt(s: string, e: nat, w: nat, n: string)
  {
    0 < w && e + w + |n| <= |s| && AllSpaces(s, e, e + w)
    && n != [] && s[e + w..e + w + |n|] == n
    && (forall k :: 0 <= k < |n| ==> IsLetter(n[k]))
    && (e + w + |n| == |s| || !IsLetter(s[e + w + |n|]))
  }

  /** `\s+([A-Za-z]+)` starting at `e`: the capture, if it matches. The
      greedy `\s+` never has to give a character back, because a `\s`
      character is never a letter. */
  function NameAfter(s: string, e: nat): (r: Option<string>)
    requires e <= |s|
    ensures r.Some? ==> r.value != []
  {
    var w := SpaceRun(s, e);
    var n := if w > 0 then LetterRun(s, e + w) else 0;
    if n > 0 then Some(s[e + w..e + w + n]) else None
  }

  /** A capture is a whole run of letters behind at least one space, and
      there is none exactly when no letter follows a run of spaces. */
  lemma NameAfterCaptures(s: string, e: nat)
    requires e <= |s|
    ensures NameAfter(s, e).Some? ==> CaptureAt(s, e, SpaceRun(s, e), NameAfter(s, e).value)
    ensures NameAfter(s, e).None? ==> forall p :: e < p < |s| && AllSpaces(s, e, p) ==> !IsLetter(s[p])
  {
    var w := SpaceRun(s, e);
    SpaceRunMaximal(s, e);
    LetterRunMaximal(s, e + w);
    if NameAfter(s, e).None? {
      forall p | e < p < |s| && AllSpaces(s, e, p)
        ensures !IsLetter(s[p])
      {
        SpacesWithinRun(s, e, p);
        if p < e + w {
          assert IsSpace(s[p]);
        }
      }
    } else {
      var n := NameAfter(s, e).value;
      assert forall k :: 0 <= k < |n| ==> n[k] == s[e + w + k];
    }
  }

  /** A run of spaces from `e` never reaches past the maximal one. */
  lemma {:induction false} SpacesWithinRun(s: string, e: nat, p: nat)
    requires e <= p <= |s| && AllSpaces(s, e, p)
    ensures p <= e + SpaceRun(s, e)
    decreases p - e
  {
    if e < p {
      assert IsSpace(s[e]);
      SpacesWithinRun(s, e + 1, p);
    }
  }

  /** Alternative `kw` followed by `\s+([A-Za-z]+)` matches at `i`. */
  predicate Works(s: string, i: nat, kw: string)
    requires i <= |s|
  {
    KeywordAt(s, i, kw) && NameAfter(s, i + |kw|).Some?
  }

  /** The whole pattern at start position `i`, trying the alternatives `kws`
      in order and falling back to the next one when the rest fails. */
  function MatchAt(s: string, i: nat, kws: seq<string>): Option<string>
    requires i <= |s|
  {
    if kws == [] then None
    else if Works(s, i, kws[0]) then NameAfter(s, i + |kws[0]|)
    else MatchAt(s, i, kws[1..])
  }

  /** Ordered choice: when alternative `k` is the first one that works, the
      capture is its capture. */
  lemma {:induction false} MatchAtFirstAlternative(s: string, i: nat, kws: seq<string>, k: nat)
    requires i <= |s| && k < |kws| && Works(s, i, kws[k])
    requires forall m :: 0 <= m < k ==> !Works(s, i, kws[m])
    ensures MatchAt(s, i, kws) == NameAfter(s, i + |kws[k]|)
  {
    if k > 0 {
      assert !Works(s, i, kws[0]);
      assert forall m :: 0 <= m < k - 1 ==> kws[1..][m] == kws[m + 1];
      MatchAtFirstAlternative(s, i, kws[1..], k - 1);
    }
  }

  /** The pattern fails at `i` exactly when no alternative works there. */
  lemma {:induction false} MatchAtNone(s: string, i: nat, kws: seq<string>)
    requires i <= |s|
    ensures MatchAt(s, i, kws).None? <==> forall k :: 0 <= k < |kws| ==> !Works(s, i, kws[k])
  {
    if kws != [] {
      MatchAtNone(s, i, kws[1..]);
      assert forall k :: 1 <= k < |kws| ==> kws[k] == kws[1..][k - 1];
    }
  }

  /** `String.prototype.match` without the `g` flag: the leftmost position
      from `i` on where the pattern matches. */
  function FindFrom(s: string, i: nat, kws: seq<string>): (r: Option<string>)
    requires i <= |s|
    ensures r.Some? ==>
      exists p :: i <= p <= |s| && MatchAt(s, p, kws) == r && forall q :: i <= q < p ==> MatchAt(s, q, kws).None?
    ensures r.None? ==> forall p :: i <= p <= |s| ==> MatchAt(s, p, kws).None?
    decreases |s| - i
  {
    var here := MatchAt(s, i, kws);
    if here.Some? then here
    else if i == |s| then None
    else FindFrom(s, i + 1, kws)
  }

  /** The reviewer name of a mention, `nameMatch ? nameMatch[1] : null`. */
  function Extract(content: string): Option<string>
  {
    FindFrom(content, 0, Keywords)
  }

  /** A match captures a non-empty run of ASCII letters. */
  lemma {:induction false} MatchAtCapturesLetters(s: string, i: nat, kws: seq<string>)
    requires i <= |s|
    ensures MatchAt(s, i, kws).Some? ==>
      MatchAt(s, i, kws).value != [] && forall k :: 0 <= k < |MatchAt(s, i, kws).value| ==> IsLetter(MatchAt(s, i, kws).value[k])
  {
    if kws != [] {
      if Works(s, i, kws[0]) {
        NameAfterCaptures(s, i + |kws[0]|);
      } else {
        MatchAtCapturesLetters(s, i, kws[1..]);
      }
    }
  }

  /** An extracted reviewer name is a non-empty word of ASCII letters. */
  lemma ExtractIsWord(content: string)
    ensures Extract(content).Some? ==>
      Extract(content).value != [] && forall k :: 0 <= k < |Extract(content).value| ==> IsLetter(Extract(content).value[k])
  {
    if Extract(content).Some? {
      var p :| 0 <= p <= |content| && MatchAt(content, p, Keywords) == Extract(content)
        && forall q :: 0 <= q < p ==> MatchAt(content, q, Keywords).None?;
      MatchAtCapturesLetters(content, p, Keywords);
    }
  }

  /* ---------- the two-word alternatives never change the result ---------- */

  lemma {:induction false} MatchAtAppend(s: string, i: nat, a: seq<string>, b: seq<string>)
    requires i <= |s|
    ensures MatchAt(s, i, a + b) == if MatchAt(s, i, a).Some? then MatchAt(s, i, a) else MatchAt(s, i, b)
    decreases |a|
  {
    if a != [] {
      assert (a + b)[1..] == a[1..] + b;
      MatchAtAppend(s, i, a[1..], b);
    } else {
      assert a + b == b;
    }
  }

  /** Start positions where the pattern does not match can be skipped. */
  lemma {:induction false} FindFromSkip(s: string, i: nat, j: nat, kws: seq<string>)
    requires i <= j <= |s|
    requires forall q :: i <= q < j ==> MatchAt(s, q, kws).None?
    ensures FindFrom(s, i, kws) == FindFrom(s, j, kws)
    decreases j - i
  {
    if i < j {
      FindFromSkip(s, i + 1, j, kws);
    }
  }

  /** Where "review by" or "posted by" works at `i`, neither "by" nor "from"
      starts within its first seven characters, and "by" works at `i + 7`
      with the same capture. */
  lemma LongAlternative(s: string, i: nat, kw: string)
    requires kw == "review by" || kw == "posted by"
    requires i <= |s| && Works(s, i, kw)
    ensures forall q :: i <= q < i + 7 ==> MatchAt(s, q, ShortKeywords).None?
    ensures i + 7 <= |s| && MatchAt(s, i + 7, ShortKeywords) == NameAfter(s, i + |kw|)
  {
    var lowered := ToLower(s[i..i + 9]);
    assert lowered == kw;
    forall q | i <= q < i + 7
      ensures MatchAt(s, q, ShortKeywords).None?
    {
      assert LowerChar(s[q]) == lowered[q - i] == kw[q - i];
      assert kw[q - i] != 'b' && kw[q - i] != 'f';
      if q + 2 <= |s| {
        assert ToLower(s[q..q + 2])[0] == LowerChar(s[q]);
      }
      if q + 4 <= |s| {
        assert ToLower(s[q..q + 4])[0] == LowerChar(s[q]);
      }
      assert !Works(s, q, ShortKeywords[0]) && !Works(s, q, ShortKeywords[1]);
      MatchAtNone(s, q, ShortKeywords);
    }
    assert ToLower(s[i + 7..i + 9]) == lowered[7..9] == "by";
    assert Works(s, i + 7, ShortKeywords[0]);
    MatchAtFirstAlternative(s, i + 7, ShortKeywords, 0);
  }

  /** The two two-word alternatives. */
  const LongKeywords: seq<string> := ["review by", "posted by"]

  /** The extraction is the same with the pattern `(?:by|from)\s+([A-Za-z]+)`:
      a match of "review by" or "posted by" is always also found through its
      trailing "by", with the same name. */
  lemma {:induction false} ShortAlternativesSuffice(s: string, i: nat)
    requires i <= |s|
    ensures FindFrom(s, i, Keywords) == FindFrom(s, i, ShortKeywords)
    decreases |s| - i
  {
    assert Keywords == ShortKeywords + LongKeywords;
    MatchAtAppend(s, i, ShortKeywords, LongKeywords);
    if MatchAt(s, i, ShortKeywords).None? {
      if MatchAt(s, i, LongKeywords).Some? {
        LongMatchFoundLater(s, i);
      } else if i < |s| {
        ShortAlternativesSuffice(s, i + 1);
      }
    }
  }

  /** Where only a two-word alternative matches at `i`, the short pattern
      finds the same name seven characters on. */
  lemma LongMatchFoundLater(s: string, i: nat)
    requires i <= |s|
    requires MatchAt(s, i, ShortKeywords).None? && MatchAt(s, i, LongKeywords).Some?
    ensures FindFrom(s, i, ShortKeywords) == MatchAt(s, i, LongKeywords)
  {
    MatchAtNone(s, i, LongKeywords);
    var k := if Works(s, i, LongKeywords[0]) then 0 else 1;
    LongAlternative(s, i, LongKeywords[k]);
    MatchAtFirstAlternative(s, i, LongKeywords, k);
    FindFromSkip(s, i, i + 7, ShortKeywords);
  }
}
