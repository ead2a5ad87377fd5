/** The keyword classifier of the response generator (`detectSentiment`):
    it lower-cases the mention, counts how many entries of a fixed negative
    list and of a fixed positive list occur in it as substrings, and compares
    the two counts. */
module KeywordSentiment {
  import opened Common
  import opened MentionTypes

  const NegativeKeywords: seq<string> := [
    "terrible", "awful", "horrible", "disappointed", "disgusting", "hate", "worst", "poor",
    "bad", "sucks", "pathetic", "useless", "waste", "ripoff", "scam", "angry", "frustrated",
    "annoyed", "upset", "furious", "outraged", "disgusted", "never again", "avoid",
    "stay away", "beware", "warning", "complaint", "broken", "defective", "faulty",
    "malfunction", "error", "bug", "glitch", "slow", "late", "delayed", "incompetent",
    "unprofessional", "rude", "ignorant"
  ]

  const PositiveKeywords: seq<string> := [
    "excellent", "amazing", "wonderful", "fantastic", "great", "love", "perfect",
    "outstanding", "brilliant", "superb", "exceptional", "marvelous", "delightful", "happy",
    "satisfied", "pleased", "impressed", "recommend", "best", "awesome", "quick", "fast",
    "efficient", "professional", "helpful", "friendly", "kind"
  ]

  /** `keywords.filter((word) => text.includes(word))` */
  function Matching(keywords: seq<string>, text: string): (r: seq<string>)
    ensures |r| <= |keywords|
  {
    if keywords == [] then []
    else (if Contains(text, keywords[0]) then [keywords[0]] else []) + Matching(keywords[1..], text)
  }

  /** The matched keywords are exactly the listed keywords the text contains. */
  lemma {:induction false} MatchingIsFilter(keywords: seq<string>, text: string)
    ensures forall w :: w in Matching(keywords, text) <==> w in keywords && Contains(text, w)
  {
    if keywords != [] {
      MatchingIsFilter(keywords[1..], text);
    }
  }

  /** A keyword is counted at most as often as it is listed, however many
      times it occurs in the text: the counts are of distinct keywords. */
  lemma {:induction false} EachKeywordCountedOnce(keywords: seq<string>, text: string)
    ensures multiset(Matching(keywords, text)) <= multiset(keywords)
  {
    if keywords != [] {
      EachKeywordCountedOnce(keywords[1..], text);
      assert keywords == [keywords[0]] + keywords[1..];
    }
  }

  /** When the keyword at `i` is the only one the text contains, the text
      matches that keyword alone. */
  lemma {:induction false} MatchingOnly(keywords: seq<string>, text: string, i: nat)
    requires i < |keywords| && Contains(text, keywords[i])
    requires forall j :: 0 <= j < |keywords| && j != i ==> !Contains(text, keywords[j])
    ensures Matching(keywords, text) == [keywords[i]]
  {
    if i == 0 {
      NoneMatching(keywords[1..], text);
    } else {
      MatchingOnly(keywords[1..], text, i - 1);
    }
  }

  /** `negativeCount`: negative keywords occurring in the lower-cased content. */
  function NegativeCount(content: string): nat
  {
    |Matching(NegativeKeywords, ToLower(content))|
  }

  /** `positiveCount`: positive keywords occurring in the lower-cased content. */
  function PositiveCount(content: string): nat
  {
    |Matching(PositiveKeywords, ToLower(content))|
  }

  /** `detectSentiment`: the larger count wins and a tie is neutral. The
      guards `negativeCount > 0` and `positiveCount > 0` of the source are
      kept in the body; the contract shows they never decide anything. */
  function DetectSentiment(content: string): (r: Sentiment)
    ensures r == Negative <==> NegativeCount(content) > PositiveCount(content)
    ensures r == Positive <==> PositiveCount(content) > NegativeCount(content)
    ensures r == Neutral <==> NegativeCount(content) == PositiveCount(content)
  {
    var neg := NegativeCount(content);
    var pos := PositiveCount(content);
    if neg > pos && neg > 0 then Negative
    else if pos > neg && pos > 0 then Positive
    else Neutral
  }

  /** The counts of a text already in lower case are its own matches. */
  lemma LowerCaseCounts(s: string)
    requires ToLower(s) == s
    ensures NegativeCount(s) == |Matching(NegativeKeywords, s)|
    ensures PositiveCount(s) == |Matching(PositiveKeywords, s)|
  {
  }

  /** Text without any keyword, among it the empty text, is neutral. */
  lemma NoKeywordIsNeutral(content: string)
    requires forall j :: 0 <= j < |NegativeKeywords| ==> !Contains(ToLower(content), NegativeKeywords[j])
    requires forall j :: 0 <= j < |PositiveKeywords| ==> !Contains(ToLower(content), PositiveKeywords[j])
    ensures NegativeCount(content) == 0 && PositiveCount(content) == 0
    ensures DetectSentiment(content) == Neutral
  {
    NoneMatching(NegativeKeywords, ToLower(content));
    NoneMatching(PositiveKeywords, ToLower(content));
  }

  lemma {:induction false} NoneMatching(keywords: seq<string>, text: string)
    requires forall j :: 0 <= j < |keywords| ==> !Contains(text, keywords[j])
    ensures Matching(keywords, text) == []
  {
    if keywords != [] {
      NoneMatching(keywords[1..], text);
    }
  }

  /** The counts depend only on WHICH keywords occur, never on how often:
      two texts in which the same keywords occur get the same counts. */
  lemma {:induction false} MatchingDependsOnlyOnOccurrence(keywords: seq<string>, t1: string, t2: string)
    requires forall j :: 0 <= j < |keywords| ==> (Contains(t1, keywords[j]) <==> Contains(t2, keywords[j]))
    ensures Matching(keywords, t1) == Matching(keywords, t2)
  {
    if keywords != [] {
      MatchingDependsOnlyOnOccurrence(keywords[1..], t1, t2);
    }
  }

  /** Matching is by substring, not by word: any text that contains
      "unprofessional" also contains the positive keyword "professional". */
  lemma UnprofessionalContainsProfessional(content: string)
    requires Contains(ToLower(content), "unprofessional")
    ensures Contains(ToLower(content), "professional")
    ensures "unprofessional" in Matching(NegativeKeywords, ToLower(content))
    ensures "professional" in Matching(PositiveKeywords, ToLower(content))
  {
    assert OccursAt("unprofessional", "professional", 2);
    assert NegativeKeywords[39] == "unprofessional";
    assert PositiveKeywords[23] == "professional";
    ContainsTransitive(ToLower(content), "unprofessional", "professional");
    MatchingIsFilter(NegativeKeywords, ToLower(content));
    MatchingIsFilter(PositiveKeywords, ToLower(content));
  }

  /** "unprofessional" contains both "unprofessional" (negative) and "professional"
      (positive), so on its own it is neutral. */
  lemma UnprofessionalIsNeutral()
    ensures NegativeCount("unprofessional") == 1 && PositiveCount("unprofessional") == 1
    ensures DetectSentiment("unprofessional") == Neutral
  {
    UnprofessionalCounts("unprofessional");
  }

  lemma UnprofessionalCounts(s: string)
    requires s == "unprofessional"
    ensures NegativeCount(s) == 1 && PositiveCount(s) == 1
  {
    UnprofessionalIsLowerCase(s);
    UnprofessionalNegativeMatches(s);
    UnprofessionalPositiveMatches(s);
    LowerCaseCounts(s);
  }

  lemma UnprofessionalIsLowerCase(s: string)
    requires s == "unprofessional"
    ensures ToLower(s) == s
  {
    ToLowerOfLower(s);
  }

  lemma UnprofessionalNegativeMatches(s: string)
    requires s == "unprofessional"
    ensures |Matching(NegativeKeywords, s)| == 1
  {
    UnprofessionalNegativeAbsent1(s); UnprofessionalNegativeAbsent2(s); UnprofessionalNegativeAbsent3(s); UnprofessionalNegativeAbsent4(s); UnprofessionalNegativeAbsent5(s); UnprofessionalNegativeAbsent6(s); UnprofessionalNegativeAbsent7(s); UnprofessionalNegativeAbsent8(s); UnprofessionalNegativeAbsent9(s);
    forall j | 0 <= j < 42 && j != 39
      ensures !Contains(s, NegativeKeywords[j])
    {
      if j == 0 { } else if j == 1 { } else if j == 2 { } else if j == 3 { } else if j == 4 { } else if j == 5 { } else if j == 6 { } else if j == 7 { } else if j == 8 { } else if j == 9 { } else if j == 10 { } else if j == 11 { } else if j == 12 { } else if j == 13 { } else if j == 14 { } else if j == 15 { } else if j == 16 { } else if j == 17 { } else if j == 18 { } else if j == 19 { } else if j == 20 { } else if j == 21 { } else if j == 22 { } else if j == 23 { } else if j == 24 { } else if j == 25 { } else if j == 26 { } else if j == 27 { } else if j == 28 { } else if j == 29 { } else if j == 30 { } else if j == 31 { } else if j == 32 { } else if j == 33 { } else if j == 34 { } else if j == 35 { } else if j == 36 { } else if j == 37 { } else if j == 38 { } else if j == 40 { } else { }
    }
    assert NegativeKeywords[39] == "unprofessional"; assert OccursAt(s, "unprofessional", 0);
    MatchingOnly(NegativeKeywords, s, 39);
  }

  lemma UnprofessionalPositiveMatches(s: string)
    requires s == "unprofessional"
    ensures |Matching(PositiveKeywords, s)| == 1
  {
    UnprofessionalPositiveAbsent1(s); UnprofessionalPositiveAbsent2(s); UnprofessionalPositiveAbsent3(s); UnprofessionalPositiveAbsent4(s); UnprofessionalPositiveAbsent5(s); UnprofessionalPositiveAbsent6(s);
    forall j | 0 <= j < 27 && j != 23
      ensures !Contains(s, PositiveKeywords[j])
    {
      if j == 0 { } else if j == 1 { } else if j == 2 { } else if j == 3 { } else if j == 4 { } else if j == 5 { } else if j == 6 { } else if j == 7 { } else if j == 8 { } else if j == 9 { } else if j == 10 { } else if j == 11 { } else if j == 12 { } else if j == 13 { } else if j == 14 { } else if j == 15 { } else if j == 16 { } else if j == 17 { } else if j == 18 { } else if j == 19 { } else if j == 20 { } else if j == 21 { } else if j == 22 { } else if j == 24 { } else if j == 25 { } else { }
    }
    assert PositiveKeywords[23] == "professional"; assert OccursAt(s, "professional", 2);
    MatchingOnly(PositiveKeywords, s, 23);
  }

  lemma UnprofessionalNegativeAbsent1(s: string)
    requires s == "unprofessional"
    ensures !Contains(s, NegativeKeywords[0])
    ensures !Contains(s, NegativeKeywords[1])
    ensures !Contains(s, NegativeKeywords[2])
    ensures !Contains(s, NegativeKeywords[3])
    ensures !Contains(s, NegativeKeywords[4])
  {
    assert NegativeKeywords[0] == "terrible"; AbsentChar(s, "terrible", 0);
    assert NegativeKeywords[1] == "awful"; AbsentChar(s, "awful", 1);
    assert NegativeKeywords[2] == "horrible"; AbsentChar(s, "horrible", 0);
    assert NegativeKeywords[3] == "disappointed"; AbsentChar(s, "disappointed", 0);
    assert NegativeKeywords[4] == "disgusting"; AbsentChar(s, "disgusting", 0);
  }

  lemma UnprofessionalNegativeAbsent2(s: string)
    requires s == "unprofessional"
    ensures !Contains(s, NegativeKeywords[5])
    ensures !Contains(s, NegativeKeywords[6])
    ensures !Contains(s, NegativeKeywords[7])
    ensures !Contains(s, NegativeKeywords[8])
    ensures !Contains(s, NegativeKeywords[9])
  {
    assert NegativeKeywords[5] == "hate"; AbsentChar(s, "hate", 0);
    assert NegativeKeywords[6] == "worst"; AbsentChar(s, "worst", 0);
    assert NegativeKeywords[7] == "poor"; AbsentPair(s, "poor", 0);
    assert NegativeKeywords[8] == "bad"; AbsentChar(s, "bad", 0);
    assert NegativeKeywords[9] == "sucks"; AbsentChar(s, "sucks", 2);
  }

  lemma UnprofessionalNegativeAbsent3(s: string)
    requires s == "unprofessional"
    ensures !Contains(s, NegativeKeywords[10])
    ensures !Contains(s, NegativeKeywords[11])
    ensures !Contains(s, NegativeKeywords[12])
    ensures !Contains(s, NegativeKeywords[13])
    ensures !Contains(s, NegativeKeywords[14])
  {
    assert NegativeKeywords[10] == "pathetic"; AbsentChar(s, "pathetic", 2);
    assert NegativeKeywords[11] == "useless"; AbsentPair(s, "useless", 0);
    assert NegativeKeywords[12] == "waste"; AbsentChar(s, "waste", 0);
    assert NegativeKeywords[13] == "ripoff"; AbsentPair(s, "ripoff", 0);
    assert NegativeKeywords[14] == "scam"; AbsentChar(s, "scam", 1);
  }

  lemma UnprofessionalNegativeAbsent4(s: string)
    requires s == "unprofessional"
    ensures !Contains(s, NegativeKeywords[15])
    ensures !Contains(s, NegativeKeywords[16])
    ensures !Contains(s, NegativeKeywords[17])
    ensures !Contains(s, NegativeKeywords[18])
    ensures !Contains(s, NegativeKeywords[19])
  {
    assert NegativeKeywords[15] == "angry"; AbsentChar(s, "angry", 2);
    assert NegativeKeywords[16] == "frustrated"; AbsentChar(s, "frustrated", 4);
    assert NegativeKeywords[17] == "annoyed"; AbsentChar(s, "annoyed", 4);
    assert NegativeKeywords[18] == "upset"; AbsentChar(s, "upset", 4);
    assert NegativeKeywords[19] == "furious"; AbsentPair(s, "furious", 0);
  }

  lemma UnprofessionalNegativeAbsent5(s: string)
    requires s == "unprofessional"
    ensures !Contains(s, NegativeKeywords[20])
    ensures !Contains(s, NegativeKeywords[21])
    ensures !Contains(s, NegativeKeywords[22])
    ensures !Contains(s, NegativeKeywords[23])
    ensures !Contains(s, NegativeKeywords[24])
  {
    assert NegativeKeywords[20] == "outraged"; AbsentChar(s, "outraged", 2);
    assert NegativeKeywords[21] == "disgusted"; AbsentChar(s, "disgusted", 0);
    assert NegativeKeywords[22] == "never again"; AbsentChar(s, "never again", 2);
    assert NegativeKeywords[23] == "avoid"; AbsentChar(s, "avoid", 1);
    assert NegativeKeywords[24] == "stay away"; AbsentChar(s, "stay away", 1);
  }

  lemma UnprofessionalNegativeAbsent6(s: string)
    requires s == "unprofessional"
    ensures !Contains(s, NegativeKeywords[25])
    ensures !Contains(s, NegativeKeywords[26])
    ensures !Contains(s, NegativeKeywords[27])
    ensures !Contains(s, NegativeKeywords[28])
    ensures !Contains(s, NegativeKeywords[29])
  {
    assert NegativeKeywords[25] == "beware"; AbsentChar(s, "beware", 0);
    assert NegativeKeywords[26] == "warning"; AbsentChar(s, "warning", 0);
    assert NegativeKeywords[27] == "complaint"; AbsentChar(s, "complaint", 0);
    assert NegativeKeywords[28] == "broken"; AbsentChar(s, "broken", 0);
    assert NegativeKeywords[29] == "defective"; AbsentChar(s, "defective", 0);
  }

  lemma UnprofessionalNegativeAbsent7(s: string)
    requires s == "unprofessional"
    ensures !Contains(s, NegativeKeywords[30])
    ensures !Contains(s, NegativeKeywords[31])
    ensures !Contains(s, NegativeKeywords[32])
    ensures !Contains(s, NegativeKeywords[33])
    ensures !Contains(s, NegativeKeywords[34])
  {
    assert NegativeKeywords[30] == "faulty"; AbsentChar(s, "faulty", 4);
    assert NegativeKeywords[31] == "malfunction"; AbsentChar(s, "malfunction", 0);
    assert NegativeKeywords[32] == "error"; AbsentPair(s, "error", 0);
    assert NegativeKeywords[33] == "bug"; AbsentChar(s, "bug", 0);
    assert NegativeKeywords[34] == "glitch"; AbsentChar(s, "glitch", 0);
  }

  lemma UnprofessionalNegativeAbsent8(s: string)
    requires s == "unprofessional"
    ensures !Contains(s, NegativeKeywords[35])
    ensures !Contains(s, NegativeKeywords[36])
    ensures !Contains(s, NegativeKeywords[37])
    ensures !Contains(s, NegativeKeywords[38])
  {
    assert NegativeKeywords[35] == "slow"; AbsentChar(s, "slow", 3);
    assert NegativeKeywords[36] == "late"; AbsentChar(s, "late", 2);
    assert NegativeKeywords[37] == "delayed"; AbsentChar(s, "delayed", 0);
    assert NegativeKeywords[38] == "incompetent"; AbsentChar(s, "incompetent", 2);
  }

  lemma UnprofessionalNegativeAbsent9(s: string)
    requires s == "unprofessional"
    ensures !Contains(s, NegativeKeywords[40])
    ensures !Contains(s, NegativeKeywords[41])
  {
    assert NegativeKeywords[40] == "rude"; AbsentChar(s, "rude", 2);
    assert NegativeKeywords[41] == "ignorant"; AbsentChar(s, "ignorant", 1);
  }

  lemma UnprofessionalPositiveAbsent1(s: string)
    requires s == "unprofessional"
    ensures !Contains(s, PositiveKeywords[0])
    ensures !Contains(s, PositiveKeywords[1])
    ensures !Contains(s, PositiveKeywords[2])
    ensures !Contains(s, PositiveKeywords[3])
    ensures !Contains(s, PositiveKeywords[4])
  {
    assert PositiveKeywords[0] == "excellent"; AbsentChar(s, "excellent", 1);
    assert PositiveKeywords[1] == "amazing"; AbsentChar(s, "amazing", 1);
    assert PositiveKeywords[2] == "wonderful"; AbsentChar(s, "wonderful", 0);
    assert PositiveKeywords[3] == "fantastic"; AbsentChar(s, "fantastic", 3);
    assert PositiveKeywords[4] == "great"; AbsentChar(s, "great", 0);
  }

  lemma UnprofessionalPositiveAbsent2(s: string)
    requires s == "unprofessional"
    ensures !Contains(s, PositiveKeywords[5])
    ensures !Contains(s, PositiveKeywords[6])
    ensures !Contains(s, PositiveKeywords[7])
    ensures !Contains(s, PositiveKeywords[8])
    ensures !Contains(s, PositiveKeywords[9])
  {
    assert PositiveKeywords[5] == "love"; AbsentChar(s, "love", 2);
    assert PositiveKeywords[6] == "perfect"; AbsentChar(s, "perfect", 5);
    assert PositiveKeywords[7] == "outstanding"; AbsentChar(s, "outstanding", 2);
    assert PositiveKeywords[8] == "brilliant"; AbsentChar(s, "brilliant", 0);
    assert PositiveKeywords[9] == "superb"; AbsentChar(s, "superb", 5);
  }

  lemma UnprofessionalPositiveAbsent3(s: string)
    requires s == "unprofessional"
    ensures !Contains(s, PositiveKeywords[10])
    ensures !Contains(s, PositiveKeywords[11])
    ensures !Contains(s, PositiveKeywords[12])
    ensures !Contains(s, PositiveKeywords[13])
    ensures !Contains(s, PositiveKeywords[14])
  {
    assert PositiveKeywords[10] == "exceptional"; AbsentChar(s, "exceptional", 1);
    assert PositiveKeywords[11] == "marvelous"; AbsentChar(s, "marvelous", 0);
    assert PositiveKeywords[12] == "delightful"; AbsentChar(s, "delightful", 0);
    assert PositiveKeywords[13] == "happy"; AbsentChar(s, "happy", 0);
    assert PositiveKeywords[14] == "satisfied"; AbsentChar(s, "satisfied", 2);
  }

  lemma UnprofessionalPositiveAbsent4(s: string)
    requires s == "unprofessional"
    ensures !Contains(s, PositiveKeywords[15])
    ensures !Contains(s, PositiveKeywords[16])
    ensures !Contains(s, PositiveKeywords[17])
    ensures !Contains(s, PositiveKeywords[18])
    ensures !Contains(s, PositiveKeywords[19])
  {
    assert PositiveKeywords[15] == "pleased"; AbsentChar(s, "pleased", 6);
    assert PositiveKeywords[16] == "impressed"; AbsentChar(s, "impressed", 1);
    assert PositiveKeywords[17] == "recommend"; AbsentChar(s, "recommend", 2);
    assert PositiveKeywords[18] == "best"; AbsentChar(s, "best", 0);
    assert PositiveKeywords[19] == "awesome"; AbsentChar(s, "awesome", 1);
  }

  lemma UnprofessionalPositiveAbsent5(s: string)
    requires s == "unprofessional"
    ensures !Contains(s, PositiveKeywords[20])
    ensures !Contains(s, PositiveKeywords[21])
    ensures !Contains(s, PositiveKeywords[22])
    ensures !Contains(s, PositiveKeywords[24])
  {
    assert PositiveKeywords[20] == "quick"; AbsentChar(s, "quick", 0);
    assert PositiveKeywords[21] == "fast"; AbsentChar(s, "fast", 3);
    assert PositiveKeywords[22] == "efficient"; AbsentChar(s, "efficient", 4);
    assert PositiveKeywords[24] == "helpful"; AbsentChar(s, "helpful", 0);
  }

  lemma UnprofessionalPositiveAbsent6(s: string)
    requires s == "unprofessional"
    ensures !Contains(s, PositiveKeywords[25])
    ensures !Contains(s, PositiveKeywords[26])
  {
    assert PositiveKeywords[25] == "friendly"; AbsentChar(s, "friendly", 5);
    assert PositiveKeywords[26] == "kind"; AbsentChar(s, "kind", 0);
  }
}
