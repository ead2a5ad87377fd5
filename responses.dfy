/** The response generator of src/services/responses.ts: the prompt sent to
    the language model, the action checklist and the FAQ links of a
    generated response, and the assembly of the response record. The model
    call, `Date.now()` and `new Date().toISOString()` are parameters. */
module Responses {
  import opened Common
  import opened MentionTypes
  import opened ResponseTypes
  import opened OpenAiClient
  import opened KeywordSentiment
  import opened ReviewerName

  /* ---------- the prompt ---------- */

  const EnglishDirective: string := "IMPORTANT: Respond ONLY in English language."
  const UkrainianDirective: string := "IMPORTANT: Respond ONLY in Ukrainian language."

  /** `languageInstruction`: Ukrainian for 'uk', English otherwise. */
  function LanguageInstruction(language: ResponseLanguage): (r: string)
    ensures r == UkrainianDirective <==> language.Uk?
    ensures r == EnglishDirective <==> language.En?
  {
    if language == Uk then UkrainianDirective else EnglishDirective
  }

  /** The long fixed passages of the prompt template. The prompt functions
      take them as a parameter `t`, so each property proved below holds
      whatever the passages say; `buildPrompt` always uses `Texts`. */
  datatype PromptText = PromptText(
    intro: string,
    officialEn: string, officialUk: string,
    friendlyEn: string, friendlyUk: string,
    technicalEn: string, technicalUk: string,
    negativeIntro: string,
    negativeSteps: string,
    otherPoints: string)

  const Texts: PromptText := PromptText(
    intro := "You are a professional customer service representative for "
      + "a brand reputation management system specializing in "
      + "handling negative reviews.\n\n",
    officialEn := "Use a formal, professional tone. Be respectful, "
      + "authoritative, and corporate. Avoid casual language and " + "emojis.",
    officialUk := "Використовуйте формальний, професійний тон. Будьте "
      + "ввічливими, авторитетними та корпоративними. Уникайте "
      + "розмовної мови та емодзі.",
    friendlyEn := "Use a warm, approachable, and conversational tone. Be "
      + "empathetic, personal, and helpful. You can use emojis " + "sparingly.",
    friendlyUk := "Використовуйте теплий, доступний та розмовний тон. Будьте "
      + "емпатійними, особистими та корисними. Можете помірно " + "використовувати емодзі.",
    technicalEn := "Use a detailed, solution-focused, and technical tone. Be "
      + "specific, provide technical details, and focus on "
      + "problem-solving. Avoid casual language.",
    technicalUk := "Використовуйте детальний, орієнтований на рішення та "
      + "технічний тон. Будьте конкретними, надавайте технічні "
      + "деталі та зосередьтеся на вирішенні проблем.",
    negativeIntro := "You MUST follow these 11 essential steps for negative " + "review responses:\n\n"
      + "1. ADDRESS THE REVIEWER: ",
    negativeSteps := "\n\n" + "2. APOLOGIZE SINCERELY: Start with a heartfelt, genuine "
      + "apology. Even if it wasn't your fault, show you care about "
      + "their experience.\n\n"
      + "3. TAKE RESPONSIBILITY: Acknowledge your business's role "
      + "without blaming the customer. Be humble and professional.\n\n"
      + "4. PROVIDE EXPLANATION: Explain what went wrong without "
      + "making excuses. Show you understand the root cause.\n\n"
      + "5. THANK THE REVIEWER: Thank them for taking time to "
      + "provide feedback and helping you improve.\n\n"
      + "6. OFFER TO MAKE IT RIGHT: Show specific steps you'll take "
      + "to resolve their issue and prevent it from happening " + "again.\n\n"
      + "7. PROVIDE ALTERNATIVE CONTACT: Offer a direct way to "
      + "contact you (phone/email) for further discussion.\n\n"
      + "8. RESPOND QUICKLY: Acknowledge this is a priority " + "response.\n\n"
      + "9. DON'T TAKE IT PERSONALLY: Maintain professional, "
      + "objective tone even if the review is harsh.\n\n"
      + "10. OFFER REFUND/DISCOUNT: Consider offering appropriate "
      + "compensation if warranted.\n\n"
      + "11. ASK FOR SECOND CHANCE: Invite them back to give you "
      + "another opportunity to serve them better.\n\n" + "RESPONSE REQUIREMENTS:\n"
      + "- Length: 4-6 sentences for negative reviews (more detailed " + "than positive)\n"
      + "- Tone: Empathetic, professional, solution-focused\n"
      + "- Include: Personalization, apology, explanation, solution, "
      + "contact info, second chance offer\n"
      + "- Avoid: Defensive language, excuses, generic responses, " + "taking it personally",
    otherPoints := "1. A well-crafted response that addresses the customer's " + "concern\n"
      + "2. Be empathetic and solution-oriented\n"
      + "3. Keep the response concise (2-4 sentences for friendly "
      + "style, 3-5 for others)\n" + "4. Make it sound natural and human")

  /** `styleGuides[style][language]` */
  function StyleGuide(t: PromptText, style: ResponseStyle, language: ResponseLanguage): string
  {
    match (style, language)
    case (Official, En) => t.officialEn
    case (Official, Uk) => t.officialUk
    case (Friendly, En) => t.friendlyEn
    case (Friendly, Uk) => t.friendlyUk
    case (Technical, En) => t.technicalEn
    case (Technical, Uk) => t.technicalUk
  }

  /** The six style guides of `Texts` are pairwise different, so the guide in
      a prompt determines both the style and the language. */
  lemma StyleGuidesDistinct(s1: ResponseStyle, l1: ResponseLanguage, s2: ResponseStyle, l2: ResponseLanguage)
    requires StyleGuide(Texts, s1, l1) == StyleGuide(Texts, s2, l2)
    ensures s1 == s2 && l1 == l2
  {
    assert |Texts.officialEn| == 111 && |Texts.officialUk| == 130;
    assert |Texts.friendlyEn| == 118 && |Texts.friendlyUk| == 134;
    assert |Texts.technicalEn| == 146 && |Texts.technicalUk| == 151;
    assert |StyleGuide(Texts, s1, l1)| == |StyleGuide(Texts, s2, l2)|;
  }

  /** The opening template of `buildPrompt`, up to and including the quoted
      mention: the introduction, the language directive, the sentiment and
      style lines, the style guide and the mention. */
  function Header(t: PromptText, request: ResponseRequest, sentiment: Sentiment): string
  {
    t.intro + (LanguageInstruction(request.language)
      + (StyleLines(sentiment, request.style)
      + (StyleGuide(t, request.style, request.language) + QuotedMention(request.mention_content))))
  }

  function StyleLines(sentiment: Sentiment, style: ResponseStyle): string
  {
    "\n\nDETECTED SENTIMENT: " + ToUpper(sentiment.Name()) + "\nSTYLE: " + style.Name() + "\n"
  }

  function QuotedMention(content: string): string
  {
    "\n\nCustomer Mention:\n\"" + content + "\"\n"
  }

  /* Each appended section starts with a blank line and a title, and the
     titles begin with different letters. */
  const ReviewerLabel: string := "\n\nREVIEWER NAME: "
  const ContextLabel: string := "\n\nAdditional " + "Context:\n"
  const NegativeHeading: string := "\n\nCRITICAL " + "NEGATIVE REVIEW RESPONSE GUIDELINES:\n"
  const OtherHeading: string := "\n\nPlease provide:\n"
  const ResponseCue: string := "\n\nRESPONSE:"

  /** `if (reviewerName) prompt += ...` */
  function ReviewerSection(name: Option<string>): string
  {
    if Truthy(name) then ReviewerLabel + name.value else ""
  }

  /** `if (request.custom_instructions) prompt += ...` */
  function ContextSection(custom: Option<string>): string
  {
    if Truthy(custom) then ContextLabel + (custom.value + "\n") else ""
  }

  /** Step 1 of the negative guidelines. */
  function AddressStep(name: Option<string>): string
  {
    if Truthy(name) then "Use the reviewer's name \"" + name.value + "\""
    else "Use a personalized greeting (avoid generic \"dear customer\")"
  }

  /** The 11-step block for negative mentions. */
  function NegativeClosing(t: PromptText, name: Option<string>): string
  {
    NegativeHeading + (t.negativeIntro + (AddressStep(name) + (t.negativeSteps + ResponseCue)))
  }

  /** The 4-point block for every other mention. */
  function OtherClosing(t: PromptText): string
  {
    OtherHeading + (t.otherPoints + ResponseCue)
  }

  function Closing(t: PromptText, sentiment: Sentiment, name: Option<string>): string
  {
    if sentiment == Negative then NegativeClosing(t, name) else OtherClosing(t)
  }

  /** The sections of the prompt, in order. */
  datatype PromptParts = PromptParts(header: string, reviewer: string, context: string, closing: string)

  function Parts(t: PromptText, request: ResponseRequest): PromptParts
  {
    var sentiment := DetectSentiment(request.mention_content);
    var name := Extract(request.mention_content);
    PromptParts(
      Header(t, request, sentiment),
      ReviewerSection(name),
      ContextSection(request.custom_instructions),
      Closing(t, sentiment, name))
  }

  /** The prompt built from the passages `t`. */
  function Prompt(t: PromptText, request: ResponseRequest): string
  {
    var p := Parts(t, request);
    p.header + p.reviewer + p.context + p.closing
  }

  /** `buildPrompt`: the template, then the conditional appends. The
      source's passages are `Texts`. */
  method BuildPrompt(t: PromptText, request: ResponseRequest) returns (prompt: string)
    ensures prompt == Prompt(t, request)
  {
    var sentiment := DetectSentiment(request.mention_content);
    var reviewerName := Extract(request.mention_content);
    ghost var p := Parts(t, request);
    prompt := Header(t, request, sentiment);
    if Truthy(reviewerName) {
      prompt := prompt + (ReviewerLabel + reviewerName.value);
    } else {
      AppendEmpty(prompt);
    }
    assert prompt == p.header + p.reviewer;
    if Truthy(request.custom_instructions) {
      prompt := prompt + (ContextLabel + (request.custom_instructions.value + "\n"));
    } else {
      AppendEmpty(prompt);
    }
    assert prompt == p.header + p.reviewer + p.context;
    if sentiment == Negative {
      prompt := prompt + NegativeClosing(t, reviewerName);
    } else {
      prompt := prompt + OtherClosing(t);
    }
  }

  /* ---------- where the parts sit in the prompt ---------- */

  lemma AppendEmpty(s: string)
    ensures s + "" == s
  {
  }

  /** An occurrence inside the header is an occurrence in the prompt. */
  lemma OccursInHeader(h: string, r: string, c: string, z: string, w: string, i: int)
    requires 0 <= i && i + |w| <= |h|
    ensures OccursAt(h + r + c + z, w, i) <==> OccursAt(h, w, i)
  {
    ConcatAssoc4(h, r, c, z);
    OccursInLeft(h, r + (c + z), w, i);
  }

  /** What follows the header. */
  lemma AfterHeader(h: string, r: string, c: string, z: string, w: string)
    ensures OccursAt(h + r + c + z, w, |h|) <==> w <= r + (c + z)
  {
    ConcatAssoc4(h, r, c, z);
    OccursRightAfter(h, r + (c + z), w);
  }

  /** What follows the reviewer section. */
  lemma AfterReviewer(h: string, r: string, c: string, z: string, w: string)
    ensures OccursAt(h + r + c + z, w, |h + r|) <==> w <= c + z
  {
    ConcatAssoc3(h + r, c, z);
    OccursRightAfter(h + r, c + z, w);
  }

  /** What follows the context section. */
  lemma AfterContext(h: string, r: string, c: string, z: string)
    ensures |h + r + c| <= |h + r + c + z| && (h + r + c + z)[|h + r + c|..] == z
  {
  }

  /** The third character of the text after the header tells which
      section comes first: 'R' for the reviewer line, 'A' for additional
      context, 'C' or 'P' for the closing block. */
  lemma ThirdAfterHeader(r: string, c: string, z: string)
    requires r == "" || (|r| > 2 && r[2] == 'R')
    requires c == "" || (|c| > 2 && c[2] == 'A')
    requires |z| > 2 && z[2] != 'R' && z[2] != 'A'
    ensures |r + (c + z)| > 2 && ((r + (c + z))[2] == 'R' <==> r != "")
    ensures |c + z| > 2 && ((c + z)[2] == 'A' <==> c != "")
  {
  }

  /* ---------- properties of the prompt ---------- */

  /** The closing block of a prompt that ends with the response cue. */
  lemma ClosingEndsWithCue(t: PromptText, sentiment: Sentiment, name: Option<string>)
    ensures |Closing(t, sentiment, name)| > 2
    ensures Closing(t, sentiment, name)[2] == 'C' <==> sentiment == Negative
    ensures Closing(t, sentiment, name)[2] == 'P' <==> sentiment != Negative
    ensures EndsWith(Closing(t, sentiment, name), "RESPONSE:")
  {
    if sentiment == Negative {
      NegativeClosingShape(t, name);
    } else {
      OtherClosingShape(t);
    }
  }

  /** The negative guidelines start with "\n\nC" and end with the cue. */
  lemma NegativeClosingShape(t: PromptText, name: Option<string>)
    ensures |NegativeClosing(t, name)| > 2 && NegativeClosing(t, name)[2] == 'C'
    ensures EndsWith(NegativeClosing(t, name), "RESPONSE:")
  {
    ClosingLiterals();
    var steps := t.negativeSteps + ResponseCue;
    EndsWithRight(t.negativeSteps, ResponseCue, "RESPONSE:");
    EndsWithRight(AddressStep(name), steps, "RESPONSE:");
    EndsWithRight(t.negativeIntro, AddressStep(name) + steps, "RESPONSE:");
    HeadedBlock(NegativeHeading, t.negativeIntro + (AddressStep(name) + steps), 'C');
  }

  /** The four-point list starts with "\n\nP" and ends with the cue. */
  lemma OtherClosingShape(t: PromptText)
    ensures |OtherClosing(t)| > 2 && OtherClosing(t)[2] == 'P'
    ensures EndsWith(OtherClosing(t), "RESPONSE:")
  {
    ClosingLiterals();
    EndsWithRight(t.otherPoints, ResponseCue, "RESPONSE:");
    HeadedBlock(OtherHeading, t.otherPoints + ResponseCue, 'P');
  }

  /** The third characters of the two headings, and the cue's ending. */
  lemma ClosingLiterals()
    ensures |NegativeHeading| > 2 && NegativeHeading[2] == 'C'
    ensures |OtherHeading| > 2 && OtherHeading[2] == 'P'
    ensures EndsWith(ResponseCue, "RESPONSE:")
  {
  }

  /** A heading followed by a block that ends with the cue. */
  lemma HeadedBlock(heading: string, rest: string, c: char)
    requires |heading| > 2 && heading[2] == c && EndsWith(rest, "RESPONSE:")
    ensures |heading + rest| > 2 && (heading + rest)[2] == c
    ensures EndsWith(heading + rest, "RESPONSE:")
  {
    EndsWithRight(heading, rest, "RESPONSE:");
  }

  /** Each optional section begins with two line breaks and then its own
      letter, and it is present exactly when its value is truthy. */
  lemma SectionLetters(t: PromptText, request: ResponseRequest)
    ensures var p := Parts(t, request);
      && (p.reviewer == "" <==> !Truthy(Extract(request.mention_content)))
      && (p.reviewer != "" ==> |p.reviewer| > 2 && p.reviewer[2] == 'R')
      && (p.context == "" <==> !Truthy(request.custom_instructions))
      && (p.context != "" ==> |p.context| > 2 && p.context[2] == 'A')
  {
    assert ReviewerLabel[2] == 'R' && ContextLabel[2] == 'A';
  }

  /** Whatever follows it, the directive chosen for `language` starts with
      the Ukrainian directive exactly when the language is 'uk' and with the
      English one exactly when it is 'en' (they differ at index 27). */
  lemma DirectiveChoice(language: ResponseLanguage, x: string)
    ensures UkrainianDirective <= LanguageInstruction(language) + x <==> language.Uk?
    ensures EnglishDirective <= LanguageInstruction(language) + x <==> language.En?
  {
    var d := LanguageInstruction(language);
    assert UkrainianDirective[27] == 'U' && EnglishDirective[27] == 'E';
    assert (d + x)[27] == d[27];
    if language.Uk? {
      DifferAt(d + x, EnglishDirective, 27);
    } else {
      DifferAt(d + x, UkrainianDirective, 27);
    }
  }

  /** The directive follows the fixed introduction: the Ukrainian one exactly
      when the language is 'uk', the English one exactly when it is 'en'. */
  lemma PromptDirective(t: PromptText, request: ResponseRequest)
    ensures OccursAt(Prompt(t, request), LanguageInstruction(request.language), |t.intro|)
    ensures OccursAt(Prompt(t, request), UkrainianDirective, |t.intro|) <==> request.language.Uk?
    ensures OccursAt(Prompt(t, request), EnglishDirective, |t.intro|) <==> request.language.En?
  {
    var p := Parts(t, request);
    var d := LanguageInstruction(request.language);
    var x := StyleLines(DetectSentiment(request.mention_content), request.style)
      + (StyleGuide(t, request.style, request.language) + QuotedMention(request.mention_content));
    assert p.header == t.intro + (d + x);
    assert |UkrainianDirective| == 46 && |EnglishDirective| == 44;
    OccursInHeader(p.header, p.reviewer, p.context, p.closing, d, |t.intro|);
    OccursInHeader(p.header, p.reviewer, p.context, p.closing, UkrainianDirective, |t.intro|);
    OccursInHeader(p.header, p.reviewer, p.context, p.closing, EnglishDirective, |t.intro|);
    OccursRightAfter(t.intro, d + x, d);
    OccursRightAfter(t.intro, d + x, UkrainianDirective);
    OccursRightAfter(t.intro, d + x, EnglishDirective);
    DirectiveChoice(request.language, x);
  }

  /** The prompt carries `styleGuides[style][language]`. */
  lemma PromptStyleGuide(t: PromptText, request: ResponseRequest)
    ensures Contains(Prompt(t, request), StyleGuide(t, request.style, request.language))
  {
    var p := Parts(t, request);
    var g := StyleGuide(t, request.style, request.language);
    var q := QuotedMention(request.mention_content);
    var s := StyleLines(DetectSentiment(request.mention_content), request.style);
    var d := LanguageInstruction(request.language);
    assert p.header == t.intro + (d + (s + (g + q)));
    PrefixContained(g + q, g);
    ContainsRight(s, g + q, g);
    ContainsRight(d, s + (g + q), g);
    ContainsRight(t.intro, d + (s + (g + q)), g);
    ContainsLeft(p.header, p.reviewer, g);
    ContainsLeft(p.header + p.reviewer, p.context, g);
    ContainsLeft(p.header + p.reviewer + p.context, p.closing, g);
  }

  /** In any four-part text laid out like the prompt, the reviewer label
      follows the header exactly when the name is truthy. */
  lemma ReviewerAfterHeader(h: string, r: string, c: string, z: string, name: Option<string>)
    requires r == ReviewerSection(name)
    requires c == "" || (|c| > 2 && c[2] == 'A')
    requires |z| > 2 && z[2] != 'R' && z[2] != 'A'
    ensures OccursAt(h + r + c + z, ReviewerLabel, |h|) <==> Truthy(name)
    ensures Truthy(name) ==> OccursAt(h + r + c + z, ReviewerLabel + name.value, |h|)
  {
    assert ReviewerLabel[2] == 'R';
    ThirdAfterHeader(r, c, z);
    AfterHeader(h, r, c, z, ReviewerLabel);
    if Truthy(name) {
      AfterHeader(h, r, c, z, r);
    } else {
      DifferAt(r + (c + z), ReviewerLabel, 2);
    }
  }

  /** Likewise the context label follows the reviewer section exactly when
      the custom instructions are truthy. */
  lemma ContextAfterReviewer(h: string, r: string, c: string, z: string, custom: Option<string>)
    requires c == ContextSection(custom)
    requires |z| > 2 && z[2] != 'A'
    ensures OccursAt(h + r + c + z, ContextLabel, |h + r|) <==> Truthy(custom)
    ensures Truthy(custom) ==> OccursAt(h + r + c + z, ContextLabel + (custom.value + "\n"), |h + r|)
  {
    assert ContextLabel[2] == 'A';
    AfterReviewer(h, r, c, z, ContextLabel);
    if Truthy(custom) {
      AfterReviewer(h, r, c, z, c);
    } else {
      DifferAt(c + z, ContextLabel, 2);
    }
  }

  /** The text right after the header starts with "REVIEWER NAME: " exactly
      when the regular expression finds a name, and then it is that name. */
  lemma PromptReviewer(t: PromptText, request: ResponseRequest)
    ensures OccursAt(Prompt(t, request), ReviewerLabel, |Parts(t, request).header|)
      <==> Extract(request.mention_content).Some?
    ensures Extract(request.mention_content).Some? ==>
      OccursAt(Prompt(t, request), ReviewerLabel + Extract(request.mention_content).value, |Parts(t, request).header|)
  {
    var p := Parts(t, request);
    ExtractIsWord(request.mention_content);
    SectionLetters(t, request);
    ClosingEndsWithCue(t, DetectSentiment(request.mention_content), Extract(request.mention_content));
    ReviewerAfterHeader(p.header, p.reviewer, p.context, p.closing, Extract(request.mention_content));
  }

  /** Additional context appears after the reviewer line exactly when the
      custom instructions are present and non-empty. */
  lemma PromptContext(t: PromptText, request: ResponseRequest)
    ensures OccursAt(Prompt(t, request), ContextLabel, |Parts(t, request).header + Parts(t, request).reviewer|)
      <==> Truthy(request.custom_instructions)
    ensures Truthy(request.custom_instructions) ==>
      OccursAt(Prompt(t, request), ContextLabel + (request.custom_instructions.value + "\n"),
        |Parts(t, request).header + Parts(t, request).reviewer|)
  {
    var p := Parts(t, request);
    ClosingEndsWithCue(t, DetectSentiment(request.mention_content), Extract(request.mention_content));
    ContextAfterReviewer(p.header, p.reviewer, p.context, p.closing, request.custom_instructions);
  }

  /** Exactly one closing block ends the prompt: the 11-step guidelines when
      the mention is negative and the 4-point list otherwise; either way the
      prompt ends with "RESPONSE:". */
  lemma PromptClosing(t: PromptText, request: ResponseRequest)
    ensures var p := Parts(t, request);
      var c := |p.header + p.reviewer + p.context|;
      c <= |Prompt(t, request)|
      && ((Prompt(t, request)[c..] == NegativeClosing(t, Extract(request.mention_content)))
          <==> DetectSentiment(request.mention_content) == Negative)
      && ((Prompt(t, request)[c..] == OtherClosing(t)) <==> DetectSentiment(request.mention_content) != Negative)
    ensures EndsWith(Prompt(t, request), "RESPONSE:")
  {
    var p := Parts(t, request);
    var name := Extract(request.mention_content);
    AfterContext(p.header, p.reviewer, p.context, p.closing);
    ClosingEndsWithCue(t, DetectSentiment(request.mention_content), name);
    ClosingEndsWithCue(t, Negative, name);
    ClosingEndsWithCue(t, Neutral, name);
    EndsWithRight(p.header + p.reviewer + p.context, p.closing, "RESPONSE:");
  }

  /** A negative mention signed by a reviewer asks for the reviewer's name. */
  lemma NegativePromptUsesName(t: PromptText, request: ResponseRequest)
    requires DetectSentiment(request.mention_content) == Negative
    requires Extract(request.mention_content).Some?
    ensures Contains(Prompt(t, request), "Use the reviewer's name \"" + Extract(request.mention_content).value + "\"")
  {
    var p := Parts(t, request);
    var name := Extract(request.mention_content);
    ExtractIsWord(request.mention_content);
    var a := AddressStep(name);
    assert a == "Use the reviewer's name \"" + name.value + "\"";
    var rest := t.negativeSteps + ResponseCue;
    assert p.closing == NegativeHeading + (t.negativeIntro + (a + rest));
    PrefixContained(a + rest, a);
    ContainsRight(t.negativeIntro, a + rest, a);
    ContainsRight(NegativeHeading, t.negativeIntro + (a + rest), a);
    ContainsRight(p.header + p.reviewer + p.context, p.closing, a);
  }

  /* ---------- the action checklist ---------- */

  const BaseActions: seq<string> := [
    "Review customer history and previous interactions",
    "Document the issue in customer support system"]

  const NegativeActions: seq<string> := [
    "Escalate to senior support team immediately",
    "Follow up within 24 hours via phone/email",
    "Offer appropriate compensation (refund/discount)",
    "Implement process improvements to prevent recurrence",
    "Monitor for follow-up response from customer",
    "Update customer service training based on feedback"]

  const PositiveActions: seq<string> := [
    "Thank customer publicly and privately",
    "Share positive feedback with team",
    "Consider featuring in testimonials",
    "Monitor for follow-up questions"]

  const NeutralActions: seq<string> := [
    "Monitor for follow-up questions",
    "Provide additional resources if needed"]

  const ComplaintActions: seq<string> := ["Schedule follow-up call", "Prepare compensation offer"]

  const QuestionActions: seq<string> := [
    "Provide detailed documentation links",
    "Offer live chat support if needed"]

  /** `custom_instructions?.toLowerCase().includes(word)`: false when the
      instructions are absent. */
  predicate InstructionsMention(custom: Option<string>, word: string)
  {
    custom.Some? && Contains(ToLower(custom.value), word)
  }

  function SentimentActions(sentiment: Sentiment): seq<string>
  {
    match sentiment
    case Negative => NegativeActions
    case Positive => PositiveActions
    case Neutral => NeutralActions
  }

  function ContextActions(custom: Option<string>): seq<string>
  {
    if InstructionsMention(custom, "complaint") then ComplaintActions
    else if InstructionsMention(custom, "question") then QuestionActions
    else []
  }

  /** The checklist `generateActionChecklist` returns. */
  function ActionChecklist(request: ResponseRequest): seq<string>
  {
    BaseActions + SentimentActions(DetectSentiment(request.mention_content)) + ContextActions(request.custom_instructions)
  }

  /** `generateActionChecklist`: the base list, then the pushes. */
  method GenerateActionChecklist(request: ResponseRequest) returns (baseActions: seq<string>)
    ensures baseActions == ActionChecklist(request)
  {
    var sentiment := DetectSentiment(request.mention_content);
    baseActions := BaseActions;
    if sentiment == Negative {
      baseActions := baseActions + NegativeActions;
    } else if sentiment == Positive {
      baseActions := baseActions + PositiveActions;
    } else {
      baseActions := baseActions + NeutralActions;
    }
    if InstructionsMention(request.custom_instructions, "complaint") {
      baseActions := baseActions + ComplaintActions;
    } else if InstructionsMention(request.custom_instructions, "question") {
      baseActions := baseActions + QuestionActions;
    }
  }

  /** The checklist starts with the two base actions, adds 6, 4 or 2 by
      sentiment, and at most one pair of context actions, "complaint" taking
      precedence over "question"; so its length is 4, 6, 8 or 10. */
  lemma ChecklistShape(request: ResponseRequest)
    ensures var r := ActionChecklist(request);
      |r| >= 4 && r[..2] == BaseActions
      && |r| == 2 + (match DetectSentiment(request.mention_content)
                      case Negative => 6 case Positive => 4 case Neutral => 2)
                 + (if InstructionsMention(request.custom_instructions, "complaint")
                      || InstructionsMention(request.custom_instructions, "question") then 2 else 0)
    ensures |ActionChecklist(request)| in {4, 6, 8, 10}
    ensures InstructionsMention(request.custom_instructions, "complaint") ==>
      ActionChecklist(request)[|ActionChecklist(request)| - 2..] == ComplaintActions
    ensures (!InstructionsMention(request.custom_instructions, "complaint")
             && InstructionsMention(request.custom_instructions, "question")) ==>
      ActionChecklist(request)[|ActionChecklist(request)| - 2..] == QuestionActions
  {
    var r := ActionChecklist(request);
    var s := SentimentActions(DetectSentiment(request.mention_content));
    var x := ContextActions(request.custom_instructions);
    assert r == BaseActions + s + x;
    assert r[..2] == BaseActions;
    assert r[|r| - |x|..] == x;
  }

  /* ---------- the generated response ---------- */

  /** `faq_links`: three links for a negative mention, two otherwise. */
  function FaqLinks(sentiment: Sentiment): (r: seq<FAQLink>)
    ensures |r| == 3 <==> sentiment == Negative
    ensures |r| == 2 <==> sentiment != Negative
  {
    if sentiment == Negative then [
      FAQLink("Negative Review Response Guidelines", "/support/negative-reviews", 0.95),
      FAQLink("Customer Satisfaction Recovery", "/support/recovery", 0.88),
      FAQLink("Direct Customer Support", "/support/contact", 0.85)]
    else [
      FAQLink("Customer Support Guidelines", "/support/guidelines", 0.85),
      FAQLink("Contact Support Team", "/support/contact", 0.72)]
  }

  const SystemPrompt: string := "You are a professional customer service expert specializing "
      + "in brand reputation management and negative review "
      + "recovery. You excel at turning unhappy customers into loyal "
      + "advocates through empathetic, solution-focused responses. "
      + "You follow proven best practices for addressing customer "
      + "complaints and always maintain a professional, humble, and " + "caring tone."

  const GenerationFailed: string := "Failed to generate response. Please check your OpenAI API key."

  /** The chat request `generateResponse` sends for `request`. */
  function ChatRequestFor(request: ResponseRequest): (r: ChatRequest)
    ensures r.user == Prompt(Texts, request) && !r.json_object
  {
    ChatRequest("gpt-4o-mini", SystemPrompt, Prompt(Texts, request), 0.7, 500, false)
  }

  /** `generateResponse`: `completion` is the outcome of sending
      `ChatRequestFor(request)`, `now` the value of `Date.now()` and
      `createdAt` that of `new Date().toISOString()`. */
  function GenerateResponse(request: ResponseRequest, completion: Completion, now: int, createdAt: string)
    : (r: Result<GeneratedResponse>)
    ensures r.Err? <==> completion.CallFailed?
    ensures r.Err? ==> r.message == GenerationFailed
    ensures r.Ok? ==>
      && r.value.id == "response-" + IntToString(now)
      && r.value.mention_id == request.mention_id
      && r.value.style == request.style
      && r.value.language == request.language
      && r.value.content == FirstContentOrEmpty(completion.choices)
      && r.value.action_checklist == ActionChecklist(request)
      && r.value.faq_links == FaqLinks(DetectSentiment(request.mention_content))
      && r.value.created_at == createdAt
  {
    match completion
    case CallFailed => Err(GenerationFailed)
    case Completed(choices) =>
      var sentiment := DetectSentiment(request.mention_content);
      Ok(GeneratedResponse(
        "response-" + IntToString(now),
        request.mention_id,
        request.style,
        request.language,
        FirstContentOrEmpty(choices),
        ActionChecklist(request),
        FaqLinks(sentiment),
        createdAt))
  }

  /** A generated response has three FAQ links exactly when the mention is
      negative, a checklist of 4 to 10 actions, an id made of "response-" and
      the timestamp, and empty content when the model returned no choice. */
  lemma GeneratedResponseShape(request: ResponseRequest, completion: Completion, now: int, createdAt: string)
    requires GenerateResponse(request, completion, now, createdAt).Ok?
    ensures var g := GenerateResponse(request, completion, now, createdAt).value;
      && (|g.faq_links| == 3 <==> DetectSentiment(request.mention_content) == Negative)
      && 4 <= |g.action_checklist| <= 10
      && g.id == "response-" + IntToString(now)
      && (completion.choices == [] ==> g.content == "")
  {
    ChecklistShape(request);
  }
}
