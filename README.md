# Brand-reputation dashboard: a verified model of its core logic

This project models the deterministic core of a brand-reputation dashboard.
The dashboard is a React and Redux front end that collects brand mentions from
review platforms, scores the brand's reputation, raises alerts and drafts
replies with a language model. Under the pages and the HTTP and OpenAI calls
sit the following pieces of logic, all modelled here:

- **Reply generation.** It covers the keyword sentiment classifier
  (`detectSentiment`) and the prompt the reply generator builds
  (`buildPrompt`), including its reviewer-name extraction. It also covers the
  action checklist (`generateActionChecklist`) and the assembly of the
  generated response.
- **The dashboard-insight prompt** (`buildDashboardPrompt`). Its fallbacks
  and five-item lists are modelled, and so is the single error that
  `generateDashboardInsights` reports.
- **The dashboard page's insight cache.** It is a `localStorage` map with a
  24-hour expiry. The model covers the key derived from the snapshot
  (`generateDataHash`, which keeps only the first 16 base64 symbols), the
  cache-then-generate flow keyed by it, and the sentiment pie data.
- **The alerts and mentions services.** The model covers the query pairs they
  send, the alert statistics, and the mark, acknowledge, resolve and dismiss
  calls.
- **The five Redux slices** (alerts, mentions, responses, analytics, ui).
  Each is a class whose fields are the slice state. Each reducer and each
  `extraReducers` case is a method that updates those fields in place.
- **The display helpers.** These are the score colour bands, the
  case-insensitive badge colours, the reputation-score display record, the
  sentiment trend, truncation, capitalisation and platform-name formatting.

Each part is proved against a specification:

- Pure source code becomes functions whose contracts state what the result
  means.
- Code that appends step by step becomes methods tied to specification
  functions: `URLSearchParams.append`, `let prompt +=` and `Array.push`.
- Lemmas prove the promised properties about those functions. Examples:
  keyword counts are counts of distinct keywords; the prompt has exactly one
  closing block; the checklist has 4, 6, 8 or 10 actions; a cache entry saved
  at `t` is returned before `t + 24h` and is evicted at exactly 24 h; query
  pairs follow a fixed key order; and the statistics add up.
- The base64 encoder behind `btoa` is modelled with a decoder and a proved
  round trip. With it, the model shows that the dashboard's 16-character
  cache key is the same for every snapshot that has a reputation score (see
  Findings).

The modules follow the source files:

- `Common`: strings, case mapping, `join`, `findIndex`, and query pairs as
  `URLSearchParams`.
- `AlertTypes`, `MentionTypes`, `ResponseTypes`, `AnalyticsTypes`: the types
  of `src/types`.
- `KeywordSentiment`, `ReviewerName`, `Responses`: `src/services/responses.ts`.
- `OpenAiClient`: the chat request and completion.
- `DashboardInsights`: `src/services/dashboardInsights.ts`.
- `Base64` and `Dashboard`: `src/pages/Dashboard.tsx`.
- `AlertsService`, `MentionsService`: the services.
- `AlertsSlice`, `MentionsSlice`, `ResponsesSlice`, `AnalyticsSlice`,
  `UiSlice`: the store slices.
- `DashboardHelpers`, `Formatters`: `src/utils`.

## Model

| member | source | states |
|---|---|---|
| KeywordSentiment.Matching | src/services/responses.ts:93-99 | at most as many matches as listed keywords |
| KeywordSentiment.MatchingIsFilter | src/services/responses.ts:93-99 | a keyword is matched exactly when it is listed and occurs as a substring of the text |
| KeywordSentiment.EachKeywordCountedOnce | src/services/responses.ts:93-99 | the matches are a sub-multiset of the keyword list, so repeating a keyword in the text never raises its count |
| KeywordSentiment.MatchingDependsOnlyOnOccurrence | src/services/responses.ts:93-99 | two texts containing the same keywords get the same matches, however often each occurs |
| KeywordSentiment.MatchingOnly | src/services/responses.ts:93-99 | when one keyword is the only one the text contains, the matches are that keyword alone |
| KeywordSentiment.DetectSentiment | src/services/responses.ts:15-104 | negative iff the negative count exceeds the positive one, positive iff the reverse, neutral on a tie, so the `> 0` guards never decide |
| KeywordSentiment.NegativeCount | src/services/responses.ts:93-96 | defines the negative count as the number of negative keywords the lower-cased text contains; its properties are `MatchingIsFilter` and `EachKeywordCountedOnce` |
| KeywordSentiment.PositiveCount | src/services/responses.ts:93-99 | defines the positive count in the same way for the positive keywords |
| KeywordSentiment.LowerCaseCounts | src/services/responses.ts:93-99 | for a text already in lower case the counts are the matches of the text itself |
| KeywordSentiment.NoKeywordIsNeutral | src/services/responses.ts:101-103 | a text without any keyword, the empty text among them, is neutral |
| KeywordSentiment.UnprofessionalContainsProfessional | src/services/responses.ts:59 | every text containing "unprofessional" contains the positive keyword "professional" |
| KeywordSentiment.UnprofessionalIsNeutral | src/services/responses.ts:59 | "unprofessional" on its own has one positive and one negative match and is neutral |
| ReviewerName.SpaceRunMaximal | src/services/responses.ts:132-135 | the `\s` run is all white space and maximal |
| ReviewerName.LetterRunMaximal | src/services/responses.ts:132-135 | the letter run is all ASCII letters and maximal |
| ReviewerName.NameAfter | src/services/responses.ts:132-135 | `\s+([A-Za-z]+)`: a capture is a non-empty letter run after at least one space |
| ReviewerName.NameAfterCaptures | src/services/responses.ts:132-135 | the capture is the whole letter run after the spaces, and there is none exactly when no letter follows a run of spaces |
| ReviewerName.MatchAtFirstAlternative | src/services/responses.ts:132-135 | ordered choice: the first alternative that works at a position gives the capture |
| ReviewerName.MatchAtNone | src/services/responses.ts:132-135 | the pattern fails at a position exactly when no alternative works there |
| ReviewerName.FindFrom | src/services/responses.ts:132-135 | a match is found at a position where the pattern matches and at no earlier one; no match means no position matches |
| ReviewerName.MatchAtCapturesLetters | src/services/responses.ts:132-135 | a match captures a non-empty run of ASCII letters |
| ReviewerName.ExtractIsWord | src/services/responses.ts:132-135 | an extracted reviewer name is a non-empty word of ASCII letters |
| ReviewerName.Extract | src/services/responses.ts:132-135 | defines the reviewer name as the first match from position 0; its properties are `FindFrom`, `ExtractIsWord` and `ShortAlternativesSuffice` |
| ReviewerName.FindFromSkip | src/services/responses.ts:132-135 | start positions where the pattern fails can be skipped |
| ReviewerName.LongAlternative | src/services/responses.ts:132-135 | where "review by" or "posted by" works, "by" works seven characters on with the same capture and no short alternative starts earlier |
| ReviewerName.ShortAlternativesSuffice | src/services/responses.ts:132-135 | the pattern gives the same name as `(?:by\|from)\s+([A-Za-z]+)`: the two-word alternatives never change the result |
| Responses.LanguageInstruction | src/services/responses.ts:124-127 | the Ukrainian directive for "uk", the English one otherwise |
| Responses.StyleGuidesDistinct | src/services/responses.ts:109-122 | the six style guides are pairwise different |
| Responses.BuildPrompt | src/services/responses.ts:106-200 | the appends of `buildPrompt`, step by step, give the prompt of the specification function |
| Responses.Prompt | src/services/responses.ts:106-200 | defines the prompt as header, reviewer section, context section and closing block; its properties are `PromptDirective` to `NegativePromptUsesName` |
| Responses.SectionLetters | src/services/responses.ts:149-155 | each optional section starts with two line breaks and its own letter, and is present exactly when its value is truthy |
| Responses.DirectiveChoice | src/services/responses.ts:124-127 | the chosen directive starts with the Ukrainian one iff the language is "uk" and with the English one iff it is "en" |
| Responses.PromptDirective | src/services/responses.ts:124-147 | after the fixed introduction the prompt carries the Ukrainian directive iff the language is "uk", the English one iff it is "en" |
| Responses.PromptStyleGuide | src/services/responses.ts:129-147 | the prompt contains `styleGuides[style][language]` |
| Responses.ReviewerAfterHeader | src/services/responses.ts:149-151 | the reviewer label follows the header exactly when the name is truthy |
| Responses.ContextAfterReviewer | src/services/responses.ts:153-155 | the context label follows the reviewer section exactly when the custom instructions are truthy |
| Responses.PromptReviewer | src/services/responses.ts:132-151 | the text after the header starts with "REVIEWER NAME: " exactly when the pattern finds a name, and then it is that name |
| Responses.PromptContext | src/services/responses.ts:153-155 | "ADDITIONAL CONTEXT" follows exactly when the custom instructions are present and non-empty |
| Responses.ClosingEndsWithCue | src/services/responses.ts:157-198 | each closing block ends with "RESPONSE:" |
| Responses.PromptClosing | src/services/responses.ts:157-198 | exactly one closing block ends the prompt: the 11-step guidelines iff the sentiment is negative, the four-point list otherwise; the prompt ends with "RESPONSE:" |
| Responses.NegativePromptUsesName | src/services/responses.ts:157-165 | a negative mention signed by a reviewer asks for that reviewer's name |
| Responses.GenerateActionChecklist | src/services/responses.ts:280-322 | the pushes onto the base list give the checklist of the specification function |
| Responses.ActionChecklist | src/services/responses.ts:280-322 | defines the checklist as base actions, sentiment actions and context actions; its property is `ChecklistShape` |
| Responses.ChecklistShape | src/services/responses.ts:283-318 | two base actions, then 6, 4 or 2 by sentiment, then at most one context pair with "complaint" before "question"; the length is 4, 6, 8 or 10 |
| Responses.FaqLinks | src/services/responses.ts:239-269 | three links for a negative mention, two otherwise |
| Responses.GenerateResponse | src/services/responses.ts:203-277 | a failed call is an error; otherwise the result has the id "response-" followed by the timestamp, copies mention id, style and language, takes the first choice's content or "", and carries the FAQ links of the detected sentiment and the checklist |
| Responses.ChatRequestFor | src/services/responses.ts:208-225 | the request sends the built prompt as the user message after the system prompt, without a JSON response format |
| Responses.GeneratedResponseShape | src/services/responses.ts:227-269 | three FAQ links iff negative, 4 to 10 actions, the id "response-" plus the timestamp, empty content without a choice |
| OpenAiClient.FirstContentOrEmpty | src/services/responses.ts:227 | the first choice's content when it is non-empty, "" otherwise; a non-empty result is always the first choice's content |
| DashboardInsights.FillShows | src/services/dashboardInsights.ts:36-98 | each substituted value stands right after the template text before it |
| DashboardInsights.CountOrZero | src/services/dashboardInsights.ts:45-48 | a missing count and a zero count both show "0", any other count its decimal form |
| DashboardInsights.ChangeSign | src/services/dashboardInsights.ts:41 | '+' exactly when the change is positive, "0.0" when it is zero or missing |
| DashboardInsights.IssueLines | src/services/dashboardInsights.ts:55-58 | line k numbers issue k as k + 1 with its title, priority and mention count |
| DashboardInsights.PlatformLines | src/services/dashboardInsights.ts:66-69 | one line per platform, in order |
| DashboardInsights.PromptShowsFields | src/services/dashboardInsights.ts:36-98 | every value appears in the prompt right after its own label |
| DashboardInsights.DashboardPrompt | src/services/dashboardInsights.ts:17-98 | defines the prompt as the template filled with the section values; its properties are `PromptShowsFields`, `MissingSectionsDefaults` and `PresentSectionsShown` |
| DashboardInsights.IssuesListed | src/services/dashboardInsights.ts:52-60 | at most five issues, the first ones, numbered 1 to k in input order |
| DashboardInsights.IssuesFallback | src/services/dashboardInsights.ts:52-60 | "No issues data available" exactly when the list is missing or empty |
| DashboardInsights.PlatformsListed | src/services/dashboardInsights.ts:63-71 | at most five platforms, the first ones, in input order |
| DashboardInsights.PlatformsFallback | src/services/dashboardInsights.ts:63-71 | "No platform data available" exactly when the distribution is missing, its `platforms` is missing, or the list is empty |
| DashboardInsights.MissingSectionsDefaults | src/services/dashboardInsights.ts:39-77 | missing sections show 0 counts, "Unknown" status, sentiment and platform, "0.0" scores and a 30-day period |
| DashboardInsights.PresentSectionsShown | src/services/dashboardInsights.ts:39-77 | present sections show their values; empty strings still fall back, and a period of 0 days shows as 30 |
| DashboardInsights.MissingScoreShowsUnknownStatus | src/services/dashboardInsights.ts:42 | without a reputation score the prompt says "Status: Unknown" |
| DashboardInsights.StatusShown | src/services/dashboardInsights.ts:42 | the status stands after its label in the filled template |
| DashboardInsights.InsightsRequest | src/services/dashboardInsights.ts:109-125 | the user message is the dashboard prompt and the answer is asked for as a JSON object |
| DashboardInsights.ResponseText | src/services/dashboardInsights.ts:127 | the first choice's content, "{}" when it is empty, nothing without a first choice |
| DashboardInsights.GenerateInsights | src/services/dashboardInsights.ts:101-136 | the parsed insight on success; every failure is the one error "Failed to generate insights. Please try again." |
| DashboardInsights.EmptyContentParsesAsObject | src/services/dashboardInsights.ts:127-128 | an answer without content is parsed as "{}" |
| Base64.SymbolValue | src/pages/Dashboard.tsx:94 | a symbol's value is one of the 64 sextets |
| Base64.Encode | src/pages/Dashboard.tsx:94 | four symbols per three bytes, rounded up |
| Base64.DecodeEncode | src/pages/Dashboard.tsx:94 | decoding inverts encoding |
| Base64.Btoa | src/pages/Dashboard.tsx:94 | defined exactly for Latin-1 strings, with four symbols per three characters, rounded up |
| Base64.BtoaInjective | src/pages/Dashboard.tsx:94 | different Latin-1 strings have different encodings |
| Base64.EncodePrefix | src/pages/Dashboard.tsx:94 | the first 4n symbols encode exactly the first 3n bytes |
| Base64.BtoaPrefix | src/pages/Dashboard.tsx:94 | the first 16 characters of `btoa(s)` depend only on the first 12 characters of s |
| Base64.ReputationPrefixEncoding | src/pages/Dashboard.tsx:94 | `btoa('{"reputation')` is "eyJyZXB1dGF0aW9u" |
| Dashboard.Members | src/pages/Dashboard.tsx:86-93 | with a score present, the first member written is `reputation_score` |
| Dashboard.KeyJsonPrefix | src/pages/Dashboard.tsx:86-94 | with a score present the JSON text starts with `{"reputation` |
| Dashboard.KeyDataOf | src/pages/Dashboard.tsx:86-93 | defines `keyData`: the current score, the distribution, the issue and platform counts, the total and the generation time, each missing with its section; its properties are `Members` and `KeyJsonPrefix` |
| Dashboard.KeyJson | src/pages/Dashboard.tsx:94 | defines `JSON.stringify(keyData)` as the members in declaration order, comma-separated in braces; its properties are `KeyJsonPrefix` and `DataHashDistinguishes` |
| Dashboard.SlicedDataHash | src/pages/Dashboard.tsx:85-95 | present exactly when the full encoding is; then its first 16 symbols, fewer only when the encoding is shorter |
| Dashboard.DataHash | src/pages/Dashboard.tsx:94 | present exactly when the JSON text is Latin-1; then four symbols per three characters, rounded up |
| Dashboard.SlicedHashIsConstant | src/pages/Dashboard.tsx:85-94 | every snapshot with a current score gets the key "eyJyZXB1dGF0aW9u" |
| Dashboard.SlicedHashCollides | src/pages/Dashboard.tsx:85-94 | two snapshots with different key data, scores 70 and 40, get the same key |
| Dashboard.DataHashDistinguishes | src/pages/Dashboard.tsx:85-94 | with the whole encoding as key, snapshots whose key data serialise differently get different keys |
| Dashboard.CacheKey | src/pages/Dashboard.tsx:99 | "dashboard_insights_" followed by the hash |
| Dashboard.CacheKeyInjective | src/pages/Dashboard.tsx:99 | different hashes have different keys |
| Dashboard.Lookup | src/pages/Dashboard.tsx:97-119 | the stored insights exactly when the entry exists and is under 24 hours old |
| Dashboard.AfterLookup | src/pages/Dashboard.tsx:107-113 | an expired entry is removed; otherwise the store is unchanged |
| Dashboard.Saved | src/pages/Dashboard.tsx:121-133 | one key more at most, and a read at the saving time returns the insights, stamped with that time |
| Dashboard.Cleared | src/pages/Dashboard.tsx:223-229 | with a hash, exactly its key is gone; without one the store is unchanged |
| Dashboard.SaveThenLookup | src/pages/Dashboard.tsx:103-133 | an entry saved at t is returned by every read before t + 24 h, which leaves the store as it is |
| Dashboard.DayOldEntryExpires | src/pages/Dashboard.tsx:103-113 | an entry exactly 24 hours old is not returned and is removed |
| Dashboard.OtherKeysUntouched | src/pages/Dashboard.tsx:99-133 | save, read and clear keep the presence and the value of every key other than their own hash's |
| Dashboard.MissLeavesStore | src/pages/Dashboard.tsx:99-118 | reading a missing key finds nothing and changes nothing |
| Dashboard.ClearThenLookup | src/pages/Dashboard.tsx:223-229 | after clearing a hash, reading it finds nothing |
| Dashboard.AfterGeneration | src/pages/Dashboard.tsx:121-193 | one request for the snapshot; on success the insights are shown and saved with the clock at which the answer arrived, on failure the error is shown and the store is unchanged |
| Dashboard.AfterFetch | src/pages/Dashboard.tsx:150-165 | defines the page once a snapshot and its key are loaded: the cache read at the fetch time, then the cached insights on a hit and `AfterGeneration` with the later saving time on a miss; its properties are `HitSkipsGeneration`, `StaleInsightsServed` and `CorrectedKeyNotStale` |
| Dashboard.DashboardPage.constructor | src/pages/Dashboard.tsx:81-82 | a fresh page over the existing store, with nothing loaded |
| Dashboard.DashboardPage.GetCachedInsights | src/pages/Dashboard.tsx:97-119 | returns `Lookup` and leaves the store as `AfterLookup` |
| Dashboard.DashboardPage.SaveInsightsToCache | src/pages/Dashboard.tsx:121-138 | writes the insights with the timestamp under the hash's key, nothing else |
| Dashboard.DashboardPage.ClearInsightsCache | src/pages/Dashboard.tsx:223-229 | removes the current hash's key, and does nothing without a hash |
| Dashboard.DashboardPage.GenerateInsightsAutomatically | src/pages/Dashboard.tsx:171-193 | the page after `AfterGeneration` |
| Dashboard.DashboardPage.OnDashboardFetched | src/pages/Dashboard.tsx:146-165 | nothing on rejection; the snapshot alone without a key; otherwise the page becomes `AfterFetch` for the snapshot and its sliced key |
| Dashboard.DashboardPage.HandleGenerateInsights | src/pages/Dashboard.tsx:195-221 | an error without loaded data or hash; otherwise one generation for the loaded snapshot |
| Dashboard.HitSkipsGeneration | src/pages/Dashboard.tsx:150-192 | a hit shows the cached insights, sends no request and leaves the store; a miss sends exactly one request, for the snapshot; a failed generation leaves the store as the read left it; a successful one is what every read of the key returns until 24 hours after the time it was saved |
| Dashboard.StaleInsightsServed | src/pages/Dashboard.tsx:85-165 | with the sliced key, insights saved for one scored snapshot are shown for any other scored snapshot fetched within 24 hours, without a request |
| Dashboard.CorrectedKeyNotStale | src/pages/Dashboard.tsx:85-165 | with the whole encoding as key, saving one snapshot's insights changes neither what a fetch of a snapshot with different key data reads nor what it shows or requests |
| Dashboard.SavedOtherHashRead | src/pages/Dashboard.tsx:97-133 | saving under one hash does not change what a read of another hash finds |
| Dashboard.FetchSeesOnlyLookup | src/pages/Dashboard.tsx:150-165 | what a fetch shows and requests depends on the store only through the read of its own key |
| Dashboard.PositiveSlices | src/pages/Dashboard.tsx:287 | the slices kept are exactly those with a positive value |
| Dashboard.SentimentPieData | src/pages/Dashboard.tsx:267-288 | defines the pie data as the positive slices of Positive, Negative and Neutral, or none without a distribution; its property is `PieDataOrder` |
| Dashboard.PieDataOrder | src/pages/Dashboard.tsx:267-288 | no distribution, no slices; otherwise the positive counts in the order Positive, Negative, Neutral |
| AlertsService.AlertsQuery | src/services/alerts.ts:13-16 | `page`, `page_size`, then `alert_type` only when a type is given |
| AlertsService.CountWhere | src/services/alerts.ts:44-57 | a count never exceeds the list length |
| AlertsService.CountComplement | src/services/alerts.ts:44-57 | a predicate and its negation count the whole list |
| AlertsService.CountPartition | src/services/alerts.ts:46-56 | four predicates of which each alert meets exactly one count the whole list |
| AlertsService.StatsAddUp | src/services/alerts.ts:44-57 | active plus resolved, the four severities and the four types each add up to the alert count |
| AlertsService.StatsOf | src/services/alerts.ts:44-57 | defines the statistics as the counts of the predicates over the page; its properties are `StatsAddUp`, `CountComplement` and `CountPartition` |
| AlertsService.GetAlertStats | src/services/alerts.ts:37-65 | requests page 1 of 100 and counts that page only; a failure is passed on |
| AlertsService.MarkAlert | src/services/alerts.ts:67-85 | the call carries the requested flag, on the path `/alerts/{id}/mark` |
| AlertsService.MarkPathsDistinct | src/services/alerts.ts:69 | different alert ids are marked through different paths |
| AlertsService.AcknowledgeAlert | src/services/alerts.ts:87-90 | the call marks the alert, whatever the notes |
| AlertsService.ResolveAlert | src/services/alerts.ts:92-94 | the call marks the alert, whatever the notes |
| AlertsService.DismissAlert | src/services/alerts.ts:96-98 | the id, unchanged |
| AlertsService.AcknowledgeIsResolve | src/services/alerts.ts:87-94 | acknowledging and resolving are `markAlert(id, true)`, whatever the notes |
| MentionsService.OptionalPair | src/services/mentions.ts:32-36 | one pair when the value is truthy, none otherwise |
| MentionsService.ProductIdPair | src/services/mentions.ts:20-21 | one pair for a non-zero product id, none for a missing id or 0 |
| MentionsService.EachPair | src/services/mentions.ts:24-27 | one pair per value, in order |
| MentionsService.PlatformPairs | src/services/mentions.ts:24-30 | one pair per element of a non-empty `platforms`, else the truthy single `platform` |
| MentionsService.FlattenOrdered | src/services/mentions.ts:17-40 | blocks keyed in a distinct key order flatten into pairs in that order |
| MentionsService.WithKeyFlatten | src/services/mentions.ts:17-40 | the pairs of key j in the flattened blocks are block j |
| MentionsService.QueryBlocksKeyed | src/services/mentions.ts:17-40 | each block of the query carries only its own key |
| MentionsService.AppendIfTruthy | src/services/mentions.ts:32-36 | appends the pair exactly when the value is truthy |
| MentionsService.AppendPlatforms | src/services/mentions.ts:24-30 | appends the platform pairs |
| MentionsService.MentionsQuery | src/services/mentions.ts:17-40 | the appends give the query of the specification function |
| MentionsService.MentionsQueryOf | src/services/mentions.ts:17-40 | defines the query as the flattened blocks in append order; its properties are `QueryOrder`, `QueryPairsByKey`, `PlatformsListed` and `PaginationLast` |
| MentionsService.QueryOrder | src/services/mentions.ts:17-40 | product_id, platform, sentiment, intent, priority, from_date, to_date, page, page_size, in that order |
| MentionsService.QueryPairsByKey | src/services/mentions.ts:17-40 | an optional pair appears iff its value is truthy; a non-empty `platforms` gives one pair per element and hides `platform`; page and page_size appear once |
| MentionsService.PlatformsListed | src/services/mentions.ts:24-30 | a non-empty `platforms` is sent element by element, whatever `platform` says |
| MentionsService.PaginationLast | src/services/mentions.ts:39-40 | `page` and `page_size` are the last two pairs |
| MentionsService.ProductIdZeroOmitted | src/services/mentions.ts:20-21 | product id 0 sends no `product_id` pair |
| MentionsService.GetMentions | src/services/mentions.ts:11-62 | the query is sent; on success the mentions and `total_items`, on any failure the empty page |
| AlertsSlice.IndexOfId | src/store/slices/alerts.ts:101 | the first index with the id, or -1 when no alert has it |
| AlertsSlice.ReplaceFirstById | src/store/slices/alerts.ts:100-105 | the first alert with the id becomes the payload, all others stay, the length is kept; without a match nothing changes |
| AlertsSlice.WithoutId | src/store/slices/alerts.ts:157-159 | exactly the alerts without the id remain |
| AlertsSlice.WithoutIdConcat | src/store/slices/alerts.ts:157-159 | removal commutes with concatenation, so the kept alerts stay in order |
| AlertsSlice.WithoutAbsentId | src/store/slices/alerts.ts:157-159 | a list without the id is kept whole |
| AlertsSlice.WithoutIdIdempotent | src/store/slices/alerts.ts:157-159 | dismissing twice is dismissing once |
| AlertsSlice.ReplaceFirstIdempotent | src/store/slices/alerts.ts:100-105 | replacing twice by the same payload is replacing once |
| AlertsSlice.AlertsStore.constructor | src/store/slices/alerts.ts:17-27 | the initial state: no alerts, page 1 of 20, nothing selected, not loading |
| AlertsSlice.AlertsStore.SetSelectedAlert | src/store/slices/alerts.ts:83-85 | only the selected alert changes |
| AlertsSlice.AlertsStore.SetCurrentPage | src/store/slices/alerts.ts:86-88 | only the page changes |
| AlertsSlice.AlertsStore.SetPageSize | src/store/slices/alerts.ts:89-92 | the page size changes and the page goes back to 1 |
| AlertsSlice.AlertsStore.SetSelectedAlertType | src/store/slices/alerts.ts:93-96 | the type changes and the page goes back to 1 |
| AlertsSlice.AlertsStore.AddAlert | src/store/slices/alerts.ts:97-99 | one longer, the payload first, the old list after it |
| AlertsSlice.AlertsStore.UpdateAlert | src/store/slices/alerts.ts:100-105 | the list becomes `ReplaceFirstById`; this is also the body of fulfilled mark, acknowledge and resolve at 136-155 |
| AlertsSlice.AlertsStore.ClearError | src/store/slices/alerts.ts:106-108 | only the error is cleared |
| AlertsSlice.AlertsStore.FetchAlertsPending | src/store/slices/alerts.ts:113-116 | loading, the error cleared |
| AlertsSlice.AlertsStore.FetchAlertsFulfilled | src/store/slices/alerts.ts:117-125 | alerts and pagination replaced, loading cleared |
| AlertsSlice.AlertsStore.FetchAlertsRejected | src/store/slices/alerts.ts:126-130 | loading cleared, the error set to the message or the default |
| AlertsSlice.AlertsStore.FetchAlertStatsFulfilled | src/store/slices/alerts.ts:132-134 | only the stats change |
| AlertsSlice.AlertsStore.DismissAlertFulfilled | src/store/slices/alerts.ts:157-159 | the list becomes `WithoutId` |
| MentionsSlice.MarkFirst | src/store/slices/mentions.ts:136-141 | only the first mention with the id gets the flag; without one the list is unchanged |
| MentionsSlice.MarkSelected | src/store/slices/mentions.ts:142-144 | the selected mention gets the flag exactly when it has the id |
| MentionsSlice.MarkFirstMarks | src/store/slices/mentions.ts:136-141 | ids are kept and the first mention with the id reads as marked |
| MentionsSlice.MarkMentionThunk | src/store/slices/mentions.ts:73-82 | an error "Failed to mark mention" exactly when the service returns null, else `{id, isMarked}` |
| MentionsSlice.MentionsStore.constructor | src/store/slices/mentions.ts:19-31 | page 1 of 10, total 0, no mentions, the empty filter |
| MentionsSlice.MentionsStore.SetFilter | src/store/slices/mentions.ts:88-91 | the filter changes and the page goes back to 1 |
| MentionsSlice.MentionsStore.SetPage | src/store/slices/mentions.ts:92-94 | only the page changes |
| MentionsSlice.MentionsStore.SetPageSize | src/store/slices/mentions.ts:95-98 | the page size changes and the page goes back to 1 |
| MentionsSlice.MentionsStore.SetSelectedMention | src/store/slices/mentions.ts:99-101 | only the selection changes |
| MentionsSlice.MentionsStore.ClearError | src/store/slices/mentions.ts:102-104 | only the error is cleared |
| MentionsSlice.MentionsStore.FetchMentionsPending | src/store/slices/mentions.ts:109-112 | loading, the error cleared |
| MentionsSlice.MentionsStore.FetchMentionsFulfilled | src/store/slices/mentions.ts:113-117 | mentions and total replaced, loading cleared, page and page size kept |
| MentionsSlice.MentionsStore.FetchMentionsRejected | src/store/slices/mentions.ts:118-121 | loading cleared, the error set to the message or the default |
| MentionsSlice.MentionsStore.FetchMentionByIdFulfilled | src/store/slices/mentions.ts:123-125 | only the selection changes |
| MentionsSlice.MentionsStore.FetchMentionStatsFulfilled | src/store/slices/mentions.ts:127-129 | only the stats change |
| MentionsSlice.MentionsStore.MarkAsReadFulfilled | src/store/slices/mentions.ts:131-134 | nothing changes |
| MentionsSlice.MentionsStore.MarkMentionFulfilled | src/store/slices/mentions.ts:136-145 | the list becomes `MarkFirst`, the selection `MarkSelected`, nothing else changes |
| MentionsSlice.MentionsStore.MarkMentionRejected | src/store/slices/mentions.ts:146-149 | only the error changes, to the message or the default |
| MentionsSlice.MentionsStore.DispatchMarkMention | src/store/slices/mentions.ts:73-82 | a null answer sets the error and leaves the list alone; otherwise the mention is marked |
| ResponsesSlice.ResponsesStore.constructor | src/store/slices/responses.ts:13-18 | no response, an empty history, not loading, no error |
| ResponsesSlice.ResponsesStore.SetCurrentResponse | src/store/slices/responses.ts:48-50 | only the current response changes |
| ResponsesSlice.ResponsesStore.ClearError | src/store/slices/responses.ts:51-53 | only the error is cleared |
| ResponsesSlice.ResponsesStore.GenerateResponsePending | src/store/slices/responses.ts:58-61 | loading, the error cleared |
| ResponsesSlice.ResponsesStore.GenerateResponseFulfilled | src/store/slices/responses.ts:62-65 | loading cleared, the payload is the current response |
| ResponsesSlice.ResponsesStore.GenerateResponseRejected | src/store/slices/responses.ts:66-69 | loading cleared, the error set, the earlier response kept |
| ResponsesSlice.ResponsesStore.FetchResponseHistoryFulfilled | src/store/slices/responses.ts:71-73 | only the history changes |
| ResponsesSlice.ResponsesStore.SendResponseFulfilled | src/store/slices/responses.ts:75-77 | one longer history, the payload first |
| AnalyticsSlice.RadarData | src/store/slices/analytics.ts:201-204 | as many points as categories; point i pairs category i with value i, or with nothing past the values |
| AnalyticsSlice.RadarUnzip | src/store/slices/analytics.ts:201-204 | the categories come back out, and the values too when the lengths agree |
| AnalyticsSlice.OrEmpty | src/store/slices/analytics.ts:171-174 | a missing list reads as [] |
| AnalyticsSlice.PlatformsOf | src/store/slices/analytics.ts:173 | the platforms, or [] when the distribution or its `platforms` is missing |
| AnalyticsSlice.AnalyticsStore.constructor | src/store/slices/analytics.ts:35-53 | the initial state, with the date range given |
| AnalyticsSlice.AnalyticsStore.SetDateRange | src/store/slices/analytics.ts:120-122 | only the range changes |
| AnalyticsSlice.AnalyticsStore.ClearError | src/store/slices/analytics.ts:123-125 | only the error is cleared |
| AnalyticsSlice.AnalyticsStore.FetchPending | src/store/slices/analytics.ts:130-132 | loading, the error kept |
| AnalyticsSlice.AnalyticsStore.FetchReputationScoreFulfilled | src/store/slices/analytics.ts:133-136 | loading cleared, the score replaced, the error kept |
| AnalyticsSlice.AnalyticsStore.FetchReputationScoreRejected | src/store/slices/analytics.ts:137-140 | loading cleared, the error set to the message or its default |
| AnalyticsSlice.AnalyticsStore.FetchSentimentTrendFulfilled | src/store/slices/analytics.ts:142-144 | only the trend changes |
| AnalyticsSlice.AnalyticsStore.FetchPlatformStatsFulfilled | src/store/slices/analytics.ts:146-148 | only the platform stats change |
| AnalyticsSlice.AnalyticsStore.FetchTopIssuesFulfilled | src/store/slices/analytics.ts:150-152 | only the issues change |
| AnalyticsSlice.AnalyticsStore.FetchTopicAnalysisFulfilled | src/store/slices/analytics.ts:154-156 | only the topics change |
| AnalyticsSlice.AnalyticsStore.FetchResponseMetricsFulfilled | src/store/slices/analytics.ts:158-160 | only the metrics change |
| AnalyticsSlice.AnalyticsStore.FetchDashboardDataFulfilled | src/store/slices/analytics.ts:165-183 | the snapshot's sections with missing lists as [], loading cleared, the error kept |
| AnalyticsSlice.AnalyticsStore.FetchDashboardDataRejected | src/store/slices/analytics.ts:184-188 | loading cleared, the error set to the message or its default |
| AnalyticsSlice.AnalyticsStore.FetchAnalyticsDataFulfilled | src/store/slices/analytics.ts:193-213 | platform sentiment, the radar zip and the detailed topics, loading cleared, the error kept |
| AnalyticsSlice.AnalyticsStore.FetchAnalyticsDataRejected | src/store/slices/analytics.ts:214-217 | loading cleared, the error set to the message or its default |
| UiSlice.ToggledSidebar | src/store/slices/ui.ts:27-29 | the sidebar flag flips, nothing else changes |
| UiSlice.SidebarSet | src/store/slices/ui.ts:30-32 | the sidebar flag is the argument, nothing else changes |
| UiSlice.ToggledDarkMode | src/store/slices/ui.ts:33-35 | the dark-mode flag flips, nothing else changes |
| UiSlice.Shown | src/store/slices/ui.ts:36-45 | an open banner with the message and severity, flags kept |
| UiSlice.Hidden | src/store/slices/ui.ts:46-48 | the banner closes and keeps its message and severity |
| UiSlice.ToggleSidebarTwice | src/store/slices/ui.ts:27-29 | toggling twice is the identity |
| UiSlice.ToggleDarkModeTwice | src/store/slices/ui.ts:33-35 | toggling twice is the identity |
| UiSlice.SidebarSetIdempotent | src/store/slices/ui.ts:30-32 | setting twice is setting once |
| UiSlice.ShowThenHide | src/store/slices/ui.ts:36-48 | showing then hiding leaves a closed banner with the message and severity |
| UiSlice.UiStore.constructor | src/store/slices/ui.ts:13-21 | sidebar open, light mode, the banner closed with an empty message and severity info |
| UiSlice.UiStore.ToggleSidebar | src/store/slices/ui.ts:27-29 | the state becomes `ToggledSidebar` |
| UiSlice.UiStore.SetSidebarOpen | src/store/slices/ui.ts:30-32 | the state becomes `SidebarSet` |
| UiSlice.UiStore.ToggleDarkMode | src/store/slices/ui.ts:33-35 | the state becomes `ToggledDarkMode` |
| UiSlice.UiStore.ShowNotification | src/store/slices/ui.ts:36-45 | the state becomes `Shown` |
| UiSlice.UiStore.HideNotification | src/store/slices/ui.ts:46-48 | the state becomes `Hidden` |
| DashboardHelpers.ScoreColor | src/utils/dashboardHelpers.ts:8-12 | dark green from 80, dark orange from 60 below 80, dark red below 60 |
| DashboardHelpers.ScoreLightColor | src/utils/dashboardHelpers.ts:29-33 | the light shades on the same thresholds |
| DashboardHelpers.ScoreTextColor | src/utils/dashboardHelpers.ts:19-22 | always "#ffffff" |
| DashboardHelpers.ColorsShareBand | src/utils/dashboardHelpers.ts:8-33 | both colours are the band's pair, and two scores share a colour exactly when they share a band |
| DashboardHelpers.BandMonotone | src/utils/dashboardHelpers.ts:8-33 | a higher score is never in a worse band |
| DashboardHelpers.ScoreStatusColor | src/utils/dashboardHelpers.ts:40-54 | success iff excellent or good, warning iff fair or moderate, error iff poor or critical, ignoring case; never info |
| DashboardHelpers.PriorityColor | src/utils/dashboardHelpers.ts:91-104 | error iff critical, warning iff high, info iff medium, ignoring case; never success |
| DashboardHelpers.BadgeColorsIgnoreCase | src/utils/dashboardHelpers.ts:40-104 | upper- and lower-casing the input keeps both badge colours |
| DashboardHelpers.PriorityNameColors | src/utils/dashboardHelpers.ts:91-104 | the four mention priorities get error, warning, info and default |
| DashboardHelpers.FormatReputationScore | src/utils/dashboardHelpers.ts:61-84 | no score: "0.0", "No data", stable, default badge; a score: its display, change text and direction, and status badge; white text always |
| DashboardHelpers.DisplayColorsInOneBand | src/utils/dashboardHelpers.ts:61-84 | the colours are one band's pair, the poor band when the score is missing |
| DashboardHelpers.SentimentTrend | src/utils/dashboardHelpers.ts:137-144 | stable iff the difference is within half a point, up iff it is at least 0.5, down iff at most -0.5 |
| DashboardHelpers.TrendSwap | src/utils/dashboardHelpers.ts:137-144 | swapping the scores swaps up and down and keeps stable |
| DashboardHelpers.TrendReflexive | src/utils/dashboardHelpers.ts:137-144 | a score compared with itself is stable |
| Formatters.TruncateText | src/utils/formatters.ts:28-31 | on UTF-16 code units: the text when it fits; otherwise its first `maxLength` code units and "...", of length `maxLength + 3`; "..." alone for a negative length; the default is 100 |
| Formatters.TruncateIdempotent | src/utils/formatters.ts:28-31 | truncating twice to the same length is truncating once |
| Formatters.CodeUnits | src/utils/formatters.ts:28-31 | one code unit below U+10000; above, a high and a low surrogate that decode back to the character |
| Formatters.Utf16Append | src/utils/formatters.ts:28-31 | the encoding of a concatenation is the concatenation of the encodings |
| Formatters.Utf16Bmp | src/utils/formatters.ts:28-31 | text below U+10000 has one code unit per character |
| Formatters.Utf16Astral | src/utils/formatters.ts:28-31 | text above U+10000 has two code units per character |
| Formatters.Utf16PairsComplete | src/utils/formatters.ts:28-31 | the encoding of any text leaves no high surrogate without its low one |
| Formatters.TruncateBmp | src/utils/formatters.ts:28-31 | for text below U+10000 the cut is by characters: kept when it fits, otherwise the first `maxLength` characters and "..." |
| Formatters.TruncateSplitsPair | src/utils/formatters.ts:28-31 | 99 letters and an emoji are cut inside the emoji: a lone high surrogate 0xD83D at index 99, so the result encodes no text |
| Formatters.TruncateCountsCodeUnits | src/utils/formatters.ts:28-31 | sixty emoji, sixty characters, are already cut at the default length of 100 |
| Formatters.CapitalizeFirst | src/utils/formatters.ts:33-35 | same length, the first character upper-cased, the rest unchanged |
| Formatters.Split | src/utils/formatters.ts:38 | at least one piece, none containing the separator |
| Formatters.CapitalizeAll | src/utils/formatters.ts:39 | each piece capitalised |
| Formatters.Formatted | src/utils/formatters.ts:37-42 | character by character: '_' to ' ', a piece's first character upper-cased, others kept |
| Formatters.FormatPlatformName | src/utils/formatters.ts:37-42 | defines the name as split on '_', each piece capitalised, joined with ' '; its properties are `PlatformNameIsFormatted` and `PlatformNameShape` |
| Formatters.PlatformNameIsFormatted | src/utils/formatters.ts:37-42 | the split, map and join equal the character-by-character definition |
| Formatters.PlatformNameShape | src/utils/formatters.ts:37-42 | same length, no '_', each '_' a space, each piece's first character upper-cased, the rest kept |
| Formatters.SplitCount | src/utils/formatters.ts:38 | one piece more than separators |
| Formatters.WordCountPreserved | src/utils/formatters.ts:37-42 | a name without spaces has as many words after formatting as pieces before |
| Common.ToLower | src/services/responses.ts:16 | `toLowerCase()` on ASCII letters, length kept |
| Common.ToLowerIdempotent | src/utils/dashboardHelpers.ts:41 | lower-casing twice is lower-casing once |
| Common.FirstIndex | src/store/slices/alerts.ts:101 | `findIndex`: the first position satisfying the predicate, or -1 when none does |
| Common.NatToStringInjective | src/services/alerts.ts:69 | different natural numbers have different decimal forms |
| Common.IntToStringInjective | src/services/alerts.ts:69 | `toString()` of different integers differs |
| Common.MessageOr | src/store/slices/alerts.ts:128 | the message when it is present and non-empty, else the default; empty exactly when both are missing or empty |
| Common.OrElse | src/services/dashboardInsights.ts:42 | the string when it is non-empty, else the fallback; empty exactly when both are |
| Common.WithKey | src/services/mentions.ts:17-40 | the pairs of one key, in order |

## Left out

- HTTP (axios), the OpenAI client and `JSON.parse` are not called. Their
  outcomes are parameters: a `Result` for each HTTP answer, a `Completion`
  for the chat call and a `parse` function for `JSON.parse`.
- `localStorage` is a `map` field of the dashboard page.
  `Date.now()` and `new Date().toISOString()` are parameters. The
  dashboard page reads the clock twice per generation, so it gets two:
  - `now` is the time of the cache read, before the request;
  - `savedAt` is the timestamp of the save, after the answer has arrived.
  `console.*` is dropped, and so are the `try`/`catch` around storage
  access, which only logs.
- `toFixed(1)` is the parameter `fmt1: real -> string`.
  `JSON.stringify` of numbers and strings is the parameter
  `JsonEncoding`; its object layout is modelled.
- Scores and percentages are `real`, so NaN, infinities and rounding are
  not modelled.
- `toLowerCase` and `toUpperCase` are modelled on ASCII letters only.
- Formatters.CapitalizeFirst and Formatters.PlatformNameShape: the length
  is preserved only because upper-casing is ASCII; a character such as 'ß',
  whose upper case is two characters, is not modelled.
- Base64.Btoa: a character above U+00FF, where `btoa` throws, gives `None`.
  The dashboard then has no key, and the model stops there.
- DashboardInsights.PresentSectionsShown: the inner fields of a section that
  is present are taken to be present, as `src/types/analytics.ts` declares.
  The optional chaining on them is not modelled. The one exception is
  `platforms` of a platform distribution: `src/types/analytics.ts:133`
  declares it required, but every reader guards it with `?.platforms`. So it
  is optional in the model, and a missing list is handled as the source
  does.
- Formatters.TruncateText takes and returns UTF-16 code units, as
  JavaScript strings are. Text is related to them through `Utf16`.
  Code units that are not the encoding of any text, a lone surrogate among
  them, are accepted as they come.
- Priorities and alert types are enumerations, so a value outside the
  declared ones is impossible in the model. With that, AlertsService.StatsAddUp
  holds for every list.
- ReviewerName: the regular expression is modelled as the pattern
  `(?:by|from|review by|posted by)\s+([A-Za-z]+)` with the `i` flag, not
  through a general regular-expression engine. An alternative matches when
  the lower-cased text equals it, and `\s` is the ECMAScript white-space set.
- `markMentionAsRead`, `getMentionById` and `getMentionStats` of the mentions
  service are only HTTP calls; their answers are parameters of the reducers.
- `src/services/analytics.ts` is mock data from `Math.random` plus HTTP, so
  nothing in it is stable to state.
- The floating-point formatters are not modelled, because scores are
  `real` and `toFixed` is not modelled. They are `formatPercentage` in
  `src/utils/formatters.ts:19-21` and in `src/utils/dashboardHelpers.ts:127-129`
  (`toFixed(decimals)` and "%"), and `formatSentimentScore` in
  `src/utils/formatters.ts:23-26` (`((score + 1) / 2 * 100).toFixed(0)` and
  "%"). They also include the `formatNumber` of
  `src/utils/dashboardHelpers.ts:111-119`: "M" with `toFixed(1)` from
  1000000, "K" with `toFixed(1)` from 1000, and `toString()` below.
- The library calls are not modelled: the `formatNumber` of
  `src/utils/formatters.ts:15-17` (`Intl.NumberFormat`), and `formatDate`,
  `formatDateTime` and `formatRelativeTime` (`date-fns`).
- The `createAsyncThunk` machinery and async interleaving are not modelled.
  Each reducer case is a method, called with its payload.
- Page rendering, routing and the components are not modelled.

## Findings

| source | as written | input that shows it | evidently intended | confidence | as-written member | corrected member |
|---|---|---|---|---|---|---|
| src/pages/Dashboard.tsx:85-94 | the key is `btoa(JSON.stringify(keyData)).slice(0, 16)`; 16 base64 symbols encode only the first 12 characters `{"reputation` | two snapshots with current scores 70 and 40 and different totals and timestamps both get the key "eyJyZXB1dGF0aW9u" | a key that tells snapshots with different key data apart, so new data is not served stale cached insights for 24 hours | not executed | Dashboard.SlicedHashCollides | Dashboard.DataHashDistinguishes |

The page model keeps the key as written: `OnDashboardFetched` uses
`SlicedDataHash`. Dashboard.StaleInsightsServed shows what that costs the
page; a scored snapshot fetched within 24 hours of another is shown the
other's insights. Dashboard.CorrectedKeyNotStale runs the same `AfterFetch`
flow with the corrected key `DataHash` and shows that one snapshot's saved
insights do not reach another.
