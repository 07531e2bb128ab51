# Comment-monitoring pipeline, modelled in Dafny

This project models the back end of a dashboard for monitoring social-media comments. It covers four things:

- It pulls comments for a connected Facebook page or Twitter account.
- It scores each new comment for sentiment and hate-speech risk. A remote language model does the scoring, and a local keyword classifier is the fallback.
- It stores the scored comments and raises alerts on the batch.
- It stamps the account's last-sync time.

A fleet sync runs this for every active account in turn and reports one outcome per account. The batch scorer (`analyzeBatch`) is modelled as well, although the ingestion loop scores comments one at a time.

The model follows `src/services/geminiService.ts` (the scorer) and `src/services/socialMediaService.ts` (ingestion, alerts and fleet sync).

| file | module | contents |
|---|---|---|
| `wrappers.dfy` | `Wrappers` | `Option` and `Result` |
| `types.dfy` | `Types` | the records (comment data, analysis, comment row, account, alert row) and a JSON value type; order-keeping `Filter` |
| `text.dfy` | `Text` | lower-casing, substring search, and how JavaScript turns an undefined text into a string |
| `classifier.dfy` | `Classifier` | the keyword fallback, JSON-span extraction, the defaulting of parsed fields, the remote call with its fallback paths, the prompt |
| `batching.dfy` | `Batching` | groups of five and the batch driver (an imperative loop proved against `Chunks`) |
| `alerts.dfy` | `Alerts` | the hate-speech and negative-spike rules |
| `ingestion.dfy` | `Ingestion` | fetch replies, language detection, the dedup and account queries, and the per-comment step. `SyncAccount` and `SyncAll` are the specification functions. `class Backend` keeps the three tables as fields, and its methods are proved equal to those functions. |
| `ingestion_props.dfy` | `IngestionProps` | at-most-once ingestion, resync, checkpoint rules, failure isolation and append-only tables |

The store is three in-memory tables (`Db`: accounts, comments, alerts). The outside world reaches the model only through parameters:

- `ScorerReply`: what the language-model endpoint returned for the comment at a given position.
- `parse`: `JSON.parse`, which is partial (`None` means it threw).
- `FetchReply`: what the platform API returned.
- `SyncEnv`: whether the account query itself returned an error (`lookupFailed`), the fetch reply, the classifier, whether each database write succeeded, and the clock value `now`.

The sync functions take the classifier as a value of type `Scorer`: `score(k, data)` is the result of the call made on the `k`-th raw comment of the page, whose classifier input is `data`. A skipped or unreadable comment makes no call, so its `k` is never asked for. The service calls `analyzeComment`, which is `Classifier.ScorerOf(reply, parse)`. So the sync properties hold for that classifier and also for any other. `IngestionProps.IngestOutcomes` and `IngestionProps.KeptRowFields` state what the per-comment step does with `analyzeComment` itself.

The prompt is built by `Classifier.PromptWith` around a format block. `Classifier.BuildPrompt` passes the fixed JSON-format text that the code uses. The prompt lemma is stated for every format block.

JavaScript behaviours the code relies on are modelled explicitly:

- `||` defaults on falsy values. A confidence of `0`, an empty reasoning or `false` all fall back to the default.
- A truthy but unrecognised label, such as `"angry"`, is kept as-is (`Label.Unrecognized`). The code does no validation.
- A JSON text that parses to `null` would throw on property access and go to the fallback. In the code this path cannot be taken: the span handed to `JSON.parse` starts with `{` and ends with `}`, so it parses to an object or throws. The model's `parse` is an arbitrary function, so the model handles `null` anyway.
- `.single()` returns a row only when exactly one row matches.
- An undefined comment text is language-tested as the string `"undefined"`, so it comes out English. If its fallback is needed, `toLowerCase` throws and the comment is dropped.
- A Facebook record without `from` throws and is dropped.

In these places the model follows the code, where a reader might expect otherwise:

- The fetchers never read `last_sync`. Every sync fetches the latest page and relies on the per-comment dedup query.
- Parsed fields are not checked against their enumerations.
- The checkpoint update's error is ignored. `SyncEnv.checkpointStored` only says whether the write took effect.
- Ids repeated inside one fetched page are not deduplicated (`IngestionProps.DuplicateInPageIngestedTwice`).

## Model

| member | source | states |
|---|---|---|
| Types.Filter | src/services/socialMediaService.ts:200 | `Array.filter`: no longer than its input, and every kept element satisfies the predicate |
| Types.FilterMembers | src/services/socialMediaService.ts:200 | an element is kept exactly when it is in the input and satisfies the predicate |
| Types.FilterConcat | src/services/socialMediaService.ts:214 | filtering a concatenation is the concatenation of the filtered parts |
| Types.FilterEmpty | src/services/socialMediaService.ts:200-201 | the filter is empty exactly when no element satisfies the predicate |
| Types.FilterAll | src/services/socialMediaService.ts:214 | a filter whose predicate holds everywhere returns its input |
| Text.Lower | src/services/geminiService.ts:126 | lower-casing keeps the length and lowers each character |
| Text.LowerIdempotent | src/services/geminiService.ts:126 | lower-casing twice is lower-casing once |
| Text.LowerConcat | src/services/geminiService.ts:126 | lower-casing distributes over concatenation |
| Text.IncludesInContext | src/services/geminiService.ts:130-131 | `includes` still holds when text is added on either side |
| Classifier.FallbackVerdict | src/services/geminiService.ts:130-141 | negative with low risk iff a negative word and no positive word; positive iff a positive word and no negative word; otherwise neutral; risk is never medium or high |
| Classifier.FallbackFixedFields | src/services/geminiService.ts:143-149 | the fallback always reports confidence 0.6, the fixed reasoning and no key phrases |
| Classifier.FallbackIgnoresCase | src/services/geminiService.ts:126 | the fallback's verdict does not depend on letter case |
| Classifier.KeywordsPersist | src/services/geminiService.ts:127-131 | a keyword found in a text is still found when the text is embedded in a longer one |
| Classifier.KeywordsInConcat | src/services/geminiService.ts:127-131 | a keyword found in either part is found in the joined text |
| Classifier.MixedKeywordsAreNeutral | src/services/geminiService.ts:136-141 | a text holding both a positive and a negative word is neutral with no risk, in either order |
| Classifier.IndexOf | src/services/geminiService.ts:104 | the first position of a character, or none when it does not occur |
| Classifier.LastIndexOf | src/services/geminiService.ts:104 | the last position of a character, or none when it does not occur |
| Classifier.JsonMatch | src/services/geminiService.ts:104-107 | the span of `/\{[\s\S]*\}/` runs from the first `{` to the last `}` after it, and there is no match iff no `{` precedes a `}` |
| Classifier.JsonSpanInChatter | src/services/geminiService.ts:103-104 | a JSON object surrounded by prose without braces on the outer sides is extracted exactly |
| Classifier.LabelNamesRoundTrip | src/services/geminiService.ts:1-7 | each label's wire name reads back as that label; a recognised value is exactly a wire name; an unrecognised one is kept verbatim |
| Classifier.MemberFound | src/services/geminiService.ts:109-116 | property access on a parsed object finds a member whose key no later member repeats, as `JSON.parse` keeps the last duplicate |
| Classifier.MemberOfPair | src/services/geminiService.ts:109-116 | on a two-member object, property access finds the later member first, then the earlier one, else nothing |
| Classifier.FieldDefaults | src/services/geminiService.ts:111-117 | each of the five fields defaults on its own: falsy or missing gives neutral, no risk, 0.5, "Analysis completed" or no phrases; truthy is taken over, labels read through their names |
| Classifier.PartialReplyDefaults | src/services/geminiService.ts:111-117 | for example, a reply naming only negative and high keeps both labels and takes 0.5, "Analysis completed" and no phrases |
| Classifier.MissingFieldsDefault | src/services/geminiService.ts:111-117 | an object with no truthy reported field gets neutral, no risk, 0.5, "Analysis completed" and no phrases |
| Classifier.ReportedConfidence | src/services/geminiService.ts:114 | a numeric confidence is kept unless it is 0, which becomes 0.5 |
| Classifier.WellFormedReplyKept | src/services/geminiService.ts:109-117 | a well-formed reply's labels, confidence, reasoning and phrases are all kept |
| Classifier.ParseResponsePaths | src/services/geminiService.ts:101-122 | no braces, a throwing parse or a `null` value falls back to the keyword classifier on the reply text; otherwise the fields come from the parsed object (the `null` case cannot arise in the code, since the parsed span is brace-delimited; it is covered because `parse` is arbitrary) |
| Classifier.AnalyzeCommentOutcomes | src/services/geminiService.ts:24-61 | a delivered reply is parsed; a transport failure, a non-OK status or a missing text falls back on the comment; the call throws only when that fallback meets an undefined text |
| Classifier.PromptWithInstruction | src/services/geminiService.ts:63-98 | whatever the format block, the prompt carries the Thai instruction right after the introduction exactly when the language is Thai, and the English one otherwise |
| Batching.ChunksAreSlices | src/services/geminiService.ts:156-158 | the groups are the consecutive slices of five, the last one shorter, with (n+4)/5 groups |
| Batching.ChunkSizes | src/services/geminiService.ts:156-158 | every group is non-empty and holds at most five comments |
| Batching.ChunksFlatten | src/services/geminiService.ts:161 | concatenating the groups gives back the input in order |
| Batching.AnalyzeGroup | src/services/geminiService.ts:159-160 | a group succeeds iff every call in it succeeds; its results are the calls' results in order |
| Batching.AnalyzeBatch | src/services/geminiService.ts:152-170 | results are the per-comment calls in input order; one pause between consecutive groups; the batch fails iff some call throws, after all earlier groups succeeded |
| Alerts.PostIds | src/services/socialMediaService.ts:209 | the related comments are the post ids of the rows, one per row, in order |
| Alerts.PostIdsMembers | src/services/socialMediaService.ts:209 | an id is related iff some row has that post id |
| Alerts.PostIdsConcat | src/services/socialMediaService.ts:209 | post ids of a concatenation concatenate |
| Alerts.FilteredPostIds | src/services/socialMediaService.ts:200-209 | an id is related iff some row passing the rule's filter has it |
| Alerts.HateRule | src/services/socialMediaService.ts:199-211 | a critical high-hate-speech alert is raised iff some row is high risk; it names the count and relates the high-risk rows' post ids in order, one per row |
| Alerts.SpikeRule | src/services/socialMediaService.ts:213-227 | a high negative-spike alert is raised iff the batch has at least 10 rows and more than half are negative; it relates the negative rows' post ids in order, one per row |
| Alerts.HateRuleExample | src/services/socialMediaService.ts:199-211 | a batch of three with only the middle row high-risk raises a hate alert relating exactly that row's post id |
| Alerts.SpikeThresholds | src/services/socialMediaService.ts:217 | 5 of 10 negative does not fire, 6 of 10 does, and fewer than 10 rows never fires |
| Alerts.AtMostOneOfEach | src/services/socialMediaService.ts:188-231 | one evaluation creates one alert per rule that fires and whose insert succeeds, hate first, each for the given user and account, and never a volume-spike alert |
| Alerts.HateRuleOnJoinedBatches | src/services/socialMediaService.ts:199-211 | on two batches joined, the hate alert fires iff it fires on either, and it relates both batches' high-risk ids |
| Alerts.SpikePersistsUnderNegatives | src/services/socialMediaService.ts:213-217 | adding more negative rows to a batch that spikes still spikes |
| Ingestion.FetchComments | src/services/socialMediaService.ts:27-71 | an API error, a thrown fetch or an absent `data` gives an empty page; otherwise the page is `data` |
| Ingestion.DetectLanguage | src/services/socialMediaService.ts:182-186 | Thai iff some character is in U+0E00..U+0E7F |
| Ingestion.FirstAccount | src/services/socialMediaService.ts:76-80 | a found account is in the table with the requested id; none is found only when no row has that id |
| Ingestion.LookupAccount | src/services/socialMediaService.ts:76-84 | the account query returns a row iff exactly one row has the id, and that row is in the table |
| Ingestion.SetLastSync | src/services/socialMediaService.ts:169-173 | the checkpoint update keeps the number of accounts |
| Ingestion.CollectRows | src/services/socialMediaService.ts:101-153 | the ingest loop collects exactly the rows of `Processed` on the page |
| Ingestion.SyncPrefix | src/services/socialMediaService.ts:254-275 | syncing the accounts in turn gives one outcome per account, carrying its id and platform, in order |
| Ingestion.Backend.constructor | src/services/socialMediaService.ts:26 | the service starts on the given tables |
| Ingestion.Backend.CreateAlert | src/services/socialMediaService.ts:233-241 | the alert is appended when its insert succeeds, and a failed insert changes nothing |
| Ingestion.Backend.CheckForAlerts | src/services/socialMediaService.ts:188-231 | appends exactly the alerts of the two rules, or nothing when the account query finds no row |
| Ingestion.Backend.ProcessAndStoreComments | src/services/socialMediaService.ts:73-180 | the new tables and the count or the error are those of `SyncAccount` on the old tables |
| Ingestion.Backend.SyncAllActiveAccounts | src/services/socialMediaService.ts:243-282 | the new tables and the outcomes or the re-thrown error are those of `SyncAll` on the old tables |
| IngestionProps.DetectLanguageConcat | src/services/socialMediaService.ts:182-186 | joined texts are Thai iff either part is |
| IngestionProps.AsciiIsEnglish | src/services/socialMediaService.ts:184-185 | text made only of ASCII is English |
| IngestionProps.IngestOutcomes | src/services/socialMediaService.ts:104-153 | a stored post id is skipped; an unstored comment is dropped iff its author cannot be read or the scorer and its fallback both fail |
| IngestionProps.KeptRowFields | src/services/socialMediaService.ts:118-147 | a kept row takes message/from.name/from.id/created_time on Facebook and text/author_id/created_at on Twitter, and carries the scorer's labels, confidence and analysis |
| IngestionProps.ProcessedProvenance | src/services/socialMediaService.ts:102-153 | every collected row comes from an unstored, kept raw comment with the same post id; no more rows than comments |
| IngestionProps.ProcessedComplete | src/services/socialMediaService.ts:104-149 | every kept raw comment's row is collected |
| IngestionProps.AllSkippedCollectsNothing | src/services/socialMediaService.ts:113-115 | when every id is stored, nothing is collected |
| IngestionProps.CountConcat | src/services/socialMediaService.ts:157-159 | counts of a post id add up over an appended insert |
| IngestionProps.CountOfMember | src/services/socialMediaService.ts:107-111 | a row in the table makes its post id's count positive |
| IngestionProps.ProcessedIds | src/services/socialMediaService.ts:104-149 | every collected row's post id was not stored and is the id of a raw comment of the page |
| IngestionProps.ProcessedDistinct | src/services/socialMediaService.ts:104-153 | from a page with distinct ids, the collected rows have distinct post ids |
| IngestionProps.CountAbsent | src/services/socialMediaService.ts:107-111 | a post id carried by no row has count 0 |
| IngestionProps.CountDistinct | src/services/socialMediaService.ts:107-111 | rows with distinct post ids have every post id's count at most 1 |
| IngestionProps.UniquenessPreserved | src/services/socialMediaService.ts:104-163 | a table with unique post ids stays unique after ingesting a page with distinct ids |
| IngestionProps.ResyncCollectsNothing | src/services/socialMediaService.ts:104-115 | when the table holds each post id at most once, the page's ids are distinct and the first ingest dropped nothing, ingesting the same page again collects nothing |
| IngestionProps.StoredAfterIngest | src/services/socialMediaService.ts:104-163 | after ingesting a page with distinct ids into a table with unique post ids, every comment that was not dropped is stored exactly once |
| IngestionProps.KeptCountedOnce | src/services/socialMediaService.ts:104-149 | a kept comment of a page with distinct ids was not in a table with unique post ids, and gets exactly one collected row |
| IngestionProps.SkippedNotCollected | src/services/socialMediaService.ts:107-115 | an id stored exactly once is never collected again |
| IngestionProps.DuplicateInPageIngestedTwice | src/services/socialMediaService.ts:104-115 | for any page, positions and classifier: when an unstored id occurs at two positions and neither comment is dropped, at least two rows carry that id, and afterwards the dedup query finds no single row, so the id is never skipped again |
| IngestionProps.DuplicateInPageExample | src/services/socialMediaService.ts:104-115 | for example, a one-comment page sent twice over an empty table inserts two rows for the id, and a third copy is not skipped |
| IngestionProps.KeptTwiceOnEmptyTable | src/services/socialMediaService.ts:104-159 | a comment kept at both positions of a page that repeats it, over an empty table, gets two rows and is not skipped afterwards |
| IngestionProps.ProcessedPair | src/services/socialMediaService.ts:104-153 | on a two-comment page, the collected rows are the two steps' rows in order |
| IngestionProps.ProcessedGathers | src/services/socialMediaService.ts:104-153 | the collected rows are those gathered from the loop steps taken at each position |
| IngestionProps.GatherCount | src/services/socialMediaService.ts:155-159 | an id occurs in the gathered rows once for each step that kept a row with it |
| IngestionProps.CountKeptRows | src/services/socialMediaService.ts:149 | a step adds one row with an id exactly when it keeps a row with that id |
| IngestionProps.KeptCountMonotone | src/services/socialMediaService.ts:104-153 | later positions never lower the number of kept rows with an id |
| IngestionProps.GatherKeptTwice | src/services/socialMediaService.ts:104-153 | two steps keeping rows with the same id give it at least two gathered rows |
| IngestionProps.SyncFailureChangesNothing | src/services/socialMediaService.ts:76-84 | a failed sync leaves every table unchanged; it fails with "account not found" iff the account query returns an error or finds no single row |
| IngestionProps.SyncOutcome | src/services/socialMediaService.ts:76-175 | a sync fails iff the account query returns an error or finds no single row, or rows were collected and their insert failed; with the account found, that insert failure is the error, and an empty page succeeds with 0 |
| IngestionProps.AlertStoresIgnored | src/services/socialMediaService.ts:228-241 | whether the alert inserts succeed changes neither the result nor the comments nor the accounts table |
| IngestionProps.SyncSuccessEffects | src/services/socialMediaService.ts:155-175 | a successful sync appends exactly the collected rows, returns their number, adds at most two alerts and none when nothing was collected |
| IngestionProps.CheckpointRule | src/services/socialMediaService.ts:169-173 | after a successful sync whose update went through, every row of the account, and only those, gets `now`; all other fields stay |
| IngestionProps.CheckpointMonotone | src/services/socialMediaService.ts:169-173 | with a clock that does not run backwards, a checkpoint never moves back |
| IngestionProps.SecondSyncInsertsNothing | src/services/socialMediaService.ts:73-180 | when the table holds each post id at most once, both runs fetch the same page with distinct ids, and the first run succeeds and drops nothing, the second run inserts nothing and raises no alert, returning 0 (or "account not found" when that run's account query errs) |
| IngestionProps.SetLastSyncKeepsIds | src/services/socialMediaService.ts:169-173 | the checkpoint update changes no account's id count and not whether any account is active |
| IngestionProps.FleetQueryFailure | src/services/socialMediaService.ts:245-252 | a failed active-accounts query is re-thrown and nothing changes |
| IngestionProps.OutcomeNames | src/services/socialMediaService.ts:261-273 | an outcome carries its account's id and platform; it is a failure exactly when the sync threw; a success carries the sync's comment count; a failure carries the thrown message, "Social account not found" or the insert error's message |
| IngestionProps.SyncPrefixOutcome | src/services/socialMediaService.ts:255-275 | outcome k is account k's own sync on the tables the earlier accounts left |
| IngestionProps.SyncAppendOnly | src/services/socialMediaService.ts:155-175 | one account sync only appends comment rows and alerts |
| IngestionProps.SyncPrefixAppendOnly | src/services/socialMediaService.ts:255-275 | the fleet sync only appends comment rows and alerts |
| IngestionProps.FleetIsolation | src/services/socialMediaService.ts:256-274 | an account is reported failed iff its sync threw, and then it leaves the tables as they were |
| IngestionProps.FleetOutcomes | src/services/socialMediaService.ts:243-282 | with the query succeeding, one outcome per active account in table order, and rows and alerts only appended |
| Classifier.Fallback | src/services/geminiService.ts:124-150 | no contract; stated by `Classifier.FallbackVerdict`, `Classifier.FallbackFixedFields` and `Classifier.FallbackIgnoresCase` |
| Classifier.FromParsed | src/services/geminiService.ts:109-117 | no contract beyond its precondition; stated by `Classifier.FieldDefaults`, `Classifier.MissingFieldsDefault`, `Classifier.ReportedConfidence` and `Classifier.WellFormedReplyKept` |
| Classifier.ParseResponse | src/services/geminiService.ts:101-122 | no contract; stated by `Classifier.ParseResponsePaths` |
| Classifier.AnalyzeComment | src/services/geminiService.ts:24-61 | no contract; stated by `Classifier.AnalyzeCommentOutcomes` |
| Classifier.PromptWith | src/services/geminiService.ts:63-98 | no contract; stated by `Classifier.PromptWithInstruction` |
| Classifier.BuildPrompt | src/services/geminiService.ts:63-98 | no contract; it is `Classifier.PromptWith` with the code's format block, so `Classifier.PromptWithInstruction` applies |
| Batching.Chunks | src/services/geminiService.ts:156-158 | no contract; stated by `Batching.ChunksAreSlices`, `Batching.ChunkSizes` and `Batching.ChunksFlatten` |
| Alerts.HateSpeechAlert | src/services/socialMediaService.ts:199-211 | no contract; stated by `Alerts.HateRule` |
| Alerts.SpikeAlert | src/services/socialMediaService.ts:213-227 | no contract; stated by `Alerts.SpikeRule` and `Alerts.SpikeThresholds` |
| Alerts.CreatedAlerts | src/services/socialMediaService.ts:199-227 | no contract; stated by `Alerts.AtMostOneOfEach` |
| Ingestion.Ingest | src/services/socialMediaService.ts:104-149 | no contract; stated by `IngestionProps.IngestOutcomes` and `IngestionProps.KeptRowFields` |
| Ingestion.Processed | src/services/socialMediaService.ts:102-153 | no contract; stated by `IngestionProps.ProcessedProvenance`, `IngestionProps.ProcessedComplete` and `IngestionProps.ProcessedDistinct` |
| Ingestion.SyncAccount | src/services/socialMediaService.ts:73-180 | no contract; stated by `IngestionProps.SyncOutcome`, `IngestionProps.SyncFailureChangesNothing`, `IngestionProps.SyncSuccessEffects` and `IngestionProps.CheckpointRule` |
| Ingestion.SyncAll | src/services/socialMediaService.ts:243-282 | no contract; stated by `IngestionProps.FleetQueryFailure`, `IngestionProps.FleetIsolation`, `IngestionProps.FleetOutcomes`, `IngestionProps.SyncPrefixOutcome` and `IngestionProps.OutcomeNames` |

## Left out

- Network requests: the endpoints, query strings, API keys, headers and generation settings. The replies are parameters (`ScorerReply`, `FetchReply`).
- Reading the reply envelope (`data.candidates[0].content.parts[0].text`). Any failure on that path is modelled as a missing text.
- The database client. It is replaced by the in-memory tables in `Db`. An error on the dedup query is also left out: the code treats it as "not stored".
- Concurrency. `Promise.all` inside a group is modelled as calls in input order. The 1000 ms timer between groups is counted as `pauses`.
- Floating point. Confidence is a JSON value, as in the code: any truthy reported value is kept, a string included, and numbers are exact `real`s rather than doubles. The spike test uses the equivalent integer comparison. Both alert descriptions are kept only as the numbers they are written from (`AlertText`): the hate alert's "N comments with high hate speech risk detected" as its count (`HateCountText`), and the spike alert's `toFixed(1)` percentage as the pair of counts (`NegativeShareText`).
- JSON parsing. It is the abstract `parse` parameter.
- Text.Lower: models `toLowerCase` on ASCII letters only. Other characters are left unchanged, which is exact for the Thai keywords because Thai has no case.
- Console logging.
- Fields the code ignores or leaves to the database: `public_metrics`, `is_read`, `is_resolved` and `created_at`. The checkpoint is an integer `now` rather than an ISO string.
- Platform values other than Facebook and Twitter. The code would fetch nothing for them.
- `VolumeSpike`: it exists as an alert type, but the code never raises it.
- The React views and hooks, the authentication flow and the mock data, which are outside the pipeline.
- `Ingestion.SetLastSync`: its contract states only the length; what it does to each account is stated by `IngestionProps.CheckpointRule`.
