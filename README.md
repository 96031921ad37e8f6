# Goal-conflict analysis API: a Dafny model of the request pipeline

This project models the Python service in `main.py`. The service takes a
German policy text and asks a language model for every goal conflict in it:
two societal functions whose implementation collides. It then returns the
conflicts ranked by their centrality score. The model covers everything the
service computes locally around the model call:

- **The input gate.** A text that is empty, or shorter than 50 characters once
  whitespace is stripped, is answered with status 400 before anything else happens.
- **The prompt.** The fixed instruction block, then the delimiter
  `"\n\nZU ANALYSIERENDER TEXT:\n\n"`, then the caller's text.
- **Fence stripping.** The reply is stripped of whitespace. Markdown code-fence
  markers (`` ```json `` and `` ``` ``) are removed when the reply opens with one.
  The result is stripped again.
- **Sorting.** The `conflicts` entries are put in stable descending order of
  their `centrality_score`. A missing score sorts as 0.
- **Structuring.** The sorted entries are walked in order. A `GoalConflict`
  record is built from every entry of the declared shape, and the other entries
  are dropped. A built record takes score 0.5 when its entry has none. The kept
  list is returned with `total_count` equal to its length.
- **Error mapping.** A failed model call, a reply that is not JSON, or a value
  the handler cannot iterate gives status 500.
- **The single-conflict endpoint.** It returns 404 when the kept list is empty.
  Otherwise it returns the first kept conflict as a flat mapping, in which
  `three_yes` stays one nested mapping (main.py:237-245).

The language-model gateway and the JSON parser are parameters of the model.
The gateway maps the prompt to the reply text, or to `None` when the call
fails; the parser maps text to a JSON value, or to `None` when the text is
not JSON. Statements such as "a rejected request never reaches the gateway"
are stated as "the outcome is the same whatever the gateway does".

Modules, in dependency order:

- `Outcomes` (outcomes.dfy): `Option`, `Outcome` (`Ok(value)` or `Err(status)`), and the statuses 400, 404 and 500.
- `JsonValues` (json_values.dfy): the parsed JSON value, with objects as maps from name to value, and member lookup.
- `Strings` (strings.dfy): `str.strip()` with Python's whitespace set, `startswith`, the substring test, and replace-all.
- `Fences` (fences.dfy): fence stripping and its properties.
- `StableSort` (stable_sort.dfy): `sorted(..., reverse=True)` as an insertion sort over any key. It proves the sort is a permutation, ordered, stable, and the only such arrangement.
- `Schema` (schema.dfy): the three records, building them from JSON, the projection of the single endpoint, and the sort key.
- `Structuring` (structuring.dfy): what the structuring loop computes, and how the kept list relates to the sorted entries.
- `Endpoints` (endpoints.dfy): both handlers, as specification functions and as methods. `StructureConflicts` is the handler's structuring loop, proved against its specification function.

## Model

| member | source | states |
|---|---|---|
| Strings.IsSpace | main.py:141 | definition: the characters Python's `str.isspace()` accepts, which `strip()` removes |
| Strings.Trim | main.py:141 | definition of `s.strip()` as `rstrip` after `lstrip`; its properties are `Strings.TrimSlice`, `TrimEnds`, `TrimCovers`, `TrimUnchanged` and `TrimIdempotent` |
| Strings.StartsWith | main.py:165 | definition of `s.startswith(p)` |
| Strings.Contains | main.py:166 | definition of the substring test; properties in `Strings.StartsWithContains`, `ContainsInSuffix` and `ContainsInPrefix` |
| Strings.ReplaceAll | main.py:166 | definition of `s.replace(pat, rep)` as a left-to-right, non-overlapping replace-all; properties in `Strings.ReplaceAtStart`, `ReplaceAbsent` and `Fences.NoFenceAfterRemoval` |
| Strings.TrimStart | main.py:141 | `lstrip` keeps a suffix of the text that is empty or starts with a non-whitespace character |
| Strings.TrimEnd | main.py:141 | `rstrip` keeps a prefix of the text that is empty or ends with a non-whitespace character |
| Strings.TrimStartRemovesSpaces | main.py:141 | every character `lstrip` removes is whitespace |
| Strings.TrimEndRemovesSpaces | main.py:141 | every character `rstrip` removes is whitespace |
| Strings.TrimSlice | main.py:162 | `strip` keeps one contiguous slice of the input |
| Strings.TrimEnds | main.py:162 | the stripped text neither starts nor ends with whitespace |
| Strings.TrimCovers | main.py:162 | every non-whitespace character of the input lies inside the stripped slice |
| Strings.TrimUnchanged | main.py:162 | a text with no whitespace at either end is its own strip |
| Strings.TrimIdempotent | main.py:166 | stripping twice equals stripping once |
| Strings.StartsWithContains | main.py:165 | a text that starts with a pattern contains it |
| Strings.ContainsInSuffix | main.py:166 | an occurrence in a suffix is an occurrence in the whole text |
| Strings.ContainsInPrefix | main.py:166 | an occurrence in a prefix is an occurrence in the whole text |
| Strings.TrimKeepsAbsence | main.py:166 | stripping cannot create an occurrence of a pattern |
| Strings.ReplaceAtStart | main.py:166 | proof step (one unfolding of the definition): `replace` removes an occurrence at the start and resumes scanning after it |
| Strings.ReplaceAbsent | main.py:166 | `replace` with a pattern that does not occur changes nothing |
| Fences.RemoveFences | main.py:166-168 | definition of `s.replace("```", "")`; its property is `Fences.NoFenceAfterRemoval` |
| Fences.StripFences | main.py:162-168 | definition of the fence stripping of the reply; its properties are `Fences.StripFencesRemovesAll`, `StripFencesUnfenced`, `StripFencesResult`, `StripFencesIdempotent`, `FencedJsonReply` and `FencedPlainReply` |
| Fences.NoFenceAfterRemoval | main.py:168 | after every "```" is removed, no "```" is left anywhere |
| Fences.StripFencesRemovesAll | main.py:162-168 | a reply whose strip starts with "```" comes out with no "```" anywhere |
| Fences.TaggedIsFence | main.py:165-167 | a text starting with "```json" also starts with "```" |
| Fences.StripFencesUnfenced | main.py:162-168 | a reply whose strip does not start with "```" comes out as its strip |
| Fences.StripFencesResult | main.py:162-168 | the result never starts with "```" and carries no surrounding whitespace |
| Fences.StripFencesIdempotent | main.py:162-168 | stripping fences twice equals stripping once |
| Fences.ClosingFenceRemoved | main.py:166 | removing markers from a marker-free body followed by "```" gives the body back |
| Fences.NoJsonFenceBeforeClosing | main.py:166 | "```json" cannot occur in a marker-free body followed by "```" |
| Fences.FencedJsonReply | main.py:165-166 | "```json" + body + "```" with a marker-free body strips to the stripped body, as the bare body does |
| Fences.UnfencedWhenAbsent | main.py:162-168 | a reply with no marker is only stripped of whitespace |
| Fences.PlainOpeningNotTagged | main.py:165-167 | "```" + body + "```" does not open with "```json" when the body does not start with `json` |
| Fences.FencedPlainReply | main.py:167-168 | "```" + body + "```" with a marker-free body not starting with `json` strips to the stripped body |
| Fences.WrappedUnchanged | main.py:162 | a reply wrapped in markers has no surrounding whitespace to strip |
| JsonValues.Member | main.py:181 | definition of `v.get(name)` on a parsed value; its properties are proved through `Schema.BuildConflictShape` and `Schema.ProjectionRoundTrip` |
| JsonValues.StringMember | main.py:195-198 | definition of a lookup that must find a JSON string; proved through `Schema.BuildConflictShape` and `Schema.ProjectedTexts` |
| JsonValues.BoolMember | main.py:200 | definition of a lookup that must find a JSON boolean; proved through `Schema.BuildThreeYesShape` and `Schema.ThreeYesRoundTrip` |
| StableSort.Insert | main.py:184-188 | insertion adds exactly one copy of the element (a multiset equation) |
| StableSort.SortDescending | main.py:184-188 | the sorted list is a permutation of the input, of the same length |
| StableSort.InsertAtMost | main.py:184-188 | inserting under a key bound keeps every key under it |
| StableSort.InsertKeepsOrder | main.py:184-188 | inserting into a non-increasing list keeps it non-increasing |
| StableSort.SortDescendingOrdered | main.py:184-188 | the sorted list is non-increasing in the key |
| StableSort.SortPair | main.py:184-188 | two elements with increasing keys swap places |
| StableSort.InsertWithKey | main.py:184-188 | insertion places the new element before every element with the same key |
| StableSort.SortStable | main.py:184-188 | for every key, the elements with that key keep their input order |
| StableSort.WithKeyBound | main.py:184-188 | in a non-increasing list, every key present is at most the first key |
| StableSort.OrderDeterminedByKeys | main.py:184-188 | two non-increasing lists that agree on every key's elements are equal |
| StableSort.SortDescendingUnique | main.py:184-188 | any non-increasing list that keeps each key's input order is exactly the sorted list |
| Schema.BuildThreeYes | main.py:200 | definition of `ThreeYesCheck(**v)`; characterised by `Schema.BuildThreeYesShape` and `ThreeYesRoundTrip` |
| Schema.ConstructedScore | main.py:199 | definition of `conflict.get("centrality_score", 0.5)` as the constructed score; related to the sort key by `Schema.ConstructedScoreVersusKey` |
| Schema.BuildConflict | main.py:194-202 | definition of `GoalConflict(...)` from one entry; characterised by `Schema.BuildConflictShape` and `ProjectionRoundTrip` |
| Schema.ThreeYesToJson | main.py:243 | definition of `three_yes.dict()`; properties in `Schema.ThreeYesKeys` and `ThreeYesRoundTrip` |
| Schema.ProjectConflict | main.py:237-245 | definition of the single-conflict body; properties in `Schema.ProjectionKeys` and `ProjectionRoundTrip` |
| Schema.SortKey | main.py:186 | definition of `x.get("centrality_score", 0)`; properties in `Schema.ConstructedScoreVersusKey` and `Structuring.MissingScoreCanBreakOrder` |
| Schema.HasComparableKey | main.py:184-188 | definition of the entries the sort can order (see "Left out"); used by `Endpoints.ResultErrorsAreInternal` and `ConflictListSucceeds` |
| Schema.BuildThreeYesShape | main.py:200 | a `ThreeYesCheck` is built exactly from an object with the three flags as booleans and the three reasonings as strings |
| Schema.BuildConflictShape | main.py:194-202 | a `GoalConflict` is built exactly from an object with the five text members, a numeric score if one is present, and a well-formed `three_yes` |
| Schema.ThreeYesKeys | main.py:243 | `three_yes.dict()` has exactly the six declared members |
| Schema.ThreeYesRoundTrip | main.py:243 | building a `ThreeYesCheck` from `three_yes.dict()` gives back the record |
| Schema.ProjectionKeys | main.py:237-245 | the single-conflict body has exactly the seven members of a conflict |
| Schema.ProjectionRoundTrip | main.py:237-245 | building a conflict from the single-conflict body gives back the projected conflict, every field unchanged |
| Schema.ConstructedScoreVersusKey | main.py:186-199 | a built conflict's entry is comparable; with a score, the built score equals the sort key; without one, the key is 0 and the built score is 0.5 |
| Structuring.Structured | main.py:191-206 | the kept list is no longer than the sorted entries |
| Structuring.KeptIndices | main.py:191-206 | the kept positions are in range and strictly increasing |
| Structuring.KeptIndicesMembers | main.py:191-206 | a position is kept exactly when its entry builds a conflict |
| Structuring.StructuredSelectsKept | main.py:191-206 | the j-th kept conflict is the one built from the j-th entry that builds one: the kept list is the order-preserving subsequence of the entries that build |
| Structuring.StructuredStep | main.py:192-206 | one more entry appends its conflict when it builds one and leaves the list alone when it does not |
| Structuring.ExplicitScoresKeepOrder | main.py:186-199 | when every kept entry carried its own score, the kept list of a sorted list is non-increasing in `centrality_score` |
| Structuring.MissingScoreCanBreakOrder | main.py:186-199 | a valid unscored entry sorts behind an entry scored between 0 and 0.5, yet is output with the larger score 0.5 |
| Structuring.StructuredPair | main.py:191-206 | two entries that both build are both kept, in order |
| Structuring.FirstKeptIsMaximal | main.py:184-206 | in a sorted list, the first kept entry's key is at least the key of every entry that builds |
| Structuring.PrimaryHasMaximalKey | main.py:184-206 | the first kept conflict comes from an input entry whose key is maximal among the entries that build |
| Endpoints.RejectsInput | main.py:141 | definition of the input gate; properties in `Endpoints.GateIsTrimmedLength` and `BadRequestExactlyWhenRejected` |
| Endpoints.ComposePrompt | main.py:156 | definition of the user message; property in `Endpoints.PromptCarriesText` |
| Endpoints.ConflictEntries | main.py:181-192 | definition of iterating `result.get("conflicts", [])`; used by `Endpoints.NoEntriesSucceed`, `ConflictListSucceeds` and `NonObjectIsInternalError` |
| Endpoints.ResultOutcome | main.py:181-211 | definition of what the handler makes of the parsed value; properties in `Endpoints.ResultErrorsAreInternal`, `NonObjectIsInternalError`, `NoEntriesSucceed` and `ConflictListSucceeds` |
| Endpoints.ReplyOutcome | main.py:162-211 | definition of what the handler makes of the reply text; properties in `Endpoints.ReplyFailuresAreInternalErrors`, `ReplyErrorsAreInternal` and `SameStrippedReply` |
| Endpoints.MultiConflictOutcome | main.py:136-218 | definition of the multi-conflict endpoint on one request; implemented by `Endpoints.AnalyzeMultiConflicts`, with its properties in the lemmas below |
| Endpoints.PrimaryOutcome | main.py:226-245 | definition of what the single endpoint makes of the multi-conflict outcome; properties in `Endpoints.NotFoundExactlyWhenEmpty` and `SingleIsPrimaryConflict` |
| Endpoints.SingleConflictOutcome | main.py:221-245 | definition of the single-conflict endpoint on one request; implemented by `Endpoints.AnalyzeSingleConflict` |
| Endpoints.AnalyzeMultiConflicts | main.py:136-218 | the handler returns the pipeline's outcome; 400 exactly for rejected texts; on success `total_count` is the length of the list |
| Endpoints.StructureConflicts | main.py:191-206 | the loop, with the invariant that the list built so far is the kept list of the entries walked so far, returns the kept list of all sorted entries |
| Endpoints.AnalyzeSingleConflict | main.py:221-245 | the handler returns the single-conflict outcome; 404 exactly when the text passes the gate and the multi-conflict answer is an empty success |
| Endpoints.GateIsTrimmedLength | main.py:141 | the gate rejects exactly the texts whose stripped length is below 50; the empty-text test adds nothing |
| Endpoints.BadRequestExactlyWhenRejected | main.py:141-145 | both endpoints answer 400 exactly for rejected texts, so the 400 is never turned into a 500 nor a later failure into a 400 |
| Endpoints.RejectedIgnoresGateway | main.py:141-159 | a rejected request has the same outcome whatever the gateway and the parser do |
| Endpoints.OutcomeDependsOnPromptReply | main.py:149-172 | the outcome depends only on the gateway's answer to the composed prompt and the parser's answer to the stripped reply |
| Endpoints.PromptCarriesText | main.py:156 | the prompt is the instruction block and delimiter followed by the text, so distinct texts give distinct prompts |
| Endpoints.FailuresAreInternalErrors | main.py:171-218 | past the gate, a failed call, an unparsable reply or a non-object value gives 500, and every failure is a 500 |
| Endpoints.ReplyFailuresAreInternalErrors | main.py:171-181 | an unparsable reply or a parsed value that is not an object gives 500 |
| Endpoints.ReplyErrorsAreInternal | main.py:171-218 | once the gateway has replied, every failure is a 500 |
| Endpoints.ResultErrorsAreInternal | main.py:181-218 | whatever the parsed value, every failure is a 500 |
| Endpoints.NonObjectIsInternalError | main.py:181 | a parsed value that is not an object has no `get`, which gives 500 |
| Endpoints.GatewayReplyOutcome | main.py:149-172 | proof step (unfolds the definitions one stage): past the gate, once the gateway has replied, the outcome is what the handler makes of the reply text |
| Endpoints.SameStrippedReply | main.py:162-172 | proof step (unfolds the definitions one stage): replies that strip to the same text are handled alike |
| Endpoints.ParsedReplyOutcome | main.py:172-211 | proof step (unfolds the definitions one stage): once the reply has parsed, the outcome is what the handler makes of the parsed value |
| Endpoints.NoEntriesSucceed | main.py:181-211 | proof step (unfolds the definitions one stage): a parsed value that yields no entries gives an empty list with count 0 |
| Endpoints.AbsentConflictsGiveEmptyList | main.py:181 | an object without `conflicts` gives an empty list with count 0, and the single endpoint 404 |
| Endpoints.ConflictListSucceeds | main.py:181-211 | proof step (unfolds the definitions one stage): an object whose `conflicts` is a list of comparable entries succeeds with the kept list of the sorted entries |
| Endpoints.SortedThenStructured | main.py:184-206 | the sorted entries are a stable, non-increasing permutation; the kept list has the entries that build, in sorted order, and is no longer than the entries |
| Endpoints.WellFormedReplySucceeds | main.py:181-211 | for a well-formed reply the whole request succeeds with the kept list of the sorted entries and `total_count` at most the number of entries |
| Endpoints.FencedReplyLikeBare | main.py:162-172 | a reply wrapped in a "```json" fence gives the same outcome, on both endpoints, as the bare reply |
| Endpoints.NotFoundExactlyWhenEmpty | main.py:226-232 | the single endpoint answers 404 exactly when the multi-conflict answer is an empty success, and passes any other failure through unchanged |
| Endpoints.SingleIsPrimaryConflict | main.py:234-245 | a single-conflict answer is the projection of the first kept conflict and reads back as that conflict |
| Endpoints.SingleHasMaximalKey | main.py:226-245 | for a well-formed reply, the single-conflict answer reads back as the conflict of an entry whose sort key is maximal among the entries that build |

## Left out

- The FastAPI application, the routing decorators, the CORS middleware, the root endpoint and the uvicorn start-up (main.py:9-18, 127-134, 247-249): framework plumbing, with no logic of the pipeline.
- The Anthropic client and the `messages.create` call (main.py:21, 149-159): a network call. It is the `gateway` parameter, whose `None` stands for any exception raised there, including a reply without text content.
- The internals of `json.loads` (main.py:172): a library parser. It is the `parseJson` parameter.
- Endpoints.MultiDetectionPrompt: the wording of the instruction block (main.py:48-125) is static text and is left undefined; only its place in front of the delimiter is modelled.
- Endpoints.AnalyzeMultiConflicts: the German `detail` messages and the `print` logging (main.py:144, 174-178, 205, 214-217) are not modelled; only the status codes are. The outer handler replaces the detail of the parse-error 500 but keeps the status, which is all the model states.
- Schema.BuildConflict: pydantic's coercions are not modelled. Strings such as "0.7" are not accepted as scores, integers are not accepted as flags, and numbers are not accepted as texts; each field must already have its declared JSON kind.
- Schema.HasComparableKey: the model answers 500 whenever any entry is not an object, or has a score that is neither a number nor a boolean. Python fails the request only when the key function calls `get` on a non-object, or when `sorted` compares keys of different kinds (a string with a number, say) or keys that do not order (None, dictionaries). It sorts all-string or all-list scores without error, and compares nothing for a single entry. In those cases Python answers 200: pydantic coerces numeric strings such as "0.4" to floats, and drops the entries whose score it cannot coerce. The model answers 500 there.
- Schema.SortKey: scores are exact reals. IEEE floating point (NaN, rounding, infinities) is not modelled.
- Endpoints.ConflictEntries: iterating a non-empty string or object under `conflicts` fails in the key function and gives 500, and iterating an empty one yields nothing. This follows the code; dictionaries with keys other than text do not arise from JSON.
- Concurrency between requests and the asynchronous execution of the handlers are not modelled: each request is one call.
