/**
 * The two analysis endpoints (main.py:136-245). The language-model gateway
 * and the JSON parser are parameters: the gateway maps the composed prompt
 * to the reply text, or to None when the call fails; the parser maps text to
 * a JSON value, or to None when the text is not JSON.
 */
module Endpoints {
  import opened Outcomes
  import opened JsonValues
  import opened Strings
  import opened Fences
  import opened StableSort
  import opened Schema
  import opened Structuring

  /** The fixed instruction block sent ahead of the policy text; its wording is not modelled. */
  const MultiDetectionPrompt: string
  /** The labelled delimiter between the instructions and the policy text. */
  const TextDelimiter: string := "\n\nZU ANALYSIERENDER TEXT:\n\n"
  /** The shortest accepted policy text, counted after stripping. */
  const MinTextLength: int := 50

  /** The input gate, checked before anything else. */
  predicate RejectsInput(policyText: string) {
    policyText == [] || |Trim(policyText)| < MinTextLength
  }

  /** The single user message sent to the gateway. */
  function ComposePrompt(policyText: string): string {
    MultiDetectionPrompt + TextDelimiter + policyText
  }

  /**
   * Iterating `result.get("conflicts", [])`: None where Python raises. A
   * non-object has no `get`; null, booleans and numbers are not iterable; a
   * non-empty string or object yields strings, on which the sort key's `get`
   * fails; an empty one yields nothing.
   */
  function ConflictEntries(result: Json): Option<seq<Json>> {
    match result
    case Object(m) =>
      if "conflicts" !in m then Some([])
      else
        (match m["conflicts"]
         case Array(items) => Some(items)
         case String(s) => if s == [] then Some([]) else None
         case Object(o) => if o == map[] then Some([]) else None
         case _ => None)
    case _ => None
  }

  /** What the handler makes of the parsed reply. */
  function ResultOutcome(result: Json): Outcome<MultiConflictResponse> {
    match ConflictEntries(result)
    case None => Err(InternalError)
    case Some(entries) =>
      if AllComparable(entries) then
        var kept := Structured(SortDescending(entries, SortKey));
        Ok(MultiConflictResponse(kept, |kept|))
      else Err(InternalError)
  }

  /** What the handler makes of the gateway's reply text. */
  function ReplyOutcome(reply: string, parseJson: string -> Option<Json>): Outcome<MultiConflictResponse> {
    match parseJson(StripFences(reply))
    case None => Err(InternalError)
    case Some(result) => ResultOutcome(result)
  }

  /** The whole multi-conflict pipeline on one request. */
  function MultiConflictOutcome(policyText: string, gateway: string -> Option<string>,
                                parseJson: string -> Option<Json>): Outcome<MultiConflictResponse>
  {
    if RejectsInput(policyText) then Err(BadRequest)
    else
      match gateway(ComposePrompt(policyText))
      case None => Err(InternalError)
      case Some(reply) => ReplyOutcome(reply, parseJson)
  }

  /** `POST /analyze-multi`. */
  method AnalyzeMultiConflicts(policyText: string, gateway: string -> Option<string>,
                               parseJson: string -> Option<Json>)
    returns (r: Outcome<MultiConflictResponse>)
    ensures r == MultiConflictOutcome(policyText, gateway, parseJson)
    ensures r == Err(BadRequest) <==> RejectsInput(policyText)
    ensures r.Ok? ==> r.value.totalCount == |r.value.conflicts|
  {
    if RejectsInput(policyText) {
      return Err(BadRequest);
    }
    var message := gateway(ComposePrompt(policyText));
    if message.None? {
      return Err(InternalError);
    }
    GatewayReplyOutcome(policyText, gateway, parseJson, message.value);
    var responseText := StripFences(message.value);
    var parsed := parseJson(responseText);
    if parsed.None? {
      return Err(InternalError);
    }
    assert ReplyOutcome(message.value, parseJson) == ResultOutcome(parsed.value);
    var conflicts := ConflictEntries(parsed.value);
    if conflicts.None? || !AllComparable(conflicts.value) {
      return Err(InternalError);
    }
    var conflictsSorted := SortDescending(conflicts.value, SortKey);
    var structuredConflicts := StructureConflicts(conflictsSorted);
    r := Ok(MultiConflictResponse(structuredConflicts, |structuredConflicts|));
  }

  /**
   * The structuring loop of the handler: build a conflict from every sorted
   * entry in turn and append it; an entry that does not construct is skipped.
   */
  method StructureConflicts(conflictsSorted: seq<Json>) returns (structuredConflicts: seq<GoalConflict>)
    ensures structuredConflicts == Structured(conflictsSorted)
  {
    structuredConflicts := [];
    for i := 0 to |conflictsSorted|
      invariant structuredConflicts == Structured(conflictsSorted[..i])
    {
      StructuredStep(conflictsSorted, i);
      var structured := BuildConflict(conflictsSorted[i]);
      if structured.None? {
        continue;
      }
      structuredConflicts := structuredConflicts + [structured.value];
    }
    assert conflictsSorted[..|conflictsSorted|] == conflictsSorted;
  }

  /** What the single-conflict endpoint makes of the multi-conflict outcome. */
  function PrimaryOutcome(multi: Outcome<MultiConflictResponse>): Outcome<Json> {
    match multi
    case Err(status) => Err(status)
    case Ok(response) =>
      if response.conflicts == [] then Err(NotFound) else Ok(ProjectConflict(response.conflicts[0]))
  }

  /** The single-conflict endpoint on one request. */
  function SingleConflictOutcome(policyText: string, gateway: string -> Option<string>,
                                 parseJson: string -> Option<Json>): Outcome<Json>
  {
    PrimaryOutcome(MultiConflictOutcome(policyText, gateway, parseJson))
  }

  /** `POST /analyze`: the primary conflict of the multi-conflict analysis. */
  method AnalyzeSingleConflict(policyText: string, gateway: string -> Option<string>,
                               parseJson: string -> Option<Json>)
    returns (r: Outcome<Json>)
    ensures r == SingleConflictOutcome(policyText, gateway, parseJson)
    ensures r == Err(NotFound) <==> !RejectsInput(policyText) && MultiConflictOutcome(policyText, gateway, parseJson) == Ok(MultiConflictResponse([], 0))
  {
    var multiResult := AnalyzeMultiConflicts(policyText, gateway, parseJson);
    if multiResult.Err? {
      return Err(multiResult.status);
    }
    if multiResult.value.conflicts == [] {
      return Err(NotFound);
    }
    var primaryConflict := multiResult.value.conflicts[0];
    r := Ok(ProjectConflict(primaryConflict));
  }

  /** The gate rejects exactly the texts whose stripped length is below 50; the empty test adds nothing. */
  lemma GateIsTrimmedLength(policyText: string)
    ensures RejectsInput(policyText) <==> |Trim(policyText)| < MinTextLength
  {
  }

  /**
   * Status 400 comes from the gate and nowhere else, on both endpoints: it
   * is returned exactly for rejected texts, and later failures are never
   * reported as 400 nor a rejection as 500.
   */
  lemma BadRequestExactlyWhenRejected(policyText: string, gateway: string -> Option<string>,
                                      parseJson: string -> Option<Json>)
    ensures MultiConflictOutcome(policyText, gateway, parseJson) == Err(BadRequest) <==> RejectsInput(policyText)
    ensures SingleConflictOutcome(policyText, gateway, parseJson) == Err(BadRequest) <==> RejectsInput(policyText)
  {
    if !RejectsInput(policyText) {
      FailuresAreInternalErrors(policyText, gateway, parseJson);
    }
  }

  /** A rejected request never reaches the gateway: its outcome is the same whatever the gateway or parser do. */
  lemma RejectedIgnoresGateway(policyText: string, g1: string -> Option<string>, p1: string -> Option<Json>,
                               g2: string -> Option<string>, p2: string -> Option<Json>)
    requires RejectsInput(policyText)
    ensures MultiConflictOutcome(policyText, g1, p1) == MultiConflictOutcome(policyText, g2, p2)
    ensures SingleConflictOutcome(policyText, g1, p1) == SingleConflictOutcome(policyText, g2, p2)
  {
  }

  /** The gateway is consulted only on the composed prompt, and the parser only on the stripped reply. */
  lemma OutcomeDependsOnPromptReply(policyText: string, g1: string -> Option<string>, p1: string -> Option<Json>,
                                    g2: string -> Option<string>, p2: string -> Option<Json>)
    requires g1(ComposePrompt(policyText)) == g2(ComposePrompt(policyText))
    requires g1(ComposePrompt(policyText)).Some? ==>
      p1(StripFences(g1(ComposePrompt(policyText)).value)) == p2(StripFences(g1(ComposePrompt(policyText)).value))
    ensures MultiConflictOutcome(policyText, g1, p1) == MultiConflictOutcome(policyText, g2, p2)
  {
  }

  /** The prompt ends with the policy text after the delimiter, so distinct texts give distinct prompts. */
  lemma PromptCarriesText(a: string, b: string)
    ensures ComposePrompt(a)[..|MultiDetectionPrompt + TextDelimiter|] == MultiDetectionPrompt + TextDelimiter
    ensures ComposePrompt(a)[|MultiDetectionPrompt + TextDelimiter|..] == a
    ensures ComposePrompt(a) == ComposePrompt(b) ==> a == b
  {
    var head := MultiDetectionPrompt + TextDelimiter;
    assert ComposePrompt(a) == head + a && ComposePrompt(b) == head + b;
    assert (head + a)[|head|..] == a && (head + b)[|head|..] == b;
  }

  /**
   * Every failure after the gate is a 500: a failed gateway call, a reply
   * that does not parse (the inner 500 is re-raised as a 500), and a parsed
   * value that is not an object.
   */
  lemma FailuresAreInternalErrors(policyText: string, gateway: string -> Option<string>,
                                  parseJson: string -> Option<Json>)
    requires !RejectsInput(policyText)
    ensures gateway(ComposePrompt(policyText)).None? ==>
      MultiConflictOutcome(policyText, gateway, parseJson) == Err(InternalError)
    ensures gateway(ComposePrompt(policyText)).Some? &&
            parseJson(StripFences(gateway(ComposePrompt(policyText)).value)).None? ==>
      MultiConflictOutcome(policyText, gateway, parseJson) == Err(InternalError)
    ensures gateway(ComposePrompt(policyText)).Some? &&
            parseJson(StripFences(gateway(ComposePrompt(policyText)).value)).Some? &&
            !parseJson(StripFences(gateway(ComposePrompt(policyText)).value)).value.Object? ==>
      MultiConflictOutcome(policyText, gateway, parseJson) == Err(InternalError)
    ensures MultiConflictOutcome(policyText, gateway, parseJson).Err? ==>
      MultiConflictOutcome(policyText, gateway, parseJson).status == InternalError
  {
    var message := gateway(ComposePrompt(policyText));
    if message.Some? {
      GatewayReplyOutcome(policyText, gateway, parseJson, message.value);
      ReplyFailuresAreInternalErrors(message.value, parseJson);
      ReplyErrorsAreInternal(message.value, parseJson);
    }
  }

  /** Once the gateway has replied, a reply that does not parse or parses to a non-object is a 500. */
  lemma ReplyFailuresAreInternalErrors(reply: string, parseJson: string -> Option<Json>)
    ensures parseJson(StripFences(reply)).None? ==> ReplyOutcome(reply, parseJson) == Err(InternalError)
    ensures parseJson(StripFences(reply)).Some? && !parseJson(StripFences(reply)).value.Object? ==>
      ReplyOutcome(reply, parseJson) == Err(InternalError)
  {
    var parsed := parseJson(StripFences(reply));
    if parsed.Some? {
      NonObjectIsInternalError(parsed.value);
    }
  }

  /** A parsed value that is not an object has no `get`: a 500. */
  lemma NonObjectIsInternalError(result: Json)
    ensures !result.Object? ==> ResultOutcome(result) == Err(InternalError)
  {
  }

  /** Once the gateway has replied, every failure is a 500. */
  lemma ReplyErrorsAreInternal(reply: string, parseJson: string -> Option<Json>)
    ensures ReplyOutcome(reply, parseJson).Err? ==> ReplyOutcome(reply, parseJson).status == InternalError
  {
    var parsed := parseJson(StripFences(reply));
    if parsed.Some? {
      ResultErrorsAreInternal(parsed.value);
    }
  }

  /** Whatever the parsed value, every failure is a 500. */
  lemma ResultErrorsAreInternal(result: Json)
    ensures ResultOutcome(result).Err? ==> ResultOutcome(result).status == InternalError
  {
  }

  /** A parsed object without a `conflicts` member gives an empty list and a count of 0. */
  lemma AbsentConflictsGiveEmptyList(policyText: string, gateway: string -> Option<string>,
                                     parseJson: string -> Option<Json>, m: map<string, Json>)
    requires !RejectsInput(policyText)
    requires gateway(ComposePrompt(policyText)).Some?
    requires parseJson(StripFences(gateway(ComposePrompt(policyText)).value)) == Some(Object(m))
    requires "conflicts" !in m
    ensures MultiConflictOutcome(policyText, gateway, parseJson) == Ok(MultiConflictResponse([], 0))
    ensures SingleConflictOutcome(policyText, gateway, parseJson) == Err(NotFound)
  {
    ParsedReplyOutcome(policyText, gateway, parseJson, Object(m));
    NoEntriesSucceed(Object(m));
  }

  /** A parsed value that yields no entries gives an empty list and a count of 0. */
  lemma NoEntriesSucceed(result: Json)
    requires ConflictEntries(result) == Some([])
    ensures ResultOutcome(result) == Ok(MultiConflictResponse([], 0))
  {
  }

  /** Past the gate, once the gateway has replied, the outcome is what the handler makes of the reply text. */
  lemma GatewayReplyOutcome(policyText: string, gateway: string -> Option<string>,
                            parseJson: string -> Option<Json>, reply: string)
    requires !RejectsInput(policyText)
    requires gateway(ComposePrompt(policyText)) == Some(reply)
    ensures MultiConflictOutcome(policyText, gateway, parseJson) == ReplyOutcome(reply, parseJson)
  {
  }

  /** Two replies that strip to the same text are handled alike. */
  lemma SameStrippedReply(r1: string, r2: string, parseJson: string -> Option<Json>)
    requires StripFences(r1) == StripFences(r2)
    ensures ReplyOutcome(r1, parseJson) == ReplyOutcome(r2, parseJson)
  {
  }

  /** Once the reply has parsed, the outcome is what the handler makes of the parsed value. */
  lemma ParsedReplyOutcome(policyText: string, gateway: string -> Option<string>,
                           parseJson: string -> Option<Json>, result: Json)
    requires !RejectsInput(policyText)
    requires gateway(ComposePrompt(policyText)).Some?
    requires parseJson(StripFences(gateway(ComposePrompt(policyText)).value)) == Some(result)
    ensures MultiConflictOutcome(policyText, gateway, parseJson) == ResultOutcome(result)
  {
  }

  /** A parsed object whose `conflicts` is a list of comparable entries succeeds with the kept list of the sorted entries. */
  lemma ConflictListSucceeds(m: map<string, Json>, items: seq<Json>)
    requires "conflicts" in m && m["conflicts"] == Array(items)
    requires AllComparable(items)
    ensures ResultOutcome(Object(m)) ==
      Ok(MultiConflictResponse(Structured(SortDescending(items, SortKey)), |Structured(SortDescending(items, SortKey))|))
  {
    assert ConflictEntries(Object(m)) == Some(items);
  }

  /**
   * What the success carries: the sorted list is a stable non-increasing
   * permutation of the entries; the kept list lists, in sorted order,
   * exactly the entries that construct (invalid ones are dropped, not
   * fatal), and is no longer than the entries.
   */
  lemma SortedThenStructured(items: seq<Json>)
    ensures var sorted := SortDescending(items, SortKey);
      && multiset(sorted) == multiset(items)
      && NonIncreasing(sorted, SortKey)
      && (forall k :: WithKey(sorted, SortKey, k) == WithKey(items, SortKey, k))
      && |Structured(sorted)| == |KeptIndices(sorted)| <= |items|
      && (forall j :: 0 <= j < |KeptIndices(sorted)| ==> BuildConflict(sorted[KeptIndices(sorted)[j]]) == Some(Structured(sorted)[j]))
      && (forall i :: 0 <= i < |sorted| ==> (i in KeptIndices(sorted) <==> BuildConflict(sorted[i]).Some?))
  {
    var sorted := SortDescending(items, SortKey);
    SortDescendingOrdered(items, SortKey);
    forall k ensures WithKey(sorted, SortKey, k) == WithKey(items, SortKey, k) {
      SortStable(items, SortKey, k);
    }
    StructuredSelectsKept(sorted);
    KeptIndicesMembers(sorted);
  }

  /** The same, for the whole request. */
  lemma WellFormedReplySucceeds(policyText: string, gateway: string -> Option<string>,
                                parseJson: string -> Option<Json>, m: map<string, Json>, items: seq<Json>)
    requires !RejectsInput(policyText)
    requires gateway(ComposePrompt(policyText)).Some?
    requires parseJson(StripFences(gateway(ComposePrompt(policyText)).value)) == Some(Object(m))
    requires "conflicts" in m && m["conflicts"] == Array(items)
    requires AllComparable(items)
    ensures var kept := Structured(SortDescending(items, SortKey));
      && MultiConflictOutcome(policyText, gateway, parseJson) == Ok(MultiConflictResponse(kept, |kept|))
      && |kept| <= |items|
  {
    ParsedReplyOutcome(policyText, gateway, parseJson, Object(m));
    ConflictListSucceeds(m, items);
    SortedThenStructured(items);
  }

  /**
   * A reply wrapped in a tagged code fence is handled exactly like the same
   * reply without the fence.
   */
  lemma FencedReplyLikeBare(policyText: string, g1: string -> Option<string>, g2: string -> Option<string>,
                            parseJson: string -> Option<Json>, body: string)
    requires !Contains(body, Fence)
    requires g1(ComposePrompt(policyText)) == Some(JsonFence + body + Fence)
    requires g2(ComposePrompt(policyText)) == Some(body)
    ensures MultiConflictOutcome(policyText, g1, parseJson) == MultiConflictOutcome(policyText, g2, parseJson)
    ensures SingleConflictOutcome(policyText, g1, parseJson) == SingleConflictOutcome(policyText, g2, parseJson)
  {
    if !RejectsInput(policyText) {
      GatewayReplyOutcome(policyText, g1, parseJson, JsonFence + body + Fence);
      GatewayReplyOutcome(policyText, g2, parseJson, body);
      FencedJsonReply(body);
      SameStrippedReply(JsonFence + body + Fence, body, parseJson);
    }
  }

  /** The single endpoint answers 404 exactly when the multi-conflict analysis succeeds with no conflicts. */
  lemma NotFoundExactlyWhenEmpty(policyText: string, gateway: string -> Option<string>,
                                 parseJson: string -> Option<Json>)
    ensures SingleConflictOutcome(policyText, gateway, parseJson) == Err(NotFound) <==>
      MultiConflictOutcome(policyText, gateway, parseJson).Ok? &&
      MultiConflictOutcome(policyText, gateway, parseJson).value.conflicts == []
    ensures MultiConflictOutcome(policyText, gateway, parseJson).Err? ==>
      SingleConflictOutcome(policyText, gateway, parseJson) == Err(MultiConflictOutcome(policyText, gateway, parseJson).status)
  {
  }

  /**
   * A successful single-conflict answer is the projection of the first
   * conflict of the multi-conflict answer: reading it back gives that
   * conflict, every field unchanged.
   */
  lemma SingleIsPrimaryConflict(policyText: string, gateway: string -> Option<string>,
                                parseJson: string -> Option<Json>)
    requires SingleConflictOutcome(policyText, gateway, parseJson).Ok?
    ensures var multi := MultiConflictOutcome(policyText, gateway, parseJson);
      && multi.Ok? && multi.value.conflicts != []
      && SingleConflictOutcome(policyText, gateway, parseJson).value == ProjectConflict(multi.value.conflicts[0])
      && BuildConflict(SingleConflictOutcome(policyText, gateway, parseJson).value) == Some(multi.value.conflicts[0])
  {
    var multi := MultiConflictOutcome(policyText, gateway, parseJson);
    ProjectionRoundTrip(multi.value.conflicts[0]);
  }

  /**
   * For a reply whose `conflicts` is a list of comparable entries, a
   * successful single-conflict answer reads back as the conflict built from
   * an entry whose sort key is maximal among the entries that construct.
   */
  lemma SingleHasMaximalKey(policyText: string, gateway: string -> Option<string>,
                            parseJson: string -> Option<Json>, m: map<string, Json>, items: seq<Json>)
    requires !RejectsInput(policyText)
    requires gateway(ComposePrompt(policyText)).Some?
    requires parseJson(StripFences(gateway(ComposePrompt(policyText)).value)) == Some(Object(m))
    requires "conflicts" in m && m["conflicts"] == Array(items)
    requires AllComparable(items)
    requires SingleConflictOutcome(policyText, gateway, parseJson).Ok?
    ensures exists e :: (e in items &&
      BuildConflict(e) == BuildConflict(SingleConflictOutcome(policyText, gateway, parseJson).value) &&
      forall x :: x in items && BuildConflict(x).Some? ==> SortKey(x) <= SortKey(e))
  {
    var kept := Structured(SortDescending(items, SortKey));
    WellFormedReplySucceeds(policyText, gateway, parseJson, m, items);
    var answer := SingleConflictOutcome(policyText, gateway, parseJson).value;
    assert answer == ProjectConflict(kept[0]);
    ProjectionRoundTrip(kept[0]);
    PrimaryHasMaximalKey(items);
    var e :| e in items && BuildConflict(e) == Some(kept[0]) &&
      forall x :: x in items && BuildConflict(x).Some? ==> SortKey(x) <= SortKey(e);
    assert BuildConflict(e) == BuildConflict(answer);
  }
}
