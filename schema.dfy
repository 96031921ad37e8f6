/**
 * The response records (main.py:26-45), their construction from the parsed
 * reply (main.py:194-202), the flattened projection returned by the
 * single-conflict endpoint (main.py:237-245), and the sort key
 * (main.py:186).
 */
module Schema {
  import opened Outcomes
  import opened JsonValues

  /** The three yes/no judgments behind a conflict's category, each with its reasoning. */
  datatype ThreeYesCheck = ThreeYesCheck(
    systemFunction: bool,
    systemFunctionReasoning: string,
    implementationCollision: bool,
    implementationReasoning: string,
    currentPressure: bool,
    pressureReasoning: string)

  /** One goal conflict between two societal functions. */
  datatype GoalConflict = GoalConflict(
    conflict: string,
    functionA: string,
    functionB: string,
    implementationCollision: string,
    centralityScore: real,
    threeYes: ThreeYesCheck,
    category: string)

  /** The body of a successful multi-conflict response. */
  datatype MultiConflictResponse = MultiConflictResponse(conflicts: seq<GoalConflict>, totalCount: int)

  const ScoreName: string := "centrality_score"
  /** The score a constructed conflict gets when the entry has none. */
  const DefaultScore: real := 0.5
  /** The sort key of an entry that has no score. */
  const MissingScoreKey: real := 0.0

  /** Member names of a three-yes object whose values must be booleans. */
  const ThreeYesFlags: set<string> := {"system_function", "implementation_collision", "current_pressure"}
  /** Member names of a three-yes object whose values must be strings. */
  const ThreeYesReasons: set<string> := {"system_function_reasoning", "implementation_reasoning", "pressure_reasoning"}
  /** Member names of a conflict entry whose values must be strings. */
  const ConflictTexts: set<string> := {"conflict", "function_a", "function_b", "implementation_collision", "category"}

  /** The declared shape of a three-yes object: every required member, each of its declared kind. */
  predicate IsThreeYesShape(v: Json) {
    && v.Object?
    && (forall name | name in ThreeYesFlags :: name in v.members && v.members[name].Bool?)
    && (forall name | name in ThreeYesReasons :: name in v.members && v.members[name].String?)
  }

  /** The declared shape of a conflict entry; the score may be absent. */
  predicate IsConflictShape(e: Json) {
    && e.Object?
    && (forall name | name in ConflictTexts :: name in e.members && e.members[name].String?)
    && (ScoreName in e.members ==> e.members[ScoreName].Number?)
    && "three_yes" in e.members && IsThreeYesShape(e.members["three_yes"])
  }

  /** `ThreeYesCheck(**v)`: members beyond the six are ignored. */
  function BuildThreeYes(v: Json): Option<ThreeYesCheck> {
    match (BoolMember(v, "system_function"), StringMember(v, "system_function_reasoning"),
           BoolMember(v, "implementation_collision"), StringMember(v, "implementation_reasoning"),
           BoolMember(v, "current_pressure"), StringMember(v, "pressure_reasoning"))
    case (Some(a), Some(b), Some(c), Some(d), Some(e), Some(f)) => Some(ThreeYesCheck(a, b, c, d, e, f))
    case _ => None
  }

  /** The score a conflict is constructed with: the entry's own, or the default. */
  function ConstructedScore(e: Json): Option<real> {
    match Member(e, ScoreName)
    case None => Some(DefaultScore)
    case Some(Number(x)) => Some(x)
    case Some(_) => None
  }

  /**
   * `GoalConflict(...)` from one entry of the reply; None when a required
   * member is missing or of the wrong kind, which the structuring loop turns
   * into dropping the entry.
   */
  function BuildConflict(e: Json): Option<GoalConflict> {
    match (StringMember(e, "conflict"), StringMember(e, "function_a"), StringMember(e, "function_b"),
           StringMember(e, "implementation_collision"), ConstructedScore(e),
           Member(e, "three_yes"), StringMember(e, "category"))
    case (Some(c), Some(a), Some(b), Some(ic), Some(score), Some(ty), Some(cat)) =>
      (match BuildThreeYes(ty)
       case Some(t) => Some(GoalConflict(c, a, b, ic, score, t, cat))
       case None => None)
    case _ => None
  }

  /** A three-yes record is built exactly from a mapping of the declared shape. */
  lemma BuildThreeYesShape(v: Json)
    ensures BuildThreeYes(v).Some? <==> IsThreeYesShape(v)
  {
  }

  /** A conflict is built exactly from an entry of the declared shape. */
  lemma BuildConflictShape(e: Json)
    ensures BuildConflict(e).Some? <==> IsConflictShape(e)
  {
    if e.Object? && "three_yes" in e.members {
      BuildThreeYesShape(e.members["three_yes"]);
    }
  }

  /** `three_yes.dict()`. */
  function ThreeYesToJson(t: ThreeYesCheck): Json {
    Object(map[
      "system_function" := Bool(t.systemFunction),
      "system_function_reasoning" := String(t.systemFunctionReasoning),
      "implementation_collision" := Bool(t.implementationCollision),
      "implementation_reasoning" := String(t.implementationReasoning),
      "current_pressure" := Bool(t.currentPressure),
      "pressure_reasoning" := String(t.pressureReasoning)])
  }

  /** The flattened body of the single-conflict endpoint; `three_yes` is a plain mapping. */
  function ProjectConflict(c: GoalConflict): Json {
    Object(map[
      "conflict" := String(c.conflict),
      "function_a" := String(c.functionA),
      "function_b" := String(c.functionB),
      "implementation_collision" := String(c.implementationCollision),
      ScoreName := Number(c.centralityScore),
      "three_yes" := ThreeYesToJson(c.threeYes),
      "category" := String(c.category)])
  }

  /** A three-yes mapping has exactly the six declared members. */
  lemma ThreeYesKeys(t: ThreeYesCheck)
    ensures ThreeYesToJson(t).members.Keys == ThreeYesFlags + ThreeYesReasons
  {
  }

  /** Reading a three-yes mapping back gives the record it came from. */
  lemma ThreeYesRoundTrip(t: ThreeYesCheck)
    ensures BuildThreeYes(ThreeYesToJson(t)) == Some(t)
  {
    var v := ThreeYesToJson(t);
    assert BoolMember(v, "system_function") == Some(t.systemFunction);
    assert StringMember(v, "system_function_reasoning") == Some(t.systemFunctionReasoning);
    assert BoolMember(v, "implementation_collision") == Some(t.implementationCollision);
    assert StringMember(v, "implementation_reasoning") == Some(t.implementationReasoning);
    assert BoolMember(v, "current_pressure") == Some(t.currentPressure);
    assert StringMember(v, "pressure_reasoning") == Some(t.pressureReasoning);
  }

  /** The projection has exactly the seven members of a conflict. */
  lemma ProjectionKeys(c: GoalConflict)
    ensures ProjectConflict(c).members.Keys == ConflictTexts + {ScoreName, "three_yes"}
  {
  }

  /**
   * The projection copies every field unchanged: constructing a conflict
   * from it gives back the record that was projected.
   */
  lemma ProjectionRoundTrip(c: GoalConflict)
    ensures BuildConflict(ProjectConflict(c)) == Some(c)
  {
    ThreeYesRoundTrip(c.threeYes);
    ProjectedTexts(c);
    ProjectedRest(c);
  }

  /** The text members of the projection. */
  lemma ProjectedTexts(c: GoalConflict)
    ensures StringMember(ProjectConflict(c), "conflict") == Some(c.conflict)
    ensures StringMember(ProjectConflict(c), "function_a") == Some(c.functionA)
    ensures StringMember(ProjectConflict(c), "function_b") == Some(c.functionB)
    ensures StringMember(ProjectConflict(c), "implementation_collision") == Some(c.implementationCollision)
  {
  }

  /** The remaining members of the projection. */
  lemma ProjectedRest(c: GoalConflict)
    ensures ConstructedScore(ProjectConflict(c)) == Some(c.centralityScore)
    ensures Member(ProjectConflict(c), "three_yes") == Some(ThreeYesToJson(c.threeYes))
    ensures StringMember(ProjectConflict(c), "category") == Some(c.category)
  {
  }

  /** Entries the sort can compare: objects whose score, if present, is a number or a boolean. */
  predicate HasComparableKey(e: Json) {
    e.Object? && (ScoreName in e.members ==> e.members[ScoreName].Number? || e.members[ScoreName].Bool?)
  }

  /** Every entry of a list is comparable. */
  predicate AllComparable(entries: seq<Json>) {
    forall e | e in entries :: HasComparableKey(e)
  }

  /** `x.get("centrality_score", 0)`, with a boolean counting as 1 or 0. */
  function SortKey(e: Json): real {
    match Member(e, ScoreName)
    case Some(Number(x)) => x
    case Some(Bool(b)) => if b then 1.0 else 0.0
    case _ => MissingScoreKey
  }

  /**
   * A constructed conflict carries the entry's score when it has one, and
   * then that score is its sort key; without one it sorts as 0 and is
   * constructed with 0.5.
   */
  lemma ConstructedScoreVersusKey(e: Json)
    requires BuildConflict(e).Some?
    ensures HasComparableKey(e)
    ensures ScoreName in e.members ==> BuildConflict(e).value.centralityScore == SortKey(e)
    ensures ScoreName !in e.members ==>
      BuildConflict(e).value.centralityScore == DefaultScore && SortKey(e) == MissingScoreKey
  {
  }
}
