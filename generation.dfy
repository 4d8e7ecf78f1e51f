/**
 * The pure parts of the generation route (src/app/api/pipeline/generate/route.ts): the request body
 * schema, the errors a generation attempt can end in (src/lib/validators/errors.ts), the retry rule and
 * the mapping from the last error to a status.
 */
module Generation {
  import opened Common
  import opened ProblemViews

  const MaxAttempts: nat := 2

  datatype GenerateBody = GenerateBody(
    archetypeId: string,
    problemType: ProblemType,
    band: string,
    count: int,
    model: Option<string>,
    useReasoning: bool)

  /** `z.enum(['MCQ', 'NUMERIC', 'EXPRESSION', 'OPEN']).default('MCQ')`. */
  function ParseType(field: Option<Json>): (r: Option<ProblemType>)
    ensures field.None? ==> r == Some(Mcq)
    ensures field == Some(JStr("MCQ")) ==> r == Some(Mcq)
    ensures field == Some(JStr("NUMERIC")) ==> r == Some(Numeric)
    ensures field == Some(JStr("EXPRESSION")) ==> r == Some(Expression)
    ensures field == Some(JStr("OPEN")) ==> r == Some(Open)
    ensures field.Some? && !(field.value in {JStr("MCQ"), JStr("NUMERIC"), JStr("EXPRESSION"), JStr("OPEN")}) ==> r.None?
  {
    match field
    case None => Some(Mcq)
    case Some(v) =>
      if v == JStr("MCQ") then Some(Mcq)
      else if v == JStr("NUMERIC") then Some(Numeric)
      else if v == JStr("EXPRESSION") then Some(Expression)
      else if v == JStr("OPEN") then Some(Open)
      else None
  }

  /** `z.number().int().min(1).max(20).default(5)`. */
  function ParseCount(field: Option<Json>): (r: Option<int>)
    ensures field.None? ==> r == Some(5)
    ensures field.Some? ==> (r.Some? <==> field.value.JNum? && IsInteger(field.value.n) && 1.0 <= field.value.n <= 20.0)
    ensures field.Some? && r.Some? ==> field.value == JNum(r.value as real)
    ensures r.Some? ==> 1 <= r.value <= 20
  {
    match field
    case None => Some(5)
    case Some(JNum(n)) => if IsInteger(n) && 1.0 <= n <= 20.0 then Some(n.Floor) else None
    case Some(_) => None
  }

  /** `z.string().min(1)`. */
  function ParseNonEmpty(field: Option<Json>): (r: Option<string>)
    ensures r.Some? <==> field.Some? && field.value.JStr? && field.value.s != ""
    ensures r.Some? ==> field == Some(JStr(r.value))
  {
    if field.Some? && field.value.JStr? && field.value.s != "" then Some(field.value.s) else None
  }

  /**
   * bodySchema.safeParse(body): accepted iff the body is an object whose members all meet the schema.
   * A present but non-string model, or a non-boolean useReasoning, fails.
   */
  function ParseGenerateBody(v: Json): (r: Option<GenerateBody>)
    ensures !v.JObj? ==> r.None?
    ensures r.Some? ==>
      && Member(v, "archetypeId") == Some(JStr(r.value.archetypeId)) && r.value.archetypeId != ""
      && Member(v, "band") == Some(JStr(r.value.band)) && r.value.band != ""
      && Some(r.value.problemType) == ParseType(Member(v, "type"))
      && 1 <= r.value.count <= 20 && Some(r.value.count) == ParseCount(Member(v, "count"))
      && (Member(v, "model").None? ==> r.value.model.None?)
      && (Member(v, "useReasoning").None? ==> !r.value.useReasoning)
    ensures v.JObj? && ParseNonEmpty(Member(v, "archetypeId")).None? ==> r.None?
    ensures v.JObj? && ParseNonEmpty(Member(v, "band")).None? ==> r.None?
    ensures v.JObj? && ParseCount(Member(v, "count")).None? ==> r.None?
    ensures v.JObj? && ParseType(Member(v, "type")).None? ==> r.None?
    ensures r.Some? && Member(v, "model").Some? ==>
      Member(v, "model").value.JStr? && r.value.model == Some(Member(v, "model").value.s)
    ensures r.Some? && Member(v, "useReasoning").Some? ==>
      Member(v, "useReasoning") == Some(JBool(r.value.useReasoning))
    ensures v.JObj? && Member(v, "model").Some? && !Member(v, "model").value.JStr? ==> r.None?
    ensures v.JObj? && Member(v, "useReasoning").Some? && !Member(v, "useReasoning").value.JBool? ==> r.None?
    ensures
      (&& v.JObj?
       && ParseNonEmpty(Member(v, "archetypeId")).Some?
       && ParseNonEmpty(Member(v, "band")).Some?
       && ParseType(Member(v, "type")).Some?
       && ParseCount(Member(v, "count")).Some?
       && (Member(v, "model").None? || Member(v, "model").value.JStr?)
       && (Member(v, "useReasoning").None? || Member(v, "useReasoning").value.JBool?))
      ==> r.Some?
  {
    if !v.JObj? then None
    else
      var archetypeId := ParseNonEmpty(Member(v, "archetypeId"));
      var problemType := ParseType(Member(v, "type"));
      var band := ParseNonEmpty(Member(v, "band"));
      var count := ParseCount(Member(v, "count"));
      var model := match Member(v, "model")
        case None => Some(None)
        case Some(JStr(m)) => Some(Some(m))
        case Some(_) => None;
      var useReasoning := match Member(v, "useReasoning")
        case None => Some(false)
        case Some(JBool(b)) => Some(b)
        case Some(_) => None;
      if archetypeId.Some? && problemType.Some? && band.Some? && count.Some? && model.Some? && useReasoning.Some? then
        Some(GenerateBody(archetypeId.value, problemType.value, band.value, count.value, model.value, useReasoning.value))
      else None
  }

  /** The stage an AiBatchError names. */
  datatype Stage = JsonParse | SchemaStage | Auth | Network

  /** What a failed attempt threw: a ZodError, an AiBatchError with its stage, or any other error. */
  datatype GenError = Zod | AiBatch(stage: Stage) | OtherError

  /** The stage reported with a failure response. */
  datatype FailStage = Validation | BatchStage(stage: Stage) | Unknown

  /** The loop moves on to another attempt only after a json_parse AiBatchError on an attempt below the maximum. */
  predicate ShouldRetry(err: GenError, attempt: nat) {
    err == AiBatch(JsonParse) && attempt < MaxAttempts
  }

  /** The status and stage of the response built from the last error. */
  function FailureResponse(err: GenError): (r: (int, FailStage))
    ensures r.0 == 422 <==> err == Zod || err == AiBatch(JsonParse)
    ensures r.0 == 422 || r.0 == 500
    ensures err.AiBatch? ==> r.1 == BatchStage(err.stage)
    ensures err == Zod ==> r.1 == Validation
    ensures err == OtherError ==> r.1 == Unknown
  {
    match err
    case Zod => (422, Validation)
    case AiBatch(stage) => (if stage == JsonParse then 422 else 500, BatchStage(stage))
    case OtherError => (500, Unknown)
  }

  /** The member names the body schema looks up are pairwise distinct. */
  lemma KeysDistinct()
    ensures "band" != "archetypeId" && "type" != "archetypeId" && "type" != "band"
    ensures "count" != "archetypeId" && "count" != "band" && "model" != "archetypeId" && "model" != "band"
    ensures "useReasoning" != "archetypeId" && "useReasoning" != "band"
  {
    assert "band"[0] != "archetypeId"[0] && "type"[0] != "archetypeId"[0] && "type"[0] != "band"[0];
    assert "count"[0] != "archetypeId"[0] && "count"[0] != "band"[0] && "model"[0] != "archetypeId"[0] && "model"[0] != "band"[0];
    assert "useReasoning"[0] != "archetypeId"[0] && "useReasoning"[0] != "band"[0];
  }

  /** A body with only the two required members gets count 5, type MCQ, no model and no reasoning. */
  lemma BodyDefaults(archetypeId: string, band: string)
    requires archetypeId != "" && band != ""
    ensures var v := JObj([("archetypeId", JStr(archetypeId)), ("band", JStr(band))]);
      ParseGenerateBody(v) == Some(GenerateBody(archetypeId, Mcq, band, 5, None, false))
  {
    var v := JObj([("archetypeId", JStr(archetypeId)), ("band", JStr(band))]);
    KeysDistinct();
    assert v.members[1..] == [("band", JStr(band))];
    assert Member(v, "archetypeId") == Some(JStr(archetypeId));
    assert Lookup(v.members[1..], "band") == Some(JStr(band));
    assert Member(v, "band") == Some(JStr(band));
    assert Member(v, "type") == None && Member(v, "count") == None;
    assert Member(v, "model") == None && Member(v, "useReasoning") == None;
  }

  /** A count above the maximum of 20 makes the body invalid. */
  lemma CountAboveLimitRefused(archetypeId: string, band: string)
    ensures ParseGenerateBody(JObj([("archetypeId", JStr(archetypeId)), ("band", JStr(band)), ("count", JNum(21.0))])).None?
  {
    var w := JObj([("archetypeId", JStr(archetypeId)), ("band", JStr(band)), ("count", JNum(21.0))]);
    KeysDistinct();
    assert w.members[1..][1..] == [("count", JNum(21.0))];
    assert Lookup(w.members[1..][1..], "count") == Some(JNum(21.0));
    assert Lookup(w.members[1..], "count") == Some(JNum(21.0));
    assert Member(w, "count") == Some(JNum(21.0));
    assert ParseCount(Member(w, "count")).None?;
  }
}
