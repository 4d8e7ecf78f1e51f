/**
 * The mapping of generated problems to stored rows (src/lib/db/insertProblems.ts, toCreateInput): the
 * base fields and defaults shared by every type, and the answer fields each problem type keeps.
 */
module ProblemInsert {
  import opened Common
  import opened ProblemViews

  /**
   * A problem as the (unseen) generated-problem schema outputs it. Optional members are None when
   * absent; a JSON-valued member may also be present and null.
   */
  datatype GeneratedProblem = GeneratedProblem(
    promptLatex: string,
    seedRating: int,
    rating: int,
    topic: string,
    tags: seq<string>,
    solutions: Option<string>,
    problemType: Option<ProblemType>,
    requireForm: Option<seq<string>>,
    choices: Option<Json>,
    correctChoice: Option<string>,
    correctNumeric: Option<Json>,
    correctExpr: Option<Json>)

  /** `value ?? Prisma.JsonNull`: a missing JSON member is stored as JSON null. */
  function JsonOrNull(v: Option<Json>): (r: Json)
    ensures v.Some? ==> r == v.value
    ensures v.None? ==> r == JNull
  {
    v.GetOr(JNull)
  }

  /** The row shared by every type: the generated fields, the defaults and the given archetype. */
  function Base(problem: GeneratedProblem, archetypeId: string, id: string): Problem {
    Problem(id, Some(archetypeId), problem.problemType.GetOr(Mcq), problem.promptLatex,
            JNull, None, JNull, JNull, problem.topic, problem.tags, problem.rating, problem.seedRating,
            problem.solutions, problem.requireForm.GetOr([]))
  }

  /**
   * toCreateInput(problem, archetypeId) with `id` the nanoid drawn for it. MCQ keeps the choices and
   * the correct choice, NUMERIC only the numeric answer, EXPRESSION only the expression answer; everything
   * else is null. OPEN sets no answer field, which stores them all as null too.
   */
  function ToCreateInput(problem: GeneratedProblem, archetypeId: string, id: string): (row: Problem)
    ensures row.id == id && row.archetypeId == Some(archetypeId)
    ensures row.problemType == problem.problemType.GetOr(Mcq)
    ensures row.requireForm == problem.requireForm.GetOr([]) && row.solutions == problem.solutions
    ensures row.promptLatex == problem.promptLatex && row.rating == problem.rating && row.seedRating == problem.seedRating
    ensures row.topic == problem.topic && row.tags == problem.tags
    ensures row.choices == (if row.problemType == Mcq then JsonOrNull(problem.choices) else JNull)
    ensures row.correctChoice == (if row.problemType == Mcq then problem.correctChoice else None)
    ensures row.correctNumeric == (if row.problemType == Numeric then JsonOrNull(problem.correctNumeric) else JNull)
    ensures row.correctExpr == (if row.problemType == Expression then JsonOrNull(problem.correctExpr) else JNull)
  {
    var base := Base(problem, archetypeId, id);
    match base.problemType
    case Mcq => base.(choices := JsonOrNull(problem.choices), correctChoice := problem.correctChoice)
    case Numeric => base.(correctNumeric := JsonOrNull(problem.correctNumeric))
    case Expression => base.(correctExpr := JsonOrNull(problem.correctExpr))
    case Open => base
  }

  /** `problems.map(p => toCreateInput(p, archetypeId))`, the k-th problem getting id ids(k). */
  function ToCreateInputs(problems: seq<GeneratedProblem>, archetypeId: string, ids: nat -> string): (rows: seq<Problem>)
    ensures |rows| == |problems|
    ensures forall k :: 0 <= k < |rows| ==> rows[k] == ToCreateInput(problems[k], archetypeId, ids(k))
  {
    seq(|problems|, k requires 0 <= k < |problems| => ToCreateInput(problems[k], archetypeId, ids(k)))
  }

  /** At most one of the three answer fields is set on a stored row, and only the one its type uses. */
  lemma AnswerFieldsMatchType(problem: GeneratedProblem, archetypeId: string, id: string)
    ensures var row := ToCreateInput(problem, archetypeId, id);
      && (row.correctChoice.Some? ==> row.problemType == Mcq)
      && (row.correctNumeric != JNull ==> row.problemType == Numeric)
      && (row.correctExpr != JNull ==> row.problemType == Expression)
      && (row.problemType == Open ==> row.choices == JNull && row.correctChoice.None? && row.correctNumeric == JNull && row.correctExpr == JNull)
  {
  }

  /** A problem without a type is stored as an MCQ, keeping its choices and correct choice. */
  lemma UntypedIsMcq(problem: GeneratedProblem, archetypeId: string, id: string)
    requires problem.problemType.None?
    ensures ToCreateInput(problem, archetypeId, id).problemType == Mcq
    ensures ToCreateInput(problem, archetypeId, id).correctChoice == problem.correctChoice
  {
  }

  /** The stored row's learner view shows the same choices whatever answer fields the generator produced. */
  lemma StoredViewHidesAnswer(problem: GeneratedProblem, archetypeId: string, id: string, correctChoice: Option<string>,
                              correctNumeric: Option<Json>, correctExpr: Option<Json>)
    ensures var other := problem.(correctChoice := correctChoice, correctNumeric := correctNumeric, correctExpr := correctExpr);
      FormatProblemView(ToCreateInput(other, archetypeId, id), None, None, None)
        == FormatProblemView(ToCreateInput(problem, archetypeId, id), None, None, None)
  {
    var other := problem.(correctChoice := correctChoice, correctNumeric := correctNumeric, correctExpr := correctExpr);
    var row := ToCreateInput(problem, archetypeId, id);
    var row' := ToCreateInput(other, archetypeId, id);
    assert row' == row.(correctChoice := row'.correctChoice, correctNumeric := row'.correctNumeric, correctExpr := row'.correctExpr);
    ViewHidesAnswer(row, row'.correctChoice, row'.correctNumeric, row'.correctExpr, None, None, None);
  }
}
