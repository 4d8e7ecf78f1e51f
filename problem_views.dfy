/**
 * Learner-facing problem views (src/domain/problem.ts): choice normalisation and the two view
 * builders formatProblemView and formatProblemViewFromRow. A view never carries the answer fields.
 */
module ProblemViews {
  import opened Common

  datatype ProblemType = Mcq | Numeric | Expression | Open

  /** A problem row as stored. JNull stands for a JSON column holding null. */
  datatype Problem = Problem(
    id: string,
    archetypeId: Option<string>,
    problemType: ProblemType,
    promptLatex: string,
    choices: Json,
    correctChoice: Option<string>,
    correctNumeric: Json,
    correctExpr: Json,
    topic: string,
    tags: seq<string>,
    rating: int,
    seedRating: int,
    solutions: Option<string>,
    requireForm: seq<string>)

  /**
   * What a choice's content is. Value: the value itself (a string choice, or the first truthy member
   * among content, latex and text). Serialized: the JSON.stringify text of the value. Stringified: the
   * String(value) text. The two renderings are named, not spelled out.
   */
  datatype ChoiceContent = Value(v: Json) | Serialized(v: Json) | Stringified(v: Json)

  datatype Choice = Choice(id: string, content: ChoiceContent)

  datatype ProblemView = ProblemView(
    id: string,
    problemType: ProblemType,
    promptLatex: string,
    choices: seq<Choice>,
    topic: string,
    tags: seq<string>,
    rating: int,
    userRating: Option<int>,
    attemptCount: Option<int>,
    solutions: Option<string>,
    subjectOrder: int)

  /** The flat row of the raw problem-selection query. */
  datatype ProblemRow = ProblemRow(
    id: string,
    problemType: ProblemType,
    promptLatex: string,
    choices: Json,
    topic: string,
    tags: seq<string>,
    rating: int,
    solutions: Option<string>,
    userRating: int,
    attemptCount: int,
    subjectOrder: Option<int>)

  /**
   * String.fromCharCode(n): the UTF-16 code unit n mod 2^16. A lone surrogate cannot be a Dafny char;
   * the model writes U+FFFD for it.
   */
  function FromCharCode(n: nat): (r: string)
    ensures |r| == 1
    ensures n < 0xD800 ==> r[0] as int == n
  {
    var u := n % 0x1_0000;
    if 0xD800 <= u < 0xE000 then "\U{FFFD}" else [u as char]
  }

  /** The content of one raw choice value. */
  function ContentOf(v: Json): ChoiceContent {
    match v
    case JStr(_) => Value(v)
    case JObj(members) =>
      var content := Lookup(members, "content");
      var latex := Lookup(members, "latex");
      var text := Lookup(members, "text");
      if content.Some? && Truthy(content.value) then Value(content.value)
      else if latex.Some? && Truthy(latex.value) then Value(latex.value)
      else if text.Some? && Truthy(text.value) then Value(text.value)
      else Serialized(v)
    case JArr(_) => Serialized(v)
    case _ => Stringified(v)
  }

  /**
   * The choice list of a view: only a truthy MCQ choices value yields choices; an object yields one
   * choice per member, keyed by the member name; an array yields one choice per element, keyed
   * 'A', 'B', ... by position.
   */
  function NormalizeChoices(problemType: ProblemType, raw: Json): (choices: seq<Choice>)
    ensures problemType != Mcq || !Truthy(raw) ==> choices == []
    ensures problemType == Mcq && raw.JArr? ==>
      && |choices| == |raw.items|
      && forall i :: 0 <= i < |choices| ==> choices[i] == Choice(FromCharCode(65 + i), ContentOf(raw.items[i]))
    ensures problemType == Mcq && raw.JObj? ==>
      && |choices| == |raw.members|
      && forall i :: 0 <= i < |choices| ==> choices[i] == Choice(raw.members[i].0, ContentOf(raw.members[i].1))
    ensures !raw.JArr? && !raw.JObj? ==> choices == []
  {
    if problemType == Mcq && Truthy(raw) then
      match raw
      case JObj(members) => MemberChoices(members)
      case JArr(items) => ItemChoices(items)
      case _ => []
    else []
  }

  /** One choice per object member, keyed by the member name. */
  function MemberChoices(members: seq<(string, Json)>): (choices: seq<Choice>)
    ensures |choices| == |members|
    ensures forall i :: 0 <= i < |choices| ==> choices[i] == Choice(members[i].0, ContentOf(members[i].1))
  {
    seq(|members|, i requires 0 <= i < |members| => Choice(members[i].0, ContentOf(members[i].1)))
  }

  /** One choice per array element, keyed 'A', 'B', ... by position. */
  function ItemChoices(items: seq<Json>): (choices: seq<Choice>)
    ensures |choices| == |items|
    ensures forall i :: 0 <= i < |choices| ==> choices[i] == Choice(FromCharCode(65 + i), ContentOf(items[i]))
  {
    seq(|items|, i requires 0 <= i < |items| => Choice(FromCharCode(65 + i), ContentOf(items[i])))
  }

  /**
   * formatProblemView(problem, userRating, attemptCount). `subjectOrder` is the optional chain
   * problem.Archetype?.Domain?.Subject?.order (None when any link is missing); `|| 1` turns a
   * missing order and an order of 0 into 1.
   */
  function FormatProblemView(problem: Problem, subjectOrder: Option<int>, userRating: Option<int>, attemptCount: Option<int>): (view: ProblemView)
    ensures view.choices == NormalizeChoices(problem.problemType, problem.choices)
    ensures view.id == problem.id && view.problemType == problem.problemType && view.rating == problem.rating
    ensures view.userRating == userRating && view.attemptCount == attemptCount
    ensures view.promptLatex == problem.promptLatex && view.topic == problem.topic && view.tags == problem.tags
    ensures view.solutions == problem.solutions
    ensures view.subjectOrder != 0
    ensures subjectOrder.Some? && subjectOrder.value != 0 ==> view.subjectOrder == subjectOrder.value
    ensures subjectOrder.None? || subjectOrder == Some(0) ==> view.subjectOrder == 1
  {
    ProblemView(
      problem.id,
      problem.problemType,
      problem.promptLatex,
      NormalizeChoices(problem.problemType, problem.choices),
      problem.topic,
      problem.tags,
      problem.rating,
      userRating,
      attemptCount,
      problem.solutions,
      if subjectOrder.Some? && subjectOrder.value != 0 then subjectOrder.value else 1)
  }

  /** formatProblemViewFromRow(row): `?? 1` replaces only a missing order, so an order of 0 is kept. */
  function FormatProblemViewFromRow(row: ProblemRow): (view: ProblemView)
    ensures view.choices == NormalizeChoices(row.problemType, row.choices)
    ensures view.id == row.id && view.problemType == row.problemType && view.rating == row.rating
    ensures view.promptLatex == row.promptLatex && view.topic == row.topic && view.tags == row.tags
    ensures view.solutions == row.solutions
    ensures view.userRating == Some(row.userRating) && view.attemptCount == Some(row.attemptCount)
    ensures view.subjectOrder == row.subjectOrder.GetOr(1)
  {
    ProblemView(
      row.id,
      row.problemType,
      row.promptLatex,
      NormalizeChoices(row.problemType, row.choices),
      row.topic,
      row.tags,
      row.rating,
      Some(row.userRating),
      Some(row.attemptCount),
      row.solutions,
      row.subjectOrder.GetOr(1))
  }

  /** Array choices are keyed by the capital letters in order: 'A' for the first, 'B' for the second, ... */
  lemma ArrayChoiceLetters(items: seq<Json>, i: nat)
    requires i < |items| && i < 26
    ensures NormalizeChoices(Mcq, JArr(items))[i].id == ["ABCDEFGHIJKLMNOPQRSTUVWXYZ"[i]]
  {
    var id := NormalizeChoices(Mcq, JArr(items))[i].id;
    assert id == FromCharCode(65 + i);
    assert id[0] as int == 65 + i;
  }

  /** A string choice, in an array or as an object member, is its own content. */
  lemma StringChoicesPassThrough(raw: Json, i: nat)
    requires raw.JArr? || raw.JObj?
    requires raw.JArr? ==> i < |raw.items| && raw.items[i].JStr?
    requires raw.JObj? ==> i < |raw.members| && raw.members[i].1.JStr?
    ensures NormalizeChoices(Mcq, raw)[i].content == Value(if raw.JArr? then raw.items[i] else raw.members[i].1)
  {
  }

  /** The view never depends on, and so never discloses, the answer fields of the problem. */
  lemma ViewHidesAnswer(problem: Problem, correctChoice: Option<string>, correctNumeric: Json, correctExpr: Json,
                        subjectOrder: Option<int>, userRating: Option<int>, attemptCount: Option<int>)
    ensures FormatProblemView(problem.(correctChoice := correctChoice, correctNumeric := correctNumeric, correctExpr := correctExpr),
                              subjectOrder, userRating, attemptCount)
         == FormatProblemView(problem, subjectOrder, userRating, attemptCount)
  {
  }

  /** The two builders disagree on an order of 0: formatProblemView gives 1, formatProblemViewFromRow keeps 0. */
  lemma SubjectOrderZero(problem: Problem, row: ProblemRow)
    requires row.subjectOrder == Some(0)
    ensures FormatProblemView(problem, Some(0), None, None).subjectOrder == 1
    ensures FormatProblemViewFromRow(row).subjectOrder == 0
  {
  }
}
