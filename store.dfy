/**
 * The relational store behind the API routes, as one object whose tables the routes read and update
 * in place, and one method per route. A route's `$transaction` is one atomic step; a route that ends
 * in an error response leaves every table as it was.
 */
module Store {
  import opened Common
  import opened ProblemViews
  import opened Tables
  import opened PipelineSchema
  import opened ProblemInsert
  import opened Generation
  import opened Enumeration

  /** The `error.code` of a failure response; failures are modelled by status and code, not message. */
  datatype Code =
    | InvalidInput
    | Unauthorized
    | NotFound
    | Forbidden
    | AlreadySubmitted
    | InternalError
    | NoProblems
    | BadRequest
    | SyntaxError
    | ValidationError
    | Conflict
    | ExistingConflict(existing: seq<string>)
    | DatabaseRefusal
    | InvalidRequestBody
    | GenerationFailed(stage: FailStage)
    | ProcessingFailed

  datatype Response<T> = Ok(data: T) | Fail(status: int, code: Code)

  /** The members of the submit body; a member that is absent, null or of another type is None. */
  datatype SubmitBody = SubmitBody(problemId: Option<string>, chosenId: Option<string>, timeMs: Option<int>)

  datatype SubmitResult = SubmitResult(correct: bool, newRating: int, delta: int)

  datatype EnrollBody = EnrollBody(domainId: Option<string>)

  datatype EnrollResult = EnrollResult(created: nat, enrolledCount: nat)

  /** What RatingChangeSchema (not part of this model) outputs. */
  datatype RatingChangeInput = RatingChangeInput(userId: string, archetypeId: string, rating: int)

  datatype SeedResult = SeedResult(count: nat, created: seq<(string, string)>)

  /** What DomainIngestionSchema (not part of this model) outputs for one domain. */
  datatype DomainInput = DomainInput(slug: string, title: string, order: int, summary: Option<string>)

  /** What ArchetypeIngestionSchema (not part of this model) outputs for one archetype. */
  datatype ArchetypeInput = ArchetypeInput(
    slug: string,
    title: string,
    stream: Option<string>,
    order: int,
    summary: Option<string>,
    eloMin: Option<int>,
    eloMax: Option<int>)

  /** How one generation attempt ends before persistence: a validated batch, or what it threw. */
  datatype AttemptOutcome = Produced(batch: seq<GeneratedProblem>) | Threw(error: GenError)

  datatype GenerateResult = GenerateResult(insertedCount: nat, attempt: nat)

  /** How one generation attempt ends: the rows it inserted, or the error it ended in. */
  datatype AttemptEffect = Inserted(rows: seq<Problem>) | Failed(error: GenError)

  /** The subject rows the seeding transaction creates, the k-th with id ids(k); an empty summary is stored as null. */
  function SubjectRows(parsed: seq<ParsedSubject>, ids: nat -> string): (rows: seq<SubjectRec>)
    ensures |rows| == |parsed|
    ensures forall k :: 0 <= k < |rows| ==>
      rows[k] == SubjectRec(ids(k), parsed[k].slug, parsed[k].title, parsed[k].order,
                            if Present(parsed[k].summary) then parsed[k].summary else None)
  {
    seq(|parsed|, k requires 0 <= k < |parsed| =>
      SubjectRec(ids(k), parsed[k].slug, parsed[k].title, parsed[k].order,
                 if Present(parsed[k].summary) then parsed[k].summary else None))
  }

  /** `findMany({ where: { slug: { in: slugs } } })` projected to the slug: the submitted slugs already stored. */
  function ExistingSlugs(subjects: seq<SubjectRec>, slugs: seq<string>): (r: seq<string>)
    ensures forall x :: x in r <==> x in slugs && exists i :: 0 <= i < |subjects| && subjects[i].slug == x
  {
    var taken := Filter(subjects, (s: SubjectRec) => s.slug in slugs);
    var r := seq(|taken|, i requires 0 <= i < |taken| => taken[i].slug);
    assert forall x :: x in r <==> exists s :: s in taken && s.slug == x by {
      forall x ensures x in r <==> exists s :: s in taken && s.slug == x {
        if x in r {
          var i :| 0 <= i < |r| && r[i] == x;
          assert taken[i] in taken;
        }
        if exists s :: s in taken && s.slug == x {
          var s :| s in taken && s.slug == x;
          var i :| 0 <= i < |taken| && taken[i] == s;
          assert r[i] == x;
        }
      }
    }
    r
  }

  /** The domain rows the seeding loop creates, the k-th with id "dom_" + ids(k). */
  function DomainRows(inputs: seq<DomainInput>, subjectId: string, ids: nat -> string): (rows: seq<DomainRec>)
    ensures |rows| == |inputs|
    ensures forall k :: 0 <= k < |rows| ==>
      rows[k] == DomainRec("dom_" + ids(k), inputs[k].slug, inputs[k].title, inputs[k].order, inputs[k].summary, subjectId)
  {
    seq(|inputs|, k requires 0 <= k < |inputs| =>
      DomainRec("dom_" + ids(k), inputs[k].slug, inputs[k].title, inputs[k].order, inputs[k].summary, subjectId))
  }

  /** The archetype rows the seeding loop creates, the k-th with id "arch_" + ids(k); an empty stream is stored as null. */
  function ArchetypeRows(inputs: seq<ArchetypeInput>, domainId: string, ids: nat -> string): (rows: seq<ArchetypeRec>)
    ensures |rows| == |inputs|
    ensures forall k :: 0 <= k < |rows| ==>
      rows[k] == ArchetypeRec("arch_" + ids(k), inputs[k].slug, inputs[k].title,
                              if Present(inputs[k].stream) then inputs[k].stream else None,
                              inputs[k].order, inputs[k].summary, inputs[k].eloMin, inputs[k].eloMax, domainId)
  {
    seq(|inputs|, k requires 0 <= k < |inputs| =>
      ArchetypeRec("arch_" + ids(k), inputs[k].slug, inputs[k].title,
                   if Present(inputs[k].stream) then inputs[k].stream else None,
                   inputs[k].order, inputs[k].summary, inputs[k].eloMin, inputs[k].eloMax, domainId))
  }

  /** The (slug, title) pairs the subject seeding route returns, in input order. */
  function SlugTitles(rows: seq<SubjectRec>): (r: seq<(string, string)>)
    ensures |r| == |rows|
    ensures forall k :: 0 <= k < |r| ==> r[k] == (rows[k].slug, rows[k].title)
  {
    seq(|rows|, k requires 0 <= k < |rows| => (rows[k].slug, rows[k].title))
  }

  predicate SubjectExists(subjects: seq<SubjectRec>, id: string) {
    exists i :: 0 <= i < |subjects| && subjects[i].id == id
  }

  predicate DomainExists(domains: seq<DomainRec>, id: string) {
    exists i :: 0 <= i < |domains| && domains[i].id == id
  }

  /** Rows that clash cannot be made distinct by appending more rows. */
  lemma DomainsClashExtend(xs: seq<DomainRec>, ys: seq<DomainRec>)
    requires !DomainsUnique(xs)
    ensures !DomainsUnique(xs + ys)
  {
    var i, j :| 0 <= i < j < |xs| && !(xs[i].id != xs[j].id && xs[i].slug != xs[j].slug);
    assert (xs + ys)[i] == xs[i] && (xs + ys)[j] == xs[j];
  }

  lemma ArchetypesClashExtend(xs: seq<ArchetypeRec>, ys: seq<ArchetypeRec>)
    requires !ArchetypesUnique(xs)
    ensures !ArchetypesUnique(xs + ys)
  {
    var i, j :| 0 <= i < j < |xs| && !(
      && xs[i].id != xs[j].id
      && xs[i].slug != xs[j].slug
      && (xs[i].stream.Some? && xs[i].stream == xs[j].stream ==> xs[i].order != xs[j].order));
    assert (xs + ys)[i] == xs[i] && (xs + ys)[j] == xs[j];
  }

  /** Fresh ids: none is already stored and no two of the batch are the same. */
  predicate FreshIds(stored: set<string>, ids: nat -> string, n: nat) {
    && (forall k :: 0 <= k < n ==> ids(k) !in stored)
    && (forall k, l :: 0 <= k < l < n ==> ids(k) != ids(l))
  }

  /**
   * Seeding subjects that passed the schema (distinct slugs) and the existing-slug check can only be
   * refused for an id collision: with fresh ids the batch is always accepted.
   */
  lemma {:induction false} SubjectSeedingAccepted(subjects: seq<SubjectRec>, parsed: seq<ParsedSubject>, ids: nat -> string)
    requires SubjectsUnique(subjects)
    requires Distinct(Slugs(parsed))
    requires ExistingSlugs(subjects, Slugs(parsed)) == []
    requires FreshIds(set s | s in subjects :: s.id, ids, |parsed|)
    ensures SubjectsUnique(subjects + SubjectRows(parsed, ids))
  {
    var rows := SubjectRows(parsed, ids);
    var slugs := Slugs(parsed);
    forall l, i | 0 <= l < |rows| && 0 <= i < |subjects| ensures rows[l].slug != subjects[i].slug && rows[l].id != subjects[i].id {
      assert rows[l].slug == slugs[l];
      assert slugs[l] !in ExistingSlugs(subjects, slugs);
      assert subjects[i] in subjects;
    }
    var all := subjects + rows;
    assert forall i :: 0 <= i < |subjects| ==> all[i] == subjects[i];
    assert forall l :: 0 <= l < |rows| ==> all[|subjects| + l] == rows[l];
  }

  /** The slugs of a domain batch are pairwise distinct and none is stored yet. */
  predicate DomainSlugsFresh(domains: seq<DomainRec>, inputs: seq<DomainInput>) {
    && (forall k, l :: 0 <= k < l < |inputs| ==> inputs[k].slug != inputs[l].slug)
    && (forall k, i :: 0 <= k < |inputs| && 0 <= i < |domains| ==> inputs[k].slug != domains[i].slug)
  }

  /**
   * With fresh ids, the domain seeding loop gets through the whole batch exactly when the batch's
   * slugs are pairwise distinct and none is stored yet.
   */
  lemma {:induction false} DomainBatchAccepted(domains: seq<DomainRec>, inputs: seq<DomainInput>, subjectId: string, ids: nat -> string)
    requires DomainsUnique(domains)
    requires FreshIds(set d | d in domains :: d.id, (k: nat) => "dom_" + ids(k), |inputs|)
    ensures DomainsUnique(domains + DomainRows(inputs, subjectId, ids)) <==> DomainSlugsFresh(domains, inputs)
  {
    if DomainsUnique(domains + DomainRows(inputs, subjectId, ids)) {
      DomainSlugsFreshIfUnique(domains, inputs, subjectId, ids);
    }
    if DomainSlugsFresh(domains, inputs) {
      DomainsUniqueIfFresh(domains, inputs, subjectId, ids);
    }
  }

  lemma {:induction false} DomainSlugsFreshIfUnique(domains: seq<DomainRec>, inputs: seq<DomainInput>, subjectId: string, ids: nat -> string)
    requires DomainsUnique(domains + DomainRows(inputs, subjectId, ids))
    ensures DomainSlugsFresh(domains, inputs)
  {
    var rows := DomainRows(inputs, subjectId, ids);
    var all := domains + rows;
    forall k, l | 0 <= k < l < |inputs| ensures inputs[k].slug != inputs[l].slug {
      assert all[|domains| + k] == rows[k] && all[|domains| + l] == rows[l];
    }
    forall k, i | 0 <= k < |inputs| && 0 <= i < |domains| ensures inputs[k].slug != domains[i].slug {
      assert all[i] == domains[i] && all[|domains| + k] == rows[k];
    }
  }

  lemma {:induction false} DomainsUniqueIfFresh(domains: seq<DomainRec>, inputs: seq<DomainInput>, subjectId: string, ids: nat -> string)
    requires DomainsUnique(domains)
    requires FreshIds(set d | d in domains :: d.id, (k: nat) => "dom_" + ids(k), |inputs|)
    requires DomainSlugsFresh(domains, inputs)
    ensures DomainsUnique(domains + DomainRows(inputs, subjectId, ids))
  {
    var rows := DomainRows(inputs, subjectId, ids);
    var all := domains + rows;
    var idOf := (k: nat) => "dom_" + ids(k);
    forall i, j | 0 <= i < j < |all| ensures all[i].id != all[j].id && all[i].slug != all[j].slug {
      if j >= |domains| {
        var l := j - |domains|;
        assert all[j] == rows[l] && idOf(l) == rows[l].id;
        if i >= |domains| {
          assert all[i] == rows[i - |domains|] && idOf(i - |domains|) == rows[i - |domains|].id;
        } else {
          assert all[i] == domains[i];
          assert domains[i].id in (set d | d in domains :: d.id);
        }
      } else {
        assert all[i] == domains[i] && all[j] == domains[j];
      }
    }
  }

  /** The rows of an archetype batch clash with neither the stored rows nor each other on slug or on a present (stream, order). */
  predicate ArchetypeBatchFits(archetypes: seq<ArchetypeRec>, rows: seq<ArchetypeRec>) {
    && (forall k, l :: 0 <= k < l < |rows| ==> rows[k].slug != rows[l].slug)
    && (forall k, i :: 0 <= k < |rows| && 0 <= i < |archetypes| ==> rows[k].slug != archetypes[i].slug)
    && (forall k, l :: 0 <= k < l < |rows| && rows[k].stream.Some? && rows[k].stream == rows[l].stream ==> rows[k].order != rows[l].order)
    && (forall k, i :: 0 <= k < |rows| && 0 <= i < |archetypes| && rows[k].stream.Some? && rows[k].stream == archetypes[i].stream ==>
          rows[k].order != archetypes[i].order)
  }

  lemma {:induction false} ArchetypeBatchFitsIfUnique(archetypes: seq<ArchetypeRec>, rows: seq<ArchetypeRec>)
    requires ArchetypesUnique(archetypes + rows)
    ensures ArchetypeBatchFits(archetypes, rows)
  {
    var all := archetypes + rows;
    assert forall i :: 0 <= i < |archetypes| ==> all[i] == archetypes[i];
    assert forall k :: 0 <= k < |rows| ==> all[|archetypes| + k] == rows[k];
    forall k, l | 0 <= k < l < |rows| ensures rows[k].slug != rows[l].slug {
      assert all[|archetypes| + k].slug != all[|archetypes| + l].slug;
    }
    forall k, i | 0 <= k < |rows| && 0 <= i < |archetypes| ensures rows[k].slug != archetypes[i].slug {
      assert all[i].slug != all[|archetypes| + k].slug;
    }
  }

  lemma {:induction false} ArchetypesUniqueIfFits(archetypes: seq<ArchetypeRec>, inputs: seq<ArchetypeInput>, domainId: string, ids: nat -> string)
    requires ArchetypesUnique(archetypes)
    requires FreshIds(set a | a in archetypes :: a.id, (k: nat) => "arch_" + ids(k), |inputs|)
    requires ArchetypeBatchFits(archetypes, ArchetypeRows(inputs, domainId, ids))
    ensures ArchetypesUnique(archetypes + ArchetypeRows(inputs, domainId, ids))
  {
    var rows := ArchetypeRows(inputs, domainId, ids);
    var all := archetypes + rows;
    forall i, j | 0 <= i < j < |all|
      ensures && all[i].id != all[j].id
              && all[i].slug != all[j].slug
              && (all[i].stream.Some? && all[i].stream == all[j].stream ==> all[i].order != all[j].order)
    {
      if j >= |archetypes| {
        var l := j - |archetypes|;
        assert all[j] == rows[l];
        assert ((k: nat) => "arch_" + ids(k))(l) == rows[l].id;
        if i >= |archetypes| {
          assert all[i] == rows[i - |archetypes|];
          assert ((k: nat) => "arch_" + ids(k))(i - |archetypes|) == rows[i - |archetypes|].id;
        } else {
          assert all[i] == archetypes[i];
          assert archetypes[i].id in (set a | a in archetypes :: a.id);
        }
      } else {
        assert all[i] == archetypes[i] && all[j] == archetypes[j];
      }
    }
  }

  /**
   * With fresh ids, an archetype batch is accepted exactly when its slugs are new and distinct and no
   * two archetypes, stored or in the batch, share a present stream and an order.
   */
  lemma ArchetypeBatchAccepted(archetypes: seq<ArchetypeRec>, inputs: seq<ArchetypeInput>, domainId: string, ids: nat -> string)
    requires ArchetypesUnique(archetypes)
    requires FreshIds(set a | a in archetypes :: a.id, (k: nat) => "arch_" + ids(k), |inputs|)
    ensures ArchetypesUnique(archetypes + ArchetypeRows(inputs, domainId, ids)) <==> ArchetypeBatchFits(archetypes, ArchetypeRows(inputs, domainId, ids))
  {
    var rows := ArchetypeRows(inputs, domainId, ids);
    if ArchetypesUnique(archetypes + rows) {
      ArchetypeBatchFitsIfUnique(archetypes, rows);
    }
    if ArchetypeBatchFits(archetypes, rows) {
      ArchetypesUniqueIfFits(archetypes, inputs, domainId, ids);
    }
  }

  /**
   * How one generation attempt ends against the stored problems: the error it threw, the store error
   * of a refused insert (neither a ZodError nor an AiBatchError), or the rows of its batch, inserted.
   */
  function AttemptEffectOf(problems: seq<Problem>, outcome: AttemptOutcome, archetypeId: string, ids: nat -> string): (e: AttemptEffect)
    ensures outcome.Threw? ==> e == Failed(outcome.error)
    ensures outcome.Produced? ==>
      (e.Inserted? <==> outcome.batch == [] || ProblemsUnique(problems + ToCreateInputs(outcome.batch, archetypeId, ids)))
    ensures outcome.Produced? && e.Inserted? ==> e.rows == ToCreateInputs(outcome.batch, archetypeId, ids)
    ensures outcome.Produced? && e.Failed? ==> e.error == OtherError
  {
    match outcome
    case Threw(err) => Failed(err)
    case Produced(batch) =>
      var rows := ToCreateInputs(batch, archetypeId, ids);
      if batch != [] && !ProblemsUnique(problems + rows) then Failed(OtherError) else Inserted(rows)
  }

  /**
   * What the attempts loop promises, from the problems `before` it to those `after` it: a first attempt
   * that succeeds is answered with its rows kept; after a json_parse failure the second attempt decides
   * in the same way; any other failure of the first attempt, or a failure of the second, is answered
   * with the response of that error.
   */
  predicate Retried(before: seq<Problem>, archetypeId: string, outcomes: nat -> AttemptOutcome, ids: nat -> nat -> string,
                    r: Response<GenerateResult>, after: seq<Problem>) {
    var e1 := AttemptEffectOf(before, outcomes(1), archetypeId, ids(1));
    var e2 := AttemptEffectOf(before, outcomes(2), archetypeId, ids(2));
    && (e1.Inserted? ==> r == Ok(GenerateResult(|e1.rows|, 1)) && after == before + e1.rows)
    && (e1.Failed? && !ShouldRetry(e1.error, 1) ==> r == GenerateFailure(e1.error))
    && (e1.Failed? && ShouldRetry(e1.error, 1) && e2.Inserted? ==>
          r == Ok(GenerateResult(|e2.rows|, 2)) && after == before + e2.rows)
    && (e1.Failed? && ShouldRetry(e1.error, 1) && e2.Failed? ==> r == GenerateFailure(e2.error))
  }

  /** The response built from the last generation error. */
  function GenerateFailure(e: GenError): (r: Response<GenerateResult>)
    ensures r == Fail(FailureResponse(e).0, GenerationFailed(FailureResponse(e).1))
  {
    var (status, stage) := FailureResponse(e);
    Fail(status, GenerationFailed(stage))
  }

  // ---------------------------------------------------------------- enumeration queries

  /** How many rows each enumeration query fetches. */
  const FetchLimit: nat := 20

  function MatchingSubjects(subjects: seq<SubjectRec>, query: string): (r: seq<SubjectRec>)
    ensures |r| <= FetchLimit && r == Take(Filter(subjects, (s: SubjectRec) => TitleMatches(s.title, query)), FetchLimit)
    ensures forall s :: s in r ==> s in subjects && TitleMatches(s.title, query)
  {
    Take(Filter(subjects, (s: SubjectRec) => TitleMatches(s.title, query)), FetchLimit)
  }

  function MatchingDomains(domains: seq<DomainRec>, query: string): (r: seq<DomainRec>)
    ensures |r| <= FetchLimit && r == Take(Filter(domains, (d: DomainRec) => TitleMatches(d.title, query)), FetchLimit)
    ensures forall d :: d in r ==> d in domains && TitleMatches(d.title, query)
  {
    Take(Filter(domains, (d: DomainRec) => TitleMatches(d.title, query)), FetchLimit)
  }

  function MatchingArchetypes(archetypes: seq<ArchetypeRec>, query: string): (r: seq<ArchetypeRec>)
    ensures |r| <= FetchLimit && r == Take(Filter(archetypes, (a: ArchetypeRec) => TitleMatches(a.title, query)), FetchLimit)
    ensures forall a :: a in r ==> a in archetypes && TitleMatches(a.title, query)
  {
    Take(Filter(archetypes, (a: ArchetypeRec) => TitleMatches(a.title, query)), FetchLimit)
  }

  /** `_count: { select: { Problem: true } }`: the number of problems linked to the archetype. */
  function ProblemCount(problems: seq<Problem>, archetypeId: string): (n: nat)
    ensures n <= |problems|
    ensures n == 0 <==> forall p :: p in problems ==> p.archetypeId != Some(archetypeId)
  {
    |Filter(problems, (p: Problem) => p.archetypeId == Some(archetypeId))|
  }

  function DomainsOfSubject(domains: seq<DomainRec>, subjectId: string): (r: seq<DomainRec>)
    ensures forall d :: d in r <==> d in domains && d.subjectId == subjectId
  {
    Filter(domains, (d: DomainRec) => d.subjectId == subjectId)
  }

  /** The problem count of each archetype, in table order. */
  function ArchetypeProblemCounts(archs: seq<ArchetypeRec>, problems: seq<Problem>): (r: seq<nat>)
    ensures |r| == |archs|
    ensures forall i :: 0 <= i < |r| ==> r[i] == ProblemCount(problems, archs[i].id)
  {
    seq(|archs|, i requires 0 <= i < |archs| => ProblemCount(problems, archs[i].id))
  }

  /** For each domain, the problem counts of its archetypes. */
  function DomainProblemCounts(doms: seq<DomainRec>, archetypes: seq<ArchetypeRec>, problems: seq<Problem>): (r: seq<seq<nat>>)
    ensures |r| == |doms|
    ensures forall i :: 0 <= i < |r| ==> r[i] == ArchetypeProblemCounts(ArchetypesOfDomain(archetypes, doms[i].id), problems)
  {
    seq(|doms|, i requires 0 <= i < |doms| => ArchetypeProblemCounts(ArchetypesOfDomain(archetypes, doms[i].id), problems))
  }

  /** The rows fetchSubjectCounts reads: each matching subject with the counts below it. */
  function SubjectCountRows(matching: seq<SubjectRec>, domains: seq<DomainRec>, archetypes: seq<ArchetypeRec>, problems: seq<Problem>): (r: seq<SubjectCountRow>)
    ensures |r| == |matching|
    ensures forall i :: 0 <= i < |r| ==>
      r[i] == SubjectCountRow(matching[i].id, matching[i].title, DomainProblemCounts(DomainsOfSubject(domains, matching[i].id), archetypes, problems))
  {
    seq(|matching|, i requires 0 <= i < |matching| =>
      SubjectCountRow(matching[i].id, matching[i].title, DomainProblemCounts(DomainsOfSubject(domains, matching[i].id), archetypes, problems)))
  }

  function DomainCountRows(matching: seq<DomainRec>, archetypes: seq<ArchetypeRec>, problems: seq<Problem>): (r: seq<DomainCountRow>)
    ensures |r| == |matching|
    ensures forall i :: 0 <= i < |r| ==>
      r[i] == DomainCountRow(matching[i].id, matching[i].title, ArchetypeProblemCounts(ArchetypesOfDomain(archetypes, matching[i].id), problems))
  {
    seq(|matching|, i requires 0 <= i < |matching| =>
      DomainCountRow(matching[i].id, matching[i].title, ArchetypeProblemCounts(ArchetypesOfDomain(archetypes, matching[i].id), problems)))
  }

  function ArchetypeCountRows(matching: seq<ArchetypeRec>, problems: seq<Problem>): (r: seq<ArchetypeCountRow>)
    ensures |r| == |matching|
    ensures forall i :: 0 <= i < |r| ==> r[i] == ArchetypeCountRow(matching[i].id, matching[i].title, ProblemCount(problems, matching[i].id))
  {
    seq(|matching|, i requires 0 <= i < |matching| => ArchetypeCountRow(matching[i].id, matching[i].title, ProblemCount(problems, matching[i].id)))
  }

  class Database {
    var subjects: seq<SubjectRec>
    var domains: seq<DomainRec>
    var archetypes: seq<ArchetypeRec>
    var problems: seq<Problem>
    var standings: map<StandingKey, Standing>
    var attempts: seq<Attempt>
    var events: seq<RatingEvent>

    /**
     * The table constraints (unique ids and slugs, unique (stream, order), one attempt per user and
     * problem) and what the routes keep true together: every event closes, every attempt belongs to a
     * standing, and each standing's attempt count is the number of its attempts.
     */
    ghost predicate Valid()
      reads this
    {
      Consistent(subjects, domains, archetypes, problems, standings, attempts, events)
    }

    constructor ()
      ensures Valid()
      ensures subjects == [] && domains == [] && archetypes == [] && problems == []
      ensures standings == map[] && attempts == [] && events == []
    {
      subjects := [];
      domains := [];
      archetypes := [];
      problems := [];
      standings := map[];
      attempts := [];
      events := [];
    }

    // ------------------------------------------------------------ play/submit

    /**
     * POST /api/play/submit. The checks run in this order, each ending the request untouched: a body
     * that cannot be read, a missing problemId or chosenId, no session, a missing problem or one without
     * an archetype, no standing, an attempt already recorded. Then the attempt, its event and the new
     * standing are written together.
     */
    method Submit(body: Option<SubmitBody>, session: Option<string>) returns (r: Response<SubmitResult>)
      requires Valid()
      modifies this
      ensures Valid()
      ensures r.Fail? ==> unchanged(this)
      ensures body.None? ==> r == Fail(500, InternalError)
      ensures body.Some? && !(Present(body.value.problemId) && Present(body.value.chosenId)) ==> r == Fail(400, InvalidInput)
      ensures body.Some? && Present(body.value.problemId) && Present(body.value.chosenId) ==>
        var pid := body.value.problemId.value;
        var problem := FindProblem(old(problems), pid);
        && (!Present(session) ==> r == Fail(401, Unauthorized))
        && (Present(session) && (problem.None? || !Present(problem.value.archetypeId)) ==> r == Fail(404, NotFound))
        && (Present(session) && problem.Some? && Present(problem.value.archetypeId) ==>
              var key := (session.value, problem.value.archetypeId.value);
              && (key !in old(standings) ==> r == Fail(403, Forbidden))
              && (key in old(standings) && HasAttempt(old(attempts), session.value, pid) ==> r == Fail(409, AlreadySubmitted))
              && (key in old(standings) && !HasAttempt(old(attempts), session.value, pid) ==>
                    var c := Score(session.value, problem.value, body.value.chosenId.value, body.value.timeMs, old(standings)[key]);
                    && r == Ok(SubmitResult(c.attempt.correct, c.standing.rating, c.event.delta))
                    && attempts == old(attempts) + [c.attempt]
                    && events == old(events) + [c.event]
                    && standings == old(standings)[key := c.standing]
                    && subjects == old(subjects) && domains == old(domains)
                    && archetypes == old(archetypes) && problems == old(problems)))
    {
      if body.None? {
        return Fail(500, InternalError);
      }
      var b := body.value;
      if !Present(b.problemId) || !Present(b.chosenId) {
        return Fail(400, InvalidInput);
      }
      if !Present(session) {
        return Fail(401, Unauthorized);
      }
      var userId := session.value;
      var problemId := b.problemId.value;
      var problem := FindProblem(problems, problemId);
      if problem.None? || !Present(problem.value.archetypeId) {
        return Fail(404, NotFound);
      }
      var p := problem.value;
      var key := (userId, p.archetypeId.value);
      if key !in standings {
        return Fail(403, Forbidden);
      }
      if HasAttempt(attempts, userId, problemId) {
        return Fail(409, AlreadySubmitted);
      }
      var c := Score(userId, p, b.chosenId.value, b.timeMs, standings[key]);
      Record(c, key);
      r := Ok(SubmitResult(c.attempt.correct, c.standing.rating, c.event.delta));
    }

    /** The transaction of the submit route: the attempt, its rating event and the standing update together. */
    method Record(c: Commit, key: StandingKey)
      requires Valid()
      requires key in standings && c.attempt.userId == key.0 && ArchetypeOf(problems, c.attempt.problemId) == Some(key.1)
      requires !HasAttempt(attempts, key.0, c.attempt.problemId)
      requires c.standing.attemptCount == standings[key].attemptCount + 1
      requires c.event.before + c.event.delta == c.event.after
      modifies this
      ensures Valid()
      ensures attempts == old(attempts) + [c.attempt] && events == old(events) + [c.event]
      ensures standings == old(standings)[key := c.standing]
      ensures subjects == old(subjects) && domains == old(domains) && archetypes == old(archetypes) && problems == old(problems)
    {
      RecordPreserves(attempts, problems, standings, archetypes, events, c, key);
      assert Consistent(subjects, domains, archetypes, problems, standings[key := c.standing], attempts + [c.attempt], events + [c.event]);
      attempts := attempts + [c.attempt];
      events := events + [c.event];
      standings := standings[key := c.standing];
    }

    // ------------------------------------------------------------ play/problem

    /**
     * GET /api/play/problem, with `roll` the value Math.random() drew. The archetype is resolved before
     * the session is looked at; then a problem within 200 of the learner's rating is drawn from the ten
     * the band query fetches, or else the archetype's first problem of any rating. Nothing is written.
     */
    method SelectProblem(archetypeSlug: Option<string>, session: Option<string>, roll: real) returns (r: Response<ProblemView>)
      requires 0.0 <= roll < 1.0
      ensures !Present(archetypeSlug) ==> r == Fail(400, InvalidInput)
      ensures Present(archetypeSlug) ==>
        var a := FindArchetypeBySlug(archetypes, archetypeSlug.value);
        && (a.None? ==> r == Fail(404, NotFound))
        && (a.Some? && !Present(session) ==> r == Fail(401, Unauthorized))
        && (a.Some? && Present(session) && (session.value, a.value.id) !in standings ==> r == Fail(403, Forbidden))
        && (a.Some? && Present(session) && (session.value, a.value.id) in standings ==>
              var rating := standings[(session.value, a.value.id)].rating;
              var candidates := BandCandidates(problems, a.value.id, rating);
              var first := FirstOfArchetype(problems, a.value.id);
              && (candidates != [] ==> r == Ok(FormatProblemView(Pick(candidates, roll), None, Some(rating), None)))
              && (candidates == [] && first.Some? ==> r == Ok(FormatProblemView(first.value, None, Some(rating), None)))
              && (candidates == [] && first.None? ==> r == Fail(404, NoProblems)))
    {
      if !Present(archetypeSlug) {
        return Fail(400, InvalidInput);
      }
      var archetype := FindArchetypeBySlug(archetypes, archetypeSlug.value);
      if archetype.None? {
        return Fail(404, NotFound);
      }
      if !Present(session) {
        return Fail(401, Unauthorized);
      }
      var key := (session.value, archetype.value.id);
      if key !in standings {
        return Fail(403, Forbidden);
      }
      var userRating := standings[key].rating;
      var candidates := BandCandidates(problems, archetype.value.id, userRating);
      var selected := if candidates != [] then Some(Pick(candidates, roll)) else FirstOfArchetype(problems, archetype.value.id);
      if selected.None? {
        return Fail(404, NoProblems);
      }
      r := Ok(FormatProblemView(selected.value, None, Some(userRating), None));
    }

    // ------------------------------------------------------------ worlds/enroll

    /**
     * POST /api/worlds/enroll. After the session, body and domain checks, a standing at rating 200 is
     * created for each of the domain's archetypes the user has none for; existing standings are kept.
     */
    method Enroll(session: Option<string>, body: Option<EnrollBody>) returns (r: Response<EnrollResult>)
      requires Valid()
      modifies this
      ensures Valid()
      ensures r.Fail? ==> unchanged(this)
      ensures !Present(session) ==> r == Fail(401, Unauthorized)
      ensures Present(session) && body.None? ==> r == Fail(500, InternalError)
      ensures Present(session) && body.Some? && !Present(body.value.domainId) ==> r == Fail(400, BadRequest)
      ensures Present(session) && body.Some? && Present(body.value.domainId) ==>
        var archs := ArchetypesOfDomain(old(archetypes), body.value.domainId.value);
        var created := ToCreate(archs, old(standings), session.value);
        && (archs == [] ==> r == Fail(404, NotFound))
        && (archs != [] ==>
              && r == Ok(EnrollResult(|created|, |archs|))
              && standings == old(standings) + NewStandings(session.value, created)
              && (forall a :: a in archs ==> (session.value, a.id) in standings)
              && (forall k :: k in old(standings) ==> k in standings && standings[k] == old(standings)[k])
              && subjects == old(subjects) && domains == old(domains) && archetypes == old(archetypes)
              && problems == old(problems) && attempts == old(attempts) && events == old(events))
    {
      if !Present(session) {
        return Fail(401, Unauthorized);
      }
      if body.None? {
        return Fail(500, InternalError);
      }
      if !Present(body.value.domainId) {
        return Fail(400, BadRequest);
      }
      var userId := session.value;
      var archs := ArchetypesOfDomain(archetypes, body.value.domainId.value);
      if archs == [] {
        return Fail(404, NotFound);
      }
      var created := AddStandings(userId, archs);
      r := Ok(EnrollResult(created, |archs|));
    }

    /** The createMany of enrolment: standings for the given archetypes the user has none for. */
    method AddStandings(userId: string, archs: seq<ArchetypeRec>) returns (created: nat)
      requires Valid()
      requires forall a :: a in archs ==> a in archetypes
      modifies this
      ensures Valid()
      ensures created == |ToCreate(archs, old(standings), userId)|
      ensures standings == old(standings) + NewStandings(userId, ToCreate(archs, old(standings), userId))
      ensures forall a :: a in archs ==> (userId, a.id) in standings
      ensures forall k :: k in old(standings) ==> k in standings && standings[k] == old(standings)[k]
      ensures subjects == old(subjects) && domains == old(domains) && archetypes == old(archetypes)
      ensures problems == old(problems) && attempts == old(attempts) && events == old(events)
    {
      var toCreate := ToCreate(archs, standings, userId);
      var after := standings + NewStandings(userId, toCreate);
      EnrollStep(subjects, domains, archetypes, problems, standings, attempts, events, archs, userId);
      standings := after;
      created := |toCreate|;
    }

    // ------------------------------------------------------------ pipeline/rating-change

    /**
     * POST /api/pipeline/rating-change, with `schema` standing for RatingChangeSchema.safeParse. The
     * standing takes the requested rating and a manual-adjustment event is appended, in one transaction.
     */
    method RatingChange(body: Option<Json>, schema: Json -> Option<RatingChangeInput>) returns (r: Response<Standing>)
      requires Valid()
      modifies this
      ensures Valid()
      ensures r.Fail? ==> unchanged(this)
      ensures body.None? ==> r == Fail(400, SyntaxError)
      ensures body.Some? && schema(body.value).None? ==> r == Fail(400, ValidationError)
      ensures body.Some? && schema(body.value).Some? ==>
        var input := schema(body.value).value;
        var key := (input.userId, input.archetypeId);
        && (key !in old(standings) ==> r == Fail(404, NotFound))
        && (key in old(standings) ==>
              var change := ManualAdjustment(input.userId, old(standings)[key], input.rating);
              && r == Ok(change.0)
              && standings == old(standings)[key := change.0]
              && events == old(events) + [change.1]
              && subjects == old(subjects) && domains == old(domains) && archetypes == old(archetypes)
              && problems == old(problems) && attempts == old(attempts))
    {
      if body.None? {
        return Fail(400, SyntaxError);
      }
      var parsed := schema(body.value);
      if parsed.None? {
        return Fail(400, ValidationError);
      }
      var input := parsed.value;
      var key := (input.userId, input.archetypeId);
      if key !in standings {
        return Fail(404, NotFound);
      }
      var change := ManualAdjustment(input.userId, standings[key], input.rating);
      Adjust(key, change.0, change.1);
      r := Ok(change.0);
    }

    /** The transaction of the rating-change route: the standing update and its event together. */
    method Adjust(key: StandingKey, standing: Standing, event: RatingEvent)
      requires Valid()
      requires key in standings && standing.attemptCount == standings[key].attemptCount
      requires event.before + event.delta == event.after
      modifies this
      ensures Valid()
      ensures standings == old(standings)[key := standing] && events == old(events) + [event]
      ensures subjects == old(subjects) && domains == old(domains) && archetypes == old(archetypes)
      ensures problems == old(problems) && attempts == old(attempts)
    {
      AdjustPreserves(subjects, domains, archetypes, problems, standings, attempts, events, key, standing, event);
      standings := standings[key := standing];
      events := events + [event];
    }

    // ------------------------------------------------------------ play/validate-prefetch

    /**
     * GET /api/play/validate-prefetch: the correct choice of a problem, disclosed only to a user with a
     * standing for the problem's archetype; a problem without an archetype is looked up under "".
     */
    function ValidatePrefetch(problemId: Option<string>, session: Option<string>): (r: Response<Option<string>>)
      reads this
      ensures !Present(problemId) ==> r == Fail(400, InvalidInput)
      ensures Present(problemId) && !Present(session) ==> r == Fail(401, Unauthorized)
      ensures Present(problemId) && Present(session) ==>
        var problem := FindProblem(problems, problemId.value);
        && (problem.None? ==> r == Fail(404, NotFound))
        && (problem.Some? ==>
              var key := (session.value, problem.value.archetypeId.GetOr(""));
              && (key !in standings ==> r == Fail(403, Forbidden))
              && (key in standings ==> r == Ok(problem.value.correctChoice)))
      ensures Valid() && Present(problemId) && Present(session) && r.Ok? ==>
        Present(FindProblem(problems, problemId.value).value.archetypeId)
    {
      if !Present(problemId) then Fail(400, InvalidInput)
      else if !Present(session) then Fail(401, Unauthorized)
      else
        var problem := FindProblem(problems, problemId.value);
        if problem.None? then Fail(404, NotFound)
        else
          var key := (session.value, problem.value.archetypeId.GetOr(""));
          if key !in standings then
            Fail(403, Forbidden)
          else
            assert Valid() ==> key.1 != "" by {
              if Valid() {
                var i :| 0 <= i < |archetypes| && archetypes[i].id == key.1;
              }
            }
            Ok(problem.value.correctChoice)
    }

    // ------------------------------------------------------------ pipeline/subjects

    /**
     * POST /api/pipeline/subjects. After the JSON and schema checks, a batch naming a stored slug is
     * refused with 409 and the stored slugs; otherwise the whole batch is created in one transaction,
     * which the store refuses (500) only when a row id is taken.
     */
    method SeedSubjects(body: Option<Json>, ids: nat -> string) returns (r: Response<SeedResult>)
      requires Valid()
      modifies this
      ensures Valid()
      ensures r.Fail? ==> unchanged(this)
      ensures body.None? ==> r == Fail(400, SyntaxError)
      ensures body.Some? && ParseIngestion(body.value).None? ==> r == Fail(400, ValidationError)
      ensures body.Some? && ParseIngestion(body.value).Some? ==>
        var parsed := ParseIngestion(body.value).value;
        var existing := ExistingSlugs(old(subjects), Slugs(parsed));
        var rows := SubjectRows(parsed, ids);
        && (existing != [] ==> r == Fail(409, ExistingConflict(existing)))
        && (existing == [] && !SubjectsUnique(old(subjects) + rows) ==> r == Fail(500, DatabaseRefusal))
        && (existing == [] && SubjectsUnique(old(subjects) + rows) ==>
              && r == Ok(SeedResult(|parsed|, SlugTitles(rows)))
              && subjects == old(subjects) + rows
              && domains == old(domains) && archetypes == old(archetypes) && problems == old(problems)
              && standings == old(standings) && attempts == old(attempts) && events == old(events))
    {
      if body.None? {
        return Fail(400, SyntaxError);
      }
      var parsed := ParseIngestion(body.value);
      if parsed.None? {
        return Fail(400, ValidationError);
      }
      var existing := ExistingSlugs(subjects, Slugs(parsed.value));
      if existing != [] {
        return Fail(409, ExistingConflict(existing));
      }
      var rows := SubjectRows(parsed.value, ids);
      if !SubjectsUnique(subjects + rows) {
        return Fail(500, DatabaseRefusal);
      }
      subjects := subjects + rows;
      r := Ok(SeedResult(|rows|, SlugTitles(rows)));
    }

    // ------------------------------------------------------------ pipeline/domains

    /**
     * POST /api/pipeline/domains, with `schema` standing for DomainIngestionSchema.safeParse. The loop
     * runs inside one transaction over a working copy of the table: a slug already there (stored, or
     * created earlier in the batch) or a taken id ends it with 409 and nothing is kept.
     */
    method SeedDomains(body: Option<Json>, schema: Option<Json> -> Option<seq<DomainInput>>, ids: nat -> string) returns (r: Response<nat>)
      requires Valid()
      modifies this
      ensures Valid()
      ensures r.Fail? ==> unchanged(this)
      ensures body.None? ==> r == Fail(400, SyntaxError)
      ensures body == Some(JNull) ==> r == Fail(500, InternalError)
      ensures body.Some? && body.value != JNull ==>
        var sid := Member(body.value, "subjectId");
        && (sid.None? || !Truthy(sid.value) ==> r == Fail(400, ValidationError))
        && (sid.Some? && Truthy(sid.value) && !sid.value.JStr? ==> r == Fail(500, InternalError))
        && (sid.Some? && sid.value.JStr? && sid.value.s != "" ==>
              var inputs := schema(Member(body.value, "domains"));
              && (!SubjectExists(old(subjects), sid.value.s) ==> r == Fail(404, NotFound))
              && (SubjectExists(old(subjects), sid.value.s) && inputs.None? ==> r == Fail(400, ValidationError))
              && (SubjectExists(old(subjects), sid.value.s) && inputs.Some? ==>
                    var rows := DomainRows(inputs.value, sid.value.s, ids);
                    && (!DomainsUnique(old(domains) + rows) ==> r == Fail(409, Conflict))
                    && (DomainsUnique(old(domains) + rows) ==>
                          && r == Ok(|rows|)
                          && domains == old(domains) + rows
                          && subjects == old(subjects) && archetypes == old(archetypes) && problems == old(problems)
                          && standings == old(standings) && attempts == old(attempts) && events == old(events))))
    {
      if body.None? {
        return Fail(400, SyntaxError);
      }
      if body.value == JNull {
        return Fail(500, InternalError);
      }
      var sid := Member(body.value, "subjectId");
      if sid.None? || !Truthy(sid.value) {
        return Fail(400, ValidationError);
      }
      if !sid.value.JStr? {
        return Fail(500, InternalError);
      }
      var subjectId := sid.value.s;
      if !SubjectExists(subjects, subjectId) {
        return Fail(404, NotFound);
      }
      var inputs := schema(Member(body.value, "domains"));
      if inputs.None? {
        return Fail(400, ValidationError);
      }
      var rows := DomainRows(inputs.value, subjectId, ids);
      var ok := AddDomains(rows);
      if !ok {
        return Fail(409, Conflict);
      }
      r := Ok(|rows|);
    }

    /**
     * The transaction of the domain seeding loop: each row is checked against the rows before it,
     * stored or created earlier, and the first clash rolls the whole batch back.
     */
    method AddDomains(rows: seq<DomainRec>) returns (ok: bool)
      requires Valid()
      modifies this
      ensures Valid()
      ensures ok <==> DomainsUnique(old(domains) + rows)
      ensures ok ==> domains == old(domains) + rows
      ensures ok ==> (subjects == old(subjects) && archetypes == old(archetypes) && problems == old(problems)
                   && standings == old(standings) && attempts == old(attempts) && events == old(events))
      ensures !ok ==> unchanged(this)
    {
      var working := domains;
      var count := 0;
      while count < |rows|
        invariant 0 <= count <= |rows|
        invariant working == domains + rows[..count]
        invariant DomainsUnique(working)
      {
        var row := rows[count];
        if exists i :: 0 <= i < |working| && (working[i].slug == row.slug || working[i].id == row.id) {
          var i :| 0 <= i < |working| && (working[i].slug == row.slug || working[i].id == row.id);
          assert (working + [row])[i] == working[i] && (working + [row])[|working|] == row;
          assert domains + rows == (working + [row]) + rows[count + 1..] by {
            assert rows == rows[..count + 1] + rows[count + 1..];
            assert rows[..count + 1] == rows[..count] + [row];
          }
          DomainsClashExtend(working + [row], rows[count + 1..]);
          return false;
        }
        assert rows[..count + 1] == rows[..count] + [row];
        working := working + [row];
        count := count + 1;
      }
      assert rows[..count] == rows;
      domains := working;
      ok := true;
    }

    // ------------------------------------------------------------ pipeline/archetypes

    /**
     * POST /api/pipeline/archetypes, with `schema` standing for ArchetypeIngestionSchema.safeParse. The
     * transactional loop refuses, with 409 and nothing kept, a slug already there, a present stream
     * whose order is taken in that stream, or a taken id.
     */
    method SeedArchetypes(body: Option<Json>, schema: Option<Json> -> Option<seq<ArchetypeInput>>, ids: nat -> string) returns (r: Response<nat>)
      requires Valid()
      modifies this
      ensures Valid()
      ensures r.Fail? ==> unchanged(this)
      ensures body.None? ==> r == Fail(400, SyntaxError)
      ensures body == Some(JNull) ==> r == Fail(500, InternalError)
      ensures body.Some? && body.value != JNull ==>
        var did := Member(body.value, "domainId");
        && (did.None? || !Truthy(did.value) ==> r == Fail(400, ValidationError))
        && (did.Some? && Truthy(did.value) && !did.value.JStr? ==> r == Fail(500, InternalError))
        && (did.Some? && did.value.JStr? && did.value.s != "" ==>
              var inputs := schema(Member(body.value, "archetypes"));
              && (!DomainExists(old(domains), did.value.s) ==> r == Fail(404, NotFound))
              && (DomainExists(old(domains), did.value.s) && inputs.None? ==> r == Fail(400, ValidationError))
              && (DomainExists(old(domains), did.value.s) && inputs.Some? ==>
                    var rows := ArchetypeRows(inputs.value, did.value.s, ids);
                    && (!ArchetypesUnique(old(archetypes) + rows) ==> r == Fail(409, Conflict))
                    && (ArchetypesUnique(old(archetypes) + rows) ==>
                          && r == Ok(|rows|)
                          && archetypes == old(archetypes) + rows
                          && subjects == old(subjects) && domains == old(domains) && problems == old(problems)
                          && standings == old(standings) && attempts == old(attempts) && events == old(events))))
    {
      if body.None? {
        return Fail(400, SyntaxError);
      }
      if body.value == JNull {
        return Fail(500, InternalError);
      }
      var did := Member(body.value, "domainId");
      if did.None? || !Truthy(did.value) {
        return Fail(400, ValidationError);
      }
      if !did.value.JStr? {
        return Fail(500, InternalError);
      }
      var domainId := did.value.s;
      if !DomainExists(domains, domainId) {
        return Fail(404, NotFound);
      }
      var inputs := schema(Member(body.value, "archetypes"));
      if inputs.None? {
        return Fail(400, ValidationError);
      }
      var rows := ArchetypeRows(inputs.value, domainId, ids);
      assert forall k :: 0 <= k < |rows| ==> rows[k].id != "" by {
        forall k | 0 <= k < |rows| ensures rows[k].id != "" {
          assert rows[k].id[0] == 'a';
        }
      }
      var ok := AddArchetypes(rows);
      if !ok {
        return Fail(409, Conflict);
      }
      r := Ok(|rows|);
    }

    /**
     * The transaction of the archetype seeding loop: each row's slug, its (stream, order) when it has a
     * stream, and its id are checked against the rows before it; the first clash rolls the batch back.
     */
    method AddArchetypes(rows: seq<ArchetypeRec>) returns (ok: bool)
      requires Valid()
      requires forall k :: 0 <= k < |rows| ==> rows[k].id != ""
      modifies this
      ensures Valid()
      ensures ok <==> ArchetypesUnique(old(archetypes) + rows)
      ensures ok ==> archetypes == old(archetypes) + rows
      ensures ok ==> (subjects == old(subjects) && domains == old(domains) && problems == old(problems)
                   && standings == old(standings) && attempts == old(attempts) && events == old(events))
      ensures !ok ==> unchanged(this)
    {
      var working := archetypes;
      var count := 0;
      while count < |rows|
        invariant 0 <= count <= |rows|
        invariant working == archetypes + rows[..count]
        invariant ArchetypesUnique(working)
      {
        var row := rows[count];
        var slugTaken := exists i :: 0 <= i < |working| && working[i].slug == row.slug;
        var orderTaken := row.stream.Some? && exists i :: 0 <= i < |working| && working[i].stream == row.stream && working[i].order == row.order;
        var idTaken := exists i :: 0 <= i < |working| && working[i].id == row.id;
        if slugTaken || orderTaken || idTaken {
          ArchetypeClash(working, row, rows, count);
          return false;
        }
        assert rows[..count + 1] == rows[..count] + [row];
        working := working + [row];
        count := count + 1;
      }
      assert rows[..count] == rows;
      assert StandingsLinked(standings, working) by {
        forall k | k in standings ensures exists i :: 0 <= i < |working| && working[i].id == k.1 {
          var i :| 0 <= i < |archetypes| && archetypes[i].id == k.1;
          assert working[i] == archetypes[i];
        }
      }
      archetypes := working;
      ok := true;
    }

    /** A clash of the next row with the working table rules out the whole batch. */
    lemma ArchetypeClash(working: seq<ArchetypeRec>, row: ArchetypeRec, rows: seq<ArchetypeRec>, count: nat)
      requires count < |rows| && row == rows[count] && working == archetypes + rows[..count]
      requires || (exists i :: 0 <= i < |working| && working[i].slug == row.slug)
               || (row.stream.Some? && exists i :: 0 <= i < |working| && working[i].stream == row.stream && working[i].order == row.order)
               || (exists i :: 0 <= i < |working| && working[i].id == row.id)
      ensures !ArchetypesUnique(archetypes + rows)
    {
      var i :| 0 <= i < |working| && (working[i].slug == row.slug || working[i].id == row.id
        || (row.stream.Some? && working[i].stream == row.stream && working[i].order == row.order));
      assert (working + [row])[i] == working[i] && (working + [row])[|working|] == row;
      assert archetypes + rows == (working + [row]) + rows[count + 1..] by {
        assert rows == rows[..count + 1] + rows[count + 1..];
        assert rows[..count + 1] == rows[..count] + [row];
      }
      ArchetypesClashExtend(working + [row], rows[count + 1..]);
    }

    // ------------------------------------------------------------ insertGeneratedProblems

    /**
     * insertGeneratedProblems: an empty batch inserts nothing; otherwise one row per problem, in order,
     * in one createMany that the store refuses (None) when an id is taken.
     */
    method InsertGeneratedProblems(batch: seq<GeneratedProblem>, archetypeId: string, ids: nat -> string) returns (inserted: Option<nat>)
      requires Valid()
      modifies this
      ensures Valid()
      ensures inserted.None? ==> unchanged(this)
      ensures batch == [] ==> inserted == Some(0) && unchanged(this)
      ensures batch != [] ==>
        var rows := ToCreateInputs(batch, archetypeId, ids);
        && (!ProblemsUnique(old(problems) + rows) ==> inserted.None?)
        && (ProblemsUnique(old(problems) + rows) ==>
              && inserted == Some(|batch|)
              && problems == old(problems) + rows
              && subjects == old(subjects) && domains == old(domains) && archetypes == old(archetypes)
              && standings == old(standings) && attempts == old(attempts) && events == old(events))
    {
      if batch == [] {
        return Some(0);
      }
      var rows := ToCreateInputs(batch, archetypeId, ids);
      if !ProblemsUnique(problems + rows) {
        return None;
      }
      AppendProblemsPreserves(attempts, problems, rows, standings);
      problems := problems + rows;
      inserted := Some(|rows|);
    }

    // ------------------------------------------------------------ pipeline/generate

    /**
     * POST /api/pipeline/generate, with `outcomes(n)` what the prompt, model and batch validation of
     * attempt n produce and `ids(n)` the ids drawn for its rows. At most two attempts are made, the
     * second only after a json_parse failure of the first; the last failure decides the response.
     */
    method Generate(body: Option<Json>, outcomes: nat -> AttemptOutcome, ids: nat -> nat -> string) returns (r: Response<GenerateResult>)
      requires Valid()
      modifies this
      ensures Valid()
      ensures r.Fail? ==> unchanged(this)
      ensures body.None? ==> r == Fail(500, ProcessingFailed)
      ensures body.Some? && ParseGenerateBody(body.value).None? ==> r == Fail(400, InvalidRequestBody)
      ensures body.Some? && ParseGenerateBody(body.value).Some? ==>
        Retried(old(problems), ParseGenerateBody(body.value).value.archetypeId, outcomes, ids, r, problems)
      ensures r.Ok? ==>
        && 1 <= r.data.attempt <= MaxAttempts
        && subjects == old(subjects) && domains == old(domains) && archetypes == old(archetypes)
        && standings == old(standings) && attempts == old(attempts) && events == old(events)
    {
      if body.None? {
        return Fail(500, ProcessingFailed);
      }
      var parsed := ParseGenerateBody(body.value);
      if parsed.None? {
        return Fail(400, InvalidRequestBody);
      }
      r := RetryGeneration(parsed.value.archetypeId, outcomes, ids);
    }

    /** The attempts loop of the generation route. */
    method RetryGeneration(archetypeId: string, outcomes: nat -> AttemptOutcome, ids: nat -> nat -> string) returns (r: Response<GenerateResult>)
      requires Valid()
      modifies this
      ensures Valid()
      ensures r.Fail? ==> unchanged(this)
      ensures Retried(old(problems), archetypeId, outcomes, ids, r, problems)
      ensures r.Ok? ==>
        && 1 <= r.data.attempt <= MaxAttempts
        && subjects == old(subjects) && domains == old(domains) && archetypes == old(archetypes)
        && standings == old(standings) && attempts == old(attempts) && events == old(events)
    {
      var attempt: nat := 0;
      var lastError := OtherError;
      while attempt < MaxAttempts
        invariant Valid() && unchanged(this)
        invariant attempt == 0 || (attempt == 1 && AttemptEffectOf(problems, outcomes(1), archetypeId, ids(1)) == Failed(AiBatch(JsonParse))
                                   && lastError == AiBatch(JsonParse))
        decreases MaxAttempts - attempt
      {
        attempt := attempt + 1;
        var effect := RunAttempt(outcomes(attempt), archetypeId, ids(attempt));
        if effect.Inserted? {
          return Ok(GenerateResult(|effect.rows|, attempt));
        }
        lastError := effect.error;
        if ShouldRetry(lastError, attempt) {
          continue;
        }
        break;
      }
      r := GenerateFailure(lastError);
    }

    /** One pass through the try block of the generation loop: the outcome, then the insertion of its batch. */
    method RunAttempt(outcome: AttemptOutcome, archetypeId: string, ids: nat -> string) returns (effect: AttemptEffect)
      requires Valid()
      modifies this
      ensures Valid()
      ensures effect == AttemptEffectOf(old(problems), outcome, archetypeId, ids)
      ensures effect.Failed? ==> unchanged(this)
      ensures effect.Inserted? ==>
        && problems == old(problems) + effect.rows
        && subjects == old(subjects) && domains == old(domains) && archetypes == old(archetypes)
        && standings == old(standings) && attempts == old(attempts) && events == old(events)
    {
      match outcome
      case Threw(e) =>
        effect := Failed(e);
      case Produced(batch) =>
        var rows := ToCreateInputs(batch, archetypeId, ids);
        var n := InsertGeneratedProblems(batch, archetypeId, ids);
        if n.None? {
          effect := Failed(OtherError);
        } else {
          effect := Inserted(rows);
          if batch == [] {
            assert rows == [];
          }
        }
    }

    // ------------------------------------------------------------ enumerateProblems

    /**
     * enumerateProblems: the query is trimmed, the level picks the roll-up, and each roll-up runs over
     * the first twenty rows whose title contains the query, ignoring case. An unknown level throws (None).
     */
    method EnumerateProblems(level: string, query: string) returns (r: Option<seq<EnumerationResult>>)
      ensures r.None? <==> ParseLevel(level).None?
      ensures level == "SUBJECT" ==> (r.Some? &&
        var m := MatchingSubjects(subjects, Trim(query));
        && |r.value| == |m|
        && forall i :: 0 <= i < |m| ==>
             r.value[i] == EnumerationResult(m[i].id, m[i].title,
                                             Sum(Flatten(DomainProblemCounts(DomainsOfSubject(domains, m[i].id), archetypes, problems)))))
      ensures level == "DOMAIN" ==> (r.Some? &&
        var m := MatchingDomains(domains, Trim(query));
        && |r.value| == |m|
        && forall i :: 0 <= i < |m| ==>
             r.value[i] == EnumerationResult(m[i].id, m[i].title, Sum(ArchetypeProblemCounts(ArchetypesOfDomain(archetypes, m[i].id), problems))))
      ensures level == "ARCHETYPE" ==> (r.Some? &&
        var m := MatchingArchetypes(archetypes, Trim(query));
        && |r.value| == |m|
        && forall i :: 0 <= i < |m| ==> r.value[i] == EnumerationResult(m[i].id, m[i].title, ProblemCount(problems, m[i].id)))
    {
      var cleanQuery := Trim(query);
      var parsedLevel := ParseLevel(level);
      if parsedLevel.None? {
        return None;
      }
      match parsedLevel.value
      case SubjectLevel =>
        var out := SubjectCounts(SubjectCountRows(MatchingSubjects(subjects, cleanQuery), domains, archetypes, problems));
        r := Some(out);
      case DomainLevel =>
        var out := DomainCounts(DomainCountRows(MatchingDomains(domains, cleanQuery), archetypes, problems));
        r := Some(out);
      case ArchetypeLevel =>
        r := Some(ArchetypeCounts(ArchetypeCountRows(MatchingArchetypes(archetypes, cleanQuery), problems)));
    }
  }

  /** In a sequential run, the second submission of the same answer is refused with 409. */
  method SubmitTwice(db: Database, body: SubmitBody, session: Option<string>) returns (first: Response<SubmitResult>, second: Response<SubmitResult>)
    requires db.Valid()
    modifies db
    ensures db.Valid()
    ensures first.Ok? ==> second == Fail(409, AlreadySubmitted)
  {
    first := db.Submit(Some(body), session);
    if first.Ok? {
      ghost var t := db.attempts[|db.attempts| - 1];
      assert t.userId == session.value && t.problemId == body.problemId.value;
      assert HasAttempt(db.attempts, session.value, body.problemId.value);
    }
    second := db.Submit(Some(body), session);
  }

  /** Enrolling twice in the same domain creates no standing the second time. */
  method EnrollTwice(db: Database, session: Option<string>, body: EnrollBody) returns (first: Response<EnrollResult>, second: Response<EnrollResult>)
    requires db.Valid()
    modifies db
    ensures db.Valid()
    ensures first.Ok? ==> second.Ok? && second.data.created == 0 && second.data.enrolledCount == first.data.enrolledCount
  {
    first := db.Enroll(session, Some(body));
    second := db.Enroll(session, Some(body));
    if first.Ok? {
      EnrollIdempotent(ArchetypesOfDomain(db.archetypes, body.domainId.value), old(db.standings), session.value);
    }
  }
}
