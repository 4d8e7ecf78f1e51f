/**
 * The rows of the relational store the routes read and write, the queries they run on them, and the
 * pure steps of the routes: scoring an attempt, a manual rating adjustment, the enrolment filter and the
 * problem-selection band.
 */
module Tables {
  import opened Common
  import opened Rating
  import opened ProblemViews

  datatype SubjectRec = SubjectRec(id: string, slug: string, title: string, order: int, summary: Option<string>)

  datatype DomainRec = DomainRec(id: string, slug: string, title: string, order: int, summary: Option<string>, subjectId: string)

  datatype ArchetypeRec = ArchetypeRec(
    id: string,
    slug: string,
    title: string,
    stream: Option<string>,
    order: int,
    summary: Option<string>,
    eloMin: Option<int>,
    eloMax: Option<int>,
    domainId: string)

  /** A UserArchetype row, keyed in the store by (userId, archetypeId). */
  datatype Standing = Standing(rating: int, attemptCount: nat)

  type StandingKey = (string, string)

  datatype Attempt = Attempt(
    userId: string,
    problemId: string,
    chosen: string,
    correct: bool,
    timeMs: int,
    deltaUser: int,
    deltaProblem: int)

  datatype Reason = CalibrationAttempt | PipelineManualAdjustment

  datatype RatingEvent = RatingEvent(
    userId: string,
    problemId: Option<string>,
    before: int,
    after: int,
    delta: int,
    reason: Reason)

  /** The rating a new standing starts at. */
  const InitialRating: int := 200

  /** Half the width of the selection band around the learner's rating. */
  const BandRadius: int := 200

  /** How many band candidates the selection query fetches. */
  const CandidateLimit: nat := 10

  // ---------------------------------------------------------------- lookups

  /** `findUnique({ where: { <key>: k } })`: the row whose unique key field is k, if any. */
  function FindBy<T>(rows: seq<T>, key: T -> string, k: string): (r: Option<T>)
    ensures r.Some? ==> r.value in rows && key(r.value) == k
    ensures r.None? <==> forall i :: 0 <= i < |rows| ==> key(rows[i]) != k
  {
    if rows == [] then None
    else if key(rows[0]) == k then Some(rows[0])
    else
      var r := FindBy(rows[1..], key, k);
      assert forall i :: 1 <= i < |rows| ==> rows[i] == rows[1..][i - 1];
      r
  }

  /** `findUnique({ where: { id } })` on the problem table. */
  function FindProblem(problems: seq<Problem>, id: string): Option<Problem> {
    FindBy(problems, (p: Problem) => p.id, id)
  }

  /** `findUnique({ where: { slug } })` on the archetype table. */
  function FindArchetypeBySlug(archetypes: seq<ArchetypeRec>, slug: string): Option<ArchetypeRec> {
    FindBy(archetypes, (a: ArchetypeRec) => a.slug, slug)
  }

  /** When keys are distinct, the row found is the one with that key. */
  lemma FindUnique<T>(rows: seq<T>, key: T -> string, i: nat)
    requires i < |rows|
    requires forall a, b :: 0 <= a < b < |rows| ==> key(rows[a]) != key(rows[b])
    ensures FindBy(rows, key, key(rows[i])) == Some(rows[i])
  {
    var r := FindBy(rows, key, key(rows[i]));
    var k :| 0 <= k < |rows| && rows[k] == r.value;
    assert k == i;
  }

  /** A row found in a table is still the one found once rows are appended to it. */
  lemma {:induction false} FindAppend<T>(rows: seq<T>, more: seq<T>, key: T -> string, k: string)
    requires FindBy(rows, key, k).Some?
    ensures FindBy(rows + more, key, k) == FindBy(rows, key, k)
  {
    if key(rows[0]) != k {
      assert (rows + more)[1..] == rows[1..] + more;
      FindAppend(rows[1..], more, key, k);
    }
  }

  /** The archetype a stored attempt's problem belongs to (`problem.archetypeId`), if the problem and the link exist. */
  function ArchetypeOf(problems: seq<Problem>, problemId: string): Option<string> {
    var p := FindProblem(problems, problemId);
    if p.Some? then p.value.archetypeId else None
  }

  predicate HasAttempt(attempts: seq<Attempt>, userId: string, problemId: string) {
    exists i :: 0 <= i < |attempts| && attempts[i].userId == userId && attempts[i].problemId == problemId
  }

  /** How many of the user's attempts are on problems of the archetype. */
  function CountAttempts(attempts: seq<Attempt>, problems: seq<Problem>, key: StandingKey): nat {
    if attempts == [] then 0
    else
      var t := attempts[|attempts| - 1];
      CountAttempts(attempts[..|attempts| - 1], problems, key)
        + (if t.userId == key.0 && ArchetypeOf(problems, t.problemId) == Some(key.1) then 1 else 0)
  }

  /** No attempt of the user is on a problem of the archetype, so the count is zero. */
  lemma {:induction false} CountAttemptsZero(attempts: seq<Attempt>, problems: seq<Problem>, key: StandingKey)
    requires forall i :: 0 <= i < |attempts| ==> !(attempts[i].userId == key.0 && ArchetypeOf(problems, attempts[i].problemId) == Some(key.1))
    ensures CountAttempts(attempts, problems, key) == 0
  {
    if attempts != [] {
      CountAttemptsZero(attempts[..|attempts| - 1], problems, key);
    }
  }

  /** Appending problems changes no count, as long as every attempt's problem was already in the table. */
  lemma {:induction false} CountAttemptsAppendProblems(attempts: seq<Attempt>, problems: seq<Problem>, more: seq<Problem>, key: StandingKey)
    requires forall i :: 0 <= i < |attempts| ==> FindProblem(problems, attempts[i].problemId).Some?
    ensures CountAttempts(attempts, problems + more, key) == CountAttempts(attempts, problems, key)
  {
    if attempts != [] {
      var t := attempts[|attempts| - 1];
      CountAttemptsAppendProblems(attempts[..|attempts| - 1], problems, more, key);
      FindAppend(problems, more, (p: Problem) => p.id, t.problemId);
    }
  }

  // ---------------------------------------------------------------- table invariants

  predicate SubjectsUnique(subjects: seq<SubjectRec>) {
    forall i, j :: 0 <= i < j < |subjects| ==> subjects[i].id != subjects[j].id && subjects[i].slug != subjects[j].slug
  }

  predicate DomainsUnique(domains: seq<DomainRec>) {
    forall i, j :: 0 <= i < j < |domains| ==> domains[i].id != domains[j].id && domains[i].slug != domains[j].slug
  }

  /** Ids and slugs are unique, and so is (stream, order) among archetypes that have a stream. */
  predicate ArchetypesUnique(archetypes: seq<ArchetypeRec>) {
    forall i, j :: 0 <= i < j < |archetypes| ==>
      && archetypes[i].id != archetypes[j].id
      && archetypes[i].slug != archetypes[j].slug
      && (archetypes[i].stream.Some? && archetypes[i].stream == archetypes[j].stream ==> archetypes[i].order != archetypes[j].order)
  }

  predicate ProblemsUnique(problems: seq<Problem>) {
    forall i, j :: 0 <= i < j < |problems| ==> problems[i].id != problems[j].id
  }

  /** The uniqueness constraint on (userId, problemId) of the Attempt table. */
  predicate AttemptsUnique(attempts: seq<Attempt>) {
    forall i, j :: 0 <= i < j < |attempts| ==>
      !(attempts[i].userId == attempts[j].userId && attempts[i].problemId == attempts[j].problemId)
  }

  /** Every event of the ledger closes: before + delta == after. */
  predicate EventsBalanced(events: seq<RatingEvent>) {
    forall i :: 0 <= i < |events| ==> events[i].before + events[i].delta == events[i].after
  }

  /** Every attempt is on a stored problem linked to an archetype, and its user holds a standing there. */
  predicate AttemptsLinked(attempts: seq<Attempt>, problems: seq<Problem>, standings: map<StandingKey, Standing>) {
    forall i :: 0 <= i < |attempts| ==>
      && ArchetypeOf(problems, attempts[i].problemId).Some?
      && (attempts[i].userId, ArchetypeOf(problems, attempts[i].problemId).value) in standings
  }

  /** A standing's attempt count is the number of the user's attempts on problems of its archetype. */
  predicate CountsAgree(attempts: seq<Attempt>, problems: seq<Problem>, standings: map<StandingKey, Standing>) {
    forall k :: k in standings ==> standings[k].attemptCount == CountAttempts(attempts, problems, k)
  }

  /** Every standing is for a stored archetype. */
  predicate StandingsLinked(standings: map<StandingKey, Standing>, archetypes: seq<ArchetypeRec>) {
    forall k :: k in standings ==> exists i :: 0 <= i < |archetypes| && archetypes[i].id == k.1
  }

  /** The invariants the tables keep together. */
  predicate Consistent(subjects: seq<SubjectRec>, domains: seq<DomainRec>, archetypes: seq<ArchetypeRec>, problems: seq<Problem>,
                       standings: map<StandingKey, Standing>, attempts: seq<Attempt>, events: seq<RatingEvent>) {
    && SubjectsUnique(subjects)
    && DomainsUnique(domains)
    && ArchetypesUnique(archetypes)
    && ProblemsUnique(problems)
    && AttemptsUnique(attempts)
    && EventsBalanced(events)
    && AttemptsLinked(attempts, problems, standings)
    && CountsAgree(attempts, problems, standings)
    && StandingsLinked(standings, archetypes)
    && (forall i :: 0 <= i < |archetypes| ==> archetypes[i].id != "")
  }

  /** Recording one more attempt adds one to the count of exactly the standing the attempt's problem belongs to. */
  lemma CountAfterAttempt(attempts: seq<Attempt>, problems: seq<Problem>, t: Attempt, key: StandingKey)
    ensures CountAttempts(attempts + [t], problems, key)
      == CountAttempts(attempts, problems, key) + (if t.userId == key.0 && ArchetypeOf(problems, t.problemId) == Some(key.1) then 1 else 0)
  {
    assert (attempts + [t])[..|attempts|] == attempts;
  }

  /**
   * Recording a scored attempt of a user without one on that problem, with its event and the standing
   * counted one further, keeps the attempt, event and standing invariants.
   */
  lemma RecordPreserves(attempts: seq<Attempt>, problems: seq<Problem>, standings: map<StandingKey, Standing>,
                        archetypes: seq<ArchetypeRec>, events: seq<RatingEvent>, c: Commit, key: StandingKey)
    requires AttemptsUnique(attempts) && EventsBalanced(events)
    requires AttemptsLinked(attempts, problems, standings) && CountsAgree(attempts, problems, standings)
    requires StandingsLinked(standings, archetypes)
    requires key in standings && c.attempt.userId == key.0 && ArchetypeOf(problems, c.attempt.problemId) == Some(key.1)
    requires !HasAttempt(attempts, key.0, c.attempt.problemId)
    requires c.standing.attemptCount == standings[key].attemptCount + 1
    requires c.event.before + c.event.delta == c.event.after
    ensures AttemptsUnique(attempts + [c.attempt]) && EventsBalanced(events + [c.event])
    ensures AttemptsLinked(attempts + [c.attempt], problems, standings[key := c.standing])
    ensures CountsAgree(attempts + [c.attempt], problems, standings[key := c.standing])
    ensures StandingsLinked(standings[key := c.standing], archetypes)
  {
    var after := standings[key := c.standing];
    forall k | k in after ensures after[k].attemptCount == CountAttempts(attempts + [c.attempt], problems, k) {
      CountAfterAttempt(attempts, problems, c.attempt, k);
    }
    var all := attempts + [c.attempt];
    forall i, j | 0 <= i < j < |all| ensures !(all[i].userId == all[j].userId && all[i].problemId == all[j].problemId) {
      if j == |attempts| {
        assert all[i] == attempts[i];
      } else {
        assert all[i] == attempts[i] && all[j] == attempts[j];
      }
    }
    assert forall i :: 0 <= i < |attempts| ==> all[i] == attempts[i];
    var evs := events + [c.event];
    assert forall i :: 0 <= i < |events| ==> evs[i] == events[i];
  }

  /** Replacing a standing's rating, keeping its attempt count, and recording a balanced event keeps the tables consistent. */
  lemma AdjustPreserves(subjects: seq<SubjectRec>, domains: seq<DomainRec>, archetypes: seq<ArchetypeRec>, problems: seq<Problem>,
                        standings: map<StandingKey, Standing>, attempts: seq<Attempt>, events: seq<RatingEvent>,
                        key: StandingKey, standing: Standing, event: RatingEvent)
    requires Consistent(subjects, domains, archetypes, problems, standings, attempts, events)
    requires key in standings && standing.attemptCount == standings[key].attemptCount
    requires event.before + event.delta == event.after
    ensures Consistent(subjects, domains, archetypes, problems, standings[key := standing], attempts, events + [event])
  {
    var evs := events + [event];
    assert forall i :: 0 <= i < |events| ==> evs[i] == events[i];
  }

  /** A new standing starts with no attempts counted against it: every attempt already has its own standing. */
  lemma NewStandingHasNoAttempts(attempts: seq<Attempt>, problems: seq<Problem>, standings: map<StandingKey, Standing>, key: StandingKey)
    requires AttemptsLinked(attempts, problems, standings)
    requires key !in standings
    ensures CountAttempts(attempts, problems, key) == 0
  {
    CountAttemptsZero(attempts, problems, key);
  }

  /** Appending problems keeps the attempt invariants: every attempt's problem, and so its archetype, is found as before. */
  lemma AppendProblemsPreserves(attempts: seq<Attempt>, problems: seq<Problem>, more: seq<Problem>, standings: map<StandingKey, Standing>)
    requires AttemptsLinked(attempts, problems, standings)
    requires CountsAgree(attempts, problems, standings)
    ensures AttemptsLinked(attempts, problems + more, standings)
    ensures CountsAgree(attempts, problems + more, standings)
  {
    forall i | 0 <= i < |attempts| ensures ArchetypeOf(problems + more, attempts[i].problemId) == ArchetypeOf(problems, attempts[i].problemId) {
      FindAppend(problems, more, (p: Problem) => p.id, attempts[i].problemId);
    }
    forall k | k in standings ensures CountAttempts(attempts, problems + more, k) == CountAttempts(attempts, problems, k) {
      CountAttemptsAppendProblems(attempts, problems, more, k);
    }
  }

  // ---------------------------------------------------------------- submit

  /** The three writes of a successful submission. */
  datatype Commit = Commit(attempt: Attempt, event: RatingEvent, standing: Standing)

  /**
   * The scoring step of the submit route: the answer is correct exactly when it is the stored correct
   * choice; the attempt records the rating change with deltaProblem 0 (problems do not adapt) and a
   * missing or zero time as 0; the event and the new standing carry the same new rating.
   */
  function Score(userId: string, problem: Problem, chosenId: string, timeMs: Option<int>, standing: Standing): (c: Commit)
    ensures c.attempt.correct <==> problem.correctChoice == Some(chosenId)
    ensures c.attempt.userId == userId && c.attempt.problemId == problem.id && c.attempt.chosen == chosenId
    ensures c.attempt.timeMs == (if timeMs.Some? && timeMs.value != 0 then timeMs.value else 0)
    ensures c.attempt.deltaProblem == 0 && c.attempt.deltaUser == c.event.delta
    ensures c.event == RatingEvent(userId, Some(problem.id), standing.rating, standing.rating + c.event.delta, c.event.delta, CalibrationAttempt)
    ensures c.event.delta == CalculateRatingDelta(standing.rating, problem.rating, c.attempt.correct)
    ensures c.standing == Standing(c.event.after, standing.attemptCount + 1)
    ensures c.attempt.correct ==> 1 <= c.event.delta <= K
    ensures !c.attempt.correct ==> -K <= c.event.delta <= -1
  {
    var isCorrect := problem.correctChoice == Some(chosenId);
    var delta := CalculateRatingDelta(standing.rating, problem.rating, isCorrect);
    var newRating := standing.rating + delta;
    Commit(
      Attempt(userId, problem.id, chosenId, isCorrect, if timeMs.Some? && timeMs.value != 0 then timeMs.value else 0, delta, 0),
      RatingEvent(userId, Some(problem.id), standing.rating, newRating, delta, CalibrationAttempt),
      Standing(newRating, standing.attemptCount + 1))
  }

  // ---------------------------------------------------------------- rating change

  /**
   * The manual adjustment of the rating-change route: the standing takes the requested rating and keeps
   * its attempt count; the event records the old and the new rating, their difference and no problem.
   */
  function ManualAdjustment(userId: string, standing: Standing, rating: int): (r: (Standing, RatingEvent))
    ensures r.0 == Standing(rating, standing.attemptCount)
    ensures r.1.before == standing.rating && r.1.after == rating && r.1.before + r.1.delta == r.1.after
    ensures r.1.userId == userId && r.1.problemId.None? && r.1.reason == PipelineManualAdjustment
  {
    (Standing(rating, standing.attemptCount),
     RatingEvent(userId, None, standing.rating, rating, rating - standing.rating, PipelineManualAdjustment))
  }

  // ---------------------------------------------------------------- enrolment

  /** `db.archetype.findMany({ where: { domainId } })`. */
  function ArchetypesOfDomain(archetypes: seq<ArchetypeRec>, domainId: string): (r: seq<ArchetypeRec>)
    ensures forall a :: a in r <==> a in archetypes && a.domainId == domainId
  {
    Filter(archetypes, (a: ArchetypeRec) => a.domainId == domainId)
  }

  /** `archetypes.filter(a => !existingIds.has(a.id))`: the domain's archetypes the user has no standing for. */
  function ToCreate(archs: seq<ArchetypeRec>, standings: map<StandingKey, Standing>, userId: string): (r: seq<ArchetypeRec>)
    ensures forall a :: a in r <==> a in archs && (userId, a.id) !in standings
    ensures |r| <= |archs|
  {
    Filter(archs, (a: ArchetypeRec) => (userId, a.id) !in standings)
  }

  /** The rows createMany adds: one standing at the initial rating and no attempts per archetype. */
  function NewStandings(userId: string, archs: seq<ArchetypeRec>): (m: map<StandingKey, Standing>)
    ensures forall k :: k in m <==> k.0 == userId && exists a :: a in archs && a.id == k.1
    ensures forall k :: k in m ==> m[k] == Standing(InitialRating, 0)
  {
    map a | a in archs :: (userId, a.id) := Standing(InitialRating, 0)
  }

  /** After enrolment every archetype of the domain has a standing, so a second run creates nothing. */
  lemma EnrollIdempotent(archs: seq<ArchetypeRec>, standings: map<StandingKey, Standing>, userId: string)
    ensures var after := standings + NewStandings(userId, ToCreate(archs, standings, userId));
      && (forall a :: a in archs ==> (userId, a.id) in after)
      && ToCreate(archs, after, userId) == []
  {
    var created := ToCreate(archs, standings, userId);
    var after := standings + NewStandings(userId, created);
    forall a | a in archs ensures (userId, a.id) in after {
      if (userId, a.id) !in standings {
        assert a in created;
      }
    }
  }

  /** Enrolment leaves every existing standing as it was. */
  lemma EnrollKeepsExisting(archs: seq<ArchetypeRec>, standings: map<StandingKey, Standing>, userId: string, k: StandingKey)
    requires k in standings
    ensures (standings + NewStandings(userId, ToCreate(archs, standings, userId)))[k] == standings[k]
  {
  }

  /** Enrolment keeps the link and count invariants: the new standings are for stored archetypes and have no attempts. */
  lemma EnrollPreserves(attempts: seq<Attempt>, problems: seq<Problem>, standings: map<StandingKey, Standing>,
                        archetypes: seq<ArchetypeRec>, archs: seq<ArchetypeRec>, userId: string)
    requires AttemptsLinked(attempts, problems, standings)
    requires CountsAgree(attempts, problems, standings)
    requires StandingsLinked(standings, archetypes)
    requires forall a :: a in archs ==> a in archetypes
    ensures var after := standings + NewStandings(userId, ToCreate(archs, standings, userId));
      && AttemptsLinked(attempts, problems, after)
      && CountsAgree(attempts, problems, after)
      && StandingsLinked(after, archetypes)
  {
    var toCreate := ToCreate(archs, standings, userId);
    var added := NewStandings(userId, toCreate);
    var after := standings + added;
    forall k | k in added ensures k !in standings && CountAttempts(attempts, problems, k) == 0 {
      var a :| a in toCreate && a.id == k.1;
      NewStandingHasNoAttempts(attempts, problems, standings, k);
    }
    forall k | k in added ensures exists i :: 0 <= i < |archetypes| && archetypes[i].id == k.1 {
      var a :| a in toCreate && a.id == k.1;
      assert a in archetypes;
    }
  }

  /**
   * One enrolment as a whole: the tables stay consistent, every archetype of the domain has a standing
   * afterwards, and the standings that were there keep their values.
   */
  lemma EnrollStep(subjects: seq<SubjectRec>, domains: seq<DomainRec>, archetypes: seq<ArchetypeRec>, problems: seq<Problem>,
                   standings: map<StandingKey, Standing>, attempts: seq<Attempt>, events: seq<RatingEvent>,
                   archs: seq<ArchetypeRec>, userId: string)
    requires Consistent(subjects, domains, archetypes, problems, standings, attempts, events)
    requires forall a :: a in archs ==> a in archetypes
    ensures var after := standings + NewStandings(userId, ToCreate(archs, standings, userId));
      && Consistent(subjects, domains, archetypes, problems, after, attempts, events)
      && (forall a :: a in archs ==> (userId, a.id) in after)
      && (forall k :: k in standings ==> k in after && after[k] == standings[k])
  {
    var after := standings + NewStandings(userId, ToCreate(archs, standings, userId));
    assert forall a :: a in archs ==> (userId, a.id) in after by {
      EnrollIdempotent(archs, standings, userId);
    }
    assert forall k :: k in standings ==> k in after && after[k] == standings[k] by {
      forall k | k in standings ensures after[k] == standings[k] {
        EnrollKeepsExisting(archs, standings, userId, k);
      }
    }
    assert Consistent(subjects, domains, archetypes, problems, after, attempts, events) by {
      EnrollPreserves(attempts, problems, standings, archetypes, archs, userId);
    }
  }

  // ---------------------------------------------------------------- problem selection

  predicate InBand(p: Problem, archetypeId: string, rating: int) {
    p.archetypeId == Some(archetypeId) && rating - BandRadius <= p.rating <= rating + BandRadius
  }

  /** The selection query: the first ten problems of the archetype whose rating lies within the band. */
  function BandCandidates(problems: seq<Problem>, archetypeId: string, rating: int): (r: seq<Problem>)
    ensures |r| <= CandidateLimit
    ensures forall p :: p in r ==> p in problems && InBand(p, archetypeId, rating)
    ensures r == [] <==> forall p :: p in problems ==> !InBand(p, archetypeId, rating)
    ensures var inBand := Filter(problems, (p: Problem) => InBand(p, archetypeId, rating));
      && |r| == (if |inBand| < CandidateLimit then |inBand| else CandidateLimit)
      && r == inBand[..|r|]
  {
    var all := Filter(problems, (p: Problem) => InBand(p, archetypeId, rating));
    Take(all, CandidateLimit)
  }

  /** `problems[Math.floor(Math.random() * problems.length)]` for a draw `roll` in [0, 1). */
  function Pick(candidates: seq<Problem>, roll: real): (p: Problem)
    requires candidates != [] && 0.0 <= roll < 1.0
    ensures p in candidates
  {
    var i := (roll * |candidates| as real).Floor;
    assert 0 <= i < |candidates| by {
      assert 0.0 <= roll * |candidates| as real < |candidates| as real;
    }
    candidates[i]
  }

  /** `findFirst({ where: { archetypeId } })`: the first problem of the archetype, whatever its rating. */
  function FirstOfArchetype(problems: seq<Problem>, archetypeId: string): (r: Option<Problem>)
    ensures r.Some? ==> r.value in problems && r.value.archetypeId == Some(archetypeId)
    ensures r.None? <==> forall p :: p in problems ==> p.archetypeId != Some(archetypeId)
  {
    var all := Filter(problems, (p: Problem) => p.archetypeId == Some(archetypeId));
    if all == [] then None else Some(all[0])
  }
}
