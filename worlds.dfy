/**
 * World, domain and archetype views (src/domain/world.ts): mastery tiers, the enrolled/available
 * partition of subjects with their best rating, the per-domain enrolment counters and the sort orders.
 */
module Worlds {
  import opened Common
  import opened Sorting

  datatype Tier = Novice | Adept | Expert | Master | Archmage

  /** Position of a tier on the ladder, from 0 (NOVICE) to 4 (ARCHMAGE). */
  function Rank(t: Tier): nat {
    match t
    case Novice => 0
    case Adept => 1
    case Expert => 2
    case Master => 3
    case Archmage => 4
  }

  /** The least rating that reaches a tier (NOVICE is reached by every rating). */
  function Threshold(t: Tier): int
    requires t != Novice
  {
    match t
    case Adept => 800
    case Expert => 1400
    case Master => 1700
    case Archmage => 2000
  }

  /** calculateTier: the highest tier whose threshold the rating reaches. */
  function CalculateTier(rating: int): (t: Tier)
    ensures t != Novice ==> Threshold(t) <= rating
    ensures forall u :: u != Novice && Rank(u) > Rank(t) ==> rating < Threshold(u)
  {
    if rating < 800 then Novice
    else if rating < 1400 then Adept
    else if rating < 1700 then Expert
    else if rating < 2000 then Master
    else Archmage
  }

  /** The tier never goes down as the rating goes up. */
  lemma TierMonotone(a: int, b: int)
    requires a <= b
    ensures Rank(CalculateTier(a)) <= Rank(CalculateTier(b))
  {
  }

  // ---------------------------------------------------------------- formatWorlds

  datatype Subject = Subject(id: string, slug: string, title: string, summary: Option<string>, order: int)

  /** A user's standing reduced to what formatWorlds reads: its rating and its archetype's subject. */
  datatype SubjectRating = SubjectRating(rating: int, subjectId: string)

  datatype World = World(
    id: string,
    slug: string,
    title: string,
    summary: Option<string>,
    rating: Option<int>,
    tier: Option<Tier>,
    isEnrolled: bool,
    order: int)

  /** One step of the first forEach: keep the larger of the stored rating (0 when absent) and this one. */
  function RecordRating(m: map<string, int>, ua: SubjectRating): map<string, int> {
    var current := if ua.subjectId in m then m[ua.subjectId] else 0;
    if ua.rating > current then m[ua.subjectId := ua.rating] else m
  }

  /** The subjectRatings map after the forEach over the standings. */
  function BestRatings(uas: seq<SubjectRating>): map<string, int> {
    if uas == [] then map[] else RecordRating(BestRatings(uas[..|uas| - 1]), uas[|uas| - 1])
  }

  /**
   * A subject has an entry iff some standing of that subject has a positive rating, and the entry is
   * the largest such rating.
   */
  lemma {:induction false} BestRatingsSpec(uas: seq<SubjectRating>, sid: string)
    ensures sid in BestRatings(uas) <==> exists j :: 0 <= j < |uas| && uas[j].subjectId == sid && uas[j].rating > 0
    ensures sid in BestRatings(uas) ==>
      && BestRatings(uas)[sid] > 0
      && (forall j :: 0 <= j < |uas| && uas[j].subjectId == sid ==> uas[j].rating <= BestRatings(uas)[sid])
      && (exists j :: 0 <= j < |uas| && uas[j].subjectId == sid && uas[j].rating == BestRatings(uas)[sid])
  {
    if uas != [] {
      var init := uas[..|uas| - 1];
      BestRatingsSpec(init, sid);
      assert forall j :: 0 <= j < |init| ==> init[j] == uas[j];
    }
  }

  /** A world is enrolled exactly when it has a rating, and then carries that rating's tier. */
  predicate Consistent(w: World) {
    && w.isEnrolled == w.rating.Some?
    && w.tier == (if w.rating.Some? then Some(CalculateTier(w.rating.value)) else None)
  }

  /** The World built for one subject from the subjectRatings map. */
  function WorldOf(s: Subject, best: map<string, int>): (w: World)
    ensures Consistent(w)
    ensures w.isEnrolled <==> s.id in best
  {
    var rating := if s.id in best then Some(best[s.id]) else None;
    World(s.id, s.slug, s.title, s.summary, rating,
          if rating.Some? then Some(CalculateTier(rating.value)) else None,
          rating.Some?, s.order)
  }

  /** The enrolled comparator `(b.rating || 0) - (a.rating || 0)`: best rating first. */
  predicate RatingDesc(a: World, b: World) {
    b.rating.GetOr(0) <= a.rating.GetOr(0)
  }

  /** The available comparator `a.order - b.order || a.title.localeCompare(b.title)`. */
  predicate OrderThenTitle(a: World, b: World) {
    a.order < b.order || (a.order == b.order && StrLe(a.title, b.title))
  }

  lemma ComparatorsArePreorders()
    ensures TotalPreorder(RatingDesc)
    ensures TotalPreorder(OrderThenTitle)
  {
    forall a, b ensures OrderThenTitle(a, b) || OrderThenTitle(b, a) {
      StrLeTotal(a.title, b.title);
    }
    forall a, b, c | OrderThenTitle(a, b) && OrderThenTitle(b, c) ensures OrderThenTitle(a, c) {
      if a.order == b.order == c.order {
        StrLeTransitive(a.title, b.title, c.title);
      }
    }
  }

  /** One world per subject, in subject order. */
  function AllWorlds(subjects: seq<Subject>, best: map<string, int>): (r: seq<World>)
    ensures |r| == |subjects|
    ensures forall i :: 0 <= i < |r| ==> r[i] == WorldOf(subjects[i], best)
  {
    if subjects == [] then []
    else AllWorlds(subjects[..|subjects| - 1], best) + [WorldOf(subjects[|subjects| - 1], best)]
  }

  /** The worlds of the subjects that satisfy `enrolled == isEnrolled`, in subject order. */
  function Part(subjects: seq<Subject>, best: map<string, int>, enrolled: bool): seq<World> {
    if subjects == [] then []
    else
      var w := WorldOf(subjects[|subjects| - 1], best);
      Part(subjects[..|subjects| - 1], best, enrolled) + (if w.isEnrolled == enrolled then [w] else [])
  }

  /** The two parts split the worlds: together they hold each world once. */
  lemma {:induction false} PartSplits(subjects: seq<Subject>, best: map<string, int>)
    ensures multiset(Part(subjects, best, true)) + multiset(Part(subjects, best, false)) == multiset(AllWorlds(subjects, best))
  {
    if subjects != [] {
      var init := subjects[..|subjects| - 1];
      PartSplits(init, best);
      var w := WorldOf(subjects[|subjects| - 1], best);
      assert AllWorlds(subjects, best) == AllWorlds(init, best) + [w];
    }
  }

  /** Each part holds only consistent worlds of its own kind. */
  lemma {:induction false} PartKinds(subjects: seq<Subject>, best: map<string, int>, enrolled: bool)
    ensures forall w :: w in Part(subjects, best, enrolled) ==> w.isEnrolled == enrolled && Consistent(w)
  {
    if subjects != [] {
      PartKinds(subjects[..|subjects| - 1], best, enrolled);
    }
  }

  /** The first forEach: builds the subjectRatings map. */
  method BuildBestRatings(uas: seq<SubjectRating>) returns (best: map<string, int>)
    ensures best == BestRatings(uas)
  {
    best := map[];
    var i := 0;
    while i < |uas|
      invariant 0 <= i <= |uas|
      invariant best == BestRatings(uas[..i])
    {
      assert uas[..i + 1][..i] == uas[..i];
      best := RecordRating(best, uas[i]);
      i := i + 1;
    }
    assert uas[..i] == uas;
  }

  /** The second forEach: pushes each subject's world onto the enrolled or the available list. */
  method Partition(subjects: seq<Subject>, best: map<string, int>) returns (enrolled: seq<World>, available: seq<World>)
    ensures enrolled == Part(subjects, best, true) && available == Part(subjects, best, false)
  {
    enrolled, available := [], [];
    var k := 0;
    while k < |subjects|
      invariant 0 <= k <= |subjects|
      invariant enrolled == Part(subjects[..k], best, true)
      invariant available == Part(subjects[..k], best, false)
    {
      assert subjects[..k + 1][..k] == subjects[..k];
      var world := WorldOf(subjects[k], best);
      if world.isEnrolled {
        enrolled := enrolled + [world];
      } else {
        available := available + [world];
      }
      k := k + 1;
    }
    assert subjects[..k] == subjects;
  }

  /**
   * formatWorlds(subjects, userArchetypes). Every subject lands in exactly one of the two lists;
   * enrolled worlds are those with a best rating, sorted by rating descending; available worlds are
   * sorted by order and then title. Both sorts are stable.
   */
  method FormatWorlds(subjects: seq<Subject>, uas: seq<SubjectRating>) returns (enrolled: seq<World>, available: seq<World>)
    ensures multiset(enrolled) + multiset(available) == multiset(AllWorlds(subjects, BestRatings(uas)))
    ensures forall w :: w in enrolled ==> w.isEnrolled && w.rating.Some? && w.tier == Some(CalculateTier(w.rating.value))
    ensures forall w :: w in available ==> !w.isEnrolled && w.rating.None? && w.tier.None?
    ensures Sorted(enrolled, RatingDesc) && Sorted(available, OrderThenTitle)
    ensures enrolled == Sort(Part(subjects, BestRatings(uas), true), RatingDesc)
    ensures available == Sort(Part(subjects, BestRatings(uas), false), OrderThenTitle)
  {
    var best := BuildBestRatings(uas);
    var enrolledWorlds, availableWorlds := Partition(subjects, best);
    PartSplits(subjects, best);
    PartKinds(subjects, best, true);
    PartKinds(subjects, best, false);
    ComparatorsArePreorders();
    enrolled := Sort(enrolledWorlds, RatingDesc);
    available := Sort(availableWorlds, OrderThenTitle);
    SortSorted(enrolledWorlds, RatingDesc);
    SortSorted(availableWorlds, OrderThenTitle);
    SortMembers(enrolledWorlds, RatingDesc);
    SortMembers(availableWorlds, OrderThenTitle);
  }

  /**
   * A subject's world is enrolled iff some standing of that subject has a positive rating; its rating
   * is then the best of them and its tier that rating's tier.
   */
  lemma WorldOfSpec(s: Subject, uas: seq<SubjectRating>)
    ensures WorldOf(s, BestRatings(uas)).isEnrolled <==> exists j :: 0 <= j < |uas| && uas[j].subjectId == s.id && uas[j].rating > 0
    ensures var w := WorldOf(s, BestRatings(uas));
      w.isEnrolled ==>
        && w.tier == Some(CalculateTier(w.rating.value))
        && (forall j :: 0 <= j < |uas| && uas[j].subjectId == s.id ==> uas[j].rating <= w.rating.value)
        && (exists j :: 0 <= j < |uas| && uas[j].subjectId == s.id && uas[j].rating == w.rating.value)
  {
    BestRatingsSpec(uas, s.id);
  }

  // ---------------------------------------------------------------- formatWorldDetail

  /** A standing reduced to its archetype and rating, as the detail views read it. */
  datatype ArchetypeRating = ArchetypeRating(archetypeId: string, rating: int)

  datatype ArchetypeInfo = ArchetypeInfo(id: string, slug: string, title: string, summary: Option<string>, order: int)

  /** A domain with its archetypes (`domain.Archetype || []`: a missing list is empty). */
  datatype DomainInfo = DomainInfo(id: string, slug: string, title: string, summary: Option<string>, order: int, archetypes: seq<ArchetypeInfo>)

  datatype SubjectInfo = SubjectInfo(id: string, slug: string, title: string, summary: Option<string>, domains: seq<DomainInfo>)

  datatype DomainView = DomainView(
    id: string,
    slug: string,
    title: string,
    summary: Option<string>,
    archetypeCount: nat,
    enrolledCount: nat,
    rating: Option<int>,
    isEnrolled: bool,
    order: int)

  datatype WorldDetail = WorldDetail(id: string, slug: string, title: string, summary: Option<string>, domains: seq<DomainView>)

  /** The userRatings map after `forEach(ua => userRatings.set(ua.archetypeId, ua.rating))`. */
  function LatestRatings(uas: seq<ArchetypeRating>): map<string, int> {
    if uas == [] then map[]
    else LatestRatings(uas[..|uas| - 1])[uas[|uas| - 1].archetypeId := uas[|uas| - 1].rating]
  }

  /** The map has exactly the standings' archetypes as keys, and for each the rating of its last standing. */
  lemma {:induction false} LatestRatingsSpec(uas: seq<ArchetypeRating>, j: nat)
    ensures forall id :: id in LatestRatings(uas) <==> exists k :: 0 <= k < |uas| && uas[k].archetypeId == id
    ensures j < |uas| && (forall k :: j < k < |uas| ==> uas[k].archetypeId != uas[j].archetypeId) ==>
      LatestRatings(uas)[uas[j].archetypeId] == uas[j].rating
  {
    if uas != [] {
      var init := uas[..|uas| - 1];
      LatestRatingsSpec(init, j);
      assert forall k :: 0 <= k < |init| ==> init[k] == uas[k];
    }
  }

  /** Builds the userRatings map with the loop of the source. */
  method BuildLatestRatings(uas: seq<ArchetypeRating>) returns (m: map<string, int>)
    ensures m == LatestRatings(uas)
  {
    m := map[];
    var i := 0;
    while i < |uas|
      invariant 0 <= i <= |uas|
      invariant m == LatestRatings(uas[..i])
    {
      assert uas[..i + 1][..i] == uas[..i];
      m := m[uas[i].archetypeId := uas[i].rating];
      i := i + 1;
    }
    assert uas[..i] == uas;
  }

  /** How many of the archetypes have a user rating (the enrolledCount counter). */
  function EnrolledCount(archs: seq<ArchetypeInfo>, m: map<string, int>): (n: nat)
    ensures n <= |archs|
    ensures n > 0 <==> exists i :: 0 <= i < |archs| && archs[i].id in m
  {
    if archs == [] then 0
    else
      var init := archs[..|archs| - 1];
      assert forall i :: 0 <= i < |init| ==> init[i] == archs[i];
      EnrolledCount(init, m) + (if archs[|archs| - 1].id in m then 1 else 0)
  }

  /** The indices of the archetypes that have a user rating. */
  ghost function RatedIndices(archs: seq<ArchetypeInfo>, m: map<string, int>): set<int> {
    set i | 0 <= i < |archs| && archs[i].id in m
  }

  /** enrolledCount is exactly the number of archetypes that have a user rating. */
  lemma {:induction false} EnrolledCountIsCount(archs: seq<ArchetypeInfo>, m: map<string, int>)
    ensures EnrolledCount(archs, m) == |RatedIndices(archs, m)|
  {
    if archs != [] {
      var init := archs[..|archs| - 1];
      var last := |archs| - 1;
      EnrolledCountIsCount(init, m);
      var extra: set<int> := if archs[last].id in m then {last} else {};
      assert RatedIndices(archs, m) == RatedIndices(init, m) + extra;
      assert last !in RatedIndices(init, m);
      assert |RatedIndices(init, m) + extra| == |RatedIndices(init, m)| + |extra|;
    }
  }

  /** The maxRating counter: the largest user rating among the archetypes, floored at 0. */
  function MaxRating(archs: seq<ArchetypeInfo>, m: map<string, int>): (r: int)
    ensures r >= 0
    ensures forall i :: 0 <= i < |archs| && archs[i].id in m ==> m[archs[i].id] <= r
    ensures r == 0 || exists i :: 0 <= i < |archs| && archs[i].id in m && m[archs[i].id] == r
  {
    if archs == [] then 0
    else
      var init := archs[..|archs| - 1];
      assert forall i :: 0 <= i < |init| ==> init[i] == archs[i];
      var last := archs[|archs| - 1];
      var r := MaxRating(init, m);
      if last.id in m && m[last.id] > r then m[last.id] else r
  }

  /** The DomainView the source builds for one domain. */
  function DomainViewOf(d: DomainInfo, m: map<string, int>): (v: DomainView)
    ensures v.enrolledCount <= v.archetypeCount == |d.archetypes|
    ensures v.isEnrolled <==> v.enrolledCount > 0
    ensures v.rating.Some? <==> v.isEnrolled
  {
    var enrolledCount := EnrolledCount(d.archetypes, m);
    DomainView(d.id, d.slug, d.title, d.summary, |d.archetypes|, enrolledCount,
               if enrolledCount > 0 then Some(MaxRating(d.archetypes, m)) else None,
               enrolledCount > 0, d.order)
  }

  /** The counting loop for one domain. */
  method SummarizeDomain(d: DomainInfo, m: map<string, int>) returns (v: DomainView)
    ensures v == DomainViewOf(d, m)
    ensures v.enrolledCount <= v.archetypeCount && (v.isEnrolled <==> v.enrolledCount > 0)
  {
    var archs := d.archetypes;
    var enrolledCount := 0;
    var maxRating := 0;
    var i := 0;
    while i < |archs|
      invariant 0 <= i <= |archs|
      invariant enrolledCount == EnrolledCount(archs[..i], m)
      invariant maxRating == MaxRating(archs[..i], m)
    {
      assert archs[..i + 1][..i] == archs[..i];
      if archs[i].id in m {
        enrolledCount := enrolledCount + 1;
        var rating := m[archs[i].id];
        if rating > maxRating {
          maxRating := rating;
        }
      }
      i := i + 1;
    }
    assert archs[..i] == archs;
    var isEnrolled := enrolledCount > 0;
    v := DomainView(d.id, d.slug, d.title, d.summary, |archs|, enrolledCount,
                    if isEnrolled then Some(maxRating) else None, isEnrolled, d.order);
  }

  /** The domain comparator `a.order - b.order`. */
  predicate ByOrder(a: DomainView, b: DomainView) {
    a.order <= b.order
  }

  /** One view per domain, in the subject's domain order. */
  function DomainViews(domains: seq<DomainInfo>, m: map<string, int>): (r: seq<DomainView>)
    ensures |r| == |domains|
    ensures forall i :: 0 <= i < |r| ==> r[i] == DomainViewOf(domains[i], m)
  {
    if domains == [] then []
    else DomainViews(domains[..|domains| - 1], m) + [DomainViewOf(domains[|domains| - 1], m)]
  }

  /**
   * formatWorldDetail(subject, userArchetypes): one view per domain, sorted (stably) by order; each
   * view counts the domain's archetypes that have a user rating and, when there is one, carries the
   * largest such rating floored at 0.
   */
  method FormatWorldDetail(subject: SubjectInfo, uas: seq<ArchetypeRating>) returns (w: WorldDetail)
    ensures w.id == subject.id && w.slug == subject.slug && w.title == subject.title && w.summary == subject.summary
    ensures w.domains == Sort(DomainViews(subject.domains, LatestRatings(uas)), ByOrder)
    ensures Sorted(w.domains, ByOrder)
    ensures forall v :: v in w.domains ==> v.enrolledCount <= v.archetypeCount && (v.isEnrolled <==> v.enrolledCount > 0)
  {
    var m := BuildLatestRatings(uas);
    var views := SummarizeDomains(subject.domains, m);
    var sorted := Sort(views, ByOrder);
    assert TotalPreorder(ByOrder);
    SortSorted(views, ByOrder);
    SortMembers(views, ByOrder);
    DomainViewsCounts(subject.domains, m);
    w := WorldDetail(subject.id, subject.slug, subject.title, subject.summary, sorted);
  }

  /** Every domain view counts no more enrolled archetypes than it has, and is enrolled iff it counts one. */
  lemma DomainViewsCounts(domains: seq<DomainInfo>, m: map<string, int>)
    ensures forall v :: v in DomainViews(domains, m) ==> v.enrolledCount <= v.archetypeCount && (v.isEnrolled <==> v.enrolledCount > 0)
  {
    var views := DomainViews(domains, m);
    forall v | v in views ensures v.enrolledCount <= v.archetypeCount && (v.isEnrolled <==> v.enrolledCount > 0) {
      var k :| 0 <= k < |views| && views[k] == v;
      assert v == DomainViewOf(domains[k], m);
    }
  }

  /** The `subject.domains.map` of formatWorldDetail, one counting loop per domain. */
  method SummarizeDomains(domains: seq<DomainInfo>, m: map<string, int>) returns (views: seq<DomainView>)
    ensures views == DomainViews(domains, m)
  {
    views := [];
    var i := 0;
    while i < |domains|
      invariant 0 <= i <= |domains|
      invariant views == DomainViews(domains[..i], m)
    {
      assert domains[..i + 1][..i] == domains[..i];
      var v := SummarizeDomain(domains[i], m);
      views := views + [v];
      i := i + 1;
    }
    assert domains[..i] == domains;
  }

  /** A domain view's rating is given exactly when it is enrolled, and is then its best archetype rating floored at 0. */
  lemma DomainViewSpec(d: DomainInfo, uas: seq<ArchetypeRating>)
    ensures var v := DomainViewOf(d, LatestRatings(uas));
      && v.enrolledCount <= v.archetypeCount == |d.archetypes|
      && (v.isEnrolled <==> exists i :: 0 <= i < |d.archetypes| && d.archetypes[i].id in LatestRatings(uas))
      && (v.rating.Some? <==> v.isEnrolled)
      && (v.rating.Some? ==> v.rating.value >= 0)
      && (v.rating.Some? ==>
            forall i :: 0 <= i < |d.archetypes| && d.archetypes[i].id in LatestRatings(uas) ==>
              LatestRatings(uas)[d.archetypes[i].id] <= v.rating.value)
      && (v.rating.Some? ==>
            || v.rating.value == 0
            || exists i :: 0 <= i < |d.archetypes| && d.archetypes[i].id in LatestRatings(uas)
                 && LatestRatings(uas)[d.archetypes[i].id] == v.rating.value)
  {
  }

  // ---------------------------------------------------------------- formatDomainDetail

  datatype ArchetypeView = ArchetypeView(id: string, slug: string, title: string, summary: Option<string>, rating: int, tier: Tier)

  datatype DomainDetail = DomainDetail(id: string, slug: string, title: string, summary: Option<string>,
                                       rating: Option<int>, isEnrolled: bool, archetypes: seq<ArchetypeView>)

  /** `userRatings.get(arch.id) || 0`. */
  function RatingOrZero(m: map<string, int>, id: string): int {
    if id in m then m[id] else 0
  }

  function ArchetypeViewOf(a: ArchetypeInfo, m: map<string, int>): (v: ArchetypeView)
    ensures v.id == a.id && v.slug == a.slug && v.title == a.title && v.summary == a.summary
    ensures v.tier == CalculateTier(v.rating)
    ensures a.id in m ==> v.rating == m[a.id]
    ensures a.id !in m ==> v.rating == 0 && v.tier == Novice
  {
    var rating := RatingOrZero(m, a.id);
    ArchetypeView(a.id, a.slug, a.title, a.summary, rating, CalculateTier(rating))
  }

  /** Math.max over a non-empty list of ratings. */
  function MaxOf(views: seq<ArchetypeView>): (r: int)
    requires views != []
    ensures forall i :: 0 <= i < |views| ==> views[i].rating <= r
    ensures exists i :: 0 <= i < |views| && views[i].rating == r
  {
    if |views| == 1 then views[0].rating
    else
      var rest := MaxOf(views[1..]);
      assert forall i :: 1 <= i < |views| ==> views[i] == views[1..][i - 1];
      if views[0].rating >= rest then views[0].rating else rest
  }

  /** `domain.Archetype.find(oa => oa.id === id)?.order || 0`. */
  function OrderOf(archs: seq<ArchetypeInfo>, id: string): int {
    if archs == [] then 0
    else if archs[0].id == id then archs[0].order
    else OrderOf(archs[1..], id)
  }

  function ByArchetypeOrder(archs: seq<ArchetypeInfo>): (ArchetypeView, ArchetypeView) -> bool {
    (a: ArchetypeView, b: ArchetypeView) => OrderOf(archs, a.id) <= OrderOf(archs, b.id)
  }

  /** `domain.Archetype.map(...)`: one view per archetype, in the domain's order. */
  function ArchetypeViews(archs: seq<ArchetypeInfo>, m: map<string, int>): (r: seq<ArchetypeView>)
    ensures |r| == |archs|
    ensures forall i :: 0 <= i < |r| ==> r[i] == ArchetypeViewOf(archs[i], m)
  {
    if archs == [] then []
    else ArchetypeViews(archs[..|archs| - 1], m) + [ArchetypeViewOf(archs[|archs| - 1], m)]
  }

  /**
   * formatDomainDetail(domain, userArchetypes): an archetype without a standing is shown at rating 0
   * (NOVICE); the domain is enrolled iff some archetype rating is positive, and its rating is then the
   * largest archetype rating. Archetypes are sorted (stably) by their order in the domain.
   */
  function FormatDomainDetail(d: DomainInfo, uas: seq<ArchetypeRating>): (detail: DomainDetail)
    ensures detail.id == d.id && detail.slug == d.slug && detail.title == d.title && detail.summary == d.summary
    ensures detail.archetypes == Sort(ArchetypeViews(d.archetypes, LatestRatings(uas)), ByArchetypeOrder(d.archetypes))
    ensures forall v :: v in detail.archetypes <==> v in ArchetypeViews(d.archetypes, LatestRatings(uas))
    ensures detail.isEnrolled <==> exists v :: v in detail.archetypes && v.rating > 0
    ensures detail.rating.Some? <==> detail.isEnrolled
    ensures detail.rating.Some? ==>
      && (forall v :: v in detail.archetypes ==> v.rating <= detail.rating.value)
      && (exists v :: v in detail.archetypes && v.rating == detail.rating.value)
    ensures Sorted(detail.archetypes, ByArchetypeOrder(d.archetypes))
  {
    var views := ArchetypeViews(d.archetypes, LatestRatings(uas));
    var isEnrolled := exists i | 0 <= i < |views| :: views[i].rating > 0;
    var le := ByArchetypeOrder(d.archetypes);
    var sorted := Sort(views, le);
    SortSorted(views, le);
    SortMembers(views, le);
    ReorderedRatings(views, sorted);
    var rating := if isEnrolled then Some(MaxOf(views)) else None;
    DomainDetail(d.id, d.slug, d.title, d.summary, rating, isEnrolled, sorted)
  }

  /** Reordering the views changes neither whether some rating is positive nor the largest rating. */
  lemma ReorderedRatings(views: seq<ArchetypeView>, sorted: seq<ArchetypeView>)
    requires forall v :: v in sorted <==> v in views
    ensures (exists i | 0 <= i < |views| :: views[i].rating > 0) <==> exists v :: v in sorted && v.rating > 0
    ensures (exists i | 0 <= i < |views| :: views[i].rating > 0) ==> views != []
    ensures views != [] ==>
      && (forall v :: v in sorted ==> v.rating <= MaxOf(views))
      && (exists v :: v in sorted && v.rating == MaxOf(views))
  {
    if exists v :: v in sorted && v.rating > 0 {
      var v :| v in sorted && v.rating > 0;
      var i :| 0 <= i < |views| && views[i] == v;
    }
    if views != [] {
      var i :| 0 <= i < |views| && views[i].rating == MaxOf(views);
      assert views[i] in sorted;
    }
  }
}
