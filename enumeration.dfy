/**
 * The problem-count roll-ups (src/lib/db/enumeration.ts) over the rows their queries fetch, and the
 * level dispatch of src/lib/pipeline/enumerate.ts.
 */
module Enumeration {
  import opened Common

  datatype EnumerationResult = EnumerationResult(id: string, title: string, count: nat)

  /** A fetched subject: for each of its domains, the problem count of each of that domain's archetypes. */
  datatype SubjectCountRow = SubjectCountRow(id: string, title: string, domains: seq<seq<nat>>)

  /** A fetched domain: the problem count of each of its archetypes. */
  datatype DomainCountRow = DomainCountRow(id: string, title: string, archetypes: seq<nat>)

  datatype ArchetypeCountRow = ArchetypeCountRow(id: string, title: string, problems: nat)

  function Sum(xs: seq<nat>): nat {
    if xs == [] then 0 else Sum(xs[..|xs| - 1]) + xs[|xs| - 1]
  }

  /** The total over a list of lists: the sum of the inner sums. */
  function NestedSum(xss: seq<seq<nat>>): nat {
    if xss == [] then 0 else NestedSum(xss[..|xss| - 1]) + Sum(xss[|xss| - 1])
  }

  function Flatten(xss: seq<seq<nat>>): seq<nat> {
    if xss == [] then [] else Flatten(xss[..|xss| - 1]) + xss[|xss| - 1]
  }

  lemma {:induction false} SumAppend(xs: seq<nat>, ys: seq<nat>)
    ensures Sum(xs + ys) == Sum(xs) + Sum(ys)
    decreases |ys|
  {
    if ys != [] {
      assert (xs + ys)[..|xs + ys| - 1] == xs + ys[..|ys| - 1];
      assert (xs + ys)[|xs + ys| - 1] == ys[|ys| - 1];
      SumAppend(xs, ys[..|ys| - 1]);
    } else {
      assert xs + ys == xs;
    }
  }

  /** Summing domain by domain gives the sum of all the archetype counts of the subject together. */
  lemma {:induction false} NestedSumFlatten(xss: seq<seq<nat>>)
    ensures NestedSum(xss) == Sum(Flatten(xss))
  {
    if xss != [] {
      NestedSumFlatten(xss[..|xss| - 1]);
      SumAppend(Flatten(xss[..|xss| - 1]), xss[|xss| - 1]);
    }
  }

  /** A list of zero counts, and in particular an empty one, sums to 0; a positive count makes the sum positive. */
  lemma {:induction false} SumZero(xs: seq<nat>)
    ensures Sum(xs) == 0 <==> forall i :: 0 <= i < |xs| ==> xs[i] == 0
  {
    if xs != [] {
      SumZero(xs[..|xs| - 1]);
      assert forall i :: 0 <= i < |xs| - 1 ==> xs[..|xs| - 1][i] == xs[i];
    }
  }

  /** The inner forEach: `total += a._count.Problem` over one domain's archetypes, starting from `total`. */
  method AddCounts(counts: seq<nat>, total: nat) returns (t: nat)
    ensures t == total + Sum(counts)
  {
    t := total;
    var j := 0;
    while j < |counts|
      invariant 0 <= j <= |counts|
      invariant t == total + Sum(counts[..j])
    {
      assert counts[..j + 1][..j] == counts[..j];
      t := t + counts[j];
      j := j + 1;
    }
    assert counts[..j] == counts;
  }

  /** The roll-up of fetchSubjectCounts: one result per row, in order, counting every problem below the subject. */
  method SubjectCounts(rows: seq<SubjectCountRow>) returns (out: seq<EnumerationResult>)
    ensures |out| == |rows|
    ensures forall i :: 0 <= i < |rows| ==>
      out[i] == EnumerationResult(rows[i].id, rows[i].title, Sum(Flatten(rows[i].domains)))
  {
    out := [];
    var i := 0;
    while i < |rows|
      invariant 0 <= i <= |rows|
      invariant |out| == i
      invariant forall k :: 0 <= k < i ==> out[k] == EnumerationResult(rows[k].id, rows[k].title, NestedSum(rows[k].domains))
    {
      var domains := rows[i].domains;
      var total := 0;
      var d := 0;
      while d < |domains|
        invariant 0 <= d <= |domains|
        invariant total == NestedSum(domains[..d])
      {
        assert domains[..d + 1][..d] == domains[..d];
        total := AddCounts(domains[d], total);
        d := d + 1;
      }
      assert domains[..d] == domains;
      out := out + [EnumerationResult(rows[i].id, rows[i].title, total)];
      i := i + 1;
    }
    forall k | 0 <= k < |rows| ensures NestedSum(rows[k].domains) == Sum(Flatten(rows[k].domains)) {
      NestedSumFlatten(rows[k].domains);
    }
  }

  /** The roll-up of fetchDomainCounts: one result per row, in order, counting the problems of its archetypes. */
  method DomainCounts(rows: seq<DomainCountRow>) returns (out: seq<EnumerationResult>)
    ensures |out| == |rows|
    ensures forall i :: 0 <= i < |rows| ==> out[i] == EnumerationResult(rows[i].id, rows[i].title, Sum(rows[i].archetypes))
  {
    out := [];
    var i := 0;
    while i < |rows|
      invariant 0 <= i <= |rows|
      invariant |out| == i
      invariant forall k :: 0 <= k < i ==> out[k] == EnumerationResult(rows[k].id, rows[k].title, Sum(rows[k].archetypes))
    {
      var total := AddCounts(rows[i].archetypes, 0);
      out := out + [EnumerationResult(rows[i].id, rows[i].title, total)];
      i := i + 1;
    }
  }

  /** fetchArchetypeCounts: each archetype with its own problem count. */
  function ArchetypeCounts(rows: seq<ArchetypeCountRow>): (out: seq<EnumerationResult>)
    ensures |out| == |rows|
    ensures forall i :: 0 <= i < |rows| ==> out[i] == EnumerationResult(rows[i].id, rows[i].title, rows[i].problems)
  {
    seq(|rows|, i requires 0 <= i < |rows| => EnumerationResult(rows[i].id, rows[i].title, rows[i].problems))
  }

  datatype Level = SubjectLevel | DomainLevel | ArchetypeLevel

  /** The switch of enumerateProblems: exactly the three level names are accepted. */
  function ParseLevel(level: string): (r: Option<Level>)
    ensures r == Some(SubjectLevel) <==> level == "SUBJECT"
    ensures r == Some(DomainLevel) <==> level == "DOMAIN"
    ensures r == Some(ArchetypeLevel) <==> level == "ARCHETYPE"
  {
    if level == "SUBJECT" then Some(SubjectLevel)
    else if level == "DOMAIN" then Some(DomainLevel)
    else if level == "ARCHETYPE" then Some(ArchetypeLevel)
    else None
  }

  /** ASCII lower-casing, through which the model reads the case-insensitive title match. */
  function Lower(s: string): (r: string)
    ensures |r| == |s|
    ensures forall i :: 0 <= i < |s| ==> r[i] == (if 'A' <= s[i] <= 'Z' then (s[i] as int + 32) as char else s[i])
  {
    seq(|s|, i requires 0 <= i < |s| => if 'A' <= s[i] <= 'Z' then (s[i] as int + 32) as char else s[i])
  }

  /** `title: { contains: query, mode: 'insensitive' }`. */
  predicate TitleMatches(title: string, query: string) {
    Contains(Lower(title), Lower(query))
  }

  /** The empty query (a blank one, once trimmed) matches every title. */
  lemma EmptyQueryMatchesAll(title: string)
    ensures TitleMatches(title, "")
  {
    assert OccursAt(Lower(title), Lower(""), 0);
  }

  /** The match ignores the case of ASCII letters on either side. */
  lemma MatchIgnoresCase(title: string, query: string)
    ensures TitleMatches(title, query) <==> TitleMatches(Lower(title), Lower(query))
  {
    assert Lower(Lower(title)) == Lower(title);
    assert Lower(Lower(query)) == Lower(query);
  }
}
