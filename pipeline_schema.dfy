/**
 * The subject ingestion schemas (src/domain/pipeline.ts): SubjectSchema validates one subject of a
 * parsed JSON payload, SubjectIngestionSchema an array of them with pairwise distinct slugs.
 */
module PipelineSchema {
  import opened Common

  /** A character the slug pattern ^[a-z0-9-]+$ admits. */
  predicate SlugChar(c: char) {
    ('a' <= c <= 'z') || ('0' <= c <= '9') || c == '-'
  }

  /** A slug is a non-empty run of lower-case letters, digits and hyphens. */
  predicate ValidSlug(s: string) {
    |s| >= 1 && forall i :: 0 <= i < |s| ==> SlugChar(s[i])
  }

  /** A subject as SubjectSchema outputs it; summary None stands for both an absent and a null summary. */
  datatype ParsedSubject = ParsedSubject(slug: string, title: string, order: int, summary: Option<string>)

  /** `z.number().int().default(1)`: absent gives 1, an integral number is kept, anything else fails. */
  function ParseOrder(field: Option<Json>): (r: Option<int>)
    ensures field.None? ==> r == Some(1)
    ensures field.Some? ==> (r.Some? <==> field.value.JNum? && IsInteger(field.value.n))
    ensures field.Some? && r.Some? ==> field.value == JNum(r.value as real)
  {
    match field
    case None => Some(1)
    case Some(JNum(n)) => if IsInteger(n) then Some(n.Floor) else None
    case Some(_) => None
  }

  /** `z.string().nullable().optional()`: absent and null give None, a string is kept, anything else fails. */
  function ParseSummary(field: Option<Json>): (r: Option<Option<string>>)
    ensures r == Some(None) <==> field.None? || field == Some(JNull)
    ensures r.Some? && r.value.Some? <==> field.Some? && field.value.JStr?
    ensures r.Some? && r.value.Some? ==> field == Some(JStr(r.value.value))
  {
    match field
    case None => Some(None)
    case Some(JNull) => Some(None)
    case Some(JStr(s)) => Some(Some(s))
    case Some(_) => None
  }

  /** A member that must be a string of at least one character satisfying `ok`. */
  function ParseString(field: Option<Json>, ok: string -> bool): (r: Option<string>)
    ensures r.Some? <==> field.Some? && field.value.JStr? && ok(field.value.s)
    ensures r.Some? ==> field == Some(JStr(r.value))
  {
    if field.Some? && field.value.JStr? && ok(field.value.s) then Some(field.value.s) else None
  }

  /** SubjectSchema.safeParse(v): the value must be an object and each of its four members valid. */
  function ParseSubject(v: Json): (r: Option<ParsedSubject>)
    ensures !v.JObj? ==> r.None?
    ensures r.Some? <==>
      && v.JObj?
      && ParseString(Member(v, "slug"), ValidSlug).Some?
      && ParseString(Member(v, "title"), s => |s| >= 1).Some?
      && ParseOrder(Member(v, "order")).Some?
      && ParseSummary(Member(v, "summary")).Some?
    ensures r.Some? ==>
      && Member(v, "slug") == Some(JStr(r.value.slug)) && ValidSlug(r.value.slug)
      && Member(v, "title") == Some(JStr(r.value.title)) && r.value.title != ""
      && Some(r.value.order) == ParseOrder(Member(v, "order"))
      && Some(r.value.summary) == ParseSummary(Member(v, "summary"))
  {
    if !v.JObj? then None
    else
      var slug := ParseString(Member(v, "slug"), ValidSlug);
      var title := ParseString(Member(v, "title"), s => |s| >= 1);
      var order := ParseOrder(Member(v, "order"));
      var summary := ParseSummary(Member(v, "summary"));
      if slug.Some? && title.Some? && order.Some? && summary.Some? then
        Some(ParsedSubject(slug.value, title.value, order.value, summary.value))
      else None
  }

  /** `subjects.map(s => s.slug)`. */
  function Slugs(subjects: seq<ParsedSubject>): (r: seq<string>)
    ensures |r| == |subjects|
    ensures forall i :: 0 <= i < |r| ==> r[i] == subjects[i].slug
  {
    if subjects == [] then [] else [subjects[0].slug] + Slugs(subjects[1..])
  }

  function SetOf(xs: seq<string>): set<string> {
    set x | x in xs
  }

  predicate Distinct(xs: seq<string>) {
    forall i, j :: 0 <= i < j < |xs| ==> xs[i] != xs[j]
  }

  /** The refine `new Set(slugs).size === slugs.length` holds exactly when the slugs are pairwise distinct. */
  lemma {:induction false} SetSizeDistinct(xs: seq<string>)
    ensures |SetOf(xs)| <= |xs|
    ensures |SetOf(xs)| == |xs| <==> Distinct(xs)
  {
    if xs != [] {
      var init := xs[..|xs| - 1];
      var last := xs[|xs| - 1];
      SetSizeDistinct(init);
      assert xs == init + [last];
      assert SetOf(xs) == SetOf(init) + {last};
      DistinctSnoc(init, last);
      if last in SetOf(init) {
        assert SetOf(xs) == SetOf(init);
      } else {
        assert |SetOf(xs)| == |SetOf(init)| + 1;
      }
    }
  }

  /** One more element keeps the list distinct exactly when the list was distinct and lacked it. */
  lemma {:induction false} DistinctSnoc(init: seq<string>, last: string)
    ensures Distinct(init + [last]) <==> Distinct(init) && last !in SetOf(init)
  {
    var xs := init + [last];
    if Distinct(xs) {
      forall i, j | 0 <= i < j < |init| ensures init[i] != init[j] {
        assert init[i] == xs[i] && init[j] == xs[j];
      }
      forall k | 0 <= k < |init| ensures init[k] != last {
        assert xs[k] == init[k] && xs[|init|] == last;
      }
    }
    if Distinct(init) && last !in SetOf(init) {
      forall i, j | 0 <= i < j < |xs| ensures xs[i] != xs[j] {
        if j == |init| {
          assert xs[i] == init[i];
        } else {
          assert xs[i] == init[i] && xs[j] == init[j];
        }
      }
    }
  }

  /** `z.array(schema)`: every element must parse, and the parsed elements keep their order. */
  function ParseEach<T>(items: seq<Json>, parse: Json -> Option<T>): (r: Option<seq<T>>)
    ensures r.Some? <==> forall i :: 0 <= i < |items| ==> parse(items[i]).Some?
    ensures r.Some? ==> |r.value| == |items| && forall i :: 0 <= i < |items| ==> parse(items[i]) == Some(r.value[i])
  {
    if items == [] then Some([])
    else
      var head := parse(items[0]);
      var tail := ParseEach(items[1..], parse);
      assert forall i :: 1 <= i < |items| ==> items[i] == items[1..][i - 1];
      if head.Some? && tail.Some? then Some([head.value] + tail.value)
      else None
  }

  /**
   * SubjectIngestionSchema.safeParse(v): the payload must be an array whose elements all satisfy
   * SubjectSchema and whose slugs are pairwise distinct.
   */
  function ParseIngestion(v: Json): (r: Option<seq<ParsedSubject>>)
    ensures r.Some? <==>
      && v.JArr?
      && (forall i :: 0 <= i < |v.items| ==> ParseSubject(v.items[i]).Some?)
      && Distinct(Slugs(ParseEach(v.items, ParseSubject).value))
    ensures r.Some? ==>
      && |r.value| == |v.items|
      && (forall i :: 0 <= i < |v.items| ==> ParseSubject(v.items[i]) == Some(r.value[i]))
      && (forall i, j :: 0 <= i < j < |r.value| ==> r.value[i].slug != r.value[j].slug)
  {
    if !v.JArr? then None
    else
      var all := ParseEach(v.items, ParseSubject);
      if all.None? then None
      else
        var slugs := Slugs(all.value);
        SetSizeDistinct(slugs);
        if |SetOf(slugs)| == |slugs| then all else None
  }

  /** A subject without order and summary members gets order 1 and no summary. */
  lemma SubjectDefaults(slug: string, title: string)
    requires ValidSlug(slug) && title != ""
    ensures ParseSubject(JObj([("slug", JStr(slug)), ("title", JStr(title))])) == Some(ParsedSubject(slug, title, 1, None))
  {
    var v := JObj([("slug", JStr(slug)), ("title", JStr(title))]);
    assert "title" != "slug" && "order" != "slug" && "order" != "title" && "summary" != "slug" && "summary" != "title" by {
      assert "title"[0] != "slug"[0] && "order"[0] != "slug"[0] && "order"[0] != "title"[0];
      assert "summary"[1] != "slug"[1] && "summary"[0] != "title"[0];
    }
    assert Member(v, "slug") == Some(JStr(slug));
    assert v.members[1..] == [("title", JStr(title))];
    assert Lookup(v.members[1..], "title") == Some(JStr(title));
    assert Member(v, "title") == Some(JStr(title));
    assert Member(v, "order") == None;
    assert Member(v, "summary") == None;
  }

  /** An upper-case letter is not a slug character, so "Algebra" is refused. */
  lemma UpperCaseSlugRejected()
    ensures ParseSubject(JObj([("slug", JStr("Algebra")), ("title", JStr("Algebra"))])).None?
  {
    var v := JObj([("slug", JStr("Algebra")), ("title", JStr("Algebra"))]);
    assert Member(v, "slug") == Some(JStr("Algebra"));
    assert !SlugChar("Algebra"[0]);
  }
}
