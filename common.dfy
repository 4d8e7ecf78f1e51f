/** Shared vocabulary: optional values, parsed JSON, JavaScript truthiness and string helpers. */
module Common {

  datatype Option<T> = None | Some(value: T) {
    function GetOr(default: T): T {
      if Some? then value else default
    }
  }

  /**
   * A value produced by JSON.parse. Object members are listed in the order Object.entries enumerates them.
   * JSON.parse gives each key of an object once (a key repeated in the text keeps its last value); the
   * datatype does not enforce this, and `DistinctKeys` states it where it is needed.
   */
  datatype Json =
    | JNull
    | JBool(b: bool)
    | JNum(n: real)
    | JStr(s: string)
    | JArr(items: seq<Json>)
    | JObj(members: seq<(string, Json)>)

  /** JavaScript truthiness of a parsed JSON value: null, false, 0 and "" are falsy; arrays and objects are truthy. */
  predicate Truthy(v: Json) {
    match v
    case JNull => false
    case JBool(b) => b
    case JNum(n) => n != 0.0
    case JStr(s) => s != ""
    case JArr(_) => true
    case JObj(_) => true
  }

  /** Truthiness of an optional string (`!x` in a guard): absent and "" are falsy. */
  predicate Present(x: Option<string>) {
    x.Some? && x.value != ""
  }

  /** The first member with the given key, as `obj[key]` reads it. */
  function Lookup(members: seq<(string, Json)>, key: string): (r: Option<Json>)
    ensures r.Some? <==> exists i :: 0 <= i < |members| && members[i].0 == key
    ensures r.Some? ==> exists i :: 0 <= i < |members| && members[i] == (key, r.value)
  {
    if members == [] then None
    else if members[0].0 == key then Some(members[0].1)
    else
      var r := Lookup(members[1..], key);
      assert forall i :: 1 <= i < |members| ==> members[i] == members[1..][i - 1];
      r
  }

  /** The members of an object as JSON.parse builds it: no key occurs twice. */
  predicate DistinctKeys(members: seq<(string, Json)>) {
    forall i, j :: 0 <= i < j < |members| ==> members[i].0 != members[j].0
  }

  /** In an object with distinct keys, a property read returns the value stored under that key. */
  lemma LookupDistinct(members: seq<(string, Json)>, i: nat)
    requires DistinctKeys(members)
    requires i < |members|
    ensures Lookup(members, members[i].0) == Some(members[i].1)
  {
    var r := Lookup(members, members[i].0);
    var j :| 0 <= j < |members| && members[j] == (members[i].0, r.value);
    assert j == i;
  }

  /** Property read `v.key`: undefined (None) unless v is an object holding that key. */
  function Member(v: Json, key: string): Option<Json> {
    if v.JObj? then Lookup(v.members, key) else None
  }

  /** Number.isInteger on a parsed JSON number. */
  predicate IsInteger(n: real) {
    n.Floor as real == n
  }

  /** q occurs in s starting at index i. */
  predicate OccursAt(s: string, q: string, i: int) {
    0 <= i <= |s| - |q| && s[i..i + |q|] == q
  }

  /** `s.includes(q)`: q occurs as a contiguous block of s. */
  predicate Contains(s: string, q: string) {
    exists i | 0 <= i <= |s| - |q| :: OccursAt(s, q, i)
  }

  /**
   * The characters String.prototype.trim removes: ECMAScript WhiteSpace (tab, vertical tab, form feed,
   * space, no-break space, byte order mark and the Zs space separators) and LineTerminator.
   */
  predicate IsTrimmable(c: char) {
    || c == '\U{0009}' || c == '\U{000B}' || c == '\U{000C}' || c == ' ' || c == '\U{00A0}' || c == '\U{FEFF}'
    || c == '\U{1680}' || ('\U{2000}' <= c <= '\U{200A}') || c == '\U{202F}' || c == '\U{205F}' || c == '\U{3000}'
    || c == '\n' || c == '\r' || c == '\U{2028}' || c == '\U{2029}'
  }

  predicate AllTrimmable(s: string) {
    forall i :: 0 <= i < |s| ==> IsTrimmable(s[i])
  }

  /** The number of leading characters that satisfy p. */
  function LeadingCount(s: string, p: char -> bool): (n: nat)
    ensures n <= |s|
    ensures forall j :: 0 <= j < n ==> p(s[j])
    ensures n == |s| || !p(s[n])
  {
    if s != [] && p(s[0]) then
      var m := LeadingCount(s[1..], p);
      assert forall j :: 1 <= j < m + 1 ==> s[j] == s[1..][j - 1];
      m + 1
    else
      0
  }

  /** Where the trailing run of characters that satisfy p starts. */
  function TrailingStart(s: string, p: char -> bool): (n: nat)
    ensures n <= |s|
    ensures forall j :: n <= j < |s| ==> p(s[j])
    ensures n == 0 || !p(s[n - 1])
  {
    if s != [] && p(s[|s| - 1]) then
      var m := TrailingStart(s[..|s| - 1], p);
      assert forall j :: m <= j < |s| - 1 ==> s[j] == s[..|s| - 1][j];
      m
    else
      |s|
  }

  /** r occurs in s at i, and what lies before and after it is all trimmable. */
  predicate TrimmedAt(s: string, r: string, i: int) {
    0 <= i <= |s| - |r| && OccursAt(s, r, i) && AllTrimmable(s[..i]) && AllTrimmable(s[i + |r|..])
  }

  /**
   * String.prototype.trim: the result is the block of s that starts at some index i and is left after
   * removing trimmable characters from both ends; it neither starts nor ends with one.
   */
  function Trim(s: string): (r: string)
    ensures exists i :: TrimmedAt(s, r, i)
    ensures r == [] || (!IsTrimmable(r[0]) && !IsTrimmable(r[|r| - 1]))
  {
    var i := LeadingCount(s, IsTrimmable);
    var t := s[i..];
    var e := TrailingStart(t, IsTrimmable);
    TrimBlock(s, t, i, e, IsTrimmable);
    t[..e]
  }

  /** Cutting a run satisfying p == IsTrimmable off each end of s leaves a trimmed block of s. */
  lemma TrimBlock(s: string, t: string, i: nat, e: nat, p: char -> bool)
    requires i <= |s| && t == s[i..] && e <= |t|
    requires forall j :: 0 <= j < i ==> p(s[j])
    requires forall j :: e <= j < |t| ==> p(t[j])
    requires i == |s| || !p(s[i])
    requires e == 0 || !p(t[e - 1])
    requires forall c :: p(c) == IsTrimmable(c)
    ensures TrimmedAt(s, t[..e], i)
    ensures t[..e] == [] || (!IsTrimmable(t[..e][0]) && !IsTrimmable(t[..e][e - 1]))
  {
    var r := t[..e];
    assert s[i..i + e] == r;
    var before, after := s[..i], s[i + e..];
    assert forall j :: 0 <= j < |before| ==> before[j] == s[j];
    assert forall j :: 0 <= j < |after| ==> after[j] == t[e + j];
    if r != [] {
      assert r[0] == s[i] && r[e - 1] == t[e - 1];
    }
  }

  /** Lexicographic comparison by code point; stands in for String.prototype.localeCompare. */
  predicate StrLe(a: string, b: string) {
    a == [] || (b != [] && (a[0] < b[0] || (a[0] == b[0] && StrLe(a[1..], b[1..]))))
  }

  lemma {:induction false} StrLeTotal(a: string, b: string)
    ensures StrLe(a, b) || StrLe(b, a)
  {
    if a != [] && b != [] && a[0] == b[0] {
      StrLeTotal(a[1..], b[1..]);
    }
  }

  lemma {:induction false} StrLeTransitive(a: string, b: string, c: string)
    requires StrLe(a, b) && StrLe(b, c)
    ensures StrLe(a, c)
  {
    if a != [] && b != [] && c != [] && a[0] == b[0] && b[0] == c[0] {
      StrLeTransitive(a[1..], b[1..], c[1..]);
    }
  }

  /** `xs.filter(p)`: the elements satisfying p, in their original order. */
  function Filter<T(!new)>(xs: seq<T>, p: T -> bool): (r: seq<T>)
    ensures |r| <= |xs|
    ensures forall x :: x in r <==> x in xs && p(x)
    ensures forall i :: 0 <= i < |r| ==> p(r[i])
    ensures r == [] <==> forall x :: x in xs ==> !p(x)
  {
    if xs == [] then []
    else
      var init := Filter(xs[..|xs| - 1], p);
      assert forall x :: x in xs <==> x in xs[..|xs| - 1] || x == xs[|xs| - 1];
      if p(xs[|xs| - 1]) then init + [xs[|xs| - 1]] else init
  }

  /** Filtering a list extended by one element extends the filtered list by it, or not, as p decides. */
  lemma FilterSnoc<T(!new)>(xs: seq<T>, x: T, p: T -> bool)
    ensures Filter(xs + [x], p) == Filter(xs, p) + (if p(x) then [x] else [])
  {
    assert (xs + [x])[..|xs + [x]| - 1] == xs;
  }

  /** The first `n` elements, as `take: n` returns them. */
  function Take<T>(xs: seq<T>, n: nat): (r: seq<T>)
    ensures |r| == if |xs| < n then |xs| else n
    ensures r == xs[..|r|]
  {
    if |xs| <= n then xs else xs[..n]
  }
}
