/**
 * The in-memory legal record store: a fixed list of law records with a
 * listing, an indexed lookup and a case-insensitive substring search over
 * the five text fields of a record.
 */
module LegalData {
  import opened Wrappers
  import opened Text

  /** One law record; every field is present and holds text. */
  datatype Law = Law(
    title: string,
    lawNumber: string,
    year: string,
    description: string,
    summary: string)

  /** The search condition: the (already lowercased) query occurs in one of the lowercased fields. */
  predicate Matches(law: Law, q: string) {
    || Contains(Lower(law.title), q)
    || Contains(Lower(law.description), q)
    || Contains(Lower(law.lawNumber), q)
    || Contains(Lower(law.year), q)
    || Contains(Lower(law.summary), q)
  }

  /** The laws of `laws` that match `q`, in their original order. */
  function Filter(laws: seq<Law>, q: string): seq<Law> {
    if laws == [] then []
    else (if Matches(laws[0], q) then [laws[0]] else []) + Filter(laws[1..], q)
  }

  /** What a search for `query` returns: nothing for the empty query, otherwise the laws matching its lowercased form. */
  function SearchResult(laws: seq<Law>, query: string): seq<Law> {
    if query == "" then [] else Filter(laws, Lower(query))
  }

  /** `a` is `b` with some elements left out, the rest kept in order. */
  predicate IsSubsequence<T(==)>(a: seq<T>, b: seq<T>)
    decreases |b|
  {
    a == [] || (b != [] && ((a[0] == b[0] && IsSubsequence(a[1..], b[1..])) || IsSubsequence(a, b[1..])))
  }

  class LegalDataHandler {
    /** The record list; set once by the constructor and never changed. */
    const laws: seq<Law>

    constructor (laws: seq<Law>)
      ensures this.laws == laws
    {
      this.laws := laws;
    }

    /** The whole record list, in insertion order. */
    function GetAllLaws(): (r: seq<Law>)
      ensures r == laws
    {
      laws
    }

    /** Python indexing `laws[index]`, with `None` where it would raise `IndexError`. */
    function GetLawById(index: int): (r: Option<Law>)
      ensures r.Some? <==> -|laws| <= index < |laws|
      ensures 0 <= index < |laws| ==> r == Some(laws[index])
      ensures -|laws| <= index < 0 ==> r == Some(laws[|laws| + index])
    {
      if 0 <= index < |laws| then Some(laws[index])
      else if -|laws| <= index < 0 then Some(laws[|laws| + index])
      else None
    }

    /** A negative index counts from the end: `-n + i` finds the same law as `i`. */
    lemma NegativeIndexWraps(i: int)
      requires 0 <= i < |laws|
      ensures GetLawById(i - |laws|) == GetLawById(i)
    {
    }

    /** Every law the lookup finds is one of the stored laws. */
    lemma LookupFindsStoredLaw(index: int)
      ensures GetLawById(index).Some? ==> GetLawById(index).value in laws
    {
    }

    /** Collect, in one pass over the list, every law that matches the lowercased query. */
    method SearchLaws(query: string) returns (results: seq<Law>)
      ensures results == SearchResult(laws, query)
    {
      if query == "" {
        return [];
      }
      var q := Lower(query);
      results := [];
      for i := 0 to |laws|
        invariant results == Filter(laws[..i], q)
      {
        FilterAppend(laws[..i], [laws[i]], q);
        assert laws[..i + 1] == laws[..i] + [laws[i]];
        if Matches(laws[i], q) {
          results := results + [laws[i]];
        }
      }
      assert laws[..|laws|] == laws;
    }
  }

  /** Filtering a concatenation filters each part. */
  lemma {:induction false} FilterAppend(s: seq<Law>, t: seq<Law>, q: string)
    ensures Filter(s + t, q) == Filter(s, q) + Filter(t, q)
  {
    if s != [] {
      assert (s + t)[1..] == s[1..] + t;
      FilterAppend(s[1..], t, q);
    } else {
      assert s + t == t;
    }
  }

  /** A law is in the filtered list exactly when it is in the list and matches. */
  lemma {:induction false} FilterMembership(s: seq<Law>, q: string, law: Law)
    ensures law in Filter(s, q) <==> law in s && Matches(law, q)
  {
    if s != [] {
      FilterMembership(s[1..], q, law);
      assert s == [s[0]] + s[1..];
    }
  }

  /** Filtering keeps every copy of a matching law and drops every copy of one that does not match. */
  lemma {:induction false} FilterMultiplicity(s: seq<Law>, q: string, law: Law)
    ensures multiset(Filter(s, q))[law] == if Matches(law, q) then multiset(s)[law] else 0
  {
    if s != [] {
      FilterMultiplicity(s[1..], q, law);
      assert s == [s[0]] + s[1..];
    }
  }

  /** The filtered list is a subsequence: the original order is kept. */
  lemma {:induction false} FilterIsSubsequence(s: seq<Law>, q: string)
    ensures IsSubsequence(Filter(s, q), s)
  {
    if s != [] {
      FilterIsSubsequence(s[1..], q);
      if Matches(s[0], q) {
        assert Filter(s, q) == [s[0]] + Filter(s[1..], q);
        assert Filter(s, q)[1..] == Filter(s[1..], q);
      } else {
        assert Filter(s, q) == Filter(s[1..], q);
      }
    }
  }

  /** A subsequence is no longer than the sequence it is taken from. */
  lemma {:induction false} SubsequenceLength<T>(a: seq<T>, b: seq<T>)
    requires IsSubsequence(a, b)
    ensures |a| <= |b|
    decreases |b|
  {
    if a != [] {
      if a[0] == b[0] && IsSubsequence(a[1..], b[1..]) {
        SubsequenceLength(a[1..], b[1..]);
      } else {
        SubsequenceLength(a, b[1..]);
      }
    }
  }

  /** An empty query finds nothing, whatever the list. */
  lemma SearchEmptyQuery(laws: seq<Law>)
    ensures SearchResult(laws, "") == []
  {
  }

  /** Soundness: every law found is in the list and has the lowercased query in one of its lowercased fields. */
  lemma SearchSound(laws: seq<Law>, query: string, law: Law)
    requires law in SearchResult(laws, query)
    ensures query != "" && law in laws
    ensures exists i: nat ::
      || OccursAt(Lower(law.title), Lower(query), i)
      || OccursAt(Lower(law.description), Lower(query), i)
      || OccursAt(Lower(law.lawNumber), Lower(query), i)
      || OccursAt(Lower(law.year), Lower(query), i)
      || OccursAt(Lower(law.summary), Lower(query), i)
  {
    var q := Lower(query);
    FilterMembership(laws, q, law);
    ContainsIff(Lower(law.title), q);
    ContainsIff(Lower(law.description), q);
    ContainsIff(Lower(law.lawNumber), q);
    ContainsIff(Lower(law.year), q);
    ContainsIff(Lower(law.summary), q);
  }

  /** Completeness: for a non-empty query, every law of the list that matches is found. */
  lemma SearchComplete(laws: seq<Law>, query: string, law: Law)
    requires query != "" && law in laws && Matches(law, Lower(query))
    ensures law in SearchResult(laws, query)
  {
    FilterMembership(laws, Lower(query), law);
  }

  /** Completeness, stated with occurrence positions, in the same terms as soundness. */
  lemma SearchCompleteAt(laws: seq<Law>, query: string, law: Law)
    requires query != "" && law in laws
    requires exists i: nat ::
      || OccursAt(Lower(law.title), Lower(query), i)
      || OccursAt(Lower(law.description), Lower(query), i)
      || OccursAt(Lower(law.lawNumber), Lower(query), i)
      || OccursAt(Lower(law.year), Lower(query), i)
      || OccursAt(Lower(law.summary), Lower(query), i)
    ensures law in SearchResult(laws, query)
  {
    var q := Lower(query);
    ContainsIff(Lower(law.title), q);
    ContainsIff(Lower(law.description), q);
    ContainsIff(Lower(law.lawNumber), q);
    ContainsIff(Lower(law.year), q);
    ContainsIff(Lower(law.summary), q);
    SearchComplete(laws, query, law);
  }

  /** The empty string occurs in every field, so without the empty-query guard every law would be returned. */
  lemma {:induction false} FilterEmptyKeepsAll(laws: seq<Law>)
    ensures Filter(laws, "") == laws
  {
    if laws != [] {
      ContainsEmpty(Lower(laws[0].title));
      FilterEmptyKeepsAll(laws[1..]);
    }
  }

  /** The result keeps the list's order and is no longer than the list. */
  lemma SearchKeepsOrder(laws: seq<Law>, query: string)
    ensures IsSubsequence(SearchResult(laws, query), laws)
    ensures |SearchResult(laws, query)| <= |laws|
  {
    FilterIsSubsequence(laws, Lower(query));
    SubsequenceLength(SearchResult(laws, query), laws);
  }

  /** Case-insensitivity: searching for the lowercased query gives the same result. */
  lemma SearchCaseInsensitive(laws: seq<Law>, query: string)
    ensures SearchResult(laws, Lower(query)) == SearchResult(laws, query)
  {
    LowerEmpty(query);
    LowerIdempotent(query);
  }
}
