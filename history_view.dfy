/**
 * The history page of the client: a case-insensitive search and company
 * filter over the user's saved emails, a fixed page size of ten, the pager
 * buttons, and the list of distinct companies offered by the filter selector.
 * The pure derivations come first; the page's state is the class HistoryPage.
 */
module HistoryView {

  import opened Wrappers
  import opened Strings
  import opened Schemas

  const ItemsPerPage: nat := 10

  // ---------------------------------------------------------------------------
  // Sequences: filter and subsequence
  // ---------------------------------------------------------------------------

  /** The tests the page filters by. */
  datatype Criterion =
    | Search(term: string)
    | Company(name: string)
    | Both(term: string, name: string)

  /** The search term occurs, ignoring case, in the subject, the job title or the company. */
  predicate MatchesSearch(e: GeneratedEmailData, term: string)
  {
    || Contains(Lower(e.subject), Lower(term))
    || Contains(Lower(e.jobListing.title), Lower(term))
    || Contains(Lower(e.jobListing.company), Lower(term))
  }

  /** The company filter occurs, ignoring case, in the company: a substring test, not equality. */
  predicate MatchesCompany(e: GeneratedEmailData, company: string)
  {
    Contains(Lower(e.jobListing.company), Lower(company))
  }

  predicate Keeps(k: Criterion, e: GeneratedEmailData)
  {
    match k
    case Search(term) => MatchesSearch(e, term)
    case Company(name) => MatchesCompany(e, name)
    case Both(term, name) => MatchesSearch(e, term) && MatchesCompany(e, name)
  }

  /** JavaScript `emails.filter(...)` with the callback of criterion `k`. */
  function FilterBy(emails: seq<GeneratedEmailData>, k: Criterion): (r: seq<GeneratedEmailData>)
    ensures |r| <= |emails|
    ensures forall e :: e in r <==> e in emails && Keeps(k, e)
    ensures forall e :: multiset(r)[e] == if Keeps(k, e) then multiset(emails)[e] else 0
  {
    if emails == [] then []
    else
      assert emails == [emails[0]] + emails[1..];
      if Keeps(k, emails[0]) then [emails[0]] + FilterBy(emails[1..], k)
      else FilterBy(emails[1..], k)
  }

  /** `r` can be obtained from `s` by deleting elements, keeping the order of the rest. */
  predicate IsSubsequence<T(==)>(r: seq<T>, s: seq<T>)
    decreases |s|
  {
    if r == [] then true
    else if s == [] then false
    else (r[0] == s[0] && IsSubsequence(r[1..], s[1..])) || IsSubsequence(r, s[1..])
  }

  /** Filtering keeps the order of the surviving emails. */
  lemma {:induction false} FilterIsSubsequence(emails: seq<GeneratedEmailData>, k: Criterion)
    ensures IsSubsequence(FilterBy(emails, k), emails)
  {
    if emails != [] {
      FilterIsSubsequence(emails[1..], k);
      var r := FilterBy(emails, k);
      if Keeps(k, emails[0]) {
        assert r[1..] == FilterBy(emails[1..], k);
      } else if r != [] {
        assert r == FilterBy(emails[1..], k);
      }
    }
  }

  /** Searching and then filtering by company is one filter by both tests. */
  lemma {:induction false} FilterTwice(emails: seq<GeneratedEmailData>, term: string, name: string)
    ensures FilterBy(FilterBy(emails, Search(term)), Company(name)) == FilterBy(emails, Both(term, name))
  {
    if emails != [] {
      FilterTwice(emails[1..], term, name);
    }
  }

  /** A criterion whose text is empty keeps every email, since the empty string occurs everywhere. */
  lemma {:induction false} FilterByEmpty(emails: seq<GeneratedEmailData>, k: Criterion)
    requires k.Search? ==> k.term == ""
    requires k.Company? ==> k.name == ""
    requires k.Both? ==> k.term == "" && k.name == ""
    ensures FilterBy(emails, k) == emails
  {
    if emails != [] {
      var e := emails[0];
      ContainsEmpty(Lower(e.subject));
      ContainsEmpty(Lower(e.jobListing.company));
      FilterByEmpty(emails[1..], k);
    }
  }

  /** Searching keeps exactly what searching and matching the empty company keeps, and vice versa. */
  lemma {:induction false} FilterBothOneEmpty(emails: seq<GeneratedEmailData>, term: string, name: string)
    requires term == "" || name == ""
    ensures term == "" ==> FilterBy(emails, Both(term, name)) == FilterBy(emails, Company(name))
    ensures name == "" ==> FilterBy(emails, Both(term, name)) == FilterBy(emails, Search(term))
  {
    if emails != [] {
      var e := emails[0];
      ContainsEmpty(Lower(e.subject));
      ContainsEmpty(Lower(e.jobListing.company));
      FilterBothOneEmpty(emails[1..], term, name);
    }
  }

  /** The page's `filterEmails`: each filter applies only when its text is non-empty. */
  function FilterEmails(emails: seq<GeneratedEmailData>, searchTerm: string, filterCompany: string)
    : seq<GeneratedEmailData>
  {
    var searched := if searchTerm != "" then FilterBy(emails, Search(searchTerm)) else emails;
    if filterCompany != "" then FilterBy(searched, Company(filterCompany)) else searched
  }

  /**
   * The two guarded filters are one order-preserving filter by both tests; the
   * emptiness guards change nothing.
   */
  lemma FilterEmailsIsFilter(emails: seq<GeneratedEmailData>, searchTerm: string, filterCompany: string)
    ensures FilterEmails(emails, searchTerm, filterCompany) == FilterBy(emails, Both(searchTerm, filterCompany))
  {
    if searchTerm != "" && filterCompany != "" {
      FilterTwice(emails, searchTerm, filterCompany);
    } else if searchTerm == "" && filterCompany == "" {
      FilterByEmpty(emails, Both(searchTerm, filterCompany));
    } else {
      FilterBothOneEmpty(emails, searchTerm, filterCompany);
    }
  }

  /**
   * What the history page shows: an order-preserving subsequence of the
   * emails, holding exactly those that pass both the search and the company
   * test, each as many times as in the emails; with no search term and no
   * company filter it is the whole list.
   */
  lemma FilterEmailsSpec(emails: seq<GeneratedEmailData>, searchTerm: string, filterCompany: string)
    ensures var r := FilterEmails(emails, searchTerm, filterCompany);
      && IsSubsequence(r, emails)
      && (forall e :: e in r <==> e in emails && MatchesSearch(e, searchTerm) && MatchesCompany(e, filterCompany))
      && (forall e :: multiset(r)[e] ==
            if MatchesSearch(e, searchTerm) && MatchesCompany(e, filterCompany) then multiset(emails)[e] else 0)
      && (searchTerm == "" && filterCompany == "" ==> r == emails)
  {
    FilterEmailsIsFilter(emails, searchTerm, filterCompany);
    FilterIsSubsequence(emails, Both(searchTerm, filterCompany));
  }

  /**
   * The search test in the textbook form: the lower-cased term occurs at some
   * position of the lower-cased subject, job title or company.
   */
  lemma MatchesSearchIff(e: GeneratedEmailData, term: string)
    ensures MatchesSearch(e, term) <==>
      || (exists i :: OccursAt(Lower(e.subject), Lower(term), i))
      || (exists i :: OccursAt(Lower(e.jobListing.title), Lower(term), i))
      || (exists i :: OccursAt(Lower(e.jobListing.company), Lower(term), i))
  {
    ContainsIff(Lower(e.subject), Lower(term));
    ContainsIff(Lower(e.jobListing.title), Lower(term));
    ContainsIff(Lower(e.jobListing.company), Lower(term));
    assert MatchesSearch(e, term) <==> Contains(Lower(e.subject), Lower(term)) || Contains(Lower(e.jobListing.title), Lower(term)) || Contains(Lower(e.jobListing.company), Lower(term));
  }

  // ---------------------------------------------------------------------------
  // Pagination
  // ---------------------------------------------------------------------------

  /** Where JavaScript's `Array.prototype.slice` puts a start or end argument for length `n`. */
  function SliceIndex(k: int, n: nat): (r: nat)
    ensures r <= n
    ensures 0 <= k <= n ==> r == k
    ensures k > n ==> r == n
    ensures k < 0 && 0 <= n + k ==> r == n + k
    ensures n + k < 0 ==> r == 0
  {
    if k < 0 then (if n + k < 0 then 0 else n + k) else if k > n then n else k
  }

  /** JavaScript `s.slice(start, end)`. */
  function JsSlice<T>(s: seq<T>, start: int, end: int): seq<T>
  {
    var i := SliceIndex(start, |s|);
    var j := SliceIndex(end, |s|);
    if i < j then s[i..j] else []
  }

  /** `paginatedEmails`: the slice of page `page` (counted from 1). */
  function PageItems<T>(filtered: seq<T>, page: int): seq<T>
  {
    JsSlice(filtered, (page - 1) * ItemsPerPage, page * ItemsPerPage)
  }

  /** `totalPages = Math.ceil(n / 10)`: the least page count whose pages hold `n` items. */
  function TotalPages(n: nat): (r: nat)
    ensures n <= r * ItemsPerPage < n + ItemsPerPage
    ensures r == 0 <==> n == 0
  {
    (n + ItemsPerPage - 1) / ItemsPerPage
  }

  /**
   * A page from 1 on is `filtered[(p-1)*10 .. min(p*10, n)]`: at most ten items,
   * and empty once its first index is past the end.
   */
  lemma PageItemsShape<T>(filtered: seq<T>, page: int)
    requires page >= 1
    ensures var r := PageItems(filtered, page);
      && |r| <= ItemsPerPage
      && ((page - 1) * ItemsPerPage >= |filtered| ==> r == [])
      && ((page - 1) * ItemsPerPage < |filtered| ==>
            r == filtered[(page - 1) * ItemsPerPage ..
                          if page * ItemsPerPage < |filtered| then page * ItemsPerPage else |filtered|])
  {
    assert (page - 1) * ItemsPerPage >= 0;
  }

  /** The current page is valid: page 1, or a page that exists. */
  predicate PageInRange(page: int, n: nat)
  {
    page == 1 || 1 <= page <= TotalPages(n)
  }

  /** A page in range is never empty unless nothing matched. */
  lemma PageInRangeNonEmpty<T>(filtered: seq<T>, page: int)
    requires PageInRange(page, |filtered|)
    ensures PageItems(filtered, page) == [] <==> filtered == []
  {
    PageItemsShape(filtered, page);
    if filtered != [] {
      assert (page - 1) * ItemsPerPage < |filtered|;
    }
  }

  /** The pages from `page` up to the last one, concatenated. */
  function PagesFrom<T>(filtered: seq<T>, page: nat): seq<T>
    requires page >= 1
    decreases TotalPages(|filtered|) - page
  {
    if page > TotalPages(|filtered|) then []
    else PageItems(filtered, page) + PagesFrom(filtered, page + 1)
  }

  /** Every filtered email is on exactly one page: the pages 1..totalPages, in order, are the list. */
  lemma PagesCoverList<T>(filtered: seq<T>)
    ensures PagesFrom(filtered, 1) == filtered
  {
    PagesFromSuffix(filtered, 1);
  }

  lemma {:induction false} PagesFromSuffix<T>(filtered: seq<T>, page: nat)
    requires page >= 1
    ensures (page - 1) * ItemsPerPage <= |filtered| ==>
      PagesFrom(filtered, page) == filtered[(page - 1) * ItemsPerPage..]
    decreases TotalPages(|filtered|) - page
  {
    if (page - 1) * ItemsPerPage <= |filtered| {
      PageItemsShape(filtered, page);
      if page <= TotalPages(|filtered|) {
        PagesFromSuffix(filtered, page + 1);
        if page * ItemsPerPage <= |filtered| {
          assert filtered[(page - 1) * ItemsPerPage..]
              == filtered[(page - 1) * ItemsPerPage..page * ItemsPerPage] + filtered[page * ItemsPerPage..];
        } else {
          assert PagesFrom(filtered, page + 1) == [];
        }
      } else {
        assert (page - 1) * ItemsPerPage == |filtered|;
      }
    }
  }

  /** The "Showing a to b of n" line of the pager. */
  function ShowingFrom(page: int): int { (page - 1) * ItemsPerPage + 1 }

  function ShowingTo(page: int, n: nat): int
  {
    if page * ItemsPerPage < n then page * ItemsPerPage else n
  }

  /** On a page that exists, the "Showing" line counts exactly the items of that page. */
  lemma ShowingCountsPage<T>(filtered: seq<T>, page: int)
    requires 1 <= page <= TotalPages(|filtered|)
    ensures ShowingTo(page, |filtered|) - ShowingFrom(page) + 1 == |PageItems(filtered, page)|
  {
    PageItemsShape(filtered, page);
  }

  // ---------------------------------------------------------------------------
  // Distinct companies
  // ---------------------------------------------------------------------------

  function Companies(emails: seq<GeneratedEmailData>): (r: seq<string>)
    ensures |r| == |emails|
    ensures forall i :: 0 <= i < |emails| ==> r[i] == emails[i].jobListing.company
  {
    if emails == [] then [] else [emails[0].jobListing.company] + Companies(emails[1..])
  }

  /** `[...new Set(s)]`: the distinct elements of `s` in order of first occurrence. */
  function Distinct(s: seq<string>): (r: seq<string>)
    ensures forall x :: x in r <==> x in s
    ensures forall i, j :: 0 <= i < j < |r| ==> r[i] != r[j]
  {
    if s == [] then []
    else
      var d := Distinct(s[..|s| - 1]);
      assert forall x :: x in s <==> x in s[..|s| - 1] || x == s[|s| - 1];
      if s[|s| - 1] in d then d else d + [s[|s| - 1]]
  }

  /** Index of the first occurrence of `x` in `s`. */
  function FirstIndex<T(==)>(s: seq<T>, x: T): (r: nat)
    requires x in s
    ensures r < |s| && s[r] == x && x !in s[..r]
  {
    if s[0] == x then 0 else 1 + FirstIndex(s[1..], x)
  }

  lemma FirstIndexPrefix<T>(s: seq<T>, x: T, n: nat)
    requires n <= |s| && x in s[..n]
    ensures FirstIndex(s, x) == FirstIndex(s[..n], x)
  {
    var k := FirstIndex(s[..n], x);
    var m := FirstIndex(s, x);
    assert s[..n][..k] == s[..k];
  }

  /** Distinct companies come in the order of their first occurrence. */
  /** Every element of `r` occurs in `s`, and `r` lists them in order of their first occurrence in `s`. */
  predicate InFirstOccurrenceOrder(r: seq<string>, s: seq<string>)
  {
    && (forall x :: x in r ==> x in s)
    && (forall i, j :: 0 <= i < j < |r| ==> FirstIndex(s, r[i]) < FirstIndex(s, r[j]))
  }

  lemma {:induction false} DistinctFirstOccurrenceOrder(s: seq<string>)
    ensures InFirstOccurrenceOrder(Distinct(s), s)
  {
    if s != [] {
      var n := |s| - 1;
      var p := s[..n];
      DistinctFirstOccurrenceOrder(p);
      var d := Distinct(p);
      var r := Distinct(s);
      assert r == (if s[n] in d then d else d + [s[n]]);
      forall i, j | 0 <= i < j < |r|
        ensures FirstIndex(s, r[i]) < FirstIndex(s, r[j])
      {
        assert r[i] == d[i];
        assert d[i] in p;
        FirstIndexPrefix(s, r[i], n);
        assert FirstIndex(s, r[i]) == FirstIndex(p, d[i]);
        if j < |d| {
          assert r[j] == d[j];
          FirstIndexPrefix(s, r[j], n);
          assert InFirstOccurrenceOrder(d, p);
          assert FirstIndex(p, d[i]) < FirstIndex(p, d[j]);
        } else {
          assert r[j] == s[n] && s[n] !in p;
          assert FirstIndex(p, d[i]) < n;
        }
      }
    }
  }

  /** `uniqueCompanies`: the distinct companies of the whole history, not of the filtered view. */
  function UniqueCompanies(emails: seq<GeneratedEmailData>): seq<string>
  {
    Distinct(Companies(emails))
  }

  /**
   * The company selector lists each company of the history once, in order of
   * first appearance, and a company is offered iff some saved email names it.
   */
  lemma UniqueCompaniesSpec(emails: seq<GeneratedEmailData>)
    ensures var u := UniqueCompanies(emails);
      && (forall c :: c in u <==> exists i :: 0 <= i < |emails| && emails[i].jobListing.company == c)
      && (forall i, j :: 0 <= i < j < |u| ==> u[i] != u[j])
      && InFirstOccurrenceOrder(u, Companies(emails))
  {
    var cs := Companies(emails);
    DistinctFirstOccurrenceOrder(cs);
    forall c
      ensures c in cs <==> exists i :: 0 <= i < |emails| && emails[i].jobListing.company == c
    {
      if c in cs {
        var i :| 0 <= i < |cs| && cs[i] == c;
        assert emails[i].jobListing.company == c;
      }
      if exists i :: 0 <= i < |emails| && emails[i].jobListing.company == c {
        var i :| 0 <= i < |emails| && emails[i].jobListing.company == c;
        assert cs[i] == c;
      }
    }
    var u := Distinct(cs);
    assert u == UniqueCompanies(emails);
    assert forall c :: c in u <==> exists i :: 0 <= i < |emails| && emails[i].jobListing.company == c;
    assert forall i, j :: 0 <= i < j < |u| ==> u[i] != u[j];
  }

  // ---------------------------------------------------------------------------
  // The page's state
  // ---------------------------------------------------------------------------

  /**
   * The History component's state. `filteredEmails` and `currentPage` are
   * written only by the effect that refilters when `emails`, `searchTerm` or
   * `filterCompany` change (to a different value: React compares dependencies
   * with Object.is), and by the pager buttons.
   */
  class HistoryPage {
    var emails: seq<GeneratedEmailData>
    var filteredEmails: seq<GeneratedEmailData>
    var searchTerm: string
    var filterCompany: string
    var currentPage: int
    var isLoading: bool

    ghost predicate Valid()
      reads this
    {
      && filteredEmails == FilterEmails(emails, searchTerm, filterCompany)
      && PageInRange(currentPage, |filteredEmails|)
    }

    /** The state after the first render: the mount effect has filtered the empty list. */
    constructor ()
      ensures Valid()
      ensures emails == [] && filteredEmails == [] && searchTerm == "" && filterCompany == ""
      ensures currentPage == 1 && isLoading
    {
      emails := [];
      filteredEmails := [];
      searchTerm := "";
      filterCompany := "";
      currentPage := 1;
      isLoading := true;
    }

    /** `filterEmails`: recompute the view and go back to page 1. */
    method Refilter()
      modifies this`filteredEmails, this`currentPage
      ensures filteredEmails == FilterEmails(emails, searchTerm, filterCompany)
      ensures currentPage == 1
      ensures Valid()
    {
      var filtered := emails;
      if searchTerm != "" {
        filtered := FilterBy(filtered, Search(searchTerm));
      }
      if filterCompany != "" {
        filtered := FilterBy(filtered, Company(filterCompany));
      }
      filteredEmails := filtered;
      currentPage := 1;
    }

    /**
     * `loadHistory`: a fetched list replaces `emails` (a new array, so the view
     * is refiltered); a failed fetch keeps the old state. Loading ends either way.
     */
    method LoadHistory(fetched: Option<seq<GeneratedEmailData>>)
      requires Valid()
      modifies this
      ensures Valid() && !isLoading
      ensures searchTerm == old(searchTerm) && filterCompany == old(filterCompany)
      ensures fetched.Some? ==> emails == fetched.value && currentPage == 1
      ensures fetched.None? ==>
        emails == old(emails) && filteredEmails == old(filteredEmails) && currentPage == old(currentPage)
    {
      if fetched.Some? {
        emails := fetched.value;
        Refilter();
      }
      isLoading := false;
    }

    /** Typing in the search box; a different term refilters and resets the page. */
    method SetSearchTerm(term: string)
      requires Valid()
      modifies this
      ensures Valid()
      ensures searchTerm == term
      ensures emails == old(emails) && filterCompany == old(filterCompany) && isLoading == old(isLoading)
      ensures term == old(searchTerm) ==> currentPage == old(currentPage)
      ensures term != old(searchTerm) ==> currentPage == 1
    {
      if term != searchTerm {
        searchTerm := term;
        Refilter();
      }
    }

    /** Choosing in the company selector; a different company refilters and resets the page. */
    method SetFilterCompany(company: string)
      requires Valid()
      modifies this
      ensures Valid()
      ensures filterCompany == company
      ensures emails == old(emails) && searchTerm == old(searchTerm) && isLoading == old(isLoading)
      ensures company == old(filterCompany) ==> currentPage == old(currentPage)
      ensures company != old(filterCompany) ==> currentPage == 1
    {
      if company != filterCompany {
        filterCompany := company;
        Refilter();
      }
    }

    /** The pager is rendered only when there is more than one page. */
    predicate PagerShown()
      reads this
    {
      TotalPages(|filteredEmails|) > 1
    }

    predicate PreviousDisabled()
      reads this
    {
      currentPage == 1
    }

    predicate NextDisabled()
      reads this
    {
      currentPage == TotalPages(|filteredEmails|)
    }

    /** "Previous", clickable only while shown and enabled. Changing the page never refilters. */
    method ClickPrevious()
      requires Valid() && PagerShown() && !PreviousDisabled()
      modifies this`currentPage
      ensures Valid()
      ensures currentPage == old(currentPage) - 1
    {
      currentPage := currentPage - 1;
    }

    /** "Next", clickable only while shown and enabled. */
    method ClickNext()
      requires Valid() && PagerShown() && !NextDisabled()
      modifies this`currentPage
      ensures Valid()
      ensures currentPage == old(currentPage) + 1
    {
      currentPage := currentPage + 1;
    }

    /** The numbered button `i + 1`, one per page. */
    method ClickPageNumber(i: nat)
      requires Valid() && PagerShown() && i < TotalPages(|filteredEmails|)
      modifies this`currentPage
      ensures Valid()
      ensures currentPage == i + 1
    {
      currentPage := i + 1;
    }
  }
}
