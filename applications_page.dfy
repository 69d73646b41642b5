/** The Applications page's search (frontend/src/pages/ApplicationsPage.jsx): the
    same name-or-id test as the Dashboard's search, with no status, domain or owner
    filter, and a search term that may be undefined. */
module ApplicationsPage {
  import opened JsValues
  import opened Dashboard

  /** `(searchTerm || '')`: an undefined term searches for ''. */
  function TermText(term: Option<string>): string {
    if term.Some? then term.value else ""
  }

  /** `applications.filter(...)` with the String() conversion of the name. */
  function Search(apps: seq<Record>, term: Option<string>): seq<Record> {
    if apps == [] then []
    else (if MatchesSearch(apps[0], TermText(term)) then [apps[0]] else []) + Search(apps[1..], term)
  }

  /** `applications.filter(...)` as written: a name that throws aborts the search. */
  function SearchAsWritten(apps: seq<Record>, term: Option<string>): Option<seq<Record>> {
    if apps == [] then Some([])
    else if NameThrows(apps[0]) then None
    else
      match SearchAsWritten(apps[1..], term)
      case None => None
      case Some(rest) => Some((if MatchesSearch(apps[0], TermText(term)) then [apps[0]] else []) + rest)
  }

  /** The page's search is the Dashboard filter with status, domain and owner at "All". */
  lemma {:induction false} SearchIsDashboardFilter(apps: seq<Record>, term: Option<string>)
    ensures Search(apps, term) == Select(apps, Filters(TermText(term), All, All, All))
  {
    if apps != [] {
      SearchIsDashboardFilter(apps[1..], term);
    }
  }

  /** The same holds of the two filters as written, throws included. */
  lemma {:induction false} SearchAsWrittenIsDashboardFilter(apps: seq<Record>, term: Option<string>)
    ensures SearchAsWritten(apps, term) == FilterAsWritten(apps, Filters(TermText(term), All, All, All))
  {
    if apps != [] {
      SearchAsWrittenIsDashboardFilter(apps[1..], term);
    }
  }

  /** The result is a subsequence of the input. */
  lemma SearchIsSubseq(apps: seq<Record>, term: Option<string>)
    ensures IsSubseq(Search(apps, term), apps)
  {
    SearchIsDashboardFilter(apps, term);
    SelectIsSubseq(apps, Filters(TermText(term), All, All, All));
  }

  /** An empty or undefined term keeps every record. */
  lemma EmptyTermKeepsAll(apps: seq<Record>, term: Option<string>)
    requires term == None || term == Some("")
    ensures Search(apps, term) == apps
  {
    SearchIsDashboardFilter(apps, term);
    DefaultsKeepAll(apps);
  }

  /** A record is kept exactly when it is in the input and its lower-cased name or id
      contains the lower-cased term. */
  lemma SearchMembers(apps: seq<Record>, term: Option<string>)
    ensures forall x :: x in Search(apps, term) <==>
              x in apps && (Contains(NameText(x), Lower(TermText(term))) || Contains(IdText(x), Lower(TermText(term))))
  {
    SearchIsDashboardFilter(apps, term);
    SelectMembers(apps, Filters(TermText(term), All, All, All));
  }
}
