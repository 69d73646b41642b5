/** The Dashboard's record filter and its drop-down option lists
    (frontend/src/components/Dashboard.jsx).

    A record is kept when the lower-cased search term occurs in its lower-cased name
    or id, and its status, domain and technical owner match the three filters, where
    the filter value "All" matches everything.

    As written, the name is lower-cased with `(app?.name || '').toLowerCase()`, which
    throws a TypeError when the name is truthy but not a string (a numeric name from
    a spreadsheet upload, say), and the throw escapes the whole filter.
    FilterAsWritten models that; Select is the filter with the name converted by
    String(), which is what the rest of the model uses. */
module Dashboard {
  import opened JsValues

  /** The wildcard filter value. */
  const All: string := "All"

  /** The four pieces of Dashboard state the filter reads. */
  datatype Filters = Filters(search: string, status: string, domain: string, owner: string)

  /** `(app?.name || '').toLowerCase()` as written: None when toLowerCase is called on
      a truthy value that is not a string, which throws. */
  function NameTextAsWritten(app: Record): (r: Option<string>)
    ensures r.None? <==> Truthy(Get(app, "name")) && !Get(app, "name").Str?
  {
    var v := Get(app, "name");
    if !Truthy(v) then Some("")
    else if v.Str? then Some(Lower(v.s))
    else None
  }

  /** The lower-cased name with a truthy non-string name converted by String(). */
  function NameText(app: Record): string {
    var v := Get(app, "name");
    Lower(if Truthy(v) then ToStr(v) else "")
  }

  /** `(app?._id?.toString() || '').toLowerCase()`; toString never throws here. */
  function IdText(app: Record): string {
    var v := Get(app, "_id");
    Lower(if Nullish(v) then "" else ToStr(v))
  }

  /** matchesSearch: the lower-cased term occurs in the name or in the id. */
  predicate MatchesSearch(app: Record, term: string) {
    Contains(NameText(app), Lower(term)) || Contains(IdText(app), Lower(term))
  }

  /** matchesStatus: the filter is "All" or the status equals the lower-cased filter. */
  predicate MatchesStatus(app: Record, status: string) {
    status == All || Get(app, "status") == Str(Lower(status))
  }

  /** matchesDomain / matchesOwner: the filter is "All" or the property equals it. */
  predicate MatchesProp(app: Record, key: string, filter: string) {
    filter == All || Get(app, key) == Str(filter)
  }

  predicate Keep(app: Record, f: Filters) {
    MatchesSearch(app, f.search) && MatchesStatus(app, f.status) &&
    MatchesProp(app, "domain", f.domain) && MatchesProp(app, "technicalOwner", f.owner)
  }

  /** `appList.filter(...)` with the String() conversion of the name. */
  function Select(apps: seq<Record>, f: Filters): seq<Record> {
    if apps == [] then []
    else (if Keep(apps[0], f) then [apps[0]] else []) + Select(apps[1..], f)
  }

  /** `appList.filter(...)` as written: the predicate runs on each record in order and
      a TypeError from a record's name aborts the whole filter. */
  function FilterAsWritten(apps: seq<Record>, f: Filters): Option<seq<Record>> {
    if apps == [] then Some([])
    else
      match NameTextAsWritten(apps[0])
      case None => None
      case Some(_) =>
        match FilterAsWritten(apps[1..], f)
        case None => None
        case Some(rest) => Some((if Keep(apps[0], f) then [apps[0]] else []) + rest)
  }

  /** filteredApplications for the `applications` prop, whatever it is. */
  function FilteredApplications(p: ListProp, f: Filters): seq<Record> {
    Select(AsList(p), f)
  }

  /** A truthy name that is not a string makes toLowerCase throw. */
  predicate NameThrows(app: Record) {
    NameTextAsWritten(app).None?
  }

  /** The filter as written throws exactly when some record's name throws, and
      otherwise gives the same list as Select. */
  lemma {:induction false} AsWrittenAgrees(apps: seq<Record>, f: Filters)
    ensures FilterAsWritten(apps, f).None? <==> exists i :: 0 <= i < |apps| && NameThrows(apps[i])
    ensures FilterAsWritten(apps, f).Some? ==> FilterAsWritten(apps, f).value == Select(apps, f)
  {
    if apps != [] {
      AsWrittenAgrees(apps[1..], f);
      if i :| 0 <= i < |apps[1..]| && NameThrows(apps[1..][i]) {
        assert NameThrows(apps[i + 1]);
      }
      if i :| 0 <= i < |apps| && NameThrows(apps[i]) {
        if i > 0 {
          assert NameThrows(apps[1..][i - 1]);
        }
      }
      if !NameThrows(apps[0]) {
        assert NameTextAsWritten(apps[0]).Some?;
      }
    }
  }

  /** A record named by the number 42 crashes the filter as written, even with every
      filter at its default; the corrected filter keeps it. */
  lemma NumericNameCrashes()
    ensures var app := Record([Field("name", Num(42))]);
            FilterAsWritten([app], Filters("", All, All, All)).None? &&
            Select([app], Filters("", All, All, All)) == [app]
  {
    var app := Record([Field("name", Num(42))]);
    assert NameThrows(app);
    assert Contains(NameText(app), Lower(""));
  }

  /** For a string name the two renderings agree, so only non-string names differ. */
  lemma NameTextAgrees(app: Record)
    requires !NameThrows(app)
    ensures NameTextAsWritten(app) == Some(NameText(app))
  {
  }

  /** The filtered list is a subsequence of the input: order kept, nothing added. */
  lemma {:induction false} SelectIsSubseq(apps: seq<Record>, f: Filters)
    ensures IsSubseq(Select(apps, f), apps)
  {
    if apps != [] {
      SelectIsSubseq(apps[1..], f);
      var rest := Select(apps[1..], f);
      if Keep(apps[0], f) {
        assert Select(apps, f) == [apps[0]] + rest;
        assert Select(apps, f)[1..] == rest;
      } else {
        assert Select(apps, f) == rest;
      }
    }
  }

  /** Each record occurs in the result exactly as often as in the input when it passes
      the predicate, and not at all otherwise. With SelectIsSubseq this fixes the result:
      the only subsequence with these multiplicities is the filtered list. */
  lemma {:induction false} SelectCounts(apps: seq<Record>, f: Filters)
    ensures forall x :: multiset(Select(apps, f))[x] == if Keep(x, f) then multiset(apps)[x] else 0
  {
    if apps != [] {
      SelectCounts(apps[1..], f);
      assert apps == [apps[0]] + apps[1..];
    }
  }

  /** A record is in the result exactly when it is in the input and passes the predicate. */
  lemma {:induction false} SelectMembers(apps: seq<Record>, f: Filters)
    ensures forall x :: x in Select(apps, f) <==> x in apps && Keep(x, f)
  {
    if apps != [] {
      SelectMembers(apps[1..], f);
      assert apps == [apps[0]] + apps[1..];
    }
  }

  /** The defaults (empty search, every filter "All") keep every record. */
  lemma {:induction false} DefaultsKeepAll(apps: seq<Record>)
    ensures Select(apps, Filters("", All, All, All)) == apps
  {
    if apps != [] {
      DefaultsKeepAll(apps[1..]);
      assert Lower("") == "";
      assert Contains(NameText(apps[0]), "");
    }
  }

  /** A record passes the search exactly when the lower-cased term is a slice of its
      lower-cased name or of its lower-cased id, a missing one counting as ''. */
  lemma SearchSemantics(app: Record, term: string)
    ensures MatchesSearch(app, term) <==>
              (exists i :: OccursAt(NameText(app), Lower(term), i)) ||
              (exists i :: OccursAt(IdText(app), Lower(term), i))
    ensures Nullish(Get(app, "name")) ==> NameText(app) == ""
    ensures Nullish(Get(app, "_id")) ==> IdText(app) == ""
  {
    ContainsAt(NameText(app), Lower(term));
    ContainsAt(IdText(app), Lower(term));
  }

  /** With a specific status, domain or owner filter, every kept record carries it. */
  lemma SelectedMatchFilters(apps: seq<Record>, f: Filters)
    ensures f.status != All ==> forall x :: x in Select(apps, f) ==> Get(x, "status") == Str(Lower(f.status))
    ensures f.domain != All ==> forall x :: x in Select(apps, f) ==> Get(x, "domain") == Str(f.domain)
    ensures f.owner != All ==> forall x :: x in Select(apps, f) ==> Get(x, "technicalOwner") == Str(f.owner)
  {
    SelectMembers(apps, f);
  }

  /** `fine` narrows `coarse`: the same search, and each filter either the same or
      specific where coarse says "All". */
  predicate Narrows(fine: Filters, coarse: Filters) {
    fine.search == coarse.search &&
    (coarse.status == All || coarse.status == fine.status) &&
    (coarse.domain == All || coarse.domain == fine.domain) &&
    (coarse.owner == All || coarse.owner == fine.owner)
  }

  /** Replacing "All" by a specific value can only drop records, never add or reorder. */
  lemma {:induction false} NarrowingShrinks(apps: seq<Record>, fine: Filters, coarse: Filters)
    requires Narrows(fine, coarse)
    ensures IsSubseq(Select(apps, fine), Select(apps, coarse))
  {
    if apps != [] {
      NarrowingShrinks(apps[1..], fine, coarse);
      var a, b := Select(apps[1..], fine), Select(apps[1..], coarse);
      if Keep(apps[0], fine) {
        assert Keep(apps[0], coarse);
        assert Select(apps, fine) == [apps[0]] + a;
        assert Select(apps, coarse) == [apps[0]] + b;
        assert Select(apps, fine)[1..] == a && Select(apps, coarse)[1..] == b;
      } else if Keep(apps[0], coarse) {
        assert Select(apps, coarse) == [apps[0]] + b;
        assert Select(apps, fine) == a;
        assert Select(apps, coarse)[1..] == b;
        assert IsSubseq(a, Select(apps, coarse)[1..]);
      } else {
        assert Select(apps, fine) == a;
        assert Select(apps, coarse) == b;
      }
    }
  }

  /** A `applications` prop that is not an array is treated as the empty list. */
  lemma NotAnArrayFiltersToNothing(f: Filters)
    ensures FilteredApplications(NotAnArray, f) == []
  {
  }

  /** `[...new Set(vs)]`: the values of vs, each once, in order of first appearance. */
  function Dedup(vs: seq<Value>): seq<Value> {
    if vs == [] then []
    else
      var prev := Dedup(vs[..|vs| - 1]);
      if vs[|vs| - 1] in prev then prev else prev + [vs[|vs| - 1]]
  }

  /** `appList.map(app => app[key])`. */
  function Column(apps: seq<Record>, key: string): (vs: seq<Value>)
    ensures |vs| == |apps|
    ensures forall i :: 0 <= i < |apps| ==> vs[i] == Get(apps[i], key)
  {
    seq(|apps|, i requires 0 <= i < |apps| => Get(apps[i], key))
  }

  /** allDomains / allTechnicalOwners: "All", then the distinct values of the property. */
  function OptionList(p: ListProp, key: string): seq<Value> {
    [Str(All)] + Dedup(Column(AsList(p), key))
  }

  predicate Distinct(vs: seq<Value>) {
    forall i, j :: 0 <= i < j < |vs| ==> vs[i] != vs[j]
  }

  /** Dedup drops repeats and nothing else: its values are distinct, they are exactly
      the values of the input, and deduplicating a prefix gives a prefix of the result,
      which pins the order to that of first appearance. */
  lemma {:induction false} DedupFacts(vs: seq<Value>)
    ensures Distinct(Dedup(vs))
    ensures forall x :: x in Dedup(vs) <==> x in vs
    ensures forall n :: 0 <= n <= |vs| ==> Dedup(vs[..n]) <= Dedup(vs)
  {
    if vs != [] {
      var init := vs[..|vs| - 1];
      DedupFacts(init);
      assert vs == init + [vs[|vs| - 1]];
      forall n | 0 <= n <= |vs| ensures Dedup(vs[..n]) <= Dedup(vs) {
        if n < |vs| {
          assert vs[..n] == init[..n];
        } else {
          assert vs[..n] == vs;
        }
      }
    }
  }

  /** The domain and owner option lists start with "All", and after it list every value
      the records carry, each once, in order of first appearance. A non-array prop gives
      just ["All"]. */
  lemma OptionListFacts(p: ListProp, key: string)
    ensures OptionList(p, key)[0] == Str(All)
    ensures Distinct(OptionList(p, key)[1..])
    ensures forall x :: x in OptionList(p, key)[1..] <==> exists i :: 0 <= i < |AsList(p)| && Get(AsList(p)[i], key) == x
    ensures p.NotAnArray? ==> OptionList(p, key) == [Str(All)]
  {
    var col := Column(AsList(p), key);
    DedupFacts(col);
    assert OptionList(p, key)[1..] == Dedup(col);
    forall x ensures x in col <==> exists i :: 0 <= i < |AsList(p)| && Get(AsList(p)[i], key) == x {
      if x in col {
        var i :| 0 <= i < |col| && col[i] == x;
      }
    }
  }
}
