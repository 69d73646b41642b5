/** The three summary counts (frontend/src/components/SummaryCards.jsx): total
    records, records whose status is 'up', records whose status is 'down'. */
module SummaryCards {
  import opened JsValues
  import Dashboard

  datatype Counts = Counts(total: nat, up: nat, down: nat)

  /** `apps.filter(app => app.status === s).length`. */
  function CountStatus(apps: seq<Record>, s: string): (n: nat)
    ensures n <= |apps|
  {
    if apps == [] then 0
    else (if Get(apps[0], "status") == Str(s) then 1 else 0) + CountStatus(apps[1..], s)
  }

  /** totalApps, upApps and downApps for the `applications` prop. */
  function Summarize(p: ListProp): (c: Counts)
    ensures c == Counts(|AsList(p)|, CountStatus(AsList(p), "up"), CountStatus(AsList(p), "down"))
    ensures c.total == |AsList(p)|
    ensures c.up <= c.total && c.down <= c.total
    ensures p.NotAnArray? ==> c == Counts(0, 0, 0)
  {
    var apps := AsList(p);
    Counts(|apps|, CountStatus(apps, "up"), CountStatus(apps, "down"))
  }

  /** Counting is additive over concatenation and counts a single record exactly when
      its status is the one asked for; together these pin CountStatus down as "the
      number of records with that status". */
  lemma {:induction false} CountSplits(a: seq<Record>, b: seq<Record>, s: string)
    ensures CountStatus(a + b, s) == CountStatus(a, s) + CountStatus(b, s)
    ensures CountStatus([], s) == 0
    ensures forall x :: CountStatus([x], s) == if Get(x, "status") == Str(s) then 1 else 0
  {
    if a != [] {
      CountSplits(a[1..], b, s);
      assert (a + b)[1..] == a[1..] + b;
    } else {
      assert a + b == b;
    }
    forall x ensures CountStatus([x], s) == if Get(x, "status") == Str(s) then 1 else 0 {
      assert [x][1..] == [];
    }
  }

  /** A status is never both 'up' and 'down', so the two counts together never exceed the total. */
  lemma {:induction false} UpPlusDownAtMostTotal(apps: seq<Record>)
    ensures CountStatus(apps, "up") + CountStatus(apps, "down") <= |apps|
  {
    if apps != [] {
      UpPlusDownAtMostTotal(apps[1..]);
    }
  }

  /** When every status is 'up' or 'down' (as after the backend's health check), the
      two counts add up to the total. */
  lemma {:induction false} UpPlusDownIsTotal(apps: seq<Record>)
    requires forall i :: 0 <= i < |apps| ==> Get(apps[i], "status") in {Str("up"), Str("down")}
    ensures CountStatus(apps, "up") + CountStatus(apps, "down") == |apps|
  {
    if apps != [] {
      UpPlusDownIsTotal(apps[1..]);
    }
  }

  /** With the Dashboard's status filter at "Up", the cards it feeds show every
      filtered record as up and none as down. */
  lemma UpFilterCounts(apps: seq<Record>, search: string, domain: string, owner: string)
    ensures var shown := Dashboard.Select(apps, Dashboard.Filters(search, "Up", domain, owner));
            Summarize(Items(shown)) == Counts(|shown|, |shown|, 0)
  {
    var f := Dashboard.Filters(search, "Up", domain, owner);
    var shown := Dashboard.Select(apps, f);
    assert Lower("Up") == "up";
    Dashboard.SelectedMatchFilters(apps, f);
    AllWithStatus(shown, "up");
    NoneWithStatus(shown, "down", "up");
  }

  lemma {:induction false} AllWithStatus(apps: seq<Record>, s: string)
    requires forall x :: x in apps ==> Get(x, "status") == Str(s)
    ensures CountStatus(apps, s) == |apps|
  {
    if apps != [] {
      assert apps[0] in apps;
      assert forall x :: x in apps[1..] ==> x in apps;
      AllWithStatus(apps[1..], s);
    }
  }

  lemma {:induction false} NoneWithStatus(apps: seq<Record>, s: string, other: string)
    requires s != other
    requires forall x :: x in apps ==> Get(x, "status") == Str(other)
    ensures CountStatus(apps, s) == 0
  {
    if apps != [] {
      assert apps[0] in apps;
      assert forall x :: x in apps[1..] ==> x in apps;
      NoneWithStatus(apps[1..], s, other);
    }
  }
}
