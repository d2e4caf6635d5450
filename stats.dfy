/** The aggregation half of get_stats (src/lib.rs:188-241): pure folds over
    the rows the database hands back. */
module Stats {
  import opened Wrappers
  import opened Models

  /** The summary served for a name. */
  datatype AggregateStat = AggregateStat(
    name: string,
    createdOn: NaiveDateTime,
    totalVisits: int,
    visitsPerDay: map<NaiveDate, int>,
    uniqueVisitors: int)

  /** Sum of the per-row visit counts. */
  function TotalVisits(rows: seq<AggregateVisits>): int
  {
    if rows == [] then 0 else rows[0].visitCount + TotalVisits(rows[1..])
  }

  /** Collecting (date, count) pairs into a hash map: a later pair for the
      same date overwrites an earlier one. */
  function VisitsPerDay(rows: seq<AggregateVisits>): map<NaiveDate, int>
  {
    if rows == [] then map[]
    else
      var last := rows[|rows| - 1];
      VisitsPerDay(rows[..|rows| - 1])[last.visitDate.date := last.visitCount]
  }

  /** The distinct ip_addr values among the visits of `name`; a visit with
      no address contributes the single value None. */
  function DistinctIps(visits: seq<Visit>, name: string): set<Option<string>>
  {
    if visits == [] then {}
    else
      var last := visits[|visits| - 1];
      DistinctIps(visits[..|visits| - 1], name) + (if last.name == name then {last.ipAddr} else {})
  }

  /** COUNT(*) over SELECT DISTINCT ip_addr for the name. */
  function UniqueVisitors(visits: seq<Visit>, name: string): nat
  {
    |DistinctIps(visits, name)|
  }

  /** Number of visit rows recorded for `name`. */
  function VisitCount(visits: seq<Visit>, name: string): nat
  {
    if visits == [] then 0
    else VisitCount(visits[..|visits| - 1], name) + (if visits[|visits| - 1].name == name then 1 else 0)
  }

  /** Some visit of `name` came from `ip`. */
  ghost predicate SeenFrom(visits: seq<Visit>, name: string, ip: Option<string>)
  {
    exists i :: 0 <= i < |visits| && visits[i].name == name && visits[i].ipAddr == ip
  }

  /** The total over two batches of rows is the sum of their totals. */
  lemma {:induction false} TotalVisitsAppend(a: seq<AggregateVisits>, b: seq<AggregateVisits>)
    ensures TotalVisits(a + b) == TotalVisits(a) + TotalVisits(b)
  {
    if a == [] {
      assert a + b == b;
    } else {
      assert (a + b)[1..] == a[1..] + b;
      TotalVisitsAppend(a[1..], b);
    }
  }

  /** Counts that are never negative give a total that bounds each of them. */
  lemma {:induction false} TotalVisitsBoundsEachRow(rows: seq<AggregateVisits>, i: nat)
    requires i < |rows|
    requires forall k :: 0 <= k < |rows| ==> rows[k].visitCount >= 0
    ensures 0 <= rows[i].visitCount <= TotalVisits(rows)
  {
    if i > 0 {
      TotalVisitsBoundsEachRow(rows[1..], i - 1);
    } else if |rows| > 1 {
      TotalVisitsNonNegative(rows[1..]);
    }
  }

  lemma {:induction false} TotalVisitsNonNegative(rows: seq<AggregateVisits>)
    requires forall k :: 0 <= k < |rows| ==> rows[k].visitCount >= 0
    ensures TotalVisits(rows) >= 0
  {
    if rows != [] {
      TotalVisitsNonNegative(rows[1..]);
    }
  }

  /** The per-day map has exactly the dates of the rows as keys. */
  lemma {:induction false} VisitsPerDayKeys(rows: seq<AggregateVisits>)
    ensures VisitsPerDay(rows).Keys == set i | 0 <= i < |rows| :: rows[i].visitDate.date
  {
    if rows != [] {
      var init := rows[..|rows| - 1];
      VisitsPerDayKeys(init);
      assert forall i :: 0 <= i < |init| ==> init[i] == rows[i];
    }
  }

  /** A date's entry is the count of the last row carrying that date; when
      no two rows share a date, every row's count appears unchanged. */
  lemma {:induction false} VisitsPerDayLastWins(rows: seq<AggregateVisits>, i: nat)
    requires i < |rows|
    requires forall j :: i < j < |rows| ==> rows[j].visitDate.date != rows[i].visitDate.date
    ensures rows[i].visitDate.date in VisitsPerDay(rows)
    ensures VisitsPerDay(rows)[rows[i].visitDate.date] == rows[i].visitCount
  {
    if i < |rows| - 1 {
      var init := rows[..|rows| - 1];
      assert init[i] == rows[i];
      VisitsPerDayLastWins(init, i);
    }
  }

  /** An address is counted exactly when some visit of the name came from it. */
  lemma {:induction false} DistinctIpsMembers(visits: seq<Visit>, name: string, ip: Option<string>)
    ensures ip in DistinctIps(visits, name) <==> SeenFrom(visits, name, ip)
  {
    if visits != [] {
      var init := visits[..|visits| - 1];
      DistinctIpsMembers(init, name, ip);
      assert forall i :: 0 <= i < |init| ==> init[i] == visits[i];
      if SeenFrom(visits, name, ip) && !SeenFrom(init, name, ip) {
        var i :| 0 <= i < |visits| && visits[i].name == name && visits[i].ipAddr == ip;
        assert i == |visits| - 1;
      }
    }
  }

  /** Recording one more visit: another name's count is untouched, a repeat
      address leaves the count as it was, and a new address adds exactly one. */
  lemma UniqueVisitorsAfterVisit(visits: seq<Visit>, name: string, v: Visit)
    ensures v.name != name ==> UniqueVisitors(visits + [v], name) == UniqueVisitors(visits, name)
    ensures v.name == name && SeenFrom(visits, name, v.ipAddr) ==>
              UniqueVisitors(visits + [v], name) == UniqueVisitors(visits, name)
    ensures v.name == name && !SeenFrom(visits, name, v.ipAddr) ==>
              UniqueVisitors(visits + [v], name) == UniqueVisitors(visits, name) + 1
  {
    assert (visits + [v])[..|visits|] == visits;
    DistinctIpsMembers(visits, name, v.ipAddr);
    if v.name == name && SeenFrom(visits, name, v.ipAddr) {
      assert DistinctIps(visits + [v], name) == DistinctIps(visits, name);
    }
  }

  /** Every unique visitor stands for at least one visit row. */
  lemma {:induction false} UniqueVisitorsAtMostVisits(visits: seq<Visit>, name: string)
    ensures UniqueVisitors(visits, name) <= VisitCount(visits, name)
  {
    if visits != [] {
      var init := visits[..|visits| - 1];
      UniqueVisitorsAtMostVisits(init, name);
      var last := visits[|visits| - 1];
      if last.name == name {
        assert |DistinctIps(init, name) + {last.ipAddr}| <= |DistinctIps(init, name)| + 1;
      }
    }
  }

  /** Visits that carry no address all count as one visitor: the NULL
      address is one of the distinct values. */
  lemma {:induction false} AnonymousVisitsCountOnce(visits: seq<Visit>, name: string)
    requires forall i :: 0 <= i < |visits| && visits[i].name == name ==> visits[i].ipAddr.None?
    ensures UniqueVisitors(visits, name) == if VisitCount(visits, name) == 0 then 0 else 1
  {
    if visits != [] {
      var init := visits[..|visits| - 1];
      assert forall i :: 0 <= i < |init| ==> init[i] == visits[i];
      AnonymousVisitsCountOnce(init, name);
      if VisitCount(init, name) > 0 {
        AnonymousDistinctIps(init, name);
      }
    }
  }

  lemma {:induction false} AnonymousDistinctIps(visits: seq<Visit>, name: string)
    requires forall i :: 0 <= i < |visits| && visits[i].name == name ==> visits[i].ipAddr.None?
    ensures DistinctIps(visits, name) <= {None}
  {
    if visits != [] {
      var init := visits[..|visits| - 1];
      assert forall i :: 0 <= i < |init| ==> init[i] == visits[i];
      AnonymousDistinctIps(init, name);
    }
  }
}
