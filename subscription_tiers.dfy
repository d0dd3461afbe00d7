/** The admin table that breaks organizations down by subscription plan:
    how many organizations, and how many events, each plan accounts for. */
module SubscriptionTiers {
  import opened Util
  import opened AdminOrganizations
  import Sorting

  // ---------------------------------------------------------------------------
  // The tally

  /** One plan's accumulated counters. */
  datatype TierTotals = TierTotals(tier: string, count: nat, events24h: nat, events30d: nat)

  /** `planName || "unknown"` */
  function PlanKey(org: Organization): string
  {
    if org.subscription.planName == "" then "unknown" else org.subscription.planName
  }

  /** Where the plan's counters are, if the plan has been seen. */
  function TierIndex(rows: seq<TierTotals>, tier: string): (r: Option<nat>)
    ensures r.Some? ==> r.value < |rows| && rows[r.value].tier == tier
    ensures r.None? ==> forall i :: 0 <= i < |rows| ==> rows[i].tier != tier
    decreases |rows|
  {
    if |rows| == 0 then None
    else if rows[|rows| - 1].tier == tier then Some(|rows| - 1)
    else TierIndex(rows[..|rows| - 1], tier)
  }

  /** One more organization with these event counts. */
  function Bump(t: TierTotals, events24h: nat, events30d: nat): TierTotals
  {
    t.(count := t.count + 1, events24h := t.events24h + events24h, events30d := t.events30d + events30d)
  }

  /** The counters after one more organization: a plan seen for the first
      time is appended, one seen before is bumped in place. */
  function AddOrganization(rows: seq<TierTotals>, org: Organization): seq<TierTotals>
  {
    var key := PlanKey(org);
    match TierIndex(rows, key)
    case None => rows + [Bump(TierTotals(key, 0, 0, 0), Events24h(org.sites), Events30d(org.sites))]
    case Some(i) => rows[i := Bump(rows[i], Events24h(org.sites), Events30d(org.sites))]
  }

  /** The counters after all organizations, in order of first appearance. */
  function Tally(orgs: seq<Organization>): seq<TierTotals>
  {
    if |orgs| == 0 then [] else AddOrganization(Tally(orgs[..|orgs| - 1]), orgs[|orgs| - 1])
  }

  /** The organizations on a plan, and their events. */
  function CountTier(orgs: seq<Organization>, tier: string): nat
  {
    if |orgs| == 0 then 0
    else CountTier(orgs[..|orgs| - 1], tier) + (if PlanKey(orgs[|orgs| - 1]) == tier then 1 else 0)
  }

  function Tier24h(orgs: seq<Organization>, tier: string): nat
  {
    if |orgs| == 0 then 0
    else Tier24h(orgs[..|orgs| - 1], tier) + (if PlanKey(orgs[|orgs| - 1]) == tier then Events24h(orgs[|orgs| - 1].sites) else 0)
  }

  function Tier30d(orgs: seq<Organization>, tier: string): nat
  {
    if |orgs| == 0 then 0
    else Tier30d(orgs[..|orgs| - 1], tier) + (if PlanKey(orgs[|orgs| - 1]) == tier then Events30d(orgs[|orgs| - 1].sites) else 0)
  }

  /** The plans named by the rows, in order. */
  function Tiers(rows: seq<TierTotals>): seq<string>
  {
    seq(|rows|, i requires 0 <= i < |rows| => rows[i].tier)
  }

  /** No plan has two rows. */
  predicate DistinctTiers(rows: seq<TierTotals>)
  {
    forall i, j :: 0 <= i < j < |Tiers(rows)| ==> Tiers(rows)[i] != Tiers(rows)[j]
  }

  /** Each organization's plan, in order. */
  function PlanKeys(orgs: seq<Organization>): seq<string>
  {
    seq(|orgs|, k requires 0 <= k < |orgs| => PlanKey(orgs[k]))
  }

  /** Adding an organization appends its plan when new and otherwise keeps
      the plans as they are. */
  lemma AddOrganizationTiers(rows: seq<TierTotals>, org: Organization)
    ensures Tiers(AddOrganization(rows, org))
            == if PlanKey(org) in Tiers(rows) then Tiers(rows) else Tiers(rows) + [PlanKey(org)]
  {
    var key := PlanKey(org);
    match TierIndex(rows, key)
    case None =>
      assert key !in Tiers(rows);
    case Some(i) =>
      assert Tiers(rows)[i] == key;
  }

  /** Adding an organization bumps the one row of its plan, or appends a
      row for a plan not seen before; no other row changes. */
  lemma AddOrganizationEffect(rows: seq<TierTotals>, org: Organization)
    requires DistinctTiers(rows)
    ensures var r := AddOrganization(rows, org);
            var key := PlanKey(org);
            && |r| == |rows| + (if key in Tiers(rows) then 0 else 1)
            && (forall j :: 0 <= j < |rows| ==>
                  r[j] == if rows[j].tier == key then Bump(rows[j], Events24h(org.sites), Events30d(org.sites)) else rows[j])
            && (key !in Tiers(rows) ==> r[|rows|] == TierTotals(key, 1, Events24h(org.sites), Events30d(org.sites)))
  {
    var key := PlanKey(org);
    match TierIndex(rows, key)
    case None =>
      assert key !in Tiers(rows);
    case Some(i) =>
      assert Tiers(rows)[i] == key;
      forall j | 0 <= j < |rows| && j != i
        ensures rows[j].tier != key
      {
        assert Tiers(rows)[i] == key && Tiers(rows)[j] == rows[j].tier;
        if j < i {
          assert Tiers(rows)[j] != Tiers(rows)[i];
        } else {
          assert Tiers(rows)[i] != Tiers(rows)[j];
        }
      }
  }

  /** The plans of a list of organizations, one more organization at a time. */
  lemma PlanKeysSnoc(orgs: seq<Organization>)
    requires |orgs| > 0
    ensures PlanKeys(orgs) == PlanKeys(orgs[..|orgs| - 1]) + [PlanKey(orgs[|orgs| - 1])]
  {
  }

  /** The tally has one row per plan that occurs, and no other. */
  lemma {:induction false} TallyTiers(orgs: seq<Organization>)
    ensures DistinctTiers(Tally(orgs))
    ensures forall t :: t in Tiers(Tally(orgs)) <==> t in PlanKeys(orgs)
    decreases |orgs|
  {
    if |orgs| > 0 {
      var n := |orgs| - 1;
      var prev := Tally(orgs[..n]);
      TallyTiers(orgs[..n]);
      AddOrganizationTiers(prev, orgs[n]);
      PlanKeysSnoc(orgs);
      var key := PlanKey(orgs[n]);
      assert Tally(orgs) == AddOrganization(prev, orgs[n]);
      if key !in Tiers(prev) {
        AppendNewKeepsDistinct(Tiers(prev), key);
      }
    }
  }

  /** Appending a plan not yet listed keeps the plans distinct. */
  lemma AppendNewKeepsDistinct(ts: seq<string>, key: string)
    requires forall i, j :: 0 <= i < j < |ts| ==> ts[i] != ts[j]
    requires key !in ts
    ensures forall i, j :: 0 <= i < j < |ts + [key]| ==> (ts + [key])[i] != (ts + [key])[j]
  {
    var ts' := ts + [key];
    forall i, j | 0 <= i < j < |ts'|
      ensures ts'[i] != ts'[j]
    {
      if j == |ts| {
        assert ts[i] in ts;
      } else {
        assert ts'[i] == ts[i] && ts'[j] == ts[j];
      }
    }
  }

  /** A plan that no organization has counts nothing. */
  lemma {:induction false} AbsentTierCountsNothing(orgs: seq<Organization>, tier: string)
    requires tier !in PlanKeys(orgs)
    ensures CountTier(orgs, tier) == 0 && Tier24h(orgs, tier) == 0 && Tier30d(orgs, tier) == 0
    decreases |orgs|
  {
    if |orgs| > 0 {
      var n := |orgs| - 1;
      assert PlanKeys(orgs) == PlanKeys(orgs[..n]) + [PlanKey(orgs[n])];
      AbsentTierCountsNothing(orgs[..n], tier);
    }
  }

  /** Row i of the tally holds its plan's organization count and event sums. */
  predicate RowHolds(orgs: seq<Organization>, r: TierTotals)
  {
    r.count == CountTier(orgs, r.tier) && r.events24h == Tier24h(orgs, r.tier) && r.events30d == Tier30d(orgs, r.tier)
  }

  /** The per-plan counters of a list, one more organization at a time. */
  lemma TierCountersSnoc(orgs: seq<Organization>, tier: string)
    requires |orgs| > 0
    ensures var n := |orgs| - 1;
            var hit := PlanKey(orgs[n]) == tier;
            && CountTier(orgs, tier) == CountTier(orgs[..n], tier) + (if hit then 1 else 0)
            && Tier24h(orgs, tier) == Tier24h(orgs[..n], tier) + (if hit then Events24h(orgs[n].sites) else 0)
            && Tier30d(orgs, tier) == Tier30d(orgs[..n], tier) + (if hit then Events30d(orgs[n].sites) else 0)
  {
  }

  /** A row that was right before the last organization is right after
      it, bumped when it is that organization's plan. */
  lemma RowAfterAdd(orgs: seq<Organization>, p: TierTotals)
    requires |orgs| > 0 && RowHolds(orgs[..|orgs| - 1], p)
    ensures var org := orgs[|orgs| - 1];
            RowHolds(orgs, if p.tier == PlanKey(org) then Bump(p, Events24h(org.sites), Events30d(org.sites)) else p)
  {
    TierCountersSnoc(orgs, p.tier);
  }

  /** The row a plan gets when its first organization is the last one. */
  lemma NewRow(orgs: seq<Organization>)
    requires |orgs| > 0
    requires PlanKey(orgs[|orgs| - 1]) !in PlanKeys(orgs[..|orgs| - 1])
    ensures var org := orgs[|orgs| - 1];
            RowHolds(orgs, TierTotals(PlanKey(org), 1, Events24h(org.sites), Events30d(org.sites)))
  {
    var n := |orgs| - 1;
    TierCountersSnoc(orgs, PlanKey(orgs[n]));
    AbsentTierCountsNothing(orgs[..n], PlanKey(orgs[n]));
  }

  /** Each row holds its plan's organization count and event sums. */
  lemma {:induction false} TallyRows(orgs: seq<Organization>)
    ensures forall i :: 0 <= i < |Tally(orgs)| ==> RowHolds(orgs, Tally(orgs)[i])
    decreases |orgs|
  {
    if |orgs| > 0 {
      var n := |orgs| - 1;
      var org := orgs[n];
      var prev := Tally(orgs[..n]);
      TallyRows(orgs[..n]);
      TallyTiers(orgs[..n]);
      AddOrganizationEffect(prev, org);
      var rows := AddOrganization(prev, org);
      assert Tally(orgs) == rows;
      forall i | 0 <= i < |rows|
        ensures RowHolds(orgs, rows[i])
      {
        if i < |prev| {
          RowAfterAdd(orgs, prev[i]);
        } else {
          NewRow(orgs);
        }
      }
    }
  }

  function Counts(rows: seq<TierTotals>): seq<int>
  {
    seq(|rows|, i requires 0 <= i < |rows| => rows[i].count)
  }

  function Sums24h(rows: seq<TierTotals>): seq<int>
  {
    seq(|rows|, i requires 0 <= i < |rows| => rows[i].events24h)
  }

  function Sums30d(rows: seq<TierTotals>): seq<int>
  {
    seq(|rows|, i requires 0 <= i < |rows| => rows[i].events30d)
  }

  /** The plans' counts add up to the number of organizations, and their
      event sums to the grand totals. */
  lemma {:induction false} TallySums(orgs: seq<Organization>)
    ensures Sum(Counts(Tally(orgs))) == |orgs|
    ensures Sum(Sums24h(Tally(orgs))) == Sum(Events24hOf(orgs))
    ensures Sum(Sums30d(Tally(orgs))) == Sum(Events30dOf(orgs))
    decreases |orgs|
  {
    if |orgs| > 0 {
      var n := |orgs| - 1;
      var prev := Tally(orgs[..n]);
      TallySums(orgs[..n]);
      var org := orgs[n];
      var key := PlanKey(org);
      EventsOfSnoc(orgs, n);
      assert orgs[..n + 1] == orgs;
      assert Tally(orgs) == AddOrganization(prev, org);
      match TierIndex(prev, key)
      case None =>
        SumsAppendRow(prev, Bump(TierTotals(key, 0, 0, 0), Events24h(org.sites), Events30d(org.sites)));
      case Some(i) =>
        SumsUpdateRow(prev, i, Bump(prev[i], Events24h(org.sites), Events30d(org.sites)));
    }
  }

  /** The column sums over one more row. */
  lemma SumsAppendRow(rows: seq<TierTotals>, r: TierTotals)
    ensures Sum(Counts(rows + [r])) == Sum(Counts(rows)) + r.count
    ensures Sum(Sums24h(rows + [r])) == Sum(Sums24h(rows)) + r.events24h
    ensures Sum(Sums30d(rows + [r])) == Sum(Sums30d(rows)) + r.events30d
  {
    assert Counts(rows + [r])[..|rows|] == Counts(rows);
    assert Sums24h(rows + [r])[..|rows|] == Sums24h(rows);
    assert Sums30d(rows + [r])[..|rows|] == Sums30d(rows);
  }

  /** The column sums after replacing one row. */
  lemma SumsUpdateRow(rows: seq<TierTotals>, i: nat, r: TierTotals)
    requires i < |rows|
    ensures Sum(Counts(rows[i := r])) == Sum(Counts(rows)) - rows[i].count + r.count
    ensures Sum(Sums24h(rows[i := r])) == Sum(Sums24h(rows)) - rows[i].events24h + r.events24h
    ensures Sum(Sums30d(rows[i := r])) == Sum(Sums30d(rows)) - rows[i].events30d + r.events30d
  {
    assert Counts(rows[i := r]) == Counts(rows)[i := r.count];
    assert Sums24h(rows[i := r]) == Sums24h(rows)[i := r.events24h];
    assert Sums30d(rows[i := r]) == Sums30d(rows)[i := r.events30d];
    SumUpdate(Counts(rows), i, r.count);
    SumUpdate(Sums24h(rows), i, r.events24h);
    SumUpdate(Sums30d(rows), i, r.events30d);
  }

  /** Creating a plan's counters at zero and then bumping them is
      appending the bumped counters. */
  lemma CreateThenBump(rows: seq<TierTotals>, t: TierTotals, events24h: nat, events30d: nat)
    ensures (rows + [t])[|rows| := Bump(t, events24h, events30d)] == rows + [Bump(t, events24h, events30d)]
  {
  }

  /** The per-organization totals over one more organization. */
  lemma EventsOfSnoc(orgs: seq<Organization>, k: nat)
    requires k < |orgs|
    ensures Sum(Events24hOf(orgs[..k + 1])) == Sum(Events24hOf(orgs[..k])) + Events24h(orgs[k].sites)
    ensures Sum(Events30dOf(orgs[..k + 1])) == Sum(Events30dOf(orgs[..k])) + Events30d(orgs[k].sites)
  {
    assert Events24hOf(orgs[..k + 1])[..k] == Events24hOf(orgs[..k]);
    assert Events30dOf(orgs[..k + 1])[..k] == Events30dOf(orgs[..k]);
  }

  /** The `forEach` over the organizations: a plan's counters are created at
      zero the first time it is seen, then bumped; the grand totals grow
      alongside. */
  method TierData(orgs: seq<Organization>) returns (tierData: seq<TierTotals>, totalEvents24h: nat, totalEvents30d: nat)
    ensures tierData == Tally(orgs)
    ensures totalEvents24h == Sum(Events24hOf(orgs)) && totalEvents30d == Sum(Events30dOf(orgs))
  {
    tierData := [];
    totalEvents24h := 0;
    totalEvents30d := 0;
    for k := 0 to |orgs|
      invariant tierData == Tally(orgs[..k])
      invariant totalEvents24h == Sum(Events24hOf(orgs[..k]))
      invariant totalEvents30d == Sum(Events30dOf(orgs[..k]))
    {
      var org := orgs[k];
      EventsOfSnoc(orgs, k);
      assert orgs[..k + 1][..k] == orgs[..k];
      ghost var expected := AddOrganization(tierData, org);
      var planName := PlanKey(org);
      var found := TierIndex(tierData, planName);
      var i: nat;
      if found.None? {
        CreateThenBump(tierData, TierTotals(planName, 0, 0, 0), Events24h(org.sites), Events30d(org.sites));
        tierData := tierData + [TierTotals(planName, 0, 0, 0)];
        i := |tierData| - 1;
      } else {
        i := found.value;
      }
      var org24h := Events24h(org.sites);
      var org30d := Events30d(org.sites);
      tierData := tierData[i := Bump(tierData[i], org24h, org30d)];
      assert tierData == expected;
      totalEvents24h := totalEvents24h + org24h;
      totalEvents30d := totalEvents30d + org30d;
    }
    assert orgs[..|orgs|] == orgs;
  }

  // ---------------------------------------------------------------------------
  // Percentages

  /** A share in tenths of a percent, rounded half up: `toFixed(1)` of
      `part / whole * 100`. */
  function Tenths(part: nat, whole: nat): nat
    requires whole > 0
  {
    (2000 * part + whole) / (2 * whole)
  }

  /** Tenths of a percent with one decimal, as `toFixed(1)` prints them. */
  function FormatTenths(t: nat): string
  {
    NatToString(t / 10) + "." + [DigitChar(t % 10)]
  }

  /** The guarded percentage: "0.0" when the grand total is zero. */
  function Percent(part: nat, whole: nat): string
  {
    if whole > 0 then FormatTenths(Tenths(part, whole)) else "0.0"
  }

  // ---------------------------------------------------------------------------
  // Rows and their order

  datatype BreakdownRow = BreakdownRow(
    tier: string,
    count: nat,
    countPct: string,
    events24h: nat,
    events24hPct: string,
    events30d: nat,
    events30dPct: string)

  /** The displayed rows; the organization count is never zero here. */
  function ToRows(tally: seq<TierTotals>, totalOrgs: nat, totalEvents24h: nat, totalEvents30d: nat): seq<BreakdownRow>
    requires totalOrgs > 0
  {
    seq(|tally|, i requires 0 <= i < |tally| =>
      BreakdownRow(tally[i].tier,
                   tally[i].count, FormatTenths(Tenths(tally[i].count, totalOrgs)),
                   tally[i].events24h, Percent(tally[i].events24h, totalEvents24h),
                   tally[i].events30d, Percent(tally[i].events30d, totalEvents30d)))
  }

  datatype Column = TierColumn | CountColumn | Events24hColumn | Events30dColumn

  datatype Direction = Asc | Desc

  datatype SortState = SortState(column: Column, direction: Direction)

  /** The table opens sorted by count, largest first. */
  const InitialSort := SortState(CountColumn, Desc)

  /** `handleTierSort`: a second click on the column sorted largest first
      turns it around; any other click sorts that column largest first. */
  function HandleTierSort(prev: SortState, column: Column): SortState
  {
    SortState(column, if prev.column == column && prev.direction == Desc then Asc else Desc)
  }

  /** Clicking a column shows it sorted; a click on another column always
      starts largest first, and two clicks on the current column come back
      to where they started. */
  lemma TierSortClicks(prev: SortState, column: Column)
    ensures HandleTierSort(prev, column).column == column
    ensures prev.column != column ==> HandleTierSort(prev, column).direction == Desc
    ensures prev.column == column ==> HandleTierSort(prev, column).direction != prev.direction
    ensures prev.column == column ==> HandleTierSort(HandleTierSort(prev, column), column) == prev
  {
  }

  /** The column's value; plan names are compared by the locale's collation,
      given as a rank. */
  function ColumnValue(row: BreakdownRow, column: Column, tierRank: string -> int): int
  {
    match column
    case TierColumn => tierRank(row.tier)
    case CountColumn => row.count
    case Events24hColumn => row.events24h
    case Events30dColumn => row.events30d
  }

  /** The comparator `(a - b) * multiplier` as a sort key. */
  function SortKey(row: BreakdownRow, sorting: SortState, tierRank: string -> int): int
  {
    var v := ColumnValue(row, sorting.column, tierRank);
    if sorting.direction == Asc then v else -v
  }

  function SortRows(rows: seq<BreakdownRow>, sorting: SortState, tierRank: string -> int): seq<BreakdownRow>
  {
    Sorting.SortBy(rows, r => SortKey(r, sorting, tierRank))
  }

  /** Sorting keeps the rows and orders the column as the direction says. */
  lemma SortRowsMeaning(rows: seq<BreakdownRow>, sorting: SortState, tierRank: string -> int)
    ensures multiset(SortRows(rows, sorting, tierRank)) == multiset(rows)
    ensures var r := SortRows(rows, sorting, tierRank);
            forall i, j :: 0 <= i < j < |r| ==>
              if sorting.direction == Asc
              then ColumnValue(r[i], sorting.column, tierRank) <= ColumnValue(r[j], sorting.column, tierRank)
              else ColumnValue(r[i], sorting.column, tierRank) >= ColumnValue(r[j], sorting.column, tierRank)
  {
    var r := SortRows(rows, sorting, tierRank);
    assert Sorting.SortedBy(r, x => SortKey(x, sorting, tierRank));
  }

  // ---------------------------------------------------------------------------
  // The breakdown

  /** The grand totals of events over all organizations. */
  function Total24h(orgs: seq<Organization>): nat
  {
    SumNonNegative(Events24hOf(orgs));
    Sum(Events24hOf(orgs))
  }

  function Total30d(orgs: seq<Organization>): nat
  {
    SumNonNegative(Events30dOf(orgs));
    Sum(Events30dOf(orgs))
  }

  /** `subscriptionBreakdown` */
  function Breakdown(organizations: Option<seq<Organization>>, sorting: SortState, tierRank: string -> int): seq<BreakdownRow>
  {
    if organizations.None? || |organizations.value| == 0 then []
    else
      var orgs := organizations.value;
      SortRows(ToRows(Tally(orgs), |orgs|, Total24h(orgs), Total30d(orgs)), sorting, tierRank)
  }

  method SubscriptionBreakdown(organizations: Option<seq<Organization>>, sorting: SortState, tierRank: string -> int)
    returns (rows: seq<BreakdownRow>)
    ensures rows == Breakdown(organizations, sorting, tierRank)
  {
    if organizations.None? || |organizations.value| == 0 {
      return [];
    }
    var tierData, totalEvents24h, totalEvents30d := TierData(organizations.value);
    rows := SortRows(ToRows(tierData, |organizations.value|, totalEvents24h, totalEvents30d), sorting, tierRank);
  }

  /** A row shown is one of the tally's rows with its shares. */
  lemma ShownRow(orgs: seq<Organization>, sorting: SortState, tierRank: string -> int, row: BreakdownRow)
    requires |orgs| > 0
    requires row in Breakdown(Some(orgs), sorting, tierRank)
    ensures exists i :: 0 <= i < |Tally(orgs)| &&
              row == ToRows(Tally(orgs), |orgs|, Total24h(orgs), Total30d(orgs))[i]
  {
    var rows := ToRows(Tally(orgs), |orgs|, Total24h(orgs), Total30d(orgs));
    SortRowsMeaning(rows, sorting, tierRank);
    assert row in multiset(rows);
  }

  /** Every row shown is a plan's tally with its shares: its plan occurs,
      its count and event sums are that plan's, its count is at most the
      number of organizations, and a share is "0.0" whenever its grand
      total is zero. */
  lemma BreakdownRowsMeaning(orgs: seq<Organization>, sorting: SortState, tierRank: string -> int)
    requires |orgs| > 0
    ensures forall row :: row in Breakdown(Some(orgs), sorting, tierRank) ==>
              && RowHolds(orgs, TierTotals(row.tier, row.count, row.events24h, row.events30d))
              && row.tier in PlanKeys(orgs)
              && row.count <= |orgs|
              && (Total24h(orgs) == 0 ==> row.events24hPct == "0.0")
              && (Total30d(orgs) == 0 ==> row.events30dPct == "0.0")
  {
    forall row | row in Breakdown(Some(orgs), sorting, tierRank)
      ensures RowHolds(orgs, TierTotals(row.tier, row.count, row.events24h, row.events30d))
      ensures row.tier in PlanKeys(orgs)
      ensures row.count <= |orgs|
      ensures Total24h(orgs) == 0 ==> row.events24hPct == "0.0"
      ensures Total30d(orgs) == 0 ==> row.events30dPct == "0.0"
    {
      ShownRow(orgs, sorting, tierRank, row);
      var i :| 0 <= i < |Tally(orgs)| &&
        row == ToRows(Tally(orgs), |orgs|, Total24h(orgs), Total30d(orgs))[i];
      TallyRowMeaning(orgs, i);
    }
  }

  /** Row i before sorting: its plan's tally and shares. */
  lemma TallyRowMeaning(orgs: seq<Organization>, i: nat)
    requires |orgs| > 0 && i < |Tally(orgs)|
    ensures var row := ToRows(Tally(orgs), |orgs|, Total24h(orgs), Total30d(orgs))[i];
            && RowHolds(orgs, TierTotals(row.tier, row.count, row.events24h, row.events30d))
            && row.tier in PlanKeys(orgs)
            && row.count <= |orgs|
            && (Total24h(orgs) == 0 ==> row.events24hPct == "0.0")
            && (Total30d(orgs) == 0 ==> row.events30dPct == "0.0")
  {
    var tally := Tally(orgs);
    var row := ToRows(tally, |orgs|, Total24h(orgs), Total30d(orgs))[i];
    TallyRows(orgs);
    TallyTiers(orgs);
    TallySums(orgs);
    assert tally[i] == TierTotals(row.tier, row.count, row.events24h, row.events30d);
    assert Tiers(tally)[i] == row.tier;
    assert Counts(tally)[i] == row.count;
    SumBoundsTerm(Counts(tally), i);
  }

  /** There are as many rows as plans that occur, each plan has its row,
      and the counts add up to the number of organizations. */
  lemma BreakdownCoversAll(orgs: seq<Organization>, sorting: SortState, tierRank: string -> int)
    requires |orgs| > 0
    ensures |Breakdown(Some(orgs), sorting, tierRank)| == |Tally(orgs)|
    ensures DistinctTiers(Tally(orgs)) && Sum(Counts(Tally(orgs))) == |orgs|
    ensures forall t :: t in PlanKeys(orgs) ==>
              exists row :: row in Breakdown(Some(orgs), sorting, tierRank) && row.tier == t
  {
    var tally := Tally(orgs);
    var rows := ToRows(tally, |orgs|, Total24h(orgs), Total30d(orgs));
    SortRowsMeaning(rows, sorting, tierRank);
    TallyTiers(orgs);
    TallySums(orgs);
    var shown := Breakdown(Some(orgs), sorting, tierRank);
    assert |shown| == |rows| by {
      assert |multiset(shown)| == |multiset(rows)|;
    }
    forall t | t in PlanKeys(orgs)
      ensures exists row :: row in shown && row.tier == t
    {
      assert t in Tiers(tally);
      var i :| 0 <= i < |tally| && Tiers(tally)[i] == t;
      assert rows[i] in multiset(shown);
    }
  }

  /** The table is empty exactly when no organizations are loaded or there
      are none. */
  lemma EmptyBreakdown(organizations: Option<seq<Organization>>, sorting: SortState, tierRank: string -> int)
    ensures |Breakdown(organizations, sorting, tierRank)| == 0 <==> organizations.None? || |organizations.value| == 0
  {
    if organizations.Some? && |organizations.value| > 0 {
      var orgs := organizations.value;
      TallySums(orgs);
      assert |Tally(orgs)| > 0;
      BreakdownCoversAll(orgs, sorting, tierRank);
    }
  }
}
