/** The four counters above the admin organization list. */
module OrganizationStats {
  import opened Util
  import opened AdminOrganizations

  datatype Stats = Stats(
    totalOrganizations: nat,
    activeOrganizations: nat,
    paidOrganizations: nat,
    totalEventsLast30Days: nat)

  /** `useOrganizationStats` */
  function OrganizationStats(organizations: Option<seq<Organization>>): (r: Stats)
    ensures organizations.None? ==> r == Stats(0, 0, 0, 0)
    ensures organizations.Some? ==>
              && r.totalOrganizations == |organizations.value|
              && r.activeOrganizations <= r.totalOrganizations
              && r.paidOrganizations <= r.totalOrganizations
  {
    match organizations
    case None => Stats(0, 0, 0, 0)
    case Some(orgs) =>
      SumNonNegative(Events30dOf(orgs));
      Stats(|orgs|, |Filter(orgs, HasRecentEvents)|, |Filter(orgs, IsPaid)|, Sum(Events30dOf(orgs)))
  }

  /** No organization is active exactly when none has a site with recent
      events, and all are exactly when each has one; likewise for paid plans.
      The event total is zero exactly when no organization is active. */
  lemma CountersMeaning(orgs: seq<Organization>)
    ensures var s := OrganizationStats(Some(orgs));
            && (s.activeOrganizations == 0 <==> forall o :: o in orgs ==> !HasRecentEvents(o))
            && (s.activeOrganizations == s.totalOrganizations <==> forall o :: o in orgs ==> HasRecentEvents(o))
            && (s.paidOrganizations == 0 <==> forall o :: o in orgs ==> o.subscription.planName == "free")
            && (s.paidOrganizations == s.totalOrganizations <==> forall o :: o in orgs ==> o.subscription.planName != "free")
            && (s.totalEventsLast30Days == 0 <==> s.activeOrganizations == 0)
  {
    FilterEmpty(orgs, HasRecentEvents);
    FilterAll(orgs, HasRecentEvents);
    FilterEmpty(orgs, IsPaid);
    FilterAll(orgs, IsPaid);
    TotalZeroIffNoneActive(orgs);
  }

  /** The event total is zero exactly when no organization has a site with
      events in the last 30 days. */
  lemma {:induction false} TotalZeroIffNoneActive(orgs: seq<Organization>)
    ensures Sum(Events30dOf(orgs)) == 0 <==> forall o :: o in orgs ==> !HasRecentEvents(o)
    decreases |orgs|
  {
    if |orgs| > 0 {
      var n := |orgs| - 1;
      TotalZeroIffNoneActive(orgs[..n]);
      assert Events30dOf(orgs)[..n] == Events30dOf(orgs[..n]);
      SumNonNegative(Events30dOf(orgs[..n]));
      RecentIffPositive(orgs[n].sites);
      assert Sum(Events30dOf(orgs)) == Sum(Events30dOf(orgs[..n])) + Events30d(orgs[n].sites);
      assert HasRecentEvents(orgs[n]) <==> Events30d(orgs[n].sites) > 0;
      assert forall o :: o in orgs <==> o in orgs[..n] || o == orgs[n];
    }
  }

  /** Each counter adds up over a split of the list. */
  lemma StatsAdd(xs: seq<Organization>, ys: seq<Organization>)
    ensures var a, b, c := OrganizationStats(Some(xs)), OrganizationStats(Some(ys)), OrganizationStats(Some(xs + ys));
            && c.totalOrganizations == a.totalOrganizations + b.totalOrganizations
            && c.activeOrganizations == a.activeOrganizations + b.activeOrganizations
            && c.paidOrganizations == a.paidOrganizations + b.paidOrganizations
            && c.totalEventsLast30Days == a.totalEventsLast30Days + b.totalEventsLast30Days
  {
    FilterAppend(xs, ys, HasRecentEvents);
    FilterAppend(xs, ys, IsPaid);
    EventsOfAppend(xs, ys);
    SumAppend(Events30dOf(xs), Events30dOf(ys));
  }
}
