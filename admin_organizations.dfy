/** The organization rows the admin dashboard receives, and the per-site
    event totals the dashboard's views add up. */
module AdminOrganizations {
  import opened Util

  datatype SiteSummary = SiteSummary(domain: string, eventsLast24Hours: nat, eventsLast30Days: nat)

  datatype Member = Member(email: string, name: string)

  /** An empty plan name stands for a missing one. */
  datatype OrgSubscription = OrgSubscription(planName: string, status: string)

  datatype Organization = Organization(
    id: string,
    name: string,
    sites: seq<SiteSummary>,
    members: seq<Member>,
    subscription: OrgSubscription,
    overMonthlyLimit: bool)

  /** Some site had an event in the last 30 days. */
  predicate HasRecentEvents(org: Organization)
  {
    exists i :: 0 <= i < |org.sites| && org.sites[i].eventsLast30Days > 0
  }

  /** The plan is not the free one. */
  predicate IsPaid(org: Organization)
  {
    org.subscription.planName != "free"
  }

  /** The organization's events in the last 30 days, summed over its sites. */
  function Events30d(sites: seq<SiteSummary>): nat
  {
    if |sites| == 0 then 0 else Events30d(sites[..|sites| - 1]) + sites[|sites| - 1].eventsLast30Days
  }

  /** The same for the last 24 hours. */
  function Events24h(sites: seq<SiteSummary>): nat
  {
    if |sites| == 0 then 0 else Events24h(sites[..|sites| - 1]) + sites[|sites| - 1].eventsLast24Hours
  }

  /** An organization has recent events exactly when its 30-day sum is
      positive. */
  lemma {:induction false} RecentIffPositive(sites: seq<SiteSummary>)
    ensures Events30d(sites) > 0 <==> exists i :: 0 <= i < |sites| && sites[i].eventsLast30Days > 0
    decreases |sites|
  {
    if |sites| > 0 {
      var n := |sites| - 1;
      RecentIffPositive(sites[..n]);
      if exists i :: 0 <= i < |sites| && sites[i].eventsLast30Days > 0 {
        var i :| 0 <= i < |sites| && sites[i].eventsLast30Days > 0;
        if i < n {
          assert sites[..n][i] == sites[i];
        }
      }
      if exists i :: 0 <= i < n && sites[..n][i].eventsLast30Days > 0 {
        var i :| 0 <= i < n && sites[..n][i].eventsLast30Days > 0;
        assert sites[i] == sites[..n][i];
      }
    }
  }

  /** Each organization's 30-day total, in list order. */
  function Events30dOf(orgs: seq<Organization>): (r: seq<int>)
    ensures |r| == |orgs| && forall i :: 0 <= i < |r| ==> r[i] >= 0
  {
    seq(|orgs|, i requires 0 <= i < |orgs| => Events30d(orgs[i].sites))
  }

  /** Each organization's 24-hour total, in list order. */
  function Events24hOf(orgs: seq<Organization>): (r: seq<int>)
    ensures |r| == |orgs| && forall i :: 0 <= i < |r| ==> r[i] >= 0
  {
    seq(|orgs|, i requires 0 <= i < |orgs| => Events24h(orgs[i].sites))
  }

  /** Both total lists split along a split of the organizations. */
  lemma EventsOfAppend(xs: seq<Organization>, ys: seq<Organization>)
    ensures Events30dOf(xs + ys) == Events30dOf(xs) + Events30dOf(ys)
    ensures Events24hOf(xs + ys) == Events24hOf(xs) + Events24hOf(ys)
  {
  }
}
