/** The admin list's search box and filter toggles. */
module FilteredOrganizations {
  import opened Util
  import opened AdminOrganizations

  datatype FilterOptions = FilterOptions(
    searchQuery: string,
    showZeroEvents: bool,
    showFreeUsers: bool,
    showOnlyOverLimit: bool)

  /** The lower-cased query occurs in the organization's name, in one of its
      sites' domains, or in one of its members' email or name, all
      lower-cased. `toLowerCase` is JavaScript's full Unicode case mapping,
      supplied by the host. */
  predicate MatchesSearch(org: Organization, lowerQuery: string, toLowerCase: string -> string)
  {
    || Includes(toLowerCase(org.name), lowerQuery)
    || (exists i :: 0 <= i < |org.sites| && Includes(toLowerCase(org.sites[i].domain), lowerQuery))
    || (exists j :: 0 <= j < |org.members| &&
          (Includes(toLowerCase(org.members[j].email), lowerQuery)
           || Includes(toLowerCase(org.members[j].name), lowerQuery)))
  }

  /** Searching is on when the query holds more than blanks (`trim`). */
  predicate Searching(options: FilterOptions)
  {
    Trim(options.searchQuery) != ""
  }

  function OverLimit(org: Organization): bool
  {
    org.overMonthlyLimit
  }

  /** `useFilteredOrganizations`: each enabled filter in turn. The search
      matches the whole lower-cased query, blanks included. */
  function FilterOrganizations(organizations: Option<seq<Organization>>, options: FilterOptions,
                               toLowerCase: string -> string): seq<Organization>
  {
    if organizations.None? then []
    else
      var q := toLowerCase(options.searchQuery);
      var searched := if Searching(options) then Filter(organizations.value, SearchFor(q, toLowerCase))
                      else organizations.value;
      var active := if !options.showZeroEvents then Filter(searched, HasRecentEvents) else searched;
      var paid := if !options.showFreeUsers then Filter(active, IsPaid) else active;
      if options.showOnlyOverLimit then Filter(paid, OverLimit) else paid
  }

  /** The search stage's filter callback. */
  function SearchFor(lowerQuery: string, toLowerCase: string -> string): Organization -> bool
  {
    org => MatchesSearch(org, lowerQuery, toLowerCase)
  }

  /** The conditions an organization must meet to be listed. */
  predicate Kept(org: Organization, options: FilterOptions, toLowerCase: string -> string)
  {
    && (Searching(options) ==> MatchesSearch(org, toLowerCase(options.searchQuery), toLowerCase))
    && (!options.showZeroEvents ==> HasRecentEvents(org))
    && (!options.showFreeUsers ==> IsPaid(org))
    && (options.showOnlyOverLimit ==> org.overMonthlyLimit)
  }

  /** A step of the pipeline: optionally filter, staying a subsequence of
      the original and keeping exactly the members meeting the condition. */
  lemma FilterStep(original: seq<Organization>, before: seq<Organization>, after: seq<Organization>,
                   on: bool, p: Organization -> bool)
    requires after == if on then Filter(before, p) else before
    requires IsSubsequence(before, original)
    ensures IsSubsequence(after, original)
    ensures forall o :: o in after <==> o in before && (on ==> p(o))
  {
    if on {
      FilterIsSubsequence(before, p);
      SubsequenceTransitive(after, before, original);
    }
  }

  /** The pipeline's four stages, with what each keeps. */
  lemma Stages(orgs: seq<Organization>, options: FilterOptions, toLowerCase: string -> string)
    ensures IsSubsequence(FilterOrganizations(Some(orgs), options, toLowerCase), orgs)
    ensures forall o :: (o in FilterOrganizations(Some(orgs), options, toLowerCase)) <==>
              && o in orgs
              && (Searching(options) ==> MatchesSearch(o, toLowerCase(options.searchQuery), toLowerCase))
              && (!options.showZeroEvents ==> HasRecentEvents(o))
              && (!options.showFreeUsers ==> IsPaid(o))
              && (options.showOnlyOverLimit ==> OverLimit(o))
  {
    var q := toLowerCase(options.searchQuery);
    SubsequenceReflexive(orgs);
    var search := SearchFor(q, toLowerCase);
    var searched := if Searching(options) then Filter(orgs, search) else orgs;
    FilterStep(orgs, orgs, searched, Searching(options), search);
    var active := if !options.showZeroEvents then Filter(searched, HasRecentEvents) else searched;
    FilterStep(orgs, searched, active, !options.showZeroEvents, HasRecentEvents);
    var paid := if !options.showFreeUsers then Filter(active, IsPaid) else active;
    FilterStep(orgs, active, paid, !options.showFreeUsers, IsPaid);
    var shown := if options.showOnlyOverLimit then Filter(paid, OverLimit) else paid;
    FilterStep(orgs, paid, shown, options.showOnlyOverLimit, OverLimit);
  }

  /** `if (on) filtered = filtered.filter(p)` after a filter by r is one
      filter by "r, and p when on". */
  lemma {:induction false} StageFuse<T>(xs: seq<T>, r: T -> bool, on: bool, p: T -> bool, both: T -> bool)
    requires forall x :: both(x) == (r(x) && (on ==> p(x)))
    ensures (if on then Filter(Filter(xs, r), p) else Filter(xs, r)) == Filter(xs, both)
    decreases |xs|
  {
    if |xs| > 0 {
      StageFuse(xs[1..], r, on, p, both);
      if on {
        var head := if r(xs[0]) then [xs[0]] else [];
        FilterAppend(head, Filter(xs[1..], r), p);
        if r(xs[0]) {
          assert Filter(head, p) == (if p(xs[0]) then [xs[0]] else []) by {
            assert head[1..] == [];
          }
        }
      }
    }
  }

  /** The conditions of the enabled stages, together. */
  function Enabled4<T>(on1: bool, p1: T -> bool, on2: bool, p2: T -> bool,
                       on3: bool, p3: T -> bool, on4: bool, p4: T -> bool): T -> bool
  {
    x => (on1 ==> p1(x)) && (on2 ==> p2(x)) && (on3 ==> p3(x)) && (on4 ==> p4(x))
  }

  /** Four optional filter stages in a row are one filter by the enabled
      conditions. */
  lemma FourStages<T>(xs: seq<T>, on1: bool, p1: T -> bool, on2: bool, p2: T -> bool,
                      on3: bool, p3: T -> bool, on4: bool, p4: T -> bool)
    ensures var s1 := if on1 then Filter(xs, p1) else xs;
            var s2 := if on2 then Filter(s1, p2) else s1;
            var s3 := if on3 then Filter(s2, p3) else s2;
            var s4 := if on4 then Filter(s3, p4) else s3;
            s4 == Filter(xs, Enabled4(on1, p1, on2, p2, on3, p3, on4, p4))
  {
    var all := (x: T) => true;
    var r1 := (x: T) => all(x) && (on1 ==> p1(x));
    var r2 := (x: T) => r1(x) && (on2 ==> p2(x));
    var r3 := (x: T) => r2(x) && (on3 ==> p3(x));
    var r4 := (x: T) => r3(x) && (on4 ==> p4(x));
    FilterKeepsAll(xs, all);
    StageFuse(xs, all, on1, p1, r1);
    StageFuse(xs, r1, on2, p2, r2);
    StageFuse(xs, r2, on3, p3, r3);
    StageFuse(xs, r3, on4, p4, r4);
    FilterExtensional(xs, r4, Enabled4(on1, p1, on2, p2, on3, p3, on4, p4));
  }

  /** `Kept` as a filter callback. */
  function KeptBy(options: FilterOptions, toLowerCase: string -> string): Organization -> bool
  {
    o => Kept(o, options, toLowerCase)
  }

  /** No list loaded shows nothing; otherwise the list shown is the input
      filtered, in one pass, by every enabled condition: same order, same
      multiplicities. */
  lemma FilterMeaning(organizations: Option<seq<Organization>>, options: FilterOptions, toLowerCase: string -> string)
    ensures organizations.None? ==> FilterOrganizations(organizations, options, toLowerCase) == []
    ensures organizations.Some? ==>
              FilterOrganizations(organizations, options, toLowerCase)
              == Filter(organizations.value, KeptBy(options, toLowerCase))
  {
    if organizations.Some? {
      var orgs := organizations.value;
      var q := toLowerCase(options.searchQuery);
      var search := SearchFor(q, toLowerCase);
      FourStages(orgs, Searching(options), search, !options.showZeroEvents, HasRecentEvents,
                 !options.showFreeUsers, IsPaid, options.showOnlyOverLimit, OverLimit);
      var staged := Enabled4(Searching(options), search, !options.showZeroEvents, HasRecentEvents,
                             !options.showFreeUsers, IsPaid, options.showOnlyOverLimit, OverLimit);
      forall o: Organization
        ensures staged(o) == KeptBy(options, toLowerCase)(o)
      {
        assert search(o) == MatchesSearch(o, q, toLowerCase);
        assert HasRecentEvents(o) && IsPaid(o) && OverLimit(o) ==> Kept(o, options, toLowerCase) == (Searching(options) ==> search(o));
      }
      FilterExtensional(orgs, staged, KeptBy(options, toLowerCase));
    }
  }

  /** With no query, every organization shown and the over-limit filter off,
      the list is passed through unchanged. */
  lemma NoFiltersIsIdentity(organizations: seq<Organization>, query: string, toLowerCase: string -> string)
    requires Trim(query) == ""
    ensures FilterOrganizations(Some(organizations), FilterOptions(query, true, true, false), toLowerCase) == organizations
  {
  }

  /** A query of blanks filters nothing, as if it were empty. */
  lemma BlankQueryIgnored(organizations: seq<Organization>, options: FilterOptions, toLowerCase: string -> string)
    requires Trim(options.searchQuery) == ""
    ensures FilterOrganizations(Some(organizations), options, toLowerCase)
            == FilterOrganizations(Some(organizations), options.(searchQuery := ""), toLowerCase)
  {
    assert Trim("") == "";
  }
}
