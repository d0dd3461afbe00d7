/** The add-website dialog: the plan's site limit, when the button is
    disabled, and the form's state as the user edits and submits it. */
module AddSiteForm {
  import opened Util

  // ---------------------------------------------------------------------------
  // The site limit

  datatype Subscription = Subscription(planName: string, isPro: bool)

  /** The free, standard and pro site limits; their values are configuration
      and enter as parameters. */
  datatype SiteLimits = SiteLimits(free: nat, standard: nat, pro: nat)

  /** `getSiteLimit`: a decision chain on the plan name. */
  function GetSiteLimit(subscription: Option<Subscription>, limits: SiteLimits): nat
  {
    match subscription
    case None => limits.free
    case Some(s) =>
      if Includes(s.planName, "standard") then limits.standard
      else if Includes(s.planName, "pro") then limits.pro
      else if s.planName == "appsumo-1" then 3
      else if s.planName == "appsumo-2" then 10
      else if s.planName == "appsumo-3" then 25
      else limits.free
  }

  /** The lifetime-deal plan names contain neither tier word. */
  lemma AppsumoHasNoTier(n: char)
    requires '0' <= n <= '9'
    ensures !Includes("appsumo-" + [n], "standard") && !Includes("appsumo-" + [n], "pro")
  {
    var p := "appsumo-" + [n];
    IncludesAt(p, "standard");
    IncludesAt(p, "pro");
    assert forall j :: 0 <= j < |p| ==> p[j] != 'r';
    forall i | 0 <= i && i + 3 <= |p|
      ensures !OccursAt(p, "pro", i)
    {
      assert p[i..i + 3][1] == p[i + 1] != "pro"[1];
    }
    forall i | 0 <= i && i + 8 <= |p|
      ensures !OccursAt(p, "standard", i)
    {
      assert p[i..i + 8][0] == p[i] != "standard"[0];
    }
  }

  /** The limit the chain gives: no subscription is the free tier; a name
      containing "standard" is the standard tier even when it also contains
      "pro"; a name with neither word and no lifetime deal is the free
      tier. */
  lemma SiteLimitTiers(planName: string, isPro: bool, limits: SiteLimits)
    ensures GetSiteLimit(None, limits) == limits.free
    ensures Includes(planName, "standard") ==> GetSiteLimit(Some(Subscription(planName, isPro)), limits) == limits.standard
    ensures !Includes(planName, "standard") && Includes(planName, "pro") ==>
              GetSiteLimit(Some(Subscription(planName, isPro)), limits) == limits.pro
    ensures !Includes(planName, "standard") && !Includes(planName, "pro")
            && planName != "appsumo-1" && planName != "appsumo-2" && planName != "appsumo-3" ==>
              GetSiteLimit(Some(Subscription(planName, isPro)), limits) == limits.free
  {
  }

  /** The three lifetime deals give 3, 10 and 25 sites whatever the
      configured limits. */
  lemma AppsumoLimits(n: char, isPro: bool, limits: SiteLimits)
    requires '1' <= n <= '3'
    ensures GetSiteLimit(Some(Subscription("appsumo-" + [n], isPro)), limits)
            == if n == '1' then 3 else if n == '2' then 10 else 25
  {
    AppsumoHasNoTier(n);
    var p := "appsumo-" + [n];
    assert p[8] == n && "appsumo-1"[8] == '1' && "appsumo-2"[8] == '2';
    assert p == "appsumo-1" <==> n == '1';
    assert p == "appsumo-2" <==> n == '2';
    assert p == "appsumo-3" <==> n == '3';
  }

  /** `isOverSiteLimit`: in the cloud, the limit is reached by the current
      number of sites (none loaded counts as zero). */
  function IsOverSiteLimit(limit: nat, siteCount: Option<nat>, isCloud: bool): bool
  {
    limit <= (if siteCount.Some? then siteCount.value else 0) && isCloud
  }

  /** `finalDisabled` */
  function FinalDisabled(disabled: bool, overSiteLimit: bool): bool
  {
    disabled || overSiteLimit
  }

  /** Self-hosted is never over the limit; in the cloud one more site never
      brings the user back under it; with no sites loaded only a zero limit
      is reached; the button is enabled exactly when neither the prop nor the
      limit disables it. */
  lemma SiteLimitGate(limit: nat, count: nat, isCloud: bool, disabled: bool)
    ensures !IsOverSiteLimit(limit, Some(count), false)
    ensures IsOverSiteLimit(limit, Some(count), isCloud) ==> IsOverSiteLimit(limit, Some(count + 1), isCloud)
    ensures IsOverSiteLimit(limit, None, isCloud) <==> isCloud && limit == 0
    ensures !FinalDisabled(disabled, IsOverSiteLimit(limit, Some(count), isCloud))
            <==> !disabled && (!isCloud || count < limit)
  {
  }

  // ---------------------------------------------------------------------------
  // Submitting

  /** The arguments `addSite` is called with: domain, name, organization and
      the two flags. */
  datatype AddSiteRequest = AddSiteRequest(
    domain: string,
    name: string,
    organizationId: string,
    isPublic: bool,
    saltUserIds: bool)

  datatype SubmitOutcome =
    | Rejected(message: string)
    | Failed(message: string)
    | Added(siteId: nat)

  const SelectOrganization := "Please select an organization"
  const InvalidDomain := "Invalid domain format. Must be a valid domain like example.com or sub.example.com"

  /** What a submit does with the form's values. `isValidDomain` and
      `normalizeDomain` are the client's helpers, `addSite` the call to the
      server (the new site's id, or the error's text). */
  function Submit(organizationId: Option<string>, domain: string, isPublic: bool, saltUserIds: bool,
                  isValidDomain: string -> bool, normalizeDomain: string -> string,
                  addSite: AddSiteRequest -> Result<nat, string>): SubmitOutcome
  {
    if organizationId.None? || organizationId.value == "" then Rejected(SelectOrganization)
    else if !isValidDomain(domain) then Rejected(InvalidDomain)
    else
      var normalized := normalizeDomain(domain);
      match addSite(AddSiteRequest(normalized, normalized, organizationId.value, isPublic, saltUserIds))
      case Ok(id) => Added(id)
      case Err(e) => Failed(e)
  }

  /** The page a successful submit navigates to. */
  function SitePath(siteId: nat): string
  {
    "/" + NatToString(siteId)
  }

  /** The organization is checked before the domain, and a rejected submit
      never calls the server: its outcome is the same whatever the server
      would answer. */
  lemma SubmitGuards(organizationId: Option<string>, domain: string, isPublic: bool, saltUserIds: bool,
                     isValidDomain: string -> bool, normalizeDomain: string -> string,
                     addSite: AddSiteRequest -> Result<nat, string>, otherServer: AddSiteRequest -> Result<nat, string>)
    ensures organizationId.None? || organizationId == Some("") ==>
              Submit(organizationId, domain, isPublic, saltUserIds, isValidDomain, normalizeDomain, addSite)
              == Rejected(SelectOrganization)
    ensures organizationId.Some? && organizationId.value != "" && !isValidDomain(domain) ==>
              Submit(organizationId, domain, isPublic, saltUserIds, isValidDomain, normalizeDomain, addSite)
              == Rejected(InvalidDomain)
    ensures Submit(organizationId, domain, isPublic, saltUserIds, isValidDomain, normalizeDomain, addSite).Rejected? ==>
              Submit(organizationId, domain, isPublic, saltUserIds, isValidDomain, normalizeDomain, otherServer)
              == Submit(organizationId, domain, isPublic, saltUserIds, isValidDomain, normalizeDomain, addSite)
  {
  }

  /** Past the guards, the server is asked once, with the normalized domain
      as both domain and name and the form's two flags; the submit adds a
      site exactly when the server returns one. */
  lemma SubmitCallsServer(organizationId: string, domain: string, isPublic: bool, saltUserIds: bool,
                          isValidDomain: string -> bool, normalizeDomain: string -> string,
                          addSite: AddSiteRequest -> Result<nat, string>)
    requires organizationId != "" && isValidDomain(domain)
    ensures var request := AddSiteRequest(normalizeDomain(domain), normalizeDomain(domain), organizationId, isPublic, saltUserIds);
            var outcome := Submit(Some(organizationId), domain, isPublic, saltUserIds, isValidDomain, normalizeDomain, addSite);
            && !outcome.Rejected?
            && (outcome.Added? <==> addSite(request).Ok?)
            && (outcome.Added? ==> outcome.siteId == addSite(request).value)
            && (outcome.Failed? ==> outcome.message == addSite(request).error)
  {
  }

  /** The message the form shows after a submit: none on success. */
  function ErrorAfter(outcome: SubmitOutcome): string
  {
    match outcome
    case Added(_) => ""
    case Rejected(m) => m
    case Failed(m) => m
  }

  // ---------------------------------------------------------------------------
  // The form

  class Form {
    var open: bool
    var domain: string
    var isPublic: bool
    var saltUserIds: bool
    var error: string

    /** The fields a fresh form starts with and `resetForm` restores. */
    predicate Cleared()
      reads this
    {
      domain == "" && error == "" && !isPublic && !saltUserIds
    }

    /** Add is disabled while the domain is empty. */
    predicate AddDisabled()
      reads this
    {
      domain == ""
    }

    constructor()
      ensures !open && Cleared()
    {
      open := false;
      domain := "";
      isPublic := false;
      saltUserIds := false;
      error := "";
    }

    /** The domain input stores what was typed, lower-cased by
        `toLowerCase`: JavaScript's full Unicode case mapping, supplied by
        the host. */
    method SetDomain(input: string, toLowerCase: string -> string)
      modifies this
      ensures domain == toLowerCase(input)
      ensures AddDisabled() <==> toLowerCase(input) == ""
      ensures open == old(open) && isPublic == old(isPublic) && saltUserIds == old(saltUserIds) && error == old(error)
    {
      domain := toLowerCase(input);
    }

    method SetIsPublic(on: bool)
      modifies this
      ensures isPublic == on
      ensures open == old(open) && domain == old(domain) && saltUserIds == old(saltUserIds) && error == old(error)
    {
      isPublic := on;
    }

    method SetSaltUserIds(on: bool)
      modifies this
      ensures saltUserIds == on
      ensures open == old(open) && domain == old(domain) && isPublic == old(isPublic) && error == old(error)
    {
      saltUserIds := on;
    }

    /** `resetForm`: back to the fresh values; the dialog stays as it is. */
    method ResetForm()
      modifies this
      ensures Cleared() && open == old(open)
      ensures AddDisabled()
    {
      domain := "";
      error := "";
      isPublic := false;
      saltUserIds := false;
    }

    /** The dialog's open-change handler: opening it resets the form,
        closing it keeps what was typed. */
    method OnOpenChange(isOpen: bool)
      modifies this
      ensures open == isOpen
      ensures isOpen ==> Cleared() && AddDisabled()
      ensures !isOpen ==> domain == old(domain) && error == old(error)
                          && isPublic == old(isPublic) && saltUserIds == old(saltUserIds)
    {
      open := isOpen;
      if isOpen {
        ResetForm();
      }
    }

    /** `handleSubmit`: the error is cleared, then each guard may set it and
        stop; on success the dialog closes and the returned path is where
        the app navigates. The typed values are kept either way. */
    method HandleSubmit(organizationId: Option<string>, isValidDomain: string -> bool,
                        normalizeDomain: string -> string, addSite: AddSiteRequest -> Result<nat, string>)
      returns (outcome: SubmitOutcome, navigateTo: Option<string>)
      modifies this
      ensures outcome == Submit(organizationId, old(domain), old(isPublic), old(saltUserIds),
                                isValidDomain, normalizeDomain, addSite)
      ensures error == ErrorAfter(outcome)
      ensures open == (if outcome.Added? then false else old(open))
      ensures navigateTo == (if outcome.Added? then Some(SitePath(outcome.siteId)) else None)
      ensures domain == old(domain) && isPublic == old(isPublic) && saltUserIds == old(saltUserIds)
    {
      error := "";
      navigateTo := None;
      if organizationId.None? || organizationId.value == "" {
        error := SelectOrganization;
        return Rejected(SelectOrganization), None;
      }
      if !isValidDomain(domain) {
        error := InvalidDomain;
        return Rejected(InvalidDomain), None;
      }
      var normalized := normalizeDomain(domain);
      var response := addSite(AddSiteRequest(normalized, normalized, organizationId.value, isPublic, saltUserIds));
      if response.Err? {
        error := response.error;
        return Failed(response.error), None;
      }
      outcome := Added(response.value);
      navigateTo := Some(SitePath(response.value));
      open := false;
    }
  }
}
