/** The read side of `ReadyFundService`: campaign queries over the fallback campaign list. */
module ReadyFund {
  import opened Opt
  import opened Seqs
  import opened Text
  import opened Types
  import DummyData

  /** `getAllCampaigns`: the fallback campaigns. */
  function GetAllCampaigns(loadTime: int): (r: seq<FundraisingCampaign>)
    ensures r == DummyData.DummyCampaigns(loadTime)
    ensures forall i :: 0 <= i < |r| ==> 0 <= r[i].raised <= r[i].goal
  {
    DummyData.DummyCampaigns(loadTime)
  }

  /** `getCampaignById`: the first campaign with that id, or null. */
  function CampaignById(campaigns: seq<FundraisingCampaign>, campaignId: string): (r: Option<FundraisingCampaign>)
    ensures FirstMatch(r, campaigns, (c: FundraisingCampaign) => c.id == campaignId)
  {
    Find(campaigns, (c: FundraisingCampaign) => c.id == campaignId)
  }

  /** `getCampaignsByCreator`: the creator's address compared ignoring case. */
  function CampaignsByCreator(campaigns: seq<FundraisingCampaign>, creatorAddress: string): (r: seq<FundraisingCampaign>)
    ensures Selects(r, campaigns, (c: FundraisingCampaign) => EqualIgnoringCase(c.creator.address, creatorAddress))
  {
    Filter(campaigns, (c: FundraisingCampaign) => EqualIgnoringCase(c.creator.address, creatorAddress))
  }

  /** `getCampaignsByBeneficiary`: the beneficiary's address compared ignoring case. */
  function CampaignsByBeneficiary(campaigns: seq<FundraisingCampaign>, beneficiaryAddress: string): (r: seq<FundraisingCampaign>)
    ensures Selects(r, campaigns, (c: FundraisingCampaign) => EqualIgnoringCase(c.beneficiary.address, beneficiaryAddress))
  {
    Filter(campaigns, (c: FundraisingCampaign) => EqualIgnoringCase(c.beneficiary.address, beneficiaryAddress))
  }

  predicate IsActiveCampaign(c: FundraisingCampaign) {
    c.status == CampaignStatus.Active.Code()
  }

  predicate IsSucceededCampaign(c: FundraisingCampaign) {
    c.status == CampaignStatus.Succeeded.Code()
  }

  predicate IsFailedCampaign(c: FundraisingCampaign) {
    c.status == CampaignStatus.Failed.Code()
  }

  /** `getActiveCampaigns`. */
  function ActiveCampaigns(campaigns: seq<FundraisingCampaign>): (r: seq<FundraisingCampaign>)
    ensures Selects(r, campaigns, IsActiveCampaign)
  {
    Filter(campaigns, IsActiveCampaign)
  }

  /** `getSuccessfulCampaigns`. */
  function SuccessfulCampaigns(campaigns: seq<FundraisingCampaign>): (r: seq<FundraisingCampaign>)
    ensures Selects(r, campaigns, IsSucceededCampaign)
  {
    Filter(campaigns, IsSucceededCampaign)
  }

  /** `getFailedCampaigns`. */
  function FailedCampaigns(campaigns: seq<FundraisingCampaign>): (r: seq<FundraisingCampaign>)
    ensures Selects(r, campaigns, IsFailedCampaign)
  {
    Filter(campaigns, IsFailedCampaign)
  }

  /** The three status lists share no campaign. */
  lemma StatusListsDisjoint(campaigns: seq<FundraisingCampaign>)
    ensures forall c :: c in ActiveCampaigns(campaigns) ==> c !in SuccessfulCampaigns(campaigns) && c !in FailedCampaigns(campaigns)
    ensures forall c :: c in SuccessfulCampaigns(campaigns) ==> c !in FailedCampaigns(campaigns)
  {
    var a, s, f := ActiveCampaigns(campaigns), SuccessfulCampaigns(campaigns), FailedCampaigns(campaigns);
    assert forall i :: 0 <= i < |a| ==> a[i].status == 1;
    assert forall i :: 0 <= i < |s| ==> s[i].status == 2;
    assert forall i :: 0 <= i < |f| ==> f[i].status == 3;
  }

  lemma StatusPredicatesExclusive(c: FundraisingCampaign)
    ensures !(IsActiveCampaign(c) && IsSucceededCampaign(c))
    ensures !(IsActiveCampaign(c) && IsFailedCampaign(c))
    ensures !(IsSucceededCampaign(c) && IsFailedCampaign(c))
  {
  }

  /** Any two of the status lists together hold at most every campaign once. */
  lemma StatusListsLength(campaigns: seq<FundraisingCampaign>)
    ensures |ActiveCampaigns(campaigns)| + |SuccessfulCampaigns(campaigns)| <= |campaigns|
    ensures |ActiveCampaigns(campaigns)| + |FailedCampaigns(campaigns)| <= |campaigns|
    ensures |SuccessfulCampaigns(campaigns)| + |FailedCampaigns(campaigns)| <= |campaigns|
  {
    forall i | 0 <= i < |campaigns|
      ensures !(IsActiveCampaign(campaigns[i]) && IsSucceededCampaign(campaigns[i]))
      ensures !(IsActiveCampaign(campaigns[i]) && IsFailedCampaign(campaigns[i]))
      ensures !(IsSucceededCampaign(campaigns[i]) && IsFailedCampaign(campaigns[i]))
    {
      StatusPredicatesExclusive(campaigns[i]);
    }
    FilterDisjointLength(campaigns, IsActiveCampaign, IsSucceededCampaign);
    FilterDisjointLength(campaigns, IsActiveCampaign, IsFailedCampaign);
    FilterDisjointLength(campaigns, IsSucceededCampaign, IsFailedCampaign);
  }

  /** The search condition: the query in the title, description, category or any tag, ignoring case. */
  predicate CampaignMatches(c: FundraisingCampaign, query: string) {
    MatchesIgnoringCase(c.title, query) || MatchesIgnoringCase(c.description, query) ||
    MatchesIgnoringCase(c.category, query) || AnyMatchesIgnoringCase(c.tags, query)
  }

  /** `searchCampaigns`. */
  function SearchCampaigns(campaigns: seq<FundraisingCampaign>, query: string): (r: seq<FundraisingCampaign>)
    ensures Selects(r, campaigns, (c: FundraisingCampaign) => CampaignMatches(c, query))
  {
    Filter(campaigns, (c: FundraisingCampaign) => CampaignMatches(c, query))
  }

  /** The empty query finds every campaign. */
  lemma SearchCampaignsEmptyQuery(campaigns: seq<FundraisingCampaign>)
    ensures SearchCampaigns(campaigns, "") == campaigns
  {
    forall c | c in campaigns ensures CampaignMatches(c, "") {
      EmptyQueryMatches(c.title);
    }
    FilterAll(campaigns, (c: FundraisingCampaign) => CampaignMatches(c, ""));
  }

  /** `getCampaignsByCategory`: whole-string equality ignoring case, not a substring match. */
  function CampaignsByCategory(campaigns: seq<FundraisingCampaign>, category: string): (r: seq<FundraisingCampaign>)
    ensures Selects(r, campaigns, (c: FundraisingCampaign) => EqualIgnoringCase(c.category, category))
  {
    Filter(campaigns, (c: FundraisingCampaign) => EqualIgnoringCase(c.category, category))
  }

  /** A category query that is a proper part of the category finds the campaign by search but not by category. */
  lemma CategoryIsNotSubstring(c: FundraisingCampaign, query: string)
    requires MatchesIgnoringCase(c.category, query) && |query| < |c.category|
    ensures SearchCampaigns([c], query) == [c]
    ensures CampaignsByCategory([c], query) == []
  {
  }

  /** Active, and the deadline at most `daysThreshold` days ahead; a deadline already past qualifies too. */
  predicate IsUrgentCampaign(c: FundraisingCampaign, now: int, daysThreshold: int)
    ensures IsUrgentCampaign(c, now, daysThreshold) ==> IsActiveCampaign(c)
    ensures IsActiveCampaign(c) && c.deadline <= now && daysThreshold >= 0 ==> IsUrgentCampaign(c, now, daysThreshold)
  {
    IsActiveCampaign(c) && c.deadline - now <= daysThreshold * 24 * 60 * 60 * 1000
  }

  /** `getUrgentCampaigns(daysThreshold)` (the default is 7); `now` is the clock reading. */
  function UrgentCampaigns(campaigns: seq<FundraisingCampaign>, now: int, daysThreshold: int): (r: seq<FundraisingCampaign>)
    ensures Selects(r, campaigns, (c: FundraisingCampaign) => IsUrgentCampaign(c, now, daysThreshold))
  {
    Filter(campaigns, (c: FundraisingCampaign) => IsUrgentCampaign(c, now, daysThreshold))
  }

  /** Urgent campaigns are active ones; every active overdue campaign is urgent for any threshold that is not negative. */
  lemma UrgentIncludesOverdue(campaigns: seq<FundraisingCampaign>, now: int, daysThreshold: int)
    ensures forall c :: c in UrgentCampaigns(campaigns, now, daysThreshold) ==> c in ActiveCampaigns(campaigns)
    ensures daysThreshold >= 0 ==>
              forall i :: 0 <= i < |campaigns| && IsActiveCampaign(campaigns[i]) && campaigns[i].deadline <= now ==>
                campaigns[i] in UrgentCampaigns(campaigns, now, daysThreshold)
  {
    var urgent := UrgentCampaigns(campaigns, now, daysThreshold);
    forall c | c in urgent ensures c in ActiveCampaigns(campaigns) {
      var i :| 0 <= i < |urgent| && urgent[i] == c;
      IsSubseqMembers(urgent, campaigns);
    }
  }

  /** The fallback campaign, 20 days from its deadline at load time, becomes urgent once 13 days have passed. */
  lemma FallbackCampaignUrgency(loadTime: int, now: int)
    ensures UrgentCampaigns(GetAllCampaigns(loadTime), now, 7) ==
              if now >= loadTime + 13 * DAY_MS then GetAllCampaigns(loadTime) else []
  {
    var campaigns := GetAllCampaigns(loadTime);
    assert campaigns[1..] == [];
  }
}
