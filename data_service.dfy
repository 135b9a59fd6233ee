/**
 * `DataService`: the read facade of the front end. Each `getAll*` asks the
 * matching contract client from the `ContractService` registry and falls back
 * to the static dataset when the client is absent or its call throws; every
 * other query is a pipeline over those lists.
 *
 * The registry, what the bound clients' calls give back, the module load time
 * and the clock are all parameters.
 */
module DataService {
  import opened Opt
  import opened Seqs
  import opened Text
  import opened Types
  import DummyData
  import ContractService
  import ReadyDocs
  import ReadyEscrow
  import ReadyFund
  import ReadyRoles

  /** What awaiting a bound client's `getAll*` gives: its list, or an exception. */
  datatype Fetched<T> = Threw | Returned(items: seq<T>)

  /** The outcome of each of the four client calls, should the client be bound. */
  datatype Backend = Backend(
    users: Fetched<User>,
    documents: Fetched<LegalDocument>,
    cases: Fetched<LegalCase>,
    campaigns: Fetched<FundraisingCampaign>)

  /** The clients as the `Ready*Service` classes define them: they return their static lists and never throw. */
  function ReadyBackend(loadTime: int): Backend {
    Backend(
      Returned(ReadyRoles.GetAllPractitioners(loadTime)),
      Returned(ReadyDocs.GetAllDocuments(loadTime)),
      Returned(ReadyEscrow.GetAllCases(loadTime)),
      Returned(ReadyFund.GetAllCampaigns(loadTime)))
  }

  /** Everything a `DataService` query depends on besides its arguments. */
  datatype Env = Env(registry: ContractService.Registry, backend: Backend, loadTime: int)

  /** The `try { if (client) return await client.getAll() } catch {}; return fallback` pattern. */
  function WithFallback<T>(bound: bool, fetched: Fetched<T>, fallback: seq<T>): (r: seq<T>)
    ensures !bound ==> r == fallback
    ensures bound && fetched.Returned? ==> r == fetched.items
    ensures bound && fetched.Threw? ==> r == fallback
  {
    if bound then
      match fetched
      case Returned(items) => items
      case Threw => fallback
    else fallback
  }

  // ----- The four lists -----

  /** `getAllUsers`: the roles client's practitioners, else the fallback users. */
  function GetAllUsers(env: Env): seq<User> {
    WithFallback(ContractService.IsBound(env.registry, ContractService.Roles), env.backend.users,
                 DummyData.DummyUsers(env.loadTime))
  }

  /** `getAllDocuments`. */
  function GetAllDocuments(env: Env): seq<LegalDocument> {
    WithFallback(ContractService.IsBound(env.registry, ContractService.Docs), env.backend.documents,
                 DummyData.DummyDocuments(env.loadTime))
  }

  /** `getAllCases`. */
  function GetAllCases(env: Env): seq<LegalCase> {
    WithFallback(ContractService.IsBound(env.registry, ContractService.Escrow), env.backend.cases,
                 DummyData.DummyCases(env.loadTime))
  }

  /** `getAllCampaigns`. */
  function GetAllCampaigns(env: Env): seq<FundraisingCampaign> {
    WithFallback(ContractService.IsBound(env.registry, ContractService.Fund), env.backend.campaigns,
                 DummyData.DummyCampaigns(env.loadTime))
  }

  /** With no client bound, whatever the clients would have returned, the four lists are the fallback datasets. */
  lemma UnboundUsesFallback(env: Env)
    requires env.registry == ContractService.Empty()
    ensures GetAllUsers(env) == DummyData.DummyUsers(env.loadTime)
    ensures GetAllDocuments(env) == DummyData.DummyDocuments(env.loadTime)
    ensures GetAllCases(env) == DummyData.DummyCases(env.loadTime)
    ensures GetAllCampaigns(env) == DummyData.DummyCampaigns(env.loadTime)
  {
  }

  /**
   * With the roles client bound to the ready service, the user list holds the
   * practitioners only, so it lacks the client user that the fallback list
   * includes.
   */
  lemma BoundUsersArePractitioners(env: Env)
    requires ContractService.IsBound(env.registry, ContractService.Roles)
    requires env.backend == ReadyBackend(env.loadTime)
    ensures GetAllUsers(env) == DummyData.DummyUsers(env.loadTime)[..2]
    ensures |GetAllUsers(env)| < |DummyData.DummyUsers(env.loadTime)|
  {
    ReadyRoles.FallbackPractitioners(env.loadTime);
  }

  /** A bound client whose call throws is treated like an absent one. */
  lemma ThrowingClientFallsBack(env: Env)
    requires env.backend == Backend(Threw, Threw, Threw, Threw)
    ensures GetAllUsers(env) == DummyData.DummyUsers(env.loadTime)
    ensures GetAllDocuments(env) == DummyData.DummyDocuments(env.loadTime)
    ensures GetAllCases(env) == DummyData.DummyCases(env.loadTime)
    ensures GetAllCampaigns(env) == DummyData.DummyCampaigns(env.loadTime)
  {
  }

  // ----- Users -----

  /** `getUserById`. */
  function GetUserById(env: Env, id: string): (r: Option<User>)
    ensures FirstMatch(r, GetAllUsers(env), (u: User) => u.id == id)
  {
    Find(GetAllUsers(env), (u: User) => u.id == id)
  }

  /** `getUserByAddress`: addresses compared ignoring case. */
  function GetUserByAddress(env: Env, address: string): (r: Option<User>)
    ensures FirstMatch(r, GetAllUsers(env), (u: User) => EqualIgnoringCase(u.address, address))
  {
    ReadyRoles.UserByAddress(GetAllUsers(env), address)
  }

  /** `getVerifiedLawyers`. */
  function GetVerifiedLawyers(env: Env): (r: seq<User>)
    ensures Selects(r, GetAllUsers(env), IsVerifiedLawyer)
  {
    ReadyRoles.VerifiedLawyers(GetAllUsers(env))
  }

  /** `getVerifiedJudges`. */
  function GetVerifiedJudges(env: Env): (r: seq<User>)
    ensures Selects(r, GetAllUsers(env), IsVerifiedJudge)
  {
    ReadyRoles.VerifiedJudges(GetAllUsers(env))
  }

  /** `searchUsers`: name or role. */
  function SearchUsers(env: Env, query: string): (r: seq<User>)
    ensures Selects(r, GetAllUsers(env), (u: User) => ReadyRoles.UserMatches(u, query))
  {
    ReadyRoles.SearchUsers(GetAllUsers(env), query)
  }

  /** On the fallback users, id "1" and Sarah's address in any casing both find Sarah. */
  lemma FallbackUserLookups(env: Env, address: string)
    requires env.registry == ContractService.Empty()
    requires EqualIgnoringCase(address, DummyData.SARAH_ADDRESS)
    ensures GetUserById(env, "1") == Some(DummyData.DummyUsers(env.loadTime)[0])
    ensures GetUserByAddress(env, address) == Some(DummyData.DummyUsers(env.loadTime)[0])
  {
    DummyData.LookupsFindEachUser(env.loadTime, 0, address);
  }

  /** On the fallback users there are two verified lawyers. */
  lemma FallbackVerifiedLawyers(env: Env)
    requires env.registry == ContractService.Empty()
    ensures |GetVerifiedLawyers(env)| == 2
  {
    var users := DummyData.DummyUsers(env.loadTime);
    assert GetAllUsers(env) == users;
    assert users[1..][1..][1..] == [];
    assert Filter(users[1..][1..], IsVerifiedLawyer) == [];
    assert Filter(users[1..], IsVerifiedLawyer) == [users[1]];
  }

  // ----- Documents -----

  /** `getDocumentById`. */
  function GetDocumentById(env: Env, id: string): (r: Option<LegalDocument>)
    ensures FirstMatch(r, GetAllDocuments(env), (d: LegalDocument) => d.id == id)
  {
    ReadyDocs.DocumentById(GetAllDocuments(env), id)
  }

  /** `getDocumentsByCaseId`. */
  function GetDocumentsByCaseId(env: Env, caseId: string): (r: seq<LegalDocument>)
    ensures Selects(r, GetAllDocuments(env), (d: LegalDocument) => d.caseId == Some(caseId))
  {
    ReadyDocs.DocumentsByCaseId(GetAllDocuments(env), caseId)
  }

  /** `searchDocuments`: title, content or any tag. */
  function SearchDocuments(env: Env, query: string): (r: seq<LegalDocument>)
    ensures Selects(r, GetAllDocuments(env), (d: LegalDocument) => ReadyDocs.DocumentMatches(d, query))
  {
    ReadyDocs.SearchDocuments(GetAllDocuments(env), query)
  }

  /** `getDocumentsByType`: the document's type key compared with the string as given, case and all. */
  function GetDocumentsByType(env: Env, docType: string): (r: seq<LegalDocument>)
    ensures Selects(r, GetAllDocuments(env), (d: LegalDocument) => d.docType.Name() == docType)
  {
    Filter(GetAllDocuments(env), (d: LegalDocument) => d.docType.Name() == docType)
  }

  /** A type name in other casing matches nothing: "contract" finds no `Contract` document. */
  lemma DocumentsByTypeIsCaseSensitive(env: Env)
    ensures GetDocumentsByType(env, "contract") == []
  {
    var docs := GetAllDocuments(env);
    assert forall i :: 0 <= i < |docs| ==> docs[i].docType.Name() != "contract";
  }

  // ----- Cases -----

  /** `getCaseById`. */
  function GetCaseById(env: Env, id: string): (r: Option<LegalCase>)
    ensures FirstMatch(r, GetAllCases(env), (c: LegalCase) => c.id == id)
  {
    ReadyEscrow.CaseById(GetAllCases(env), id)
  }

  /** `getCasesByClient`. */
  function GetCasesByClient(env: Env, clientAddress: string): (r: seq<LegalCase>)
    ensures Selects(r, GetAllCases(env), (c: LegalCase) => EqualIgnoringCase(c.client.address, clientAddress))
  {
    ReadyEscrow.CasesByClient(GetAllCases(env), clientAddress)
  }

  /** `getCasesByLawyer`: a case without a lawyer is never returned. */
  function GetCasesByLawyer(env: Env, lawyerAddress: string): (r: seq<LegalCase>)
    ensures Selects(r, GetAllCases(env), (c: LegalCase) => ReadyEscrow.HasLawyer(c, lawyerAddress))
    ensures forall i :: 0 <= i < |r| ==> r[i].lawyer.Some?
  {
    ReadyEscrow.CasesByLawyer(GetAllCases(env), lawyerAddress)
  }

  /** `getActiveCases`: Accepted or Funded. */
  function GetActiveCases(env: Env): (r: seq<LegalCase>)
    ensures Selects(r, GetAllCases(env), ReadyEscrow.IsActiveCase)
  {
    ReadyEscrow.ActiveCases(GetAllCases(env))
  }

  /** `getCompletedCases`: Resolved. */
  function GetCompletedCases(env: Env): (r: seq<LegalCase>)
    ensures Selects(r, GetAllCases(env), ReadyEscrow.IsCompletedCase)
  {
    ReadyEscrow.CompletedCases(GetAllCases(env))
  }

  /** `searchCases`: title, description, category or any tag. */
  function SearchCases(env: Env, query: string): (r: seq<LegalCase>)
    ensures Selects(r, GetAllCases(env), (c: LegalCase) => ReadyEscrow.CaseMatches(c, query))
  {
    ReadyEscrow.SearchCases(GetAllCases(env), query)
  }

  /** `getCasesByCategory`: whole-string equality ignoring case. */
  function GetCasesByCategory(env: Env, category: string): (r: seq<LegalCase>)
    ensures Selects(r, GetAllCases(env), (c: LegalCase) => EqualIgnoringCase(c.category, category))
  {
    Filter(GetAllCases(env), (c: LegalCase) => EqualIgnoringCase(c.category, category))
  }

  // ----- Campaigns -----

  /** `getCampaignById`. */
  function GetCampaignById(env: Env, id: string): (r: Option<FundraisingCampaign>)
    ensures FirstMatch(r, GetAllCampaigns(env), (c: FundraisingCampaign) => c.id == id)
  {
    ReadyFund.CampaignById(GetAllCampaigns(env), id)
  }

  /** `getCampaignsByCreator`. */
  function GetCampaignsByCreator(env: Env, creatorAddress: string): (r: seq<FundraisingCampaign>)
    ensures Selects(r, GetAllCampaigns(env), (c: FundraisingCampaign) => EqualIgnoringCase(c.creator.address, creatorAddress))
  {
    ReadyFund.CampaignsByCreator(GetAllCampaigns(env), creatorAddress)
  }

  /** `getCampaignsByBeneficiary`. */
  function GetCampaignsByBeneficiary(env: Env, beneficiaryAddress: string): (r: seq<FundraisingCampaign>)
    ensures Selects(r, GetAllCampaigns(env), (c: FundraisingCampaign) => EqualIgnoringCase(c.beneficiary.address, beneficiaryAddress))
  {
    ReadyFund.CampaignsByBeneficiary(GetAllCampaigns(env), beneficiaryAddress)
  }

  /** `getActiveCampaigns`. */
  function GetActiveCampaigns(env: Env): (r: seq<FundraisingCampaign>)
    ensures Selects(r, GetAllCampaigns(env), ReadyFund.IsActiveCampaign)
  {
    ReadyFund.ActiveCampaigns(GetAllCampaigns(env))
  }

  /** `getSuccessfulCampaigns`. */
  function GetSuccessfulCampaigns(env: Env): (r: seq<FundraisingCampaign>)
    ensures Selects(r, GetAllCampaigns(env), ReadyFund.IsSucceededCampaign)
  {
    ReadyFund.SuccessfulCampaigns(GetAllCampaigns(env))
  }

  /** `getFailedCampaigns`. */
  function GetFailedCampaigns(env: Env): (r: seq<FundraisingCampaign>)
    ensures Selects(r, GetAllCampaigns(env), ReadyFund.IsFailedCampaign)
  {
    ReadyFund.FailedCampaigns(GetAllCampaigns(env))
  }

  /** `searchCampaigns`. */
  function SearchCampaigns(env: Env, query: string): (r: seq<FundraisingCampaign>)
    ensures Selects(r, GetAllCampaigns(env), (c: FundraisingCampaign) => ReadyFund.CampaignMatches(c, query))
  {
    ReadyFund.SearchCampaigns(GetAllCampaigns(env), query)
  }

  /** `getCampaignsByCategory`. */
  function GetCampaignsByCategory(env: Env, category: string): (r: seq<FundraisingCampaign>)
    ensures Selects(r, GetAllCampaigns(env), (c: FundraisingCampaign) => EqualIgnoringCase(c.category, category))
  {
    ReadyFund.CampaignsByCategory(GetAllCampaigns(env), category)
  }

  /** `getUrgentCampaigns(daysThreshold)` with the clock reading `now`. */
  function GetUrgentCampaigns(env: Env, now: int, daysThreshold: int): (r: seq<FundraisingCampaign>)
    ensures Selects(r, GetAllCampaigns(env), (c: FundraisingCampaign) => ReadyFund.IsUrgentCampaign(c, now, daysThreshold))
  {
    ReadyFund.UrgentCampaigns(GetAllCampaigns(env), now, daysThreshold)
  }

  // ----- Dashboard -----

  /** `getDashboardStats`: always the fixed dataset, whatever is bound. */
  function GetDashboardStats(env: Env): (st: DashboardStats)
    ensures st == DummyData.DummyDashboardStats(env.loadTime)
  {
    DummyData.DummyDashboardStats(env.loadTime)
  }

  /** `getRecentActivity(limit)` (the default is 10): the first `limit` activity items. */
  function GetRecentActivity(env: Env, limit: int): (r: seq<ActivityItem>)
    ensures IsSubseq(r, GetDashboardStats(env).recentActivity)
    ensures limit >= 0 ==> |r| == Min(limit, |GetDashboardStats(env).recentActivity|)
    ensures r <= GetDashboardStats(env).recentActivity
  {
    var items := GetDashboardStats(env).recentActivity;
    var r := SlicePrefix(items, limit);
    PrefixIsSubseq(r, items);
    r
  }

  /** A case with a deadline still ahead and not yet resolved. */
  predicate IsUpcoming(c: LegalCase, now: int) {
    c.deadline > now && c.status != CaseStatus.Resolved.Code()
  }

  function DeadlineKey(c: LegalCase): real {
    c.deadline as real
  }

  /** `getUpcomingDeadlines(limit)` (the default is 5): the pipeline below over the fetched cases. */
  function GetUpcomingDeadlines(env: Env, now: int, limit: int): (r: seq<LegalCase>)
    ensures limit >= 0 ==> |r| == Min(limit, Count(GetAllCases(env), (c: LegalCase) => IsUpcoming(c, now)))
    ensures SortedBy(r, DeadlineKey)
    ensures forall i :: 0 <= i < |r| ==> IsUpcoming(r[i], now) && r[i] in GetAllCases(env)
    ensures multiset(r) <= multiset(Filter(GetAllCases(env), (c: LegalCase) => IsUpcoming(c, now)))
    ensures forall k :: 0 <= k < |GetAllCases(env)| && IsUpcoming(GetAllCases(env)[k], now) && GetAllCases(env)[k] !in r ==>
              forall i :: 0 <= i < |r| ==> DeadlineKey(r[i]) <= DeadlineKey(GetAllCases(env)[k])
  {
    UpcomingDeadlines(GetAllCases(env), now, limit)
  }

  /**
   * The pipeline of `getUpcomingDeadlines` over a case list: the upcoming
   * cases, soonest first, cut to `limit`; an upcoming case left out is due no
   * sooner than any case kept.
   */
  function UpcomingDeadlines(cases: seq<LegalCase>, now: int, limit: int): (r: seq<LegalCase>)
    ensures limit >= 0 ==> |r| == Min(limit, Count(cases, (c: LegalCase) => IsUpcoming(c, now)))
    ensures SortedBy(r, DeadlineKey)
    ensures forall i :: 0 <= i < |r| ==> IsUpcoming(r[i], now) && r[i] in cases
    ensures multiset(r) <= multiset(Filter(cases, (c: LegalCase) => IsUpcoming(c, now)))
    ensures forall k :: 0 <= k < |cases| && IsUpcoming(cases[k], now) && cases[k] !in r ==>
              forall i :: 0 <= i < |r| ==> DeadlineKey(r[i]) <= DeadlineKey(cases[k])
  {
    FilterSortTake(cases, (c: LegalCase) => IsUpcoming(c, now), DeadlineKey, limit)
  }

  /** The four result lists of `globalSearch`. */
  datatype SearchResults = SearchResults(
    users: seq<User>, documents: seq<LegalDocument>, cases: seq<LegalCase>, campaigns: seq<FundraisingCampaign>)

  /** `globalSearch`: the four searches with the same query (run one after another here). */
  function GlobalSearch(env: Env, query: string): (r: SearchResults)
    ensures Selects(r.users, GetAllUsers(env), (u: User) => ReadyRoles.UserMatches(u, query))
    ensures Selects(r.documents, GetAllDocuments(env), (d: LegalDocument) => ReadyDocs.DocumentMatches(d, query))
    ensures Selects(r.cases, GetAllCases(env), (c: LegalCase) => ReadyEscrow.CaseMatches(c, query))
    ensures Selects(r.campaigns, GetAllCampaigns(env), (c: FundraisingCampaign) => ReadyFund.CampaignMatches(c, query))
  {
    SearchResults(SearchUsers(env, query), SearchDocuments(env, query), SearchCases(env, query), SearchCampaigns(env, query))
  }

  /** The empty query returns all four lists whole. */
  lemma GlobalSearchEmptyQuery(env: Env)
    ensures GlobalSearch(env, "") ==
              SearchResults(GetAllUsers(env), GetAllDocuments(env), GetAllCases(env), GetAllCampaigns(env))
  {
    ReadyRoles.SearchUsersEmptyQuery(GetAllUsers(env));
    ReadyDocs.SearchDocumentsEmptyQuery(GetAllDocuments(env));
    ReadyEscrow.SearchCasesEmptyQuery(GetAllCases(env));
    ReadyFund.SearchCampaignsEmptyQuery(GetAllCampaigns(env));
  }

  // ----- Summary -----

  /** The record `getDataSummary` returns. */
  datatype DataSummary = DataSummary(
    totalUsers: nat, totalDocuments: nat, totalCases: nat, totalCampaigns: nat,
    activeCases: nat, activeCampaigns: nat, totalRevenue: int)

  /** `reduce((sum, c) => sum + c.budget.max, 0)`. */
  function SumBudgetMax(cases: seq<LegalCase>): int {
    if cases == [] then 0 else SumBudgetMax(cases[..|cases| - 1]) + cases[|cases| - 1].budget.max
  }

  /** The revenue fold splits over concatenation, so it is the sum of each case's budget maximum. */
  lemma {:induction false} SumBudgetMaxConcat(a: seq<LegalCase>, b: seq<LegalCase>)
    ensures SumBudgetMax(a + b) == SumBudgetMax(a) + SumBudgetMax(b)
    decreases |b|
  {
    if b == [] {
      assert a + b == a;
    } else {
      var b' := b[..|b| - 1];
      assert (a + b)[..|a + b| - 1] == a + b';
      SumBudgetMaxConcat(a, b');
    }
  }

  /** The sum over a list of cases none of whose budget maximum is negative is not negative. */
  lemma {:induction false} SumBudgetMaxNonNegative(cases: seq<LegalCase>)
    requires forall i :: 0 <= i < |cases| ==> cases[i].budget.max >= 0
    ensures SumBudgetMax(cases) >= 0
    decreases |cases|
  {
    if cases != [] {
      SumBudgetMaxNonNegative(cases[..|cases| - 1]);
    }
  }

  /** `getDataSummary`: the four list lengths, the active counts and the revenue of resolved cases. */
  function GetDataSummary(env: Env): (s: DataSummary)
    ensures s.totalUsers == |GetAllUsers(env)| && s.totalDocuments == |GetAllDocuments(env)|
    ensures s.totalCases == |GetAllCases(env)| && s.totalCampaigns == |GetAllCampaigns(env)|
    ensures s.activeCases == Count(GetAllCases(env), ReadyEscrow.IsActiveCase)
    ensures s.activeCampaigns == Count(GetAllCampaigns(env), ReadyFund.IsActiveCampaign)
    ensures s.totalRevenue == SumBudgetMax(Filter(GetAllCases(env), ReadyEscrow.IsCompletedCase))
    ensures s.activeCases + Count(GetAllCases(env), ReadyEscrow.IsCompletedCase) <= s.totalCases
    ensures s.activeCampaigns <= s.totalCampaigns
  {
    var cases := GetAllCases(env);
    ReadyEscrow.ActiveAndCompletedDisjoint(cases);
    DataSummary(
      |GetAllUsers(env)|, |GetAllDocuments(env)|, |cases|, |GetAllCampaigns(env)|,
      |GetActiveCases(env)|, |GetActiveCampaigns(env)|,
      SumBudgetMax(GetCompletedCases(env)))
  }

  /** With nothing bound the summary counts the fallback data: 3 users, 2 documents, 1 active case, 1 active campaign, no revenue. */
  lemma FallbackSummary(env: Env)
    requires env.registry == ContractService.Empty()
    ensures GetDataSummary(env) == DataSummary(3, 2, 1, 1, 1, 1, 0)
  {
    var cases := GetAllCases(env);
    var campaigns := GetAllCampaigns(env);
    assert cases[1..] == [] && campaigns[1..] == [];
    assert GetCompletedCases(env) == [];
  }

  // ----- Contract status -----

  /** `getContractStatus`: the registry's report. */
  function GetContractStatus(env: Env): (st: ContractService.ContractStatus)
    ensures st.readyDocs == ContractService.IsBound(env.registry, ContractService.Docs)
    ensures st.readyRoles == ContractService.IsBound(env.registry, ContractService.Roles)
    ensures st.readyEscrow == ContractService.IsBound(env.registry, ContractService.Escrow)
    ensures st.readyFund == ContractService.IsBound(env.registry, ContractService.Fund)
    ensures st.readyListings == ContractService.IsBound(env.registry, ContractService.Listings)
  {
    ContractService.Status(env.registry)
  }

  /** The service whose `getAllServices()` key is `name`, if any. */
  function ServiceNamed(name: string): (r: Option<ContractService.ServiceName>)
    ensures r.Some? ==> r.value.Key() == name
    ensures r.None? ==> forall n: ContractService.ServiceName :: n.Key() != name
  {
    if name == "readyDocs" then Some(ContractService.Docs)
    else if name == "readyRoles" then Some(ContractService.Roles)
    else if name == "readyEscrow" then Some(ContractService.Escrow)
    else if name == "readyFund" then Some(ContractService.Fund)
    else if name == "readyListings" then Some(ContractService.Listings)
    else Option.None
  }

  /**
   * `isContractAvailable(serviceName)` as written: the string is cast to a
   * service key, so an unknown name reads a missing property, and
   * `undefined !== null` reports it available.
   */
  function IsContractAvailableAsWritten(env: Env, serviceName: string): (b: bool)
    ensures ServiceNamed(serviceName).Some? ==> (b <==> ContractService.IsBound(env.registry, ServiceNamed(serviceName).value))
    ensures ServiceNamed(serviceName).None? ==> b
  {
    match ServiceNamed(serviceName)
    case Some(n) => ContractService.IsBound(env.registry, n)
    case None => true
  }

  /** With nothing bound at all, an unknown name is still reported available. */
  lemma UnknownContractReportedAvailable(env: Env)
    requires env.registry == ContractService.Empty()
    ensures IsContractAvailableAsWritten(env, "readyVault")
    ensures forall n: ContractService.ServiceName :: !ContractService.IsBound(env.registry, n)
  {
  }

  /** `isContractAvailable` as evidently intended: true exactly for a known service that is bound. */
  function IsContractAvailable(env: Env, serviceName: string): (b: bool)
    ensures b <==> exists n: ContractService.ServiceName :: n.Key() == serviceName && ContractService.IsBound(env.registry, n)
  {
    match ServiceNamed(serviceName)
    case Some(n) => ContractService.IsBound(env.registry, n)
    case None => false
  }
}
