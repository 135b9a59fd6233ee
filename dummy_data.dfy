/**
 * The static fallback datasets. Their timestamps are offsets from the moment
 * the module is loaded (`Date.now()` at load time), which is the parameter
 * `loadTime` here.
 */
module DummyData {
  import opened Opt
  import opened Seqs
  import opened Text
  import opened Types

  // The long literals of the datasets, kept as constants.
  const SARAH_ADDRESS: string := "0x742d35Cc6634C0532925a3b8D4C9db96C4b4d8b6"
  const SARAH_NAME: string := "Sarah Johnson"
  const SARAH_EMAIL: string := "sarah.johnson@lawfirm.com"
  const SARAH_AVATAR: string := "https://images.unsplash.com/photo-1494790108755-2616b612b786?w=150&h=150&fit=crop&crop=face"
  const MICHAEL_ADDRESS: string := "0x8ba1f109551bA432bdf8c998a2F9f8B6E5d55ED6"
  const MICHAEL_EMAIL: string := "michael.chen@legal.com"
  const MICHAEL_AVATAR: string := "https://images.unsplash.com/photo-1507003211169-0a1dd7228f2d?w=150&h=150&fit=crop&crop=face"
  const EMILY_ADDRESS: string := "0x1234567890123456789012345678901234567890"
  const EMILY_NAME: string := "Emily Rodriguez"
  const EMILY_EMAIL: string := "emily.rodriguez@client.com"
  const EMILY_AVATAR: string := "https://images.unsplash.com/photo-1438761681033-6461ffad8d80?w=150&h=150&fit=crop&crop=face"
  const DOC1_TITLE: string := "Contract Agreement - Tech Startup"
  const DOC1_CONTENT: string := "This agreement is made between TechStart Inc. and LegalCorp..."
  const DOC1_CID: string := "QmX123456789abcdef"
  const DOC2_TITLE: string := "Evidence - Financial Records"
  const DOC2_CONTENT: string := "Financial records showing transactions from January to March 2024..."
  const DOC2_CID: string := "QmY987654321fedcba"
  const CASE1_TITLE: string := "Tech Startup Contract Dispute"
  const CASE1_DESCRIPTION: string := "Dispute over intellectual property rights and contract terms in a technology startup acquisition."
  const CASE1_CATEGORY: string := "Intellectual Property"
  const CASE1_LOCATION: string := "San Francisco, CA"
  const CASE1_COURT: string := "Superior Court of California"
  const CASE1_NUMBER: string := "CV-2024-001234"
  const MILESTONE1_TITLE: string := "Initial Filing"
  const MILESTONE1_DESCRIPTION: string := "File complaint with the court"
  const CAMPAIGN1_TITLE: string := "Justice for Small Business"
  const CAMPAIGN1_DESCRIPTION: string := "Help a local business owner fight against corporate bullying and unfair business practices."
  const CAMPAIGN1_STORY: string := "Our client, a hardworking small business owner, has been targeted by a large corporation..."
  const ACTIVITY1_TITLE: string := "New Case Created"
  const ACTIVITY1_DESCRIPTION: string := "Tech Startup Contract Dispute case has been created"

  function SarahJohnson(loadTime: int): User {
    User("1", SARAH_ADDRESS, SARAH_NAME,
         Some(SARAH_EMAIL),
         Some(SARAH_AVATAR),
         Lawyer, true, loadTime - 365 * DAY_MS, 47, 94, 4.8, 23)
  }

  function MichaelChen(loadTime: int): User {
    User("2", MICHAEL_ADDRESS, "Michael Chen",
         Some(MICHAEL_EMAIL),
         Some(MICHAEL_AVATAR),
         Lawyer, true, loadTime - 180 * DAY_MS, 23, 87, 4.6, 15)
  }

  function EmilyRodriguez(loadTime: int): User {
    User("3", EMILY_ADDRESS, EMILY_NAME,
         Some(EMILY_EMAIL),
         Some(EMILY_AVATAR),
         Client, true, loadTime - 90 * DAY_MS, 3, 100, 5.0, 2)
  }

  /** `dummyUsers`: two verified lawyers and one client, with distinct ids. */
  function DummyUsers(loadTime: int): (r: seq<User>)
    ensures |r| == 3
    ensures r[0].id == "1" && r[1].id == "2" && r[2].id == "3"
    ensures IsVerifiedLawyer(r[0]) && IsVerifiedLawyer(r[1]) && !IsVerifiedLawyer(r[2])
    ensures r[2].role == Client
  {
    [SarahJohnson(loadTime), MichaelChen(loadTime), EmilyRodriguez(loadTime)]
  }

  /** No two dummy users share an address, even ignoring case. */
  lemma DummyAddressesDistinct(loadTime: int)
    ensures forall i, j :: 0 <= i < j < 3 ==>
              !EqualIgnoringCase(DummyUsers(loadTime)[i].address, DummyUsers(loadTime)[j].address)
  {
    assert Lower(SARAH_ADDRESS)[2] == '7' && Lower(MICHAEL_ADDRESS)[2] == '8' && Lower(EMILY_ADDRESS)[2] == '1';
  }

  /** `dummyDocuments`: doc1 belongs to case1, doc2 to case2. */
  function DummyDocuments(loadTime: int): (r: seq<LegalDocument>)
    ensures |r| == 2
    ensures r[0].id == "doc1" && r[0].caseId == Some("case1")
    ensures r[1].id == "doc2" && r[1].caseId == Some("case2")
  {
    [ LegalDocument("doc1", DOC1_TITLE, Contract, Some("case1"),
        DOC1_CONTENT, DOC1_CID,
        SARAH_ADDRESS, SARAH_NAME,
        loadTime - 7 * DAY_MS, loadTime - 2 * DAY_MS, 2, Published,
        ["contract", "startup", "tech", "agreement"], 245760, "pdf", false),
      LegalDocument("doc2", DOC2_TITLE, Evidence, Some("case2"),
        DOC2_CONTENT, DOC2_CID,
        MICHAEL_ADDRESS, "Michael Chen",
        loadTime - 14 * DAY_MS, loadTime - 14 * DAY_MS, 1, Published,
        ["evidence", "financial", "records", "transactions"], 512000, "pdf", false) ]
  }

  /** `dummyCases`: one Accepted case, client Emily (user 3), lawyer Sarah (user 1), due 45 days after load. */
  function DummyCases(loadTime: int): (r: seq<LegalCase>)
    ensures |r| == 1
    ensures r[0].status == CaseStatus.Accepted.Code()
    ensures r[0].client == DummyUsers(loadTime)[2] && r[0].lawyer == Some(DummyUsers(loadTime)[0])
    ensures r[0].budget.min <= r[0].budget.max
    ensures r[0].deadline == loadTime + 45 * DAY_MS
  {
    [ LegalCase("case1", CASE1_TITLE,
        CASE1_DESCRIPTION,
        DummyUsers(loadTime)[2], Some(DummyUsers(loadTime)[0]), 3, CASE1_CATEGORY, High,
        Budget(15000, 25000, "USD"), loadTime + 45 * DAY_MS, loadTime - 30 * DAY_MS, loadTime - 2 * DAY_MS,
        [DummyDocuments(loadTime)[0]], ["contract", "startup", "IP", "dispute"], CASE1_LOCATION,
        Some(CASE1_COURT), Some(CASE1_NUMBER), 65,
        [Milestone("milestone1", MILESTONE1_TITLE, MILESTONE1_DESCRIPTION,
                   loadTime - 20 * DAY_MS, true, Some(loadTime - 22 * DAY_MS))]) ]
  }

  /** `dummyCampaigns`: one Active campaign that has raised less than its goal, due 20 days after load. */
  function DummyCampaigns(loadTime: int): (r: seq<FundraisingCampaign>)
    ensures |r| == 1
    ensures r[0].status == CampaignStatus.Active.Code()
    ensures 0 <= r[0].raised <= r[0].goal
    ensures r[0].deadline == loadTime + 20 * DAY_MS
  {
    [ FundraisingCampaign("campaign1", CAMPAIGN1_TITLE,
        CAMPAIGN1_DESCRIPTION,
        DummyUsers(loadTime)[2], DummyUsers(loadTime)[0], 25000, 18750, "USD",
        loadTime + 20 * DAY_MS, 1, loadTime - 40 * DAY_MS, loadTime - 1 * DAY_MS, "Business Law",
        ["small business", "justice", "corporate", "bullying"],
        CAMPAIGN1_STORY,
        [], [], false, Some("case1")) ]
  }

  /** `dummyDashboardStats`: fixed counters and one recent activity item. */
  function DummyDashboardStats(loadTime: int): (r: DashboardStats)
    ensures |r.recentActivity| == 1
    ensures r.completedCases + r.activeCases == r.totalCases
  {
    DashboardStats(47, 12, 35, 156, 125000, 8, 3,
      [ActivityItem("activity1", CaseCreated, ACTIVITY1_TITLE,
                    ACTIVITY1_DESCRIPTION,
                    loadTime - 2 * DAY_MS, map["caseId" := "case1"])])
  }

  /** `getUserById`: the first dummy user with that id, or undefined. */
  function GetUserById(loadTime: int, id: string): (r: Option<User>)
    ensures r.Some? ==> r.value in DummyUsers(loadTime) && r.value.id == id
    ensures r.None? <==> forall i :: 0 <= i < 3 ==> DummyUsers(loadTime)[i].id != id
  {
    Find(DummyUsers(loadTime), (u: User) => u.id == id)
  }

  /** `getUserByAddress`: the first dummy user whose address equals `address` ignoring case. */
  function GetUserByAddress(loadTime: int, address: string): (r: Option<User>)
    ensures r.Some? ==> r.value in DummyUsers(loadTime) && EqualIgnoringCase(r.value.address, address)
    ensures r.None? <==> forall i :: 0 <= i < 3 ==> !EqualIgnoringCase(DummyUsers(loadTime)[i].address, address)
  {
    Find(DummyUsers(loadTime), (u: User) => EqualIgnoringCase(u.address, address))
  }

  /** Each dummy id finds its own user, and the lookup by address does not depend on the address's casing. */
  lemma LookupsFindEachUser(loadTime: int, i: nat, address: string)
    requires i < 3
    ensures GetUserById(loadTime, DummyUsers(loadTime)[i].id) == Some(DummyUsers(loadTime)[i])
    ensures EqualIgnoringCase(address, DummyUsers(loadTime)[i].address) ==>
              GetUserByAddress(loadTime, address) == Some(DummyUsers(loadTime)[i])
  {
    var users := DummyUsers(loadTime);
    var k := FirstIndex(users, (u: User) => u.id == users[i].id);
    assert k == i;
    if EqualIgnoringCase(address, users[i].address) {
      DummyAddressesDistinct(loadTime);
      var k' := FirstIndex(users, (u: User) => EqualIgnoringCase(u.address, address));
      assert k' == i;
    }
  }
}
