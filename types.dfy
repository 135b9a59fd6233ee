/**
 * The shared declarations of the front end: the contract enums with their
 * numeric values, the record shapes the queries read, the deployed contract
 * addresses and the two Avalanche network descriptors.
 */
module Types {
  import opened Opt

  // ----- Enums -----

  /** The five document kinds; `Code` is the `uint8` the documents contract stores. */
  datatype DocType = Other | Pleading | Judgment | Contract | Evidence {
    function Code(): (n: nat)
      ensures n <= 4
    {
      match this
      case Other => 0
      case Pleading => 1
      case Judgment => 2
      case Contract => 3
      case Evidence => 4
    }

    /** The key's spelling, as `keyof DocType` and the `docType` field hold it. */
    function Name(): string {
      match this
      case Other => "Other"
      case Pleading => "Pleading"
      case Judgment => "Judgment"
      case Contract => "Contract"
      case Evidence => "Evidence"
    }
  }

  /** Escrow case states, numbered 0 to 8 in declaration order. */
  datatype CaseStatus = None | Open | Funded | Accepted | Resolved | Disputed | Released | Refunded | Cancelled {
    function Code(): (n: nat)
      ensures n <= 8
    {
      match this
      case None => 0
      case Open => 1
      case Funded => 2
      case Accepted => 3
      case Resolved => 4
      case Disputed => 5
      case Released => 6
      case Refunded => 7
      case Cancelled => 8
    }
  }

  /** Fundraising campaign states, numbered 0 to 6 in declaration order. */
  datatype CampaignStatus = None | Active | Succeeded | Failed | Cancelled | PayoutReady | Refunding {
    function Code(): (n: nat)
      ensures n <= 6
    {
      match this
      case None => 0
      case Active => 1
      case Succeeded => 2
      case Failed => 3
      case Cancelled => 4
      case PayoutReady => 5
      case Refunding => 6
    }
  }

  /** Practitioner registration states, numbered 0 to 3 in declaration order. */
  datatype PractitionerStatus = None | Pending | Approved | Revoked {
    function Code(): (n: nat)
      ensures n <= 3
    {
      match this
      case None => 0
      case Pending => 1
      case Approved => 2
      case Revoked => 3
    }
  }

  /** The enum member a stored number denotes, if any. */
  function CaseStatusOf(n: int): (r: Option<CaseStatus>)
    ensures r.Some? ==> r.value.Code() == n
    ensures r.None? <==> !(0 <= n <= 8)
  {
    if n == 0 then Some(CaseStatus.None)
    else if n == 1 then Some(CaseStatus.Open)
    else if n == 2 then Some(CaseStatus.Funded)
    else if n == 3 then Some(CaseStatus.Accepted)
    else if n == 4 then Some(CaseStatus.Resolved)
    else if n == 5 then Some(CaseStatus.Disputed)
    else if n == 6 then Some(CaseStatus.Released)
    else if n == 7 then Some(CaseStatus.Refunded)
    else if n == 8 then Some(CaseStatus.Cancelled)
    else Option.None
  }

  function CampaignStatusOf(n: int): (r: Option<CampaignStatus>)
    ensures r.Some? ==> r.value.Code() == n
    ensures r.None? <==> !(0 <= n <= 6)
  {
    if n == 0 then Some(CampaignStatus.None)
    else if n == 1 then Some(CampaignStatus.Active)
    else if n == 2 then Some(CampaignStatus.Succeeded)
    else if n == 3 then Some(CampaignStatus.Failed)
    else if n == 4 then Some(CampaignStatus.Cancelled)
    else if n == 5 then Some(CampaignStatus.PayoutReady)
    else if n == 6 then Some(CampaignStatus.Refunding)
    else Option.None
  }

  function PractitionerStatusOf(n: int): (r: Option<PractitionerStatus>)
    ensures r.Some? ==> r.value.Code() == n
    ensures r.None? <==> !(0 <= n <= 3)
  {
    if n == 0 then Some(PractitionerStatus.None)
    else if n == 1 then Some(PractitionerStatus.Pending)
    else if n == 2 then Some(PractitionerStatus.Approved)
    else if n == 3 then Some(PractitionerStatus.Revoked)
    else Option.None
  }

  /** Each enum's numbering is a bijection onto its range: decoding a member's code gives the member back. */
  lemma EnumCodesRoundTrip(c: CaseStatus, k: CampaignStatus, p: PractitionerStatus)
    ensures CaseStatusOf(c.Code()) == Some(c)
    ensures CampaignStatusOf(k.Code()) == Some(k)
    ensures PractitionerStatusOf(p.Code()) == Some(p)
  {
  }

  // ----- Records -----

  datatype Role = Client | Lawyer | Judge | Admin {
    function Name(): string {
      match this
      case Client => "client"
      case Lawyer => "lawyer"
      case Judge => "judge"
      case Admin => "admin"
    }
  }

  datatype User = User(
    id: string,
    address: string,
    name: string,
    email: Option<string>,
    avatar: Option<string>,
    role: Role,
    verified: bool,
    joinDate: int,
    totalCases: int,
    successRate: int,
    rating: real,
    reviews: int)

  /** The listing filter `role === 'lawyer' && verified`. */
  predicate IsVerifiedLawyer(u: User) {
    u.role == Lawyer && u.verified
  }

  /** The practitioner filter `role === 'judge' && verified`. */
  predicate IsVerifiedJudge(u: User) {
    u.role == Judge && u.verified
  }

  datatype DocumentStatus = Draft | Published | Archived | Revoked

  datatype LegalDocument = LegalDocument(
    id: string,
    title: string,
    docType: DocType,
    caseId: Option<string>,
    content: string,
    cid: string,
    author: string,
    authorName: string,
    createdAt: int,
    updatedAt: int,
    version: int,
    status: DocumentStatus,
    tags: seq<string>,
    fileSize: int,
    fileType: string,
    isPublic: bool)

  datatype Priority = Low | Medium | High | Urgent

  datatype Budget = Budget(min: int, max: int, currency: string)

  datatype Milestone = Milestone(
    id: string,
    title: string,
    description: string,
    dueDate: int,
    completed: bool,
    completedAt: Option<int>)

  /** `status` holds the runtime number, which need not be a declared `CaseStatus` value. */
  datatype LegalCase = LegalCase(
    id: string,
    title: string,
    description: string,
    client: User,
    lawyer: Option<User>,
    status: int,
    category: string,
    priority: Priority,
    budget: Budget,
    deadline: int,
    createdAt: int,
    updatedAt: int,
    documents: seq<LegalDocument>,
    tags: seq<string>,
    location: string,
    court: Option<string>,
    caseNumber: Option<string>,
    progress: int,
    milestones: seq<Milestone>)

  datatype CampaignUpdate = CampaignUpdate(id: string, title: string, content: string, createdAt: int, author: User)

  datatype Donor = Donor(
    address: string,
    name: Option<string>,
    amount: int,
    message: Option<string>,
    donatedAt: int,
    anonymous: bool)

  /** `status` holds the runtime number, which need not be a declared `CampaignStatus` value. */
  datatype FundraisingCampaign = FundraisingCampaign(
    id: string,
    title: string,
    description: string,
    beneficiary: User,
    creator: User,
    goal: int,
    raised: int,
    currency: string,
    deadline: int,
    status: int,
    createdAt: int,
    updatedAt: int,
    category: string,
    tags: seq<string>,
    story: string,
    updates: seq<CampaignUpdate>,
    donors: seq<Donor>,
    beneficiaryIsLawyer: bool,
    caseId: Option<string>)

  datatype ActivityType = CaseCreated | DocumentUploaded | PaymentReceived | DeadlineApproaching | VerificationApproved

  datatype ActivityItem = ActivityItem(
    id: string,
    kind: ActivityType,
    title: string,
    description: string,
    timestamp: int,
    metadata: map<string, string>)

  datatype DashboardStats = DashboardStats(
    totalCases: int,
    activeCases: int,
    completedCases: int,
    totalDocuments: int,
    totalRevenue: int,
    pendingTasks: int,
    upcomingDeadlines: int,
    recentActivity: seq<ActivityItem>)

  /** One day in milliseconds, written `24 * 60 * 60 * 1000` throughout the source. */
  const DAY_MS: int := 24 * 60 * 60 * 1000

  // ----- Contract addresses and networks -----

  /** The address table `CONTRACT_ADDRESSES`; an empty string means "not deployed". */
  datatype ContractAddresses = ContractAddresses(
    mainContract: string,
    readyRoles: string,
    readyDocs: string,
    readyEscrow: string,
    readyFund: string,
    readyListings: string)

  function ContractAddressDefaults(): (a: ContractAddresses)
    ensures a.mainContract != ""
    ensures a.readyRoles == "" && a.readyDocs == "" && a.readyEscrow == ""
    ensures a.readyFund == "" && a.readyListings == ""
  {
    ContractAddresses("0x7113C79e62FC58886325314dF173d6A55fC85902", "", "", "", "", "")
  }

  datatype NetworkConfig = NetworkConfig(chainId: nat, name: string, rpcUrl: string, explorer: string, currency: string)

  const AVALANCHE_MAINNET: NetworkConfig :=
    NetworkConfig(43114, "Avalanche C-Chain", "https://api.avax.network/ext/bc/C/rpc", "https://snowtrace.io/", "AVAX")

  const AVALANCHE_TESTNET: NetworkConfig :=
    NetworkConfig(43113, "Avalanche Fuji Testnet", "https://api.avax-test.network/ext/bc/C/rpc", "https://testnet.snowtrace.io/", "AVAX")

  /** The two chains the wallet code accepts without asking to switch. */
  predicate IsAvalancheChain(chainId: int) {
    chainId == AVALANCHE_MAINNET.chainId || chainId == AVALANCHE_TESTNET.chainId
  }

  /** The ethers signer a connected wallet hands out; only its identity matters here. */
  datatype Signer = JsonRpcSigner(handle: nat)
}
