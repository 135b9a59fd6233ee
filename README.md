# Ready Lawyer front end — a Dafny model

This project models the core of the Ready Lawyer web front end. Ready Lawyer is a legal-services platform on the Avalanche C-Chain. It has documents, escrowed cases, fundraising campaigns, practitioner roles and lawyer listings.

The model covers these parts:

- **Registry.** The `ContractService` registry of contract clients.
- **Read facade.** `DataService` reads each list from a bound contract client or falls back to the static dataset, then filters, searches, sorts and summarises.
- **Service query helpers.** The helpers of the five `Ready*Service` classes over the dummy data. Their on-chain calls are not modelled.
- **Formatting and validation.** The helpers in `contractUtils`.
- **Shared types.** Enumerations, records and constants.
- **Wallet connection.** `Web3Context` state and operations.
- **Header.** The network badge and unread count.
- **Breadcrumbs.** The trail computed by `Navigation`.
- **Notifications.** The `useNotifications` store.

Modules:

| module | file | form |
|---|---|---|
| `Opt`, `Seqs`, `Text` | opt.dfy, seqs.dfy, text.dfy | shared helpers: `Option`; `filter`/`find`/`slice`/`sort` on sequences; ASCII case mapping, `includes`, hex and decimal rendering |
| `Types` | types.dfy | datatypes and constants |
| `DummyData` | dummy_data.dfy | the fallback dataset, as functions of the module load time |
| `ContractUtils` | contract_utils.dfy | pure functions |
| `ReadyDocs`, `ReadyEscrow`, `ReadyFund`, `ReadyRoles`, `ReadyListings` | ready_*.dfy | pure query functions over a list |
| `ContractService` | contract_service.dfy | a class with the six fields, plus pure state functions specifying its methods |
| `DataService` | data_service.dfy | pure functions of an environment: the registry, what the bound clients return, load time |
| `Web3Context` | web3_context.dfy | a class with the five state variables; its methods are specified by pure transition functions |
| `Header` | header.dfy | pure functions |
| `Navigation` | navigation.dfy | the breadcrumb loop as a method, with its path splitting |
| `Notifications` | notifications.dfy | a class holding the notification list |

Where something state-changing is modelled as a class, each method's `ensures` ties the new state to a pure function of the old state, for example `State() == Initialized(old(State()), signer, o)`. The lemmas then state the properties of those functions.

Times are integer milliseconds. The current time (`Date.now()`), the module load time and the wallet's answers are parameters.

## Model

| member | source | states |
|---|---|---|
| Types.CaseStatusOf | frontend/src/types/index.ts:286-296 | decodes exactly the codes 0..8, and the decoded status has that code |
| Types.CampaignStatusOf | frontend/src/types/index.ts:298-306 | decodes exactly the codes 0..6, and the decoded status has that code |
| Types.PractitionerStatusOf | frontend/src/types/index.ts:308-313 | decodes exactly the codes 0..3, and the decoded status has that code |
| Types.EnumCodesRoundTrip | frontend/src/types/index.ts:286-313 | decoding any status's numeric code gives back that status, for all three enums |
| Types.ContractAddressDefaults | frontend/src/types/index.ts:316-323 | the main-contract address is set; all five READY_* addresses are empty |
| DummyData.DummyUsers | frontend/src/data/dummyData.ts:10-53 | three users with ids "1", "2", "3"; the first two are verified lawyers, the third is a client |
| DummyData.DummyAddressesDistinct | frontend/src/data/dummyData.ts:10-53 | the three wallet addresses differ even ignoring case |
| DummyData.DummyDocuments | frontend/src/data/dummyData.ts:56-93 | two documents, doc1 for case1 and doc2 for case2 |
| DummyData.DummyCases | frontend/src/data/dummyData.ts:96-127 | one Accepted case: client user 3, lawyer user 1, budget min ≤ max, due 45 days after load |
| DummyData.DummyCampaigns | frontend/src/data/dummyData.ts:130-152 | one Active campaign, 0 ≤ raised ≤ goal, due 20 days after load |
| DummyData.DummyDashboardStats | frontend/src/data/dummyData.ts:155-173 | one recent activity; completed + active cases = total cases |
| DummyData.GetUserById | frontend/src/data/dummyData.ts:176-178 | finds a user with that id, or none when no user has it |
| DummyData.GetUserByAddress | frontend/src/data/dummyData.ts:180-182 | finds a user whose address equals the argument ignoring case, or none when there is no such user |
| DummyData.LookupsFindEachUser | frontend/src/data/dummyData.ts:176-182 | looking a dummy user up by its own id, or by any case variant of its address, finds exactly that user |
| ContractUtils.ShortenAddress | frontend/src/utils/contractUtils.ts:5-8 | the result is empty iff the address is empty |
| ContractUtils.ShortenKeepsEnds | frontend/src/utils/contractUtils.ts:5-8 | a shortened address starts with the first chars+2 characters, then "...", and ends with the last chars characters |
| ContractUtils.ShortenValidAddress | frontend/src/utils/contractUtils.ts:5-8 | a valid address shortens to 13 characters: "0x", four digits, "...", four digits |
| ContractUtils.ShortenWithZeroChars | frontend/src/utils/contractUtils.ts:5-8 | with chars = 0, `slice(-0)` keeps the whole address, so the result is longer than the input |
| ContractUtils.HexRunToEnd | frontend/src/utils/contractUtils.ts:168-170 | true iff the string is exactly n hex digits |
| ContractUtils.ValidateEthereumAddress | frontend/src/utils/contractUtils.ts:168-170 | a valid address is 42 characters long and begins "0x" |
| ContractUtils.ValidAddressShape | frontend/src/utils/contractUtils.ts:168-170 | valid iff 42 characters, beginning "0x", then 40 hex digits of either case |
| ContractUtils.ValidAddressLowered | frontend/src/utils/contractUtils.ts:168-170 | lower-casing a valid address keeps it valid |
| ContractUtils.UpperPrefixRejected | frontend/src/utils/contractUtils.ts:168-170 | an upper-case "0X" prefix is rejected |
| ContractUtils.CaseStatusText | frontend/src/utils/contractUtils.ts:35-48 | the text is "Unknown" iff the code is not a case status |
| ContractUtils.CaseStatusTextInjective | frontend/src/utils/contractUtils.ts:35-48 | distinct case statuses have distinct texts |
| ContractUtils.CaseStatusColor | frontend/src/utils/contractUtils.ts:50-62 | green iff the code is 2, 4 or 6; gray iff it is 0, 8 or unknown |
| ContractUtils.CampaignStatusText | frontend/src/utils/contractUtils.ts:64-75 | the text is "Unknown" iff the code is not a campaign status |
| ContractUtils.CampaignStatusTextInjective | frontend/src/utils/contractUtils.ts:64-75 | distinct campaign statuses have distinct texts |
| ContractUtils.CampaignStatusColor | frontend/src/utils/contractUtils.ts:77-87 | green iff the code is 2 or 5; gray iff it is 0, 4 or unknown |
| ContractUtils.PractitionerStatusText | frontend/src/utils/contractUtils.ts:89-97 | the text is "Unknown" iff the code is not a practitioner status |
| ContractUtils.PractitionerStatusTextInjective | frontend/src/utils/contractUtils.ts:89-97 | distinct practitioner statuses have distinct texts |
| ContractUtils.PractitionerStatusColor | frontend/src/utils/contractUtils.ts:99-106 | gray iff the code is 0 or unknown; codes 1..3 are never gray |
| ContractUtils.CeilDiv | frontend/src/utils/contractUtils.ts:128 | `Math.ceil(x / d)`: the least q with x ≤ q·d (the same call in `formatDeadline` here and in `isUrgent` at line 144) |
| ContractUtils.DayDiff | frontend/src/utils/contractUtils.ts:126-130 | the day count satisfies (days−1)·DAY < deadline−now ≤ days·DAY |
| ContractUtils.IsUrgent | frontend/src/utils/contractUtils.ts:142-146 | an urgent deadline is less than one day overdue |
| ContractUtils.IsUrgentWindow | frontend/src/utils/contractUtils.ts:142-146 | urgent iff −DAY < deadline−now ≤ threshold·DAY, so deadlines past by a day or more are not urgent |
| ContractUtils.FormatDeadline | frontend/src/utils/contractUtils.ts:126-140 | each label holds exactly on its millisecond window: Overdue, Due today, Due tomorrow, "Due in N days" for N in 2..7 with N the day count, else a date |
| ContractUtils.ValidateDeadline | frontend/src/utils/contractUtils.ts:177-179 | a deadline is valid iff it is at least one rounded-up day ahead |
| ContractUtils.ValidDeadlineLabel | frontend/src/utils/contractUtils.ts:177-179 | a deadline that passes validation is never labelled Overdue or Due today |
| ContractUtils.UrgentMatchesLabel | frontend/src/utils/contractUtils.ts:126-146 | urgency with the default 3 days holds iff the label is Due today, Due tomorrow, or due in at most 3 days |
| ContractUtils.GetErrorMessage | frontend/src/utils/contractUtils.ts:182-187 | a thrown string is returned as is; otherwise a truthy `message` wins over a truthy `error.message`, and the fallback text comes last |
| ContractUtils.ErrorMessageNonEmpty | frontend/src/utils/contractUtils.ts:182-187 | the message is empty only when the empty string itself was thrown |
| ContractUtils.GetFileIcon | frontend/src/utils/contractUtils.ts:157-165 | each of the six icons holds iff its test is the first to pass on the lower-cased type: pdf, then doc or docx, then image, video, audio; the clip when none passes |
| ContractUtils.FileIconFirstMatch | frontend/src/utils/contractUtils.ts:157-165 | the same six iff statements with the docx test dropped: the first of pdf, doc, image, video, audio contained decides |
| ContractUtils.ContainsPrefix | frontend/src/utils/contractUtils.ts:160 | a string containing a word contains each prefix of it, so a type containing "docx" contains "doc" |
| ContractUtils.FileIconIgnoresCase | frontend/src/utils/contractUtils.ts:157-165 | the icon does not depend on the case of the file type |
| ReadyDocs.GetDocTypeValue | frontend/src/services/contracts/ReadyDocsService.ts:107-116 | every document type maps to a value in 0..4 |
| ReadyDocs.GetDocTypeKey | frontend/src/services/contracts/ReadyDocsService.ts:118-127 | any value outside 0..4 maps to Other |
| ReadyDocs.DocTypeValueIsEnumCode | frontend/src/services/contracts/ReadyDocsService.ts:107-116 | the value map agrees with the document-type numbering of the types module |
| ReadyDocs.DocTypeRoundTrip | frontend/src/services/contracts/ReadyDocsService.ts:107-127 | key(value(t)) = t for every type, and value(key(v)) = v for v in 0..4 |
| ReadyDocs.GetAllDocuments | frontend/src/services/contracts/ReadyDocsService.ts:78-81 | the fallback documents for that load time, whose ids are pairwise distinct |
| ReadyDocs.DocumentById | frontend/src/services/contracts/ReadyDocsService.ts:84-87 | the first document with the id, or none when no document has it |
| ReadyDocs.DocumentsByCaseId | frontend/src/services/contracts/ReadyDocsService.ts:90-93 | exactly the documents of that case, in order |
| ReadyDocs.SearchDocuments | frontend/src/services/contracts/ReadyDocsService.ts:96-104 | exactly the documents whose title, content or a tag contains the query ignoring case, in order |
| ReadyDocs.SearchDocumentsEmptyQuery | frontend/src/services/contracts/ReadyDocsService.ts:96-104 | the empty query returns every document |
| ReadyDocs.FallbackDocumentsByCase | frontend/src/services/contracts/ReadyDocsService.ts:90-93 | on the fallback data, case1 and case2 each have exactly their one document |
| ReadyEscrow.GetAllCases | frontend/src/services/contracts/ReadyEscrowService.ts:106-109 | the fallback cases for that load time, each with a budget minimum no larger than its maximum |
| ReadyEscrow.CaseById | frontend/src/services/contracts/ReadyEscrowService.ts:112-115 | the first case with the id, or none |
| ReadyEscrow.CasesByClient | frontend/src/services/contracts/ReadyEscrowService.ts:118-121 | exactly the cases whose client address equals the argument ignoring case, in order |
| ReadyEscrow.CasesByLawyer | frontend/src/services/contracts/ReadyEscrowService.ts:124-127 | exactly the cases with a lawyer whose address matches ignoring case; every result has a lawyer |
| ReadyEscrow.ActiveCases | frontend/src/services/contracts/ReadyEscrowService.ts:130-133 | exactly the Accepted or Funded cases, in order |
| ReadyEscrow.CompletedCases | frontend/src/services/contracts/ReadyEscrowService.ts:136-139 | exactly the Resolved cases, in order |
| ReadyEscrow.ActiveAndCompletedDisjoint | frontend/src/services/contracts/ReadyEscrowService.ts:130-139 | no case is both active and completed, and the two lists together are no longer than the input |
| ReadyEscrow.SearchCases | frontend/src/services/contracts/ReadyEscrowService.ts:142-151 | exactly the cases whose title, description, category or a tag contains the query ignoring case |
| ReadyEscrow.SearchCasesEmptyQuery | frontend/src/services/contracts/ReadyEscrowService.ts:142-151 | the empty query returns every case |
| ReadyEscrow.FallbackCaseQueries | frontend/src/services/contracts/ReadyEscrowService.ts:118-139 | on the fallback data, the one case is active, not completed, and found by its client's and its lawyer's address in any case |
| ReadyFund.GetAllCampaigns | frontend/src/services/contracts/ReadyFundService.ts:110-113 | the fallback campaigns for that load time, each having raised between 0 and its goal |
| ReadyFund.CampaignById | frontend/src/services/contracts/ReadyFundService.ts:116-119 | the first campaign with the id, or none |
| ReadyFund.CampaignsByCreator | frontend/src/services/contracts/ReadyFundService.ts:122-125 | exactly the campaigns whose creator address matches ignoring case |
| ReadyFund.CampaignsByBeneficiary | frontend/src/services/contracts/ReadyFundService.ts:128-131 | exactly the campaigns whose beneficiary address matches ignoring case |
| ReadyFund.ActiveCampaigns | frontend/src/services/contracts/ReadyFundService.ts:134-137 | exactly the Active campaigns, in order |
| ReadyFund.SuccessfulCampaigns | frontend/src/services/contracts/ReadyFundService.ts:140-143 | exactly the Succeeded campaigns, in order |
| ReadyFund.FailedCampaigns | frontend/src/services/contracts/ReadyFundService.ts:146-149 | exactly the Failed campaigns, in order |
| ReadyFund.StatusListsDisjoint | frontend/src/services/contracts/ReadyFundService.ts:134-149 | the active, succeeded and failed lists share no campaign |
| ReadyFund.StatusPredicatesExclusive | frontend/src/services/contracts/ReadyFundService.ts:134-149 | no campaign satisfies two of the three status tests |
| ReadyFund.StatusListsLength | frontend/src/services/contracts/ReadyFundService.ts:134-149 | any two of the status lists together are no longer than the input |
| ReadyFund.SearchCampaigns | frontend/src/services/contracts/ReadyFundService.ts:152-161 | exactly the campaigns whose title, description, category or a tag contains the query ignoring case |
| ReadyFund.SearchCampaignsEmptyQuery | frontend/src/services/contracts/ReadyFundService.ts:152-161 | the empty query returns every campaign |
| ReadyFund.CampaignsByCategory | frontend/src/services/contracts/ReadyFundService.ts:164-167 | exactly the campaigns whose category equals the argument ignoring case |
| ReadyFund.CategoryIsNotSubstring | frontend/src/services/contracts/ReadyFundService.ts:152-167 | a strict substring of the category is found by search but not by the category filter |
| ReadyFund.UrgentCampaigns | frontend/src/services/contracts/ReadyFundService.ts:170-178 | exactly the active campaigns due within the threshold of days, overdue ones included |
| ReadyFund.IsUrgentCampaign | frontend/src/services/contracts/ReadyFundService.ts:174-177 | an urgent campaign is active, and an active campaign already past its deadline is urgent for any threshold ≥ 0 |
| ReadyFund.UrgentIncludesOverdue | frontend/src/services/contracts/ReadyFundService.ts:170-178 | every urgent campaign is active, and an active campaign already past its deadline is urgent |
| ReadyFund.FallbackCampaignUrgency | frontend/src/services/contracts/ReadyFundService.ts:170-178 | with the 7-day default, the fallback campaign is urgent iff at least 13 days have passed since load |
| ReadyRoles.GetAllPractitioners | frontend/src/services/contracts/ReadyRolesService.ts:86-89 | exactly the lawyers and judges of the dummy users, in order |
| ReadyRoles.UserByAddress | frontend/src/services/contracts/ReadyRolesService.ts:92-95 | the first user whose address matches ignoring case, or none |
| ReadyRoles.PractitionerByAddressNeverClient | frontend/src/services/contracts/ReadyRolesService.ts:86-95 | a practitioner found by address is never a client |
| ReadyRoles.VerifiedLawyers | frontend/src/services/contracts/ReadyRolesService.ts:98-101 | exactly the verified lawyers, in order |
| ReadyRoles.VerifiedJudges | frontend/src/services/contracts/ReadyRolesService.ts:104-107 | exactly the verified judges, in order |
| ReadyRoles.LawyersAndJudgesDisjoint | frontend/src/services/contracts/ReadyRolesService.ts:98-107 | no user is in both lists, and together they are no longer than the input |
| ReadyRoles.SearchUsers | frontend/src/services/contracts/ReadyRolesService.ts:110-117 | exactly the users whose name or role contains the query ignoring case |
| ReadyRoles.SearchUsersEmptyQuery | frontend/src/services/contracts/ReadyRolesService.ts:110-117 | the empty query returns every user |
| ReadyRoles.SearchByRoleName | frontend/src/services/contracts/ReadyRolesService.ts:110-117 | searching a role's name in any case finds every user with that role |
| ReadyRoles.FallbackPractitioners | frontend/src/services/contracts/ReadyRolesService.ts:86-107 | the fallback practitioners are the first two users, both verified lawyers, and there is no verified judge |
| ReadyListings.GetAllListings | frontend/src/services/contracts/ReadyListingsService.ts:139-142 | exactly the verified lawyers of the dummy users |
| ReadyListings.ListingByLawyer | frontend/src/services/contracts/ReadyListingsService.ts:145-148 | the first listing whose address matches ignoring case, or none |
| ReadyListings.LawyersBySpecialization | frontend/src/services/contracts/ReadyListingsService.ts:151-158 | the verified lawyers, whatever the specialization argument |
| ReadyListings.LawyersByRateRange | frontend/src/services/contracts/ReadyListingsService.ts:161-168 | the verified lawyers, whatever the rate bounds |
| ReadyListings.LawyersByLocation | frontend/src/services/contracts/ReadyListingsService.ts:190-197 | the verified lawyers, whatever the location |
| ReadyListings.FiltersIgnoreArguments | frontend/src/services/contracts/ReadyListingsService.ts:151-197 | on the listings, all three filters return the listings unchanged for any argument |
| ReadyListings.SearchLawyers | frontend/src/services/contracts/ReadyListingsService.ts:171-178 | exactly the listings whose name or role contains the query ignoring case |
| ReadyListings.TopRatedLawyers | frontend/src/services/contracts/ReadyListingsService.ts:181-187 | min(limit, #verified lawyers) entries, rating non-increasing, each a verified lawyer of the input taken no more often than it occurs there, and none left out rated above any kept |
| ReadyListings.FallbackTopRated | frontend/src/services/contracts/ReadyListingsService.ts:181-187 | on the fallback data, the top ten are Sarah Johnson then Michael Chen |
| ContractService.Empty | frontend/src/services/ContractService.ts:10-15 | no signer and no bound service |
| ContractService.Merge | frontend/src/services/ContractService.ts:22 | each address is the caller's override when given, else the default |
| ContractService.Initialized | frontend/src/services/ContractService.ts:20-43 | the new registry holds the given signer, and every service given a non-empty override address is bound |
| ContractService.Status | frontend/src/services/ContractService.ts:92-100 | each status flag is true iff its service is bound |
| ContractService.OverridesWin | frontend/src/services/ContractService.ts:22 | in the merged addresses an override wins over the default; without one the default stays |
| ContractService.InitializeHoldsSigner | frontend/src/services/ContractService.ts:20-21 | after initialize the registry holds exactly the given signer |
| ContractService.InitializeBindsNonEmpty | frontend/src/services/ContractService.ts:22-42 | a service with a non-empty merged address is bound to that address and the new signer; with an empty one its slot is left as it was |
| ContractService.DefaultsBindNothing | frontend/src/services/ContractService.ts:22-42 | initializing with no overrides binds nothing but still counts as initialized |
| ContractService.InitializeKeepsStaleClient | frontend/src/services/ContractService.ts:24-42 | re-initializing with an empty address keeps the old client, still holding the old signer |
| ContractService.Cleared | frontend/src/services/ContractService.ts:108-115 | after clear there is no signer and every status flag is false |
| ContractService.ClearIdempotent | frontend/src/services/ContractService.ts:108-115 | clearing twice equals clearing once, which equals the fresh registry |
| ContractService.WellFormedPreserved | frontend/src/services/ContractService.ts:20-115 | the invariant "bound clients imply a signer" holds initially and is kept by initialize and clear |
| ContractService.ContractService.constructor | frontend/src/services/ContractService.ts:10-15 | a fresh instance is the empty registry |
| ContractService.ContractService.Initialize | frontend/src/services/ContractService.ts:20-43 | the new state is the old state initialized with the signer and the merged addresses |
| ContractService.ContractService.IsInitialized | frontend/src/services/ContractService.ts:46-48 | true iff a signer is held |
| ContractService.ContractService.GetService | frontend/src/services/ContractService.ts:51-73 | returns the slot's client, present iff the service is bound |
| ContractService.ContractService.GetAllServices | frontend/src/services/ContractService.ts:76-84 | each key holds its slot |
| ContractService.ContractService.HasService | frontend/src/services/ContractService.ts:87-89 | true iff the slot is non-null |
| ContractService.ContractService.GetContractStatus | frontend/src/services/ContractService.ts:92-100 | the status of the current registry, so each flag is that service's binding |
| ContractService.ContractService.GetSigner | frontend/src/services/ContractService.ts:103-105 | the signer held, or none |
| ContractService.ContractService.Clear | frontend/src/services/ContractService.ts:108-115 | the new state is the cleared registry |
| DataService.WithFallback | frontend/src/services/DataService.ts:36-47 | an unbound client, or one whose call throws, gives the fallback list; otherwise the client's list |
| DataService.UnboundUsesFallback | frontend/src/services/DataService.ts:36-181 | with nothing bound, all four lists are the dummy lists |
| DataService.BoundUsersArePractitioners | frontend/src/services/DataService.ts:36-47 | with the roles client bound to the ready service, users are the two practitioners, fewer than the fallback's three |
| DataService.ThrowingClientFallsBack | frontend/src/services/DataService.ts:36-181 | clients whose calls throw give the dummy lists |
| DataService.GetUserById | frontend/src/services/DataService.ts:49-52 | the first fetched user with the id, or none |
| DataService.GetUserByAddress | frontend/src/services/DataService.ts:54-57 | the first fetched user whose address matches ignoring case, or none |
| DataService.GetVerifiedLawyers | frontend/src/services/DataService.ts:59-62 | exactly the fetched verified lawyers |
| DataService.GetVerifiedJudges | frontend/src/services/DataService.ts:64-67 | exactly the fetched verified judges |
| DataService.SearchUsers | frontend/src/services/DataService.ts:69-76 | exactly the fetched users whose name or role contains the query ignoring case |
| DataService.FallbackUserLookups | frontend/src/services/DataService.ts:49-57 | with nothing bound, id "1" and Sarah's address in any case find Sarah Johnson |
| DataService.FallbackVerifiedLawyers | frontend/src/services/DataService.ts:59-62 | with nothing bound, there are two verified lawyers |
| DataService.GetDocumentById | frontend/src/services/DataService.ts:91-94 | the first fetched document with the id, or none |
| DataService.GetDocumentsByCaseId | frontend/src/services/DataService.ts:96-99 | exactly the fetched documents of that case |
| DataService.SearchDocuments | frontend/src/services/DataService.ts:101-109 | exactly the fetched documents whose title, content or a tag contains the query ignoring case |
| DataService.GetDocumentsByType | frontend/src/services/DataService.ts:111-114 | exactly the fetched documents whose type name equals the argument exactly |
| DataService.DocumentsByTypeIsCaseSensitive | frontend/src/services/DataService.ts:111-114 | the lower-case "contract" matches no document, whatever is fetched |
| DataService.GetCaseById | frontend/src/services/DataService.ts:129-132 | the first fetched case with the id, or none |
| DataService.GetCasesByClient | frontend/src/services/DataService.ts:134-137 | exactly the fetched cases of that client, ignoring case |
| DataService.GetCasesByLawyer | frontend/src/services/DataService.ts:139-142 | exactly the fetched cases with that lawyer, each having a lawyer |
| DataService.GetActiveCases | frontend/src/services/DataService.ts:144-147 | exactly the fetched Accepted or Funded cases |
| DataService.GetCompletedCases | frontend/src/services/DataService.ts:149-152 | exactly the fetched Resolved cases |
| DataService.SearchCases | frontend/src/services/DataService.ts:154-163 | exactly the fetched cases matching the query ignoring case |
| DataService.GetCasesByCategory | frontend/src/services/DataService.ts:165-168 | exactly the fetched cases whose category equals the argument ignoring case |
| DataService.GetCampaignById | frontend/src/services/DataService.ts:183-186 | the first fetched campaign with the id, or none |
| DataService.GetCampaignsByCreator | frontend/src/services/DataService.ts:188-191 | exactly the fetched campaigns by that creator, ignoring case |
| DataService.GetCampaignsByBeneficiary | frontend/src/services/DataService.ts:193-196 | exactly the fetched campaigns for that beneficiary, ignoring case |
| DataService.GetActiveCampaigns | frontend/src/services/DataService.ts:198-201 | exactly the fetched Active campaigns |
| DataService.GetSuccessfulCampaigns | frontend/src/services/DataService.ts:203-206 | exactly the fetched Succeeded campaigns |
| DataService.GetFailedCampaigns | frontend/src/services/DataService.ts:208-211 | exactly the fetched Failed campaigns |
| DataService.SearchCampaigns | frontend/src/services/DataService.ts:213-222 | exactly the fetched campaigns matching the query ignoring case |
| DataService.GetCampaignsByCategory | frontend/src/services/DataService.ts:224-227 | exactly the fetched campaigns whose category equals the argument ignoring case |
| DataService.GetUrgentCampaigns | frontend/src/services/DataService.ts:229-237 | exactly the fetched active campaigns due within the threshold, overdue ones included |
| DataService.GetDashboardStats | frontend/src/services/DataService.ts:240-243 | the fixed dashboard statistics, whatever client is bound |
| DataService.GetRecentActivity | frontend/src/services/DataService.ts:245-248 | a prefix of the dashboard activity, of length min(limit, all) |
| DataService.UpcomingDeadlines | frontend/src/services/DataService.ts:250-258 | exactly min(limit, #upcoming) cases, all upcoming and unresolved, each taken no more often than it occurs, soonest first; none left out is due before any kept |
| DataService.GetUpcomingDeadlines | frontend/src/services/DataService.ts:250-258 | over the fetched cases: the soonest min(limit, #upcoming) upcoming cases, each taken no more often than it occurs, soonest first; none left out is due before any kept |
| DataService.GlobalSearch | frontend/src/services/DataService.ts:261-275 | each of the four lists is exactly the matching fetched entries |
| DataService.GlobalSearchEmptyQuery | frontend/src/services/DataService.ts:261-275 | the empty query returns all four fetched lists whole |
| DataService.SumBudgetMaxNonNegative | frontend/src/services/DataService.ts:278-315 | the budget total is non-negative when every budget maximum is |
| DataService.SumBudgetMaxConcat | frontend/src/services/DataService.ts:302-304 | the revenue fold over two lists joined is the sum of the folds, so it adds each case's budget maximum once |
| DataService.GetDataSummary | frontend/src/services/DataService.ts:278-315 | the four totals are the fetched list lengths; active cases count the Accepted or Funded cases; active campaigns count the Active ones; revenue sums the budget maxima of the Resolved cases; active plus resolved cases never exceed the total |
| DataService.FallbackSummary | frontend/src/services/DataService.ts:278-315 | with nothing bound, the summary counts 3 users, 2 documents, 1 case, 1 active case, 1 campaign, 1 active campaign and a budget total of 0 |
| DataService.GetContractStatus | frontend/src/services/DataService.ts:318-320 | each of the five flags is the binding of its service in the registry |
| DataService.ServiceNamed | frontend/src/services/DataService.ts:322-324 | a key names the service with that key, and an unknown key names none |
| DataService.IsContractAvailableAsWritten | frontend/src/services/DataService.ts:322-324 | a known name is available iff bound; an unknown name is always reported available |
| DataService.UnknownContractReportedAvailable | frontend/src/services/DataService.ts:322-324 | with nothing bound, "readyVault" is still reported available |
| DataService.IsContractAvailable | frontend/src/services/DataService.ts:322-324 | available iff some bound service has that key |
| Web3Context.OnAvalancheAgreesWithNetworks | frontend/src/contexts/Web3Context.tsx:38-39 | the context's two chain constants are the two chains of the shared network table |
| Web3Context.MainnetHexDigits | frontend/src/contexts/Web3Context.tsx:95 | the switch request's chain id `0x${43114.toString(16)}` is "0xa86a" |
| Web3Context.SwitchNetworkEffects | frontend/src/contexts/Web3Context.tsx:88-126 | nothing happens iff no wallet is injected |
| Web3Context.Connect | frontend/src/contexts/Web3Context.tsx:41-77 | every connect attempt has an effect; the state either stays as it was or becomes connected with an account and a chain |
| Web3Context.Disconnect | frontend/src/contexts/Web3Context.tsx:79-86 | no account, signer or chain remains, and not connected |
| Web3Context.AccountsChanged | frontend/src/contexts/Web3Context.tsx:129-135 | an empty list disconnects; otherwise the account becomes the first entry and the connection flag is kept |
| Web3Context.ChainChanged | frontend/src/contexts/Web3Context.tsx:137-140 | only the chain changes, to a recorded value, and the page reloads |
| Web3Context.ConnectionChecked | frontend/src/contexts/Web3Context.tsx:147-164 | the check only lists the accounts; the state stays or becomes connected with an account |
| Web3Context.InitialIsDisconnected | frontend/src/contexts/Web3Context.tsx:31-35 | the context starts with no account, provider, signer or chain, and not connected |
| Web3Context.FailedConnectKeepsState | frontend/src/contexts/Web3Context.tsx:41-77 | without a wallet, with a refused request or no account, or when the signer or network cannot be read, the state is unchanged and exactly one toast, an error, is shown last |
| Web3Context.ConnectSetsState | frontend/src/contexts/Web3Context.tsx:56-63 | a connect whose reads succeed sets the first account, the provider, the signer, the chain, and connected |
| Web3Context.ConnectSwitchesOnlyOffAvalanche | frontend/src/contexts/Web3Context.tsx:66-71 | a successful connect asks to switch chains once when off Avalanche and never otherwise |
| Web3Context.SwitchNetworkRequests | frontend/src/contexts/Web3Context.tsx:88-126 | the switch is asked first; adding the chain is asked iff the switch fails with 4902; a toast appears iff a request fails |
| Web3Context.SwitchNetworkTargetsMainnet | frontend/src/contexts/Web3Context.tsx:93-116 | every switch or add request names chain 43114, and the added chain's currency is AVAX with 18 decimals |
| Web3Context.ConnectStateIgnoresSwitch | frontend/src/contexts/Web3Context.tsx:59-68 | the state after a connect does not depend on how the chain switch goes |
| Web3Context.DisconnectIdempotent | frontend/src/contexts/Web3Context.tsx:79-86 | disconnecting gives the initial state, and doing it twice is the same as once |
| Web3Context.AccountsChangedCases | frontend/src/contexts/Web3Context.tsx:129-135 | an empty account list is a disconnect; otherwise only the account changes, to the first entry |
| Web3Context.ChainChangedRecordsChain | frontend/src/contexts/Web3Context.tsx:137-140 | a change to chain "0x…" of n records n, keeps the rest, and reloads once |
| Web3Context.CheckConnectionIsSilent | frontend/src/contexts/Web3Context.tsx:147-164 | the check asks for the accounts and shows no toast; it keeps the state or connects to the first listed account |
| Web3Context.Web3Provider.constructor | frontend/src/contexts/Web3Context.tsx:31-35 | the state starts initial |
| Web3Context.Web3Provider.SetConnected | frontend/src/contexts/Web3Context.tsx:59-63 | sets all five variables for a connected wallet |
| Web3Context.Web3Provider.SwitchNetwork | frontend/src/contexts/Web3Context.tsx:88-126 | emits the switch-network effects and changes no state |
| Web3Context.Web3Provider.ConnectWallet | frontend/src/contexts/Web3Context.tsx:41-77 | new state and effects are those of the connect transition |
| Web3Context.Web3Provider.DisconnectWallet | frontend/src/contexts/Web3Context.tsx:79-86 | new state and effects are those of the disconnect transition |
| Web3Context.Web3Provider.HandleAccountsChanged | frontend/src/contexts/Web3Context.tsx:129-135 | new state and effects are those of the accounts-changed transition |
| Web3Context.Web3Provider.HandleChainChanged | frontend/src/contexts/Web3Context.tsx:137-140 | new state and effects are those of the chain-changed transition |
| Web3Context.Web3Provider.CheckConnection | frontend/src/contexts/Web3Context.tsx:147-164 | new state and effects are those of the connection check |
| Header.GetNetworkInfo | frontend/src/components/Header.tsx:39-50 | not connected gives the disconnected status whatever the chain; the name is "Not Connected" iff disconnected and "Unknown Network" iff warning |
| Header.NetworkInfoClassifiesChain | frontend/src/components/Header.tsx:39-50 | connected: status connected iff the chain is 43114 or 43113 (named Mainnet and Testnet), warning for any other chain or none |
| Header.HeaderWarnsIffSwitchRequested | frontend/src/components/Header.tsx:42-48 | after a successful connect, the header warns iff the connect asked the wallet to switch chains |
| Header.UnreadCount | frontend/src/components/Header.tsx:37 | the unread count is at most the number of notifications |
| Header.UnreadCountCounts | frontend/src/components/Header.tsx:37 | the unread count is the number of unread notifications, and zero iff all are read |
| Header.MockUnreadCount | frontend/src/components/Header.tsx:18-37 | the header's fixed list has one unread notification |
| Header.BadgeText | frontend/src/components/Header.tsx:127-131 | a badge is shown iff the count is positive |
| Header.BadgeTextDigits | frontend/src/components/Header.tsx:129 | counts 1..9 show their single digit; counts above 9 show "9+" |
| Navigation.SplitOn | frontend/src/components/Navigation.tsx:59 | at least one piece, none containing the separator |
| Navigation.JoinSplitOn | frontend/src/components/Navigation.tsx:59 | joining the split pieces gives back the path |
| Navigation.Segments | frontend/src/components/Navigation.tsx:59 | every segment is non-empty and has no "/" |
| Navigation.SegmentsOfHref | frontend/src/components/Navigation.tsx:59-64 | the segments of a path built from segments are those segments |
| Navigation.Capitalize | frontend/src/components/Navigation.tsx:67 | same length; the first character upper-cased and the rest unchanged |
| Navigation.CrumbName | frontend/src/components/Navigation.tsx:65-67 | the label is the capitalised segment or the non-empty name of a table entry for that path |
| Navigation.CrumbNameFirstMatch | frontend/src/components/Navigation.tsx:65-67 | the label is the first matching entry's name, or the capitalised segment when no entry matches |
| Navigation.CrumbNameUsesTable | frontend/src/components/Navigation.tsx:13-67 | a path in the navigation table is labelled with its table name; any other with the capitalised segment |
| Navigation.GetBreadcrumbs | frontend/src/components/Navigation.tsx:58-74 | Home "/" first, current iff the path is "/"; then one crumb per non-empty segment, linking to the first k+1 segments, labelled for that path, current iff last |
| Navigation.SegmentCrumbs | frontend/src/components/Navigation.tsx:62-71 | one crumb per segment with the cumulative path, its label, and current iff last |
| Navigation.OnlyLastCrumbCurrent | frontend/src/components/Navigation.tsx:60-69 | only the last crumb after Home is current, and Home is not current when other crumbs follow |
| Navigation.CrumbHrefRoundTrip | frontend/src/components/Navigation.tsx:59-64 | each crumb's link splits back into the segments before it |
| Navigation.RootHasNoSegments | frontend/src/components/Navigation.tsx:59-60 | "/" and "" have no segments, so the trail is Home alone |
| Navigation.NavigationHrefsAreDistinct | frontend/src/components/Navigation.tsx:13-56 | the navigation table's paths are pairwise distinct |
| Notifications.Stamp | frontend/src/components/NotificationSystem.tsx:90 | the stored entry has the fresh id and the caller's other fields |
| Notifications.EffectiveDuration | frontend/src/components/NotificationSystem.tsx:95 | the effective duration is never 0 |
| Notifications.AutoRemovalUnlessNegative | frontend/src/components/NotificationSystem.tsx:95-100 | missing or 0 means 5000; removal is scheduled iff the duration is not negative |
| Notifications.RemovalTimer | frontend/src/components/NotificationSystem.tsx:95-100 | a timer exactly when the duration is not negative, whose delay is `duration || 5000`: the given duration when positive, 5000 when missing or zero |
| Notifications.Removed | frontend/src/components/NotificationSystem.tsx:105-107 | no remaining entry has the id |
| Notifications.RemovedKeepsOthers | frontend/src/components/NotificationSystem.tsx:105-107 | removal keeps every other entry in order with its repeats, losing exactly the entries with that id; an absent id changes nothing |
| Notifications.RemoveUndoesAdd | frontend/src/components/NotificationSystem.tsx:88-107 | removing a freshly added entry by its new id restores the list |
| Notifications.ShowFields | frontend/src/components/NotificationSystem.tsx:114-128 | each option present overrides the helper's type, title and message |
| Notifications.ShowStampsFreshId | frontend/src/components/NotificationSystem.tsx:88-128 | the stored id is the fresh one even if the options carry an id; without options the entry is the helper's type, title and message with the 5000 ms default |
| Notifications.NotificationStore.constructor | frontend/src/components/NotificationSystem.tsx:86 | the list starts empty |
| Notifications.NotificationStore.AddNotification | frontend/src/components/NotificationSystem.tsx:88-103 | appends exactly one stamped entry, returns the fresh id and the removal timer |
| Notifications.NotificationStore.RemoveNotification | frontend/src/components/NotificationSystem.tsx:105-107 | the list becomes the old list without that id |
| Notifications.NotificationStore.ClearAll | frontend/src/components/NotificationSystem.tsx:109-111 | the list becomes empty |
| Notifications.NotificationStore.Show | frontend/src/components/NotificationSystem.tsx:114-128 | appends the entry built from the options-overridden fields |
| Notifications.NotificationStore.ShowInfo | frontend/src/components/NotificationSystem.tsx:114-116 | appends an info entry, options overriding |
| Notifications.NotificationStore.ShowSuccess | frontend/src/components/NotificationSystem.tsx:118-120 | appends a success entry, options overriding |
| Notifications.NotificationStore.ShowWarning | frontend/src/components/NotificationSystem.tsx:122-124 | appends a warning entry, options overriding |
| Notifications.NotificationStore.ShowError | frontend/src/components/NotificationSystem.tsx:126-128 | appends an error entry, options overriding |

## Left out

- **On-chain calls.** Every `this.contract.*` call of the `Ready*Service` classes is left out, and so are ethers' `keccak256`, `parseEther`/`formatEther` and `isAddress`. What a bound client's `getAll*` returns is a parameter (`Fetched`: it returns a list or it throws).
- **DataService.GetAllUsers and the other getAll readers.** `DataService.GetAllUsers`, `GetAllDocuments`, `GetAllCases` and `GetAllCampaigns` have no contract of their own; `WithFallback` and the lemmas beside them state their behaviour. `ReadyDocs.GetAllDocuments`, `ReadyEscrow.GetAllCases` and `ReadyFund.GetAllCampaigns` return the fallback data, which is all the source returns; their contracts add only a fact about that data.
- **Concurrency.** `Promise.all` in `globalSearch` and `getDataSummary` is modelled as running one call after another. Async ordering and the `getInstance` singleton are not modelled.
- **Wallet-provider I/O.** `window.ethereum.request`, `toast`, and `window.location.reload` become an input `Wallet` and emitted `Effect`s. `console.error` output is dropped. Registering and removing the event listeners is not modelled; the listeners themselves are.
- **Web3Context.ChainChanged.** It requires a hex chain id string, as wallets send it. `Number()` of any other string (a decimal string, or NaN) is not modelled.
- **Chain ids.** They are unbounded integers. `Number(bigint)` losing precision above 2^53 is not modelled, and neither is the identity of each new `BrowserProvider` object.
- **Notifications.** The fresh id from `Math.random` is an input. `setTimeout` is reported as the delay at which removal is scheduled; a fired timer is `RemoveNotification`. NaN durations are not modelled.
- **Spreads.** An option key present with an explicit `undefined` value is not modelled. `Some` means present with a value.
- **Text.** Case mapping is ASCII only; JavaScript's Unicode `toLowerCase`/`toUpperCase` is not modelled. `split`, `includes` and `charAt` work on UTF-16 code units in the source and on characters here.
- **ContractUtils.FormatDeadline.** For dates more than a week ahead, the `toLocaleDateString` text is not modelled; the label keeps the deadline instead.
- **ContractUtils.DayDiff.** Times are integer milliseconds, so the `Math.ceil` of a non-integer millisecond difference is not modelled.
- **Left-out helpers.** `formatFileSize`, `formatTimestamp`, `validateAmount` and `getProgressPercentage` are left out because they are floating point or locale formatting.
- **ReadyListings.TopRatedLawyers.** The contract fixes length, order by rating, and which entries are taken, but not the relative order of lawyers with equal ratings, which the stable `Array.prototype.sort` keeps.
- **DataService.UpcomingDeadlines and DataService.GetUpcomingDeadlines.** Likewise, the relative order of cases with equal deadlines is not stated.
- **Numbers.** JavaScript `number` fields are unbounded integers here, with no fractions, floating-point rounding, NaN or Infinity. This covers `budget` min and max, campaign `goal` and `raised`, `rating` (a `real` sort key only), notification `duration`, and the `daysThreshold`/`thresholdDays`/`limit` parameters. So `DataService.GetDataSummary` sums `budget.max` exactly, where the `reduce` over floats may round.
- **DummyData.** `dummyData.ts` reads `Date.now()` afresh for each timestamp, so its readings may differ by a few milliseconds. The model takes one `loadTime` for all of them.
- **Notifications.RemovalTimer.** `setTimeout` clamps a delay above 2^31−1 ms (or Infinity) and fires it at once; the model reports such a duration as the delay itself.
- **Rendering.** Page and layout components, icons, CSS classes and the header's `contractsInitialized` flag are left out; the context never provides that flag.
- **Unused record fields.** Fields the modelled operations never read are kept only as far as the records need them.

Where the code and its documentation differ, the model follows the code:

- `initialize` does not reset a service whose merged address is empty. A client bound earlier stays bound, with its old signer (`InitializeKeepsStaleClient`).
- `Web3Context` never calls `contractService.initialize` or `clear`. Connecting a wallet binds no contract client, so `DataService` keeps using the fallback data.
- The `Ready*Service` query helpers read the dummy data and never throw, so the fallback inside `DataService` only matters when a client is unbound or its call throws.

## Findings

| source | as written | input that shows it | evidently intended | confidence | as-written member | corrected member |
|---|---|---|---|---|---|---|
| frontend/src/services/DataService.ts:322-324 | `getAllServices()[serviceName as keyof …] !== null`: an unknown name gives `undefined`, and `undefined !== null` is true. The same test sits in `hasService` (frontend/src/services/ContractService.ts:87-89), to which `isContractAvailable` forwards | `isContractAvailable("readyVault")` with no contract bound returns true | true only for a known service name whose client is bound | high, not executed | DataService.IsContractAvailableAsWritten (with DataService.UnknownContractReportedAvailable) | DataService.IsContractAvailable |
