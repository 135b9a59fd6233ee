/** The read side of `ReadyEscrowService`: case queries over the fallback case list. */
module ReadyEscrow {
  import opened Opt
  import opened Seqs
  import opened Text
  import opened Types
  import DummyData

  /** `getAllCases`: the fallback cases. */
  function GetAllCases(loadTime: int): (r: seq<LegalCase>)
    ensures r == DummyData.DummyCases(loadTime)
    ensures forall i :: 0 <= i < |r| ==> r[i].budget.min <= r[i].budget.max
  {
    DummyData.DummyCases(loadTime)
  }

  /** `getCaseById`: the first case with that id, or null. */
  function CaseById(cases: seq<LegalCase>, caseId: string): (r: Option<LegalCase>)
    ensures FirstMatch(r, cases, (c: LegalCase) => c.id == caseId)
  {
    Find(cases, (c: LegalCase) => c.id == caseId)
  }

  /** `getCasesByClient`: the client's address compared ignoring case. */
  function CasesByClient(cases: seq<LegalCase>, clientAddress: string): (r: seq<LegalCase>)
    ensures Selects(r, cases, (c: LegalCase) => EqualIgnoringCase(c.client.address, clientAddress))
  {
    Filter(cases, (c: LegalCase) => EqualIgnoringCase(c.client.address, clientAddress))
  }

  /** `c.lawyer?.address.toLowerCase() === lawyerAddress.toLowerCase()`: a case without a lawyer never matches. */
  predicate HasLawyer(c: LegalCase, lawyerAddress: string) {
    c.lawyer.Some? && EqualIgnoringCase(c.lawyer.value.address, lawyerAddress)
  }

  /** `getCasesByLawyer`. */
  function CasesByLawyer(cases: seq<LegalCase>, lawyerAddress: string): (r: seq<LegalCase>)
    ensures Selects(r, cases, (c: LegalCase) => HasLawyer(c, lawyerAddress))
    ensures forall i :: 0 <= i < |r| ==> r[i].lawyer.Some?
  {
    Filter(cases, (c: LegalCase) => HasLawyer(c, lawyerAddress))
  }

  /** Active cases: Accepted or Funded. */
  predicate IsActiveCase(c: LegalCase) {
    c.status == CaseStatus.Accepted.Code() || c.status == CaseStatus.Funded.Code()
  }

  /** Completed cases: Resolved only. */
  predicate IsCompletedCase(c: LegalCase) {
    c.status == CaseStatus.Resolved.Code()
  }

  /** `getActiveCases`. */
  function ActiveCases(cases: seq<LegalCase>): (r: seq<LegalCase>)
    ensures Selects(r, cases, IsActiveCase)
  {
    Filter(cases, IsActiveCase)
  }

  /** `getCompletedCases`. */
  function CompletedCases(cases: seq<LegalCase>): (r: seq<LegalCase>)
    ensures Selects(r, cases, IsCompletedCase)
  {
    Filter(cases, IsCompletedCase)
  }

  /** No case is both active and completed, so the two lists together hold at most every case once. */
  lemma ActiveAndCompletedDisjoint(cases: seq<LegalCase>)
    ensures forall c :: c in ActiveCases(cases) ==> c !in CompletedCases(cases)
    ensures |ActiveCases(cases)| + |CompletedCases(cases)| <= |cases|
  {
    FilterDisjointLength(cases, IsActiveCase, IsCompletedCase);
  }

  /** The search condition: the query in the title, description, category or any tag, ignoring case. */
  predicate CaseMatches(c: LegalCase, query: string) {
    MatchesIgnoringCase(c.title, query) || MatchesIgnoringCase(c.description, query) ||
    MatchesIgnoringCase(c.category, query) || AnyMatchesIgnoringCase(c.tags, query)
  }

  /** `searchCases`. */
  function SearchCases(cases: seq<LegalCase>, query: string): (r: seq<LegalCase>)
    ensures Selects(r, cases, (c: LegalCase) => CaseMatches(c, query))
  {
    Filter(cases, (c: LegalCase) => CaseMatches(c, query))
  }

  /** The empty query finds every case. */
  lemma SearchCasesEmptyQuery(cases: seq<LegalCase>)
    ensures SearchCases(cases, "") == cases
  {
    forall c | c in cases ensures CaseMatches(c, "") {
      EmptyQueryMatches(c.title);
    }
    FilterAll(cases, (c: LegalCase) => CaseMatches(c, ""));
  }

  /** The fallback case is active, belongs to client Emily and lawyer Sarah in any casing of their addresses. */
  lemma FallbackCaseQueries(loadTime: int, clientAddress: string, lawyerAddress: string)
    requires EqualIgnoringCase(clientAddress, DummyData.DummyUsers(loadTime)[2].address)
    requires EqualIgnoringCase(lawyerAddress, DummyData.DummyUsers(loadTime)[0].address)
    ensures ActiveCases(GetAllCases(loadTime)) == GetAllCases(loadTime)
    ensures CompletedCases(GetAllCases(loadTime)) == []
    ensures CasesByClient(GetAllCases(loadTime), clientAddress) == GetAllCases(loadTime)
    ensures CasesByLawyer(GetAllCases(loadTime), lawyerAddress) == GetAllCases(loadTime)
  {
    var cases := GetAllCases(loadTime);
    assert cases[1..] == [];
  }
}
