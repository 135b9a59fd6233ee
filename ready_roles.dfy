/** The read side of `ReadyRolesService`: the practitioners among the fallback users and queries over them. */
module ReadyRoles {
  import opened Opt
  import opened Seqs
  import opened Text
  import opened Types
  import DummyData

  /** Lawyers and judges are practitioners; clients and admins are not. */
  predicate IsPractitioner(u: User) {
    u.role == Lawyer || u.role == Judge
  }

  /** `getAllPractitioners`: the fallback users with role lawyer or judge, in their order. */
  function GetAllPractitioners(loadTime: int): (r: seq<User>)
    ensures Selects(r, DummyData.DummyUsers(loadTime), IsPractitioner)
  {
    Filter(DummyData.DummyUsers(loadTime), IsPractitioner)
  }

  /** `getPractitionerByAddress` (and the user lookup by address): the first user whose address matches ignoring case. */
  function UserByAddress(users: seq<User>, address: string): (r: Option<User>)
    ensures FirstMatch(r, users, (u: User) => EqualIgnoringCase(u.address, address))
  {
    Find(users, (u: User) => EqualIgnoringCase(u.address, address))
  }

  /** Looking an address up among the practitioners never yields a client, whatever the casing. */
  lemma PractitionerByAddressNeverClient(loadTime: int, address: string)
    ensures var r := UserByAddress(GetAllPractitioners(loadTime), address);
      r.Some? ==> r.value.role != Client && EqualIgnoringCase(r.value.address, address)
  {
  }

  /** `getVerifiedLawyers`. */
  function VerifiedLawyers(users: seq<User>): (r: seq<User>)
    ensures Selects(r, users, IsVerifiedLawyer)
  {
    Filter(users, IsVerifiedLawyer)
  }

  /** `getVerifiedJudges`. */
  function VerifiedJudges(users: seq<User>): (r: seq<User>)
    ensures Selects(r, users, IsVerifiedJudge)
  {
    Filter(users, IsVerifiedJudge)
  }

  /** Nobody is both a verified lawyer and a verified judge. */
  lemma LawyersAndJudgesDisjoint(users: seq<User>)
    ensures forall u :: u in VerifiedLawyers(users) ==> u !in VerifiedJudges(users)
    ensures |VerifiedLawyers(users)| + |VerifiedJudges(users)| <= |users|
  {
    var l, j := VerifiedLawyers(users), VerifiedJudges(users);
    assert forall i :: 0 <= i < |j| ==> j[i].role == Judge;
    FilterDisjointLength(users, IsVerifiedLawyer, IsVerifiedJudge);
  }

  /** The search condition: the query in the name or in the role's name, ignoring case. */
  predicate UserMatches(u: User, query: string) {
    MatchesIgnoringCase(u.name, query) || MatchesIgnoringCase(u.role.Name(), query)
  }

  /** `searchPractitioners` (and the user search): name or role. */
  function SearchUsers(users: seq<User>, query: string): (r: seq<User>)
    ensures Selects(r, users, (u: User) => UserMatches(u, query))
  {
    Filter(users, (u: User) => UserMatches(u, query))
  }

  /** The empty query finds every user. */
  lemma SearchUsersEmptyQuery(users: seq<User>)
    ensures SearchUsers(users, "") == users
  {
    forall u | u in users ensures UserMatches(u, "") {
      EmptyQueryMatches(u.name);
    }
    FilterAll(users, (u: User) => UserMatches(u, ""));
  }

  /** Searching for a role's name, in any casing, finds everybody with that role. */
  lemma SearchByRoleName(users: seq<User>, role: Role, query: string)
    requires EqualIgnoringCase(query, role.Name())
    ensures forall i :: 0 <= i < |users| && users[i].role == role ==> users[i] in SearchUsers(users, query)
  {
    var n := role.Name();
    assert Lower(n) == n;
    assert Contains(Lower(n), Lower(query));
  }

  /** On the fallback users the practitioners are the two lawyers, and there is no verified judge. */
  lemma FallbackPractitioners(loadTime: int)
    ensures GetAllPractitioners(loadTime) == DummyData.DummyUsers(loadTime)[..2]
    ensures VerifiedLawyers(GetAllPractitioners(loadTime)) == GetAllPractitioners(loadTime)
    ensures VerifiedJudges(GetAllPractitioners(loadTime)) == []
  {
    var users := DummyData.DummyUsers(loadTime);
    assert users[1..][1..][1..] == [];
    assert Filter(users[1..][1..], IsPractitioner) == [];
    assert Filter(users[1..], IsPractitioner) == [users[1]];
    assert Filter(users, IsPractitioner) == [users[0], users[1]];
    var p := GetAllPractitioners(loadTime);
    assert p[1..][1..] == [];
  }
}
