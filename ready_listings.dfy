/** The read side of `ReadyListingsService`: the verified lawyers among the fallback users and queries over them. */
module ReadyListings {
  import opened Opt
  import opened Seqs
  import opened Text
  import opened Types
  import DummyData
  import ReadyRoles

  /** `getAllListings`: the fallback users that are verified lawyers, in their order. */
  function GetAllListings(loadTime: int): (r: seq<User>)
    ensures Selects(r, DummyData.DummyUsers(loadTime), IsVerifiedLawyer)
  {
    Filter(DummyData.DummyUsers(loadTime), IsVerifiedLawyer)
  }

  /** `getListingByLawyer`: the first listing whose address matches ignoring case. */
  function ListingByLawyer(listings: seq<User>, lawyerAddress: string): (r: Option<User>)
    ensures FirstMatch(r, listings, (u: User) => EqualIgnoringCase(u.address, lawyerAddress))
  {
    Find(listings, (u: User) => EqualIgnoringCase(u.address, lawyerAddress))
  }

  /** `getLawyersBySpecialization`: the argument is not consulted; the verified lawyers are kept. */
  function LawyersBySpecialization(listings: seq<User>, specialization: string): (r: seq<User>)
    ensures Selects(r, listings, IsVerifiedLawyer)
  {
    Filter(listings, IsVerifiedLawyer)
  }

  /** `getLawyersByRateRange`: the bounds are not consulted; the verified lawyers are kept. */
  function LawyersByRateRange(listings: seq<User>, minRate: real, maxRate: real): (r: seq<User>)
    ensures Selects(r, listings, IsVerifiedLawyer)
  {
    Filter(listings, IsVerifiedLawyer)
  }

  /** `getLawyersByLocation`: the argument is not consulted; the verified lawyers are kept. */
  function LawyersByLocation(listings: seq<User>, location: string): (r: seq<User>)
    ensures Selects(r, listings, IsVerifiedLawyer)
  {
    Filter(listings, IsVerifiedLawyer)
  }

  /** On the service's own listings the three filters return every listing, whatever their arguments. */
  lemma FiltersIgnoreArguments(loadTime: int, specialization: string, minRate: real, maxRate: real, location: string)
    ensures LawyersBySpecialization(GetAllListings(loadTime), specialization) == GetAllListings(loadTime)
    ensures LawyersByRateRange(GetAllListings(loadTime), minRate, maxRate) == GetAllListings(loadTime)
    ensures LawyersByLocation(GetAllListings(loadTime), location) == GetAllListings(loadTime)
  {
    var listings := GetAllListings(loadTime);
    forall u | u in listings ensures IsVerifiedLawyer(u) {
      var i :| 0 <= i < |listings| && listings[i] == u;
    }
    FilterAll(listings, IsVerifiedLawyer);
  }

  /** `searchLawyers`: the same name-or-role condition as the practitioner search. */
  function SearchLawyers(listings: seq<User>, query: string): (r: seq<User>)
    ensures Selects(r, listings, (u: User) => ReadyRoles.UserMatches(u, query))
  {
    Filter(listings, (u: User) => ReadyRoles.UserMatches(u, query))
  }

  /** The sort key of `(a, b) => b.rating - a.rating`: ascending in the negated rating. */
  function NegatedRating(u: User): real {
    -u.rating
  }

  /**
   * `getTopRatedLawyers(limit)` (the default is 10): the verified lawyers,
   * best rated first, cut to `limit`. Every verified lawyer left out is rated
   * no higher than any lawyer kept.
   */
  function TopRatedLawyers(listings: seq<User>, limit: int): (r: seq<User>)
    ensures limit >= 0 ==> |r| == Min(limit, Count(listings, IsVerifiedLawyer))
    ensures forall i, j :: 0 <= i < j < |r| ==> r[i].rating >= r[j].rating
    ensures forall i :: 0 <= i < |r| ==> IsVerifiedLawyer(r[i]) && r[i] in listings
    ensures multiset(r) <= multiset(Filter(listings, IsVerifiedLawyer))
    ensures forall k :: 0 <= k < |listings| && IsVerifiedLawyer(listings[k]) && listings[k] !in r ==>
              forall i :: 0 <= i < |r| ==> r[i].rating >= listings[k].rating
  {
    var r := FilterSortTake(listings, IsVerifiedLawyer, NegatedRating, limit);
    assert forall i, j :: 0 <= i < j < |r| ==> NegatedRating(r[i]) <= NegatedRating(r[j]);
    r
  }

  /** On the fallback data the ranking is Sarah (4.8) before Michael (4.6). */
  lemma FallbackTopRated(loadTime: int)
    ensures TopRatedLawyers(GetAllListings(loadTime), 10) ==
              [DummyData.DummyUsers(loadTime)[0], DummyData.DummyUsers(loadTime)[1]]
  {
    var users := DummyData.DummyUsers(loadTime);
    assert users[1..][1..][1..] == [];
    assert Filter(users[1..][1..], IsVerifiedLawyer) == [];
    assert Filter(users[1..], IsVerifiedLawyer) == [users[1]];
    var listings := GetAllListings(loadTime);
    assert listings == [users[0], users[1]];
    assert listings[1..][1..] == [];
    assert Filter(listings, IsVerifiedLawyer) == listings;
    assert SortBy(listings[1..], NegatedRating) == [users[1]];
    assert SortBy(listings, NegatedRating) == [users[0], users[1]];
  }
}
