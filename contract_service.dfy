/**
 * `ContractService`: the registry of the five contract clients and the signer
 * they were created with. Each client slot is empty until `initialize` is
 * given a non-empty address for it, and `clear` empties all six fields.
 *
 * The ethers contract objects themselves are not modelled: a bound slot
 * holds the address and the signer the client was constructed with.
 */
module ContractService {
  import opened Opt
  import opened Types

  /** A contract client, as constructed by `new Ready*Service(address, signer)`. */
  datatype ContractClient = ContractClient(address: string, signer: Signer)

  /** The keys of `getAllServices()`. */
  datatype ServiceName = Docs | Roles | Escrow | Fund | Listings {
    /** The property name the source uses for the key. */
    function Key(): string {
      match this
      case Docs => "readyDocs"
      case Roles => "readyRoles"
      case Escrow => "readyEscrow"
      case Fund => "readyFund"
      case Listings => "readyListings"
    }
  }

  /** The record `getAllServices()` returns: one optional client per service. */
  datatype Services = Services(
    readyDocs: Option<ContractClient>,
    readyRoles: Option<ContractClient>,
    readyEscrow: Option<ContractClient>,
    readyFund: Option<ContractClient>,
    readyListings: Option<ContractClient>)
  {
    /** `getAllServices()[name]`. */
    function Get(name: ServiceName): Option<ContractClient> {
      match name
      case Docs => readyDocs
      case Roles => readyRoles
      case Escrow => readyEscrow
      case Fund => readyFund
      case Listings => readyListings
    }
  }

  /** The record `getContractStatus()` returns. */
  datatype ContractStatus = ContractStatus(
    readyDocs: bool, readyRoles: bool, readyEscrow: bool, readyFund: bool, readyListings: bool)

  /** The whole state of a `ContractService` object, as a value. */
  datatype Registry = Registry(services: Services, signer: Option<Signer>)

  /** The state of a new object, and of one that was cleared: nothing bound, no signer. */
  function Empty(): (reg: Registry)
    ensures reg.signer.None?
    ensures forall n: ServiceName :: reg.services.Get(n).None?
  {
    Registry(Services(Option.None, Option.None, Option.None, Option.None, Option.None), Option.None)
  }

  /** `isInitialized()`: a signer is held. */
  predicate HoldsSigner(reg: Registry) {
    reg.signer.Some?
  }

  /** `hasService(name)`: the slot is not null. */
  predicate IsBound(reg: Registry, name: ServiceName) {
    reg.services.Get(name).Some?
  }

  /** `getContractStatus()`. */
  function Status(reg: Registry): (st: ContractStatus)
    ensures st.readyDocs == IsBound(reg, Docs) && st.readyRoles == IsBound(reg, Roles)
    ensures st.readyEscrow == IsBound(reg, Escrow) && st.readyFund == IsBound(reg, Fund)
    ensures st.readyListings == IsBound(reg, Listings)
  {
    var s := reg.services;
    ContractStatus(s.readyDocs.Some?, s.readyRoles.Some?, s.readyEscrow.Some?, s.readyFund.Some?, s.readyListings.Some?)
  }

  /** The caller's `Partial<typeof CONTRACT_ADDRESSES>`: a key may be absent. */
  datatype AddressOverrides = AddressOverrides(
    mainContract: Option<string>,
    readyRoles: Option<string>,
    readyDocs: Option<string>,
    readyEscrow: Option<string>,
    readyFund: Option<string>,
    readyListings: Option<string>)

  /** `initialize` without its second argument. */
  const NO_OVERRIDES: AddressOverrides := AddressOverrides(Option.None, Option.None, Option.None, Option.None, Option.None, Option.None)

  /** `{ ...defaults, ...overrides }`: a key the caller gives wins, an absent key keeps the default. */
  function Merge(defaults: ContractAddresses, o: AddressOverrides): (a: ContractAddresses)
    ensures a.mainContract == o.mainContract.GetOr(defaults.mainContract)
    ensures forall name :: AddressOf(a, name) == OverrideOf(o, name).GetOr(AddressOf(defaults, name))
  {
    ContractAddresses(
      o.mainContract.GetOr(defaults.mainContract),
      o.readyRoles.GetOr(defaults.readyRoles),
      o.readyDocs.GetOr(defaults.readyDocs),
      o.readyEscrow.GetOr(defaults.readyEscrow),
      o.readyFund.GetOr(defaults.readyFund),
      o.readyListings.GetOr(defaults.readyListings))
  }

  /** The address a service is bound to, by its key in the address table. */
  function AddressOf(a: ContractAddresses, name: ServiceName): string {
    match name
    case Docs => a.readyDocs
    case Roles => a.readyRoles
    case Escrow => a.readyEscrow
    case Fund => a.readyFund
    case Listings => a.readyListings
  }

  /** The override the caller gave for a service's key, if any. */
  function OverrideOf(o: AddressOverrides, name: ServiceName): Option<string> {
    match name
    case Docs => o.readyDocs
    case Roles => o.readyRoles
    case Escrow => o.readyEscrow
    case Fund => o.readyFund
    case Listings => o.readyListings
  }

  /** Overrides win over the defaults, key by key. */
  lemma OverridesWin(defaults: ContractAddresses, o: AddressOverrides, name: ServiceName)
    ensures OverrideOf(o, name).Some? ==> AddressOf(Merge(defaults, o), name) == OverrideOf(o, name).value
    ensures OverrideOf(o, name).None? ==> AddressOf(Merge(defaults, o), name) == AddressOf(defaults, name)
  {
  }

  /** One `if (address && signer)` step: a non-empty address replaces the slot, an empty one leaves it alone. */
  function Bind(current: Option<ContractClient>, address: string, signer: Signer): Option<ContractClient> {
    if address != "" then Some(ContractClient(address, signer)) else current
  }

  /** The state after `initialize(signer, overrides)`. */
  function Initialized(reg: Registry, signer: Signer, o: AddressOverrides): (r: Registry)
    ensures r.signer == Some(signer)
    ensures forall name :: OverrideOf(o, name).Some? && OverrideOf(o, name).value != "" ==>
      IsBound(r, name)
  {
    var a := Merge(ContractAddressDefaults(), o);
    var s := reg.services;
    Registry(
      Services(
        Bind(s.readyDocs, a.readyDocs, signer),
        Bind(s.readyRoles, a.readyRoles, signer),
        Bind(s.readyEscrow, a.readyEscrow, signer),
        Bind(s.readyFund, a.readyFund, signer),
        Bind(s.readyListings, a.readyListings, signer)),
      Some(signer))
  }

  /** After `initialize` the object is initialized and holds the signer it was given. */
  lemma InitializeHoldsSigner(reg: Registry, signer: Signer, o: AddressOverrides)
    ensures HoldsSigner(Initialized(reg, signer, o))
    ensures Initialized(reg, signer, o).signer == Some(signer)
  {
  }

  /**
   * Within one call a service gets a new client exactly when its merged
   * address is non-empty; otherwise its slot keeps whatever it held before.
   */
  lemma InitializeBindsNonEmpty(reg: Registry, signer: Signer, o: AddressOverrides, name: ServiceName)
    ensures var address := AddressOf(Merge(ContractAddressDefaults(), o), name);
      && (address != "" ==> Initialized(reg, signer, o).services.Get(name) == Some(ContractClient(address, signer)))
      && (address == "" ==> Initialized(reg, signer, o).services.Get(name) == reg.services.Get(name))
  {
  }

  /** With no overrides every service address is empty, so nothing is bound, yet the object counts as initialized. */
  lemma DefaultsBindNothing(signer: Signer)
    ensures var reg := Initialized(Empty(), signer, NO_OVERRIDES);
      HoldsSigner(reg) && Status(reg) == ContractStatus(false, false, false, false, false)
  {
  }

  /**
   * A slot is never reset by `initialize`: a client bound under an earlier
   * signer survives a later call that gives its service no address, and keeps
   * the earlier signer while the object holds the new one.
   */
  lemma InitializeKeepsStaleClient(reg: Registry, signer: Signer, name: ServiceName)
    requires IsBound(reg, name) && reg.services.Get(name).value.signer != signer
    ensures var next := Initialized(reg, signer, NO_OVERRIDES);
      next.services.Get(name) == reg.services.Get(name) && next.services.Get(name).value.signer != next.signer.value
  {
  }

  /** The state after `clear()`. */
  function Cleared(reg: Registry): (r: Registry)
    ensures !HoldsSigner(r)
    ensures Status(r) == ContractStatus(false, false, false, false, false)
  {
    Empty()
  }

  /** `clear` is idempotent, and clearing returns the object to its initial state. */
  lemma ClearIdempotent(reg: Registry)
    ensures Cleared(Cleared(reg)) == Cleared(reg) == Empty()
  {
  }

  /**
   * What the object's history guarantees: every bound client has a non-empty
   * address, and any bound client means a signer is held.
   */
  ghost predicate WellFormed(reg: Registry) {
    && (forall n: ServiceName :: reg.services.Get(n).Some? ==> reg.services.Get(n).value.address != "")
    && ((exists n: ServiceName :: reg.services.Get(n).Some?) ==> reg.signer.Some?)
  }

  /** Both operations keep the registry well formed, starting from a new object. */
  lemma WellFormedPreserved(reg: Registry, signer: Signer, o: AddressOverrides)
    ensures WellFormed(Empty())
    ensures WellFormed(reg) ==> WellFormed(Initialized(reg, signer, o))
    ensures WellFormed(Cleared(reg))
  {
    var next := Initialized(reg, signer, o);
    if WellFormed(reg) {
      forall n: ServiceName | next.services.Get(n).Some? ensures next.services.Get(n).value.address != "" {
        InitializeBindsNonEmpty(reg, signer, o, n);
      }
    }
  }

  /** The service object, with the six private fields of the source. */
  class ContractService {
    var readyDocs: Option<ContractClient>
    var readyRoles: Option<ContractClient>
    var readyEscrow: Option<ContractClient>
    var readyFund: Option<ContractClient>
    var readyListings: Option<ContractClient>
    var signer: Option<Signer>

    /** The fields as a `Registry` value. */
    function State(): Registry
      reads this
    {
      Registry(Services(readyDocs, readyRoles, readyEscrow, readyFund, readyListings), signer)
    }

    constructor()
      ensures State() == Empty()
    {
      readyDocs := Option.None;
      readyRoles := Option.None;
      readyEscrow := Option.None;
      readyFund := Option.None;
      readyListings := Option.None;
      signer := Option.None;
    }

    /** `initialize(signer, contractAddresses?)`; the `signer` argument is always present, so `&& signer` always holds. */
    method Initialize(signer: Signer, contractAddresses: AddressOverrides)
      modifies this
      ensures State() == Initialized(old(State()), signer, contractAddresses)
    {
      this.signer := Some(signer);
      var addresses := Merge(ContractAddressDefaults(), contractAddresses);
      if addresses.readyDocs != "" {
        readyDocs := Some(ContractClient(addresses.readyDocs, signer));
      }
      if addresses.readyRoles != "" {
        readyRoles := Some(ContractClient(addresses.readyRoles, signer));
      }
      if addresses.readyEscrow != "" {
        readyEscrow := Some(ContractClient(addresses.readyEscrow, signer));
      }
      if addresses.readyFund != "" {
        readyFund := Some(ContractClient(addresses.readyFund, signer));
      }
      if addresses.readyListings != "" {
        readyListings := Some(ContractClient(addresses.readyListings, signer));
      }
    }

    /** `isInitialized()`. */
    method IsInitialized() returns (b: bool)
      ensures b == HoldsSigner(State())
    {
      b := signer != Option.None;
    }

    /** `getReadyDocs()` … `getReadyListings()`, by service name: the slot, null when unbound. */
    method GetService(name: ServiceName) returns (c: Option<ContractClient>)
      ensures c == State().services.Get(name)
      ensures c.Some? <==> IsBound(State(), name)
    {
      match name
      case Docs => c := readyDocs;
      case Roles => c := readyRoles;
      case Escrow => c := readyEscrow;
      case Fund => c := readyFund;
      case Listings => c := readyListings;
    }

    /** `getAllServices()`. */
    method GetAllServices() returns (s: Services)
      ensures forall n: ServiceName :: s.Get(n) == State().services.Get(n)
    {
      s := Services(readyDocs, readyRoles, readyEscrow, readyFund, readyListings);
    }

    /** `hasService(name)`. */
    method HasService(name: ServiceName) returns (b: bool)
      ensures b <==> State().services.Get(name).Some?
    {
      var all := GetAllServices();
      b := all.Get(name) != Option.None;
    }

    /** `getContractStatus()`: one `hasService` call per name. */
    method GetContractStatus() returns (st: ContractStatus)
      ensures st == Status(State())
    {
      var docs := HasService(Docs);
      var roles := HasService(Roles);
      var escrow := HasService(Escrow);
      var fund := HasService(Fund);
      var listings := HasService(Listings);
      st := ContractStatus(docs, roles, escrow, fund, listings);
    }

    /** `getSigner()`. */
    method GetSigner() returns (s: Option<Signer>)
      ensures s == State().signer
    {
      s := signer;
    }

    /** `clear()`. */
    method Clear()
      modifies this
      ensures State() == Cleared(old(State()))
    {
      readyDocs := Option.None;
      readyRoles := Option.None;
      readyEscrow := Option.None;
      readyFund := Option.None;
      readyListings := Option.None;
      signer := Option.None;
    }
  }
}
