/**
 * `Header`: the network badge derived from the wallet connection, and the
 * unread count and badge text of the header's notification list.
 */
module Header {
  import opened Opt
  import opened Seqs
  import opened Text
  import Web3Context

  const NOT_CONNECTED := "Not Connected"
  const MAINNET_NAME := "Avalanche Mainnet"
  const TESTNET_NAME := "Avalanche Testnet"
  const UNKNOWN_NAME := "Unknown Network"
  const OVERFLOW_BADGE := "9+"

  datatype NetworkStatus = Disconnected | Connected | Warning

  datatype NetworkInfo = NetworkInfo(name: string, status: NetworkStatus)

  /** `getNetworkInfo`: the label and status for the connection flag and chain id (null as `Option.None`). */
  function GetNetworkInfo(isConnected: bool, chainId: Option<int>): (r: NetworkInfo)
    ensures !isConnected ==> r.status == Disconnected
    ensures r.status == Disconnected <==> r.name == NOT_CONNECTED
    ensures r.status == Warning <==> r.name == UNKNOWN_NAME
  {
    if !isConnected then NetworkInfo(NOT_CONNECTED, Disconnected)
    else match chainId
      case Some(43114) => NetworkInfo(MAINNET_NAME, Connected)
      case Some(43113) => NetworkInfo(TESTNET_NAME, Connected)
      case _ => NetworkInfo(UNKNOWN_NAME, Warning)
  }

  /**
   * A connected wallet is reported connected exactly on the two chains the
   * wallet context accepts without asking to switch, and as a warning on any
   * other chain or an unknown one.
   */
  lemma NetworkInfoClassifiesChain(chainId: Option<nat>)
    ensures GetNetworkInfo(true, chainId).status == Connected
        <==> chainId.Some? && Web3Context.OnAvalanche(chainId.value)
    ensures GetNetworkInfo(true, chainId).status == Warning
        <==> !(chainId.Some? && Web3Context.OnAvalanche(chainId.value))
    ensures chainId == Some(Web3Context.MAINNET_CHAIN_ID) ==> GetNetworkInfo(true, chainId).name == MAINNET_NAME
    ensures chainId == Some(Web3Context.TESTNET_CHAIN_ID) ==> GetNetworkInfo(true, chainId).name == TESTNET_NAME
  {
  }

  /**
   * After a connect that succeeded, the header warns exactly when the
   * connect asked the wallet to switch chains.
   */
  lemma {:induction false} HeaderWarnsIffSwitchRequested(s: Web3Context.WalletState, w: Web3Context.Wallet)
    requires w.requestAccounts.Answered? && |w.requestAccounts.value| > 0
    requires w.signer.Answered? && w.network.Answered?
    ensures var t := Web3Context.Connect(s, Some(w));
      (GetNetworkInfo(t.state.isConnected, t.state.chainId).status == Warning)
      <==> Count(t.effects, Web3Context.IsSwitchRequest) == 1
  {
    Web3Context.ConnectSwitchesOnlyOffAvalanche(s, w);
    NetworkInfoClassifiesChain(Some(w.network.value));
  }

  /** An entry of the header's notification list. */
  datatype HeaderNotification = HeaderNotification(
    id: nat, kind: string, title: string, message: string, time: string, read: bool)

  predicate IsUnread(n: HeaderNotification) {
    !n.read
  }

  /** `notifications.filter(n => !n.read).length`. */
  function UnreadCount(notifications: seq<HeaderNotification>): (n: nat)
    ensures n <= |notifications|
  {
    |Filter(notifications, IsUnread)|
  }

  /** The unread count is the number of entries not yet read. */
  lemma UnreadCountCounts(notifications: seq<HeaderNotification>)
    ensures UnreadCount(notifications) == Count(notifications, IsUnread)
    ensures UnreadCount(notifications) == 0 <==> forall i :: 0 <= i < |notifications| ==> notifications[i].read
  {
    FilterLengthIsCount(notifications, IsUnread);
    if UnreadCount(notifications) != 0 {
      var r := Filter(notifications, IsUnread);
      assert r[0] in notifications && !r[0].read;
    }
  }

  /** The fixed list the header shows: one unread and one read entry. */
  function MockNotifications(): seq<HeaderNotification> {
    [ HeaderNotification(1, "info", "System Update", "New features have been deployed", "2 hours ago", false),
      HeaderNotification(2, "success", "Case Resolved", "Your case \"Contract Dispute\" has been resolved", "1 day ago", true) ]
  }

  lemma MockUnreadCount()
    ensures UnreadCount(MockNotifications()) == 1
  {
    var ns := MockNotifications();
    assert ns[1..][1..] == [];
  }

  /** The bell badge: absent for no unread entries, "9+" above nine, otherwise the count. */
  function BadgeText(unread: int): (r: Option<string>)
    ensures r.Some? <==> unread > 0
  {
    if unread <= 0 then Option.None
    else if unread > 9 then Some(OVERFLOW_BADGE)
    else Some(NatToString(unread))
  }

  /** A shown badge is one character for one to nine unread entries, spelling the count, and "9+" beyond. */
  lemma BadgeTextDigits(unread: int)
    ensures 0 < unread <= 9 ==>
      BadgeText(unread) == Some([DecimalDigit(unread)])
      && '1' <= BadgeText(unread).value[0] <= '9'
    ensures unread > 9 ==> BadgeText(unread) == Some(OVERFLOW_BADGE)
  {
  }
}
