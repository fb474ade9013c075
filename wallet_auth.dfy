/**
 * The wallet sign-in component of client/components/WalletAuth.tsx: a reducer over
 * six fields, and the handlers that sequence its dispatches (connect, disconnect,
 * account change, and the mount-time auto-connect check).
 *
 * Handlers in the source read the `state` of the render that created them; here each
 * handler reads the component's current state, except the account-change handler,
 * which receives the address it captured when it was installed.
 */
module WalletAuth {
  import opened Common
  import opened WalletProvider

  datatype State = State(
    isConnecting: bool,
    isConnected: bool,
    address: string,
    network: string,
    isDisconnecting: bool,
    shouldAutoConnect: bool)

  datatype Action =
    | SetConnecting(connecting: bool)
    | SetConnected(connected: bool)
    | SetAddress(address: string)
    | SetNetwork(network: string)
    | SetDisconnecting(disconnecting: bool)
    | SetAutoConnect(autoConnect: bool)
    | Reset

  /** `initialState`: auto-connect is off by default. */
  const Initial := State(false, false, "", "ethereum", false, false)

  function Reduce(s: State, a: Action): (r: State)
    ensures a.Reset? ==> r == Initial
    ensures !a.Reset? ==> forall f :: f != Target(a) ==> SameOn(r, s, f)
  {
    match a
    case SetConnecting(b) => s.(isConnecting := b)
    case SetConnected(b) => s.(isConnected := b)
    case SetAddress(x) => s.(address := x)
    case SetNetwork(n) => s.(network := n)
    case SetDisconnecting(b) => s.(isDisconnecting := b)
    case SetAutoConnect(b) => s.(shouldAutoConnect := b)
    case Reset => Initial
  }

  /** The fields of the state, to talk about which one an action writes. */
  datatype Field = Connecting | Connected | Address | Network | Disconnecting | AutoConnect

  function Target(a: Action): Field
    requires !a.Reset?
  {
    match a
    case SetConnecting(_) => Connecting
    case SetConnected(_) => Connected
    case SetAddress(_) => Address
    case SetNetwork(_) => Network
    case SetDisconnecting(_) => Disconnecting
    case SetAutoConnect(_) => AutoConnect
  }

  predicate SameOn(s: State, t: State, f: Field)
  {
    match f
    case Connecting => s.isConnecting == t.isConnecting
    case Connected => s.isConnected == t.isConnected
    case Address => s.address == t.address
    case Network => s.network == t.network
    case Disconnecting => s.isDisconnecting == t.isDisconnecting
    case AutoConnect => s.shouldAutoConnect == t.shouldAutoConnect
  }

  /** The target field of `a` holds the action's payload in `s`. */
  predicate Carries(s: State, a: Action)
  {
    match a
    case SetConnecting(b) => s.isConnecting == b
    case SetConnected(b) => s.isConnected == b
    case SetAddress(x) => s.address == x
    case SetNetwork(n) => s.network == n
    case SetDisconnecting(b) => s.isDisconnecting == b
    case SetAutoConnect(b) => s.shouldAutoConnect == b
    case Reset => s == Initial
  }

  /** Each `SET_*` action writes its payload into its own field and leaves every other field as it was. */
  lemma ReduceWritesOnlyTarget(s: State, a: Action)
    requires !a.Reset?
    ensures Carries(Reduce(s, a), a)
    ensures forall f :: f != Target(a) ==> SameOn(Reduce(s, a), s, f)
  {
  }

  /** `RESET` gives the initial state: disconnected, empty address, network "ethereum", no auto-connect. */
  lemma ResetGivesInitial(s: State)
    ensures var r := Reduce(s, Reset);
      !r.isConnecting && !r.isConnected && r.address == "" && r.network == "ethereum" &&
      !r.isDisconnecting && !r.shouldAutoConnect
  {
  }

  /** The dispatch sequence of `disconnectWallet` ends in exactly the initial state, from any state. */
  lemma DisconnectEndsInitial(s: State)
    ensures Reduce(Reduce(Reduce(s, SetDisconnecting(true)), Reset), SetDisconnecting(false)) == Initial
  {
  }

  /** The auto-connect condition of the mount effect. */
  predicate AutoConnectGuard(stored: Option<string>, s: State)
  {
    stored == Some("true") && s.shouldAutoConnect && !s.isConnecting && !s.isDisconnecting
  }

  /** On the initial state the guard is false whatever is stored, so mount never auto-connects. */
  lemma AutoConnectSkippedAtMount(stored: Option<string>)
    ensures !AutoConnectGuard(stored, Initial)
  {
  }

  /** A request that yields at least one account: the only way `connectWallet` succeeds. */
  predicate Yields(provider: Option<Provider>, reply: AccountsReply)
  {
    provider.Some? && reply.Resolved? && |reply.accounts| > 0
  }

  class WalletAuthComponent {
    var state: State
    /** `isMounted.current`. */
    var mounted: bool
    /** `localStorage['shouldConnectWallet']`. */
    var stored: Option<string>
    /** The arguments of every `onConnect` call so far, in order. */
    var connects: seq<string>
    /** The number of `onDisconnect` calls so far. */
    var disconnects: nat
    /** Whether the parent passed an `onDisconnect` callback. */
    const hasOnDisconnect: bool

    constructor (hasOnDisconnect: bool, stored: Option<string>)
      ensures state == Initial && mounted && this.stored == stored
      ensures connects == [] && disconnects == 0 && this.hasOnDisconnect == hasOnDisconnect
    {
      state := Initial;
      mounted := true;
      this.stored := stored;
      connects := [];
      disconnects := 0;
      this.hasOnDisconnect := hasOnDisconnect;
    }

    method Dispatch(a: Action)
      modifies this`state
      ensures state == Reduce(old(state), a)
    {
      state := Reduce(state, a);
    }

    /** The unmount cleanup. */
    method Unmount()
      modifies this`mounted
      ensures !mounted
    {
      mounted := false;
    }

    /** `connectWallet`, with the provider (absent when `window.ethereum` is missing) and the request's outcome. */
    method ConnectWallet(provider: Option<Provider>, reply: AccountsReply)
      modifies this`state, this`stored, this`connects
      ensures old(state).isConnecting ==>
        state == old(state) && stored == old(stored) && connects == old(connects)
      ensures !old(state).isConnecting && !Yields(provider, reply) ==>
        state == old(state).(isConnecting := false) && stored == old(stored) && connects == old(connects)
      ensures !old(state).isConnecting && Yields(provider, reply) && mounted ==>
        var address := reply.accounts[0];
        && state == old(state).(address := address, network := DetectNetwork(provider.value),
                                isConnected := true, shouldAutoConnect := true, isConnecting := false)
        && stored == Some("true")
        && connects == old(connects) + [address]
      ensures !old(state).isConnecting && Yields(provider, reply) && !mounted ==>
        state == old(state).(isConnecting := true) && stored == Some("true") && connects == old(connects)
    {
      if state.isConnecting {
        return;
      }
      Dispatch(SetConnecting(true));
      if provider.None? || reply.Rejected? || |reply.accounts| == 0 {
        // thrown and caught: the flag is reset even if unmounted
        Dispatch(SetConnecting(false));
        return;
      }
      var address := reply.accounts[0];
      var networkType := DetectNetwork(provider.value);
      stored := Some("true");
      if mounted {
        Dispatch(SetAddress(address));
        Dispatch(SetNetwork(networkType));
        Dispatch(SetConnected(true));
        Dispatch(SetAutoConnect(true));
        Dispatch(SetConnecting(false));
        connects := connects + [address];
      }
    }

    /** `disconnectWallet`: the `finally` clears the disconnecting flag after `RESET`. */
    method DisconnectWallet()
      modifies this`state, this`stored, this`disconnects
      ensures state == Initial
      ensures stored == None
      ensures disconnects == old(disconnects) + (if hasOnDisconnect then 1 else 0)
    {
      Dispatch(SetDisconnecting(true));
      Dispatch(Reset);
      stored := None;
      if hasOnDisconnect {
        disconnects := disconnects + 1;
      }
      Dispatch(SetDisconnecting(false));
    }

    /** `checkIfWalletIsConnected`, with the outcome of `eth_accounts`. */
    method CheckIfWalletIsConnected(provider: Option<Provider>, reply: AccountsReply) returns (found: bool)
      modifies this`state, this`connects
      ensures found <==> Yields(provider, reply)
      ensures found && mounted ==>
        state == old(state).(address := reply.accounts[0], network := DetectNetwork(provider.value), isConnected := true)
        && connects == old(connects) + [reply.accounts[0]]
      ensures !(found && mounted) ==> state == old(state) && connects == old(connects)
    {
      if provider.None? || reply.Rejected? || |reply.accounts| == 0 {
        return false;
      }
      var address := reply.accounts[0];
      var networkType := DetectNetwork(provider.value);
      if mounted {
        Dispatch(SetAddress(address));
        Dispatch(SetNetwork(networkType));
        Dispatch(SetConnected(true));
        connects := connects + [address];
      }
      return true;
    }

    /**
     * The mount effect: the auto-connect check, then `setupEventListeners`. `retry` says whether a
     * delayed `connectWallet()` was scheduled; `handler` is the address the installed
     * account-change handler captured (None when there is no provider to listen on).
     */
    method Init(provider: Option<Provider>, reply: AccountsReply) returns (retry: bool, handler: Option<string>)
      modifies this`state, this`connects
      ensures retry <==> AutoConnectGuard(stored, old(state)) && !Yields(provider, reply)
      ensures !AutoConnectGuard(stored, old(state)) ==> state == old(state) && connects == old(connects)
      ensures AutoConnectGuard(stored, old(state)) && Yields(provider, reply) && mounted ==>
        state == old(state).(address := reply.accounts[0], network := DetectNetwork(provider.value), isConnected := true)
        && connects == old(connects) + [reply.accounts[0]]
      ensures AutoConnectGuard(stored, old(state)) && !(Yields(provider, reply) && mounted) ==>
        state == old(state) && connects == old(connects)
      ensures handler == (if provider.Some? then Some(old(state).address) else None)
    {
      var captured := state.address;
      retry := false;
      if AutoConnectGuard(stored, state) {
        var found := CheckIfWalletIsConnected(provider, reply);
        retry := !found;
      }
      handler := if provider.Some? then Some(captured) else None;
    }

    /** `handleAccountsChanged`; `captured` is the `state.address` the handler closed over. */
    method HandleAccountsChanged(captured: string, accounts: seq<string>)
      modifies this`state, this`connects, this`disconnects
      ensures !mounted ==>
        state == old(state) && connects == old(connects) && disconnects == old(disconnects)
      ensures mounted && accounts == [] ==>
        state == old(state).(isConnected := false, address := "") && connects == old(connects)
        && disconnects == old(disconnects) + (if hasOnDisconnect then 1 else 0)
      ensures mounted && accounts != [] && accounts[0] != captured ==>
        state == old(state).(address := accounts[0]) && connects == old(connects) + [accounts[0]]
        && disconnects == old(disconnects)
      ensures mounted && accounts != [] && accounts[0] == captured ==>
        state == old(state) && connects == old(connects) && disconnects == old(disconnects)
    {
      if !mounted {
        return;
      }
      if |accounts| == 0 {
        Dispatch(SetConnected(false));
        Dispatch(SetAddress(""));
        if hasOnDisconnect {
          disconnects := disconnects + 1;
        }
      } else if accounts[0] != captured {
        Dispatch(SetAddress(accounts[0]));
        connects := connects + [accounts[0]];
      }
    }
  }
}
