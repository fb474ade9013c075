/**
 * The header wallet button of client/components/connect-wallet.tsx: a reducer over four
 * fields, the connect handler with its `finally` reset, the connection check that runs at
 * mount and again after every address change, the account-change handler, and the
 * shortened address shown once connected.
 */
module ConnectWallet {
  import opened Common
  import opened WalletProvider

  datatype State = State(isConnecting: bool, isConnected: bool, address: string, network: string)

  datatype Action =
    | SetConnecting(connecting: bool)
    | SetConnected(connected: bool)
    | SetAddress(address: string)
    | SetNetwork(network: string)
    | Reset

  const Initial := State(false, false, "", "ethereum")

  function Reduce(s: State, a: Action): (r: State)
    ensures a.Reset? ==> r == Initial
    ensures !a.Reset? ==> forall f :: f != Target(a) ==> SameOn(r, s, f)
  {
    match a
    case SetConnecting(b) => s.(isConnecting := b)
    case SetConnected(b) => s.(isConnected := b)
    case SetAddress(x) => s.(address := x)
    case SetNetwork(n) => s.(network := n)
    case Reset => Initial
  }

  datatype Field = Connecting | Connected | Address | Network

  function Target(a: Action): Field
    requires !a.Reset?
  {
    match a
    case SetConnecting(_) => Connecting
    case SetConnected(_) => Connected
    case SetAddress(_) => Address
    case SetNetwork(_) => Network
  }

  predicate SameOn(s: State, t: State, f: Field)
  {
    match f
    case Connecting => s.isConnecting == t.isConnecting
    case Connected => s.isConnected == t.isConnected
    case Address => s.address == t.address
    case Network => s.network == t.network
  }

  predicate Carries(s: State, a: Action)
  {
    match a
    case SetConnecting(b) => s.isConnecting == b
    case SetConnected(b) => s.isConnected == b
    case SetAddress(x) => s.address == x
    case SetNetwork(n) => s.network == n
    case Reset => s == Initial
  }

  /** Each `SET_*` action writes its payload into its own field and leaves the others alone. */
  lemma ReduceWritesOnlyTarget(s: State, a: Action)
    requires !a.Reset?
    ensures Carries(Reduce(s, a), a)
    ensures forall f :: f != Target(a) ==> SameOn(Reduce(s, a), s, f)
  {
  }

  /** `RESET` gives the initial state: not connecting, not connected, empty address, network "ethereum". */
  lemma ResetGivesInitial(s: State)
    ensures var r := Reduce(s, Reset);
      !r.isConnecting && !r.isConnected && r.address == "" && r.network == "ethereum"
  {
  }

  /** `ToIntegerOrInfinity` followed by clamping into `[0, len]`, as `String.prototype.substring` does. */
  function Clamp(i: int, len: nat): (r: nat)
    ensures r <= len
  {
    if i < 0 then 0 else if i > len then len else i
  }

  /** `String.prototype.substring(start, end)`: clamps both ends and swaps them when reversed. */
  function Substring(s: string, start: int, end: int): (r: string)
    ensures |r| <= |s|
    ensures 0 <= start <= end <= |s| ==> r == s[start..end]
    ensures 0 <= end <= start <= |s| ==> r == s[end..start]
    ensures start <= 0 && |s| <= end ==> r == s
  {
    var a := Clamp(start, |s|);
    var b := Clamp(end, |s|);
    if a <= b then s[a..b] else s[b..a]
  }

  /** The connected label: the first six characters, "...", and the last four. */
  function ShortAddress(address: string): (shown: string)
    ensures |shown| == Min(6, |address|) + 3 + Min(4, |address|)
    ensures shown[..Min(6, |address|)] == address[..Min(6, |address|)]
    ensures shown[Min(6, |address|)..Min(6, |address|) + 3] == "..."
    ensures shown[|shown| - Min(4, |address|)..] == address[|address| - Min(4, |address|)..]
  {
    Substring(address, 0, 6) + "..." + Substring(address, |address| - 4, |address|)
  }

  /** A standard 42-character address shows as 13 characters: "0x" and four digits, "...", four digits. */
  lemma ShortAddressOfStandardAddress(address: string)
    requires |address| == 42
    ensures ShortAddress(address) == address[..6] + "..." + address[38..]
  {
    var shown := ShortAddress(address);
    assert shown == shown[..6] + shown[6..9] + shown[9..];
  }

  /** A request that yields at least one account. */
  predicate Yields(provider: Option<Provider>, reply: AccountsReply)
  {
    provider.Some? && reply.Resolved? && |reply.accounts| > 0
  }

  class ConnectWalletComponent {
    var state: State
    /** `isMounted.current`. */
    var mounted: bool
    /** The arguments of every `onConnect` call so far, in order. */
    var connects: seq<string>
    /** The `state.address` the connection effect last ran with; None before its first run. */
    var effectAddress: Option<string>

    constructor ()
      ensures state == Initial && mounted && connects == [] && effectAddress == None
    {
      state := Initial;
      mounted := true;
      connects := [];
      effectAddress := None;
    }

    method Dispatch(a: Action)
      modifies this`state
      ensures state == Reduce(old(state), a)
    {
      state := Reduce(state, a);
    }

    method Unmount()
      modifies this`mounted
      ensures !mounted
    {
      mounted := false;
    }

    /**
     * `connectWallet`. A rejected request becomes `null` and, like an empty account list, is
     * thrown and caught; a missing provider only alerts. The `finally` clears the connecting
     * flag only while mounted.
     */
    method ConnectWallet(provider: Option<Provider>, reply: AccountsReply)
      modifies this`state, this`connects
      ensures old(state).isConnecting ==> state == old(state) && connects == old(connects)
      ensures !old(state).isConnecting && !Yields(provider, reply) ==>
        state == old(state).(isConnecting := !mounted) && connects == old(connects)
      ensures !old(state).isConnecting && Yields(provider, reply) && mounted ==>
        var address := reply.accounts[0];
        && state == old(state).(address := address, network := DetectNetwork(provider.value),
                                isConnected := true, isConnecting := false)
        && connects == old(connects) + [address]
      ensures !old(state).isConnecting && Yields(provider, reply) && !mounted ==>
        state == old(state).(isConnecting := true) && connects == old(connects)
    {
      if state.isConnecting {
        return;
      }
      Dispatch(SetConnecting(true));
      if provider.Some? {
        var accounts: Option<seq<string>> := if reply.Resolved? then Some(reply.accounts) else None;
        if accounts.None? || |accounts.value| == 0 {
          // "Failed to connect wallet" is thrown and caught; the finally block follows
          if mounted {
            Dispatch(SetConnecting(false));
          }
          return;
        }
        var address := accounts.value[0];
        var networkType := DetectNetwork(provider.value);
        if mounted {
          Dispatch(SetAddress(address));
          Dispatch(SetNetwork(networkType));
          Dispatch(SetConnected(true));
          connects := connects + [address];
        }
      }
      // finally
      if mounted {
        Dispatch(SetConnecting(false));
      }
    }

    /** `checkConnection`, with the outcome of `eth_accounts` (a failure reads as no accounts). */
    method CheckConnection(provider: Option<Provider>, reply: AccountsReply)
      modifies this`state, this`connects
      ensures Yields(provider, reply) && mounted ==>
        state == old(state).(address := reply.accounts[0], network := DetectNetwork(provider.value), isConnected := true)
        && connects == old(connects) + [reply.accounts[0]]
      ensures !(Yields(provider, reply) && mounted) ==> state == old(state) && connects == old(connects)
    {
      if provider.Some? {
        var accounts := if reply.Resolved? then reply.accounts else [];
        if |accounts| > 0 {
          var connectedAddress := accounts[0];
          var networkType := DetectNetwork(provider.value);
          if mounted {
            Dispatch(SetAddress(connectedAddress));
            Dispatch(SetNetwork(networkType));
            Dispatch(SetConnected(true));
            connects := connects + [connectedAddress];
          }
        }
      }
    }

    /**
     * A commit of the component. The effect with dependencies `[state.address, onConnect]` runs
     * on the first commit and again whenever `state.address` changed since its last run
     * (`onConnect` is the parent's stable callback): it runs `checkConnection` and installs a
     * fresh account-change handler, returned as the address it captured when there is a provider.
     */
    method Commit(provider: Option<Provider>, reply: AccountsReply) returns (ran: bool, handler: Option<string>)
      modifies this`state, this`connects, this`effectAddress
      ensures ran <==> old(effectAddress) != Some(old(state).address)
      ensures ran ==> effectAddress == Some(old(state).address)
      ensures ran ==> handler == (if provider.Some? then Some(old(state).address) else None)
      ensures ran && Yields(provider, reply) && mounted ==>
        state == old(state).(address := reply.accounts[0], network := DetectNetwork(provider.value), isConnected := true)
        && connects == old(connects) + [reply.accounts[0]]
      ensures !(ran && Yields(provider, reply) && mounted) ==> state == old(state) && connects == old(connects)
      ensures !ran ==> effectAddress == old(effectAddress) && handler == None
    {
      if effectAddress == Some(state.address) {
        return false, None;
      }
      ran := true;
      var captured := state.address;
      effectAddress := Some(captured);
      handler := if provider.Some? then Some(captured) else None;
      CheckConnection(provider, reply);
    }

    /**
     * A connect that finds a new account changes `state.address`, so the next commit runs the
     * connection effect again and, while the wallet still reports the account, `onConnect` is
     * called a second time with the same address.
     */
    method ConnectThenCommit(provider: Option<Provider>, reply: AccountsReply)
      requires mounted && !state.isConnecting && effectAddress == Some(state.address)
      requires Yields(provider, reply) && reply.accounts[0] != state.address
      modifies this`state, this`connects, this`effectAddress
      ensures connects == old(connects) + [reply.accounts[0], reply.accounts[0]]
      ensures state.address == reply.accounts[0] && state.isConnected && !state.isConnecting
      ensures effectAddress == Some(reply.accounts[0])
    {
      ConnectWallet(provider, reply);
      var ran, handler := Commit(provider, reply);
    }

    /** `handleAccountsChanged`; `captured` is the `state.address` of the effect run that installed it. */
    method HandleAccountsChanged(captured: string, accounts: seq<string>)
      modifies this`state, this`connects
      ensures !mounted ==> state == old(state) && connects == old(connects)
      ensures mounted && accounts == [] ==>
        state == old(state).(isConnected := false, address := "") && connects == old(connects)
      ensures mounted && accounts != [] && accounts[0] != captured ==>
        state == old(state).(address := accounts[0]) && connects == old(connects) + [accounts[0]]
      ensures mounted && accounts != [] && accounts[0] == captured ==>
        state == old(state) && connects == old(connects)
    {
      if !mounted {
        return;
      }
      if |accounts| == 0 {
        Dispatch(SetConnected(false));
        Dispatch(SetAddress(""));
      } else if accounts[0] != captured {
        Dispatch(SetAddress(accounts[0]));
        connects := connects + [accounts[0]];
      }
    }
  }
}
