/**
 * The page controller of client/app/page.tsx: a reducer over the wallet and room fields,
 * the handlers that guard and sequence its dispatches (wallet connected, create room,
 * join room, leave room), and the choice among the three views.
 */
module HomePage {

  datatype State = State(
    walletConnected: bool,
    walletAddress: string,
    roomId: string,
    inRoom: bool,
    isCreatingRoom: bool,
    isJoiningRoom: bool)

  datatype Action =
    | SetWalletConnected(connected: bool)
    | SetWalletAddress(address: string)
    | SetRoomId(roomId: string)
    | SetInRoom(inRoom: bool)
    | SetCreatingRoom(creating: bool)
    | SetJoiningRoom(joining: bool)
    | Reset

  const Initial := State(false, "", "", false, false, false)

  function Reduce(s: State, a: Action): (r: State)
    ensures a.Reset? ==> r == Initial
    ensures !a.Reset? ==> forall f :: f != Target(a) ==> SameOn(r, s, f)
  {
    match a
    case SetWalletConnected(b) => s.(walletConnected := b)
    case SetWalletAddress(x) => s.(walletAddress := x)
    case SetRoomId(x) => s.(roomId := x)
    case SetInRoom(b) => s.(inRoom := b)
    case SetCreatingRoom(b) => s.(isCreatingRoom := b)
    case SetJoiningRoom(b) => s.(isJoiningRoom := b)
    case Reset => Initial
  }

  datatype Field = WalletConnected | WalletAddress | RoomId | InRoom | CreatingRoom | JoiningRoom

  function Target(a: Action): Field
    requires !a.Reset?
  {
    match a
    case SetWalletConnected(_) => WalletConnected
    case SetWalletAddress(_) => WalletAddress
    case SetRoomId(_) => RoomId
    case SetInRoom(_) => InRoom
    case SetCreatingRoom(_) => CreatingRoom
    case SetJoiningRoom(_) => JoiningRoom
  }

  predicate SameOn(s: State, t: State, f: Field)
  {
    match f
    case WalletConnected => s.walletConnected == t.walletConnected
    case WalletAddress => s.walletAddress == t.walletAddress
    case RoomId => s.roomId == t.roomId
    case InRoom => s.inRoom == t.inRoom
    case CreatingRoom => s.isCreatingRoom == t.isCreatingRoom
    case JoiningRoom => s.isJoiningRoom == t.isJoiningRoom
  }

  predicate Carries(s: State, a: Action)
  {
    match a
    case SetWalletConnected(b) => s.walletConnected == b
    case SetWalletAddress(x) => s.walletAddress == x
    case SetRoomId(x) => s.roomId == x
    case SetInRoom(b) => s.inRoom == b
    case SetCreatingRoom(b) => s.isCreatingRoom == b
    case SetJoiningRoom(b) => s.isJoiningRoom == b
    case Reset => s == Initial
  }

  /** Each `SET_*` action writes its payload into its own field and leaves the others alone. */
  lemma ReduceWritesOnlyTarget(s: State, a: Action)
    requires !a.Reset?
    ensures Carries(Reduce(s, a), a)
    ensures forall f :: f != Target(a) ==> SameOn(Reduce(s, a), s, f)
  {
  }

  /** `RESET` gives the initial state: no wallet, no room, no operation in progress. */
  lemma ResetGivesInitial(s: State)
    ensures var r := Reduce(s, Reset);
      !r.walletConnected && r.walletAddress == "" && r.roomId == "" && !r.inRoom &&
      !r.isCreatingRoom && !r.isJoiningRoom
  {
  }

  /** The characters `String.prototype.trim` removes: ECMAScript WhiteSpace and LineTerminator. */
  predicate IsTrimmed(c: char)
  {
    c == '\U{0009}' || c == '\U{000A}' || c == '\U{000B}' || c == '\U{000C}' || c == '\U{000D}' ||
    c == '\U{0020}' || c == '\U{00A0}' || c == '\U{1680}' || ('\U{2000}' <= c <= '\U{200A}') ||
    c == '\U{2028}' || c == '\U{2029}' || c == '\U{202F}' || c == '\U{205F}' || c == '\U{3000}' ||
    c == '\U{FEFF}'
  }

  function TrimStart(s: string): (r: string)
    ensures |r| <= |s| && r == s[|s| - |r|..]
    ensures forall k :: 0 <= k < |s| - |r| ==> IsTrimmed(s[k])
    ensures r != [] ==> !IsTrimmed(r[0])
  {
    if s != [] && IsTrimmed(s[0]) then TrimStart(s[1..]) else s
  }

  function TrimEnd(s: string): (r: string)
    ensures |r| <= |s| && r == s[..|r|]
    ensures forall k :: |r| <= k < |s| ==> IsTrimmed(s[k])
    ensures r != [] ==> !IsTrimmed(r[|r| - 1])
  {
    if s != [] && IsTrimmed(s[|s| - 1]) then TrimEnd(s[..|s| - 1]) else s
  }

  /**
   * `String.prototype.trim`: a slice of `s` such that everything before and after it is
   * removed white space, and that begins and ends with a character `trim` keeps.
   */
  function Trim(s: string): (r: string)
    ensures exists i, j :: SliceBetweenBlanks(s, r, i, j)
    ensures r != [] ==> !IsTrimmed(r[0]) && !IsTrimmed(r[|r| - 1])
  {
    var t := TrimStart(s);
    var r := TrimEnd(t);
    BlankSurrounded(s, t, r);
    var i := |s| - |t|;
    assert SliceBetweenBlanks(s, r, i, i + |r|);
    r
  }

  /** `r` is `s[i..j]`, and everything of `s` outside it is removed white space. */
  predicate SliceBetweenBlanks(s: string, r: string, i: int, j: int)
  {
    && 0 <= i <= j <= |s| && r == s[i..j]
    && (forall k :: 0 <= k < i ==> IsTrimmed(s[k]))
    && (forall k :: j <= k < |s| ==> IsTrimmed(s[k]))
  }

  /** A blank-free end cut from a blank-free start cut is a slice of `s` with blanks around it. */
  lemma BlankSurrounded(s: string, t: string, r: string)
    requires |t| <= |s| && t == s[|s| - |t|..]
    requires forall k :: 0 <= k < |s| - |t| ==> IsTrimmed(s[k])
    requires |r| <= |t| && r == t[..|r|]
    requires forall k :: |r| <= k < |t| ==> IsTrimmed(t[k])
    ensures SliceBetweenBlanks(s, r, |s| - |t|, |s| - |t| + |r|)
  {
    var i := |s| - |t|;
    forall k | i + |r| <= k < |s|
      ensures IsTrimmed(s[k])
    {
      assert s[k] == t[k - i];
    }
  }

  /** `!roomId.trim()` holds exactly when the room id consists only of blank characters. */
  lemma {:induction false} TrimEmptyIffBlank(s: string)
    ensures Trim(s) == "" <==> forall i :: 0 <= i < |s| ==> IsTrimmed(s[i])
  {
    TrimStartEmptyIffBlank(s);
    TrimEndEmpty(TrimStart(s));
  }

  lemma {:induction false} TrimStartEmptyIffBlank(s: string)
    ensures TrimStart(s) == "" <==> forall i :: 0 <= i < |s| ==> IsTrimmed(s[i])
    ensures TrimStart(s) != "" ==> !IsTrimmed(TrimStart(s)[0])
  {
    if s != [] && IsTrimmed(s[0]) {
      TrimStartEmptyIffBlank(s[1..]);
      assert forall i :: 1 <= i < |s| ==> s[i] == s[1..][i - 1];
    }
  }

  /** `TrimEnd` never empties a string whose first character is kept. */
  lemma {:induction false} TrimEndEmpty(s: string)
    ensures s != "" && !IsTrimmed(s[0]) ==> TrimEnd(s) != ""
  {
    if s != [] && IsTrimmed(s[|s| - 1]) {
      TrimEndEmpty(s[..|s| - 1]);
    }
  }

  /** The three views the page renders. */
  datatype View = ConnectPrompt | Lobby | Chat(roomId: string, walletAddress: string)

  /** The view: connect prompt without a wallet, lobby outside a room, else the chat for the room. */
  function ViewOf(s: State): (v: View)
    ensures v.ConnectPrompt? <==> !s.walletConnected
    ensures v.Lobby? <==> s.walletConnected && !s.inRoom
    ensures v.Chat? <==> s.walletConnected && s.inRoom
    ensures v.Chat? ==> v.roomId == s.roomId && v.walletAddress == s.walletAddress
  {
    if !s.walletConnected then ConnectPrompt
    else if !s.inRoom then Lobby
    else Chat(s.roomId, s.walletAddress)
  }

  class Home {
    var state: State

    constructor ()
      ensures state == Initial
    {
      state := Initial;
    }

    method Dispatch(a: Action)
      modifies this
      ensures state == Reduce(old(state), a)
    {
      state := Reduce(state, a);
    }

    /** `handleWalletConnect`: records the wallet and nothing else. */
    method HandleWalletConnect(address: string)
      modifies this
      ensures state == old(state).(walletConnected := true, walletAddress := address)
    {
      Dispatch(SetWalletConnected(true));
      Dispatch(SetWalletAddress(address));
    }

    /** `createRoom`; `newRoomId` stands for the random id the source draws. */
    method CreateRoom(newRoomId: string)
      modifies this
      ensures old(state).isCreatingRoom ==> state == old(state)
      ensures !old(state).isCreatingRoom ==>
        state == old(state).(roomId := newRoomId, inRoom := true, isCreatingRoom := false)
    {
      if state.isCreatingRoom {
        return;
      }
      Dispatch(SetCreatingRoom(true));
      Dispatch(SetRoomId(newRoomId));
      Dispatch(SetInRoom(true));
      // finally
      Dispatch(SetCreatingRoom(false));
    }

    /** `joinRoom`: ignored while joining or when the room id is blank. */
    method JoinRoom()
      modifies this
      ensures old(state).isJoiningRoom || Trim(old(state).roomId) == "" ==> state == old(state)
      ensures !old(state).isJoiningRoom && Trim(old(state).roomId) != "" ==>
        state == old(state).(inRoom := true, isJoiningRoom := false)
    {
      if state.isJoiningRoom || Trim(state.roomId) == "" {
        return;
      }
      Dispatch(SetJoiningRoom(true));
      Dispatch(SetInRoom(true));
      // finally
      Dispatch(SetJoiningRoom(false));
    }

    /** `handleLeaveRoom`: leaves the room and clears its id; wallet fields stay. */
    method HandleLeaveRoom()
      modifies this
      ensures state == old(state).(inRoom := false, roomId := "")
    {
      Dispatch(SetInRoom(false));
      Dispatch(SetRoomId(""));
    }
  }
}
