/**
 * The in-room component of client/components/video-chat.tsx: a reducer over the local
 * stream, the two enablement flags and the peer-stream map; the handlers that set the
 * flags when media arrives, toggle every audio or video track, and release the tracks and
 * peer connections on leave and on unmount; and the grid layout chosen by peer count.
 *
 * Tracks and peer connections are objects whose flags change in place; the component is a
 * class whose `state` field holds what the reducer holds.
 */
module VideoChat {
  import opened Common

  datatype TrackKind = Audio | Video

  /** A `MediaStreamTrack`: the kind is fixed; `enabled` and the stopped state change in place. */
  class MediaTrack {
    const kind: TrackKind
    var enabled: bool
    var stopped: bool

    constructor (kind: TrackKind, enabled: bool)
      ensures this.kind == kind && this.enabled == enabled && !stopped
    {
      this.kind := kind;
      this.enabled := enabled;
      stopped := false;
    }

    method Stop()
      modifies this
      ensures stopped && enabled == old(enabled)
    {
      stopped := true;
    }
  }

  /** A `MediaStream`: a fixed list of tracks. */
  class MediaStream {
    const tracks: seq<MediaTrack>

    constructor (tracks: seq<MediaTrack>)
      ensures this.tracks == tracks
    {
      this.tracks := tracks;
    }
  }

  /** An `RTCPeerConnection`, reduced to whether it has been closed. */
  class PeerConnection {
    var closed: bool

    constructor ()
      ensures !closed
    {
      closed := false;
    }

    method Close()
      modifies this
      ensures closed
    {
      closed := true;
    }
  }

  function TrackSet(ts: seq<MediaTrack>): set<MediaTrack>
  {
    set t | t in ts
  }

  /** `getAudioTracks()` / `getVideoTracks()`: the tracks of one kind, in stream order. */
  function OfKind(ts: seq<MediaTrack>, k: TrackKind): (r: seq<MediaTrack>)
    ensures forall i :: 0 <= i < |r| ==> r[i] in ts && r[i].kind == k
    ensures forall i :: 0 <= i < |ts| && ts[i].kind == k ==> ts[i] in r
  {
    if ts == [] then []
    else (if ts[0].kind == k then [ts[0]] else []) + OfKind(ts[1..], k)
  }

  /** The first track of kind `k` in `OfKind` is the first such track of the stream. */
  lemma {:induction false} OfKindFirst(ts: seq<MediaTrack>, k: TrackKind, i: nat)
    requires i < |ts| && ts[i].kind == k
    requires forall j :: 0 <= j < i ==> ts[j].kind != k
    ensures OfKind(ts, k) != [] && OfKind(ts, k)[0] == ts[i]
  {
    if i > 0 {
      OfKindFirst(ts[1..], k, i - 1);
    }
  }

  /** The initial enablement flag: some track of the kind exists and the first is enabled. */
  predicate FirstEnabled(ts: seq<MediaTrack>)
    reads TrackSet(ts)
  {
    |ts| > 0 && ts[0].enabled
  }

  datatype State = State(
    localStream: Option<MediaStream>,
    isAudioEnabled: bool,
    isVideoEnabled: bool,
    peers: map<string, MediaStream>)

  datatype Action =
    | SetLocalStream(stream: Option<MediaStream>)
    | SetAudioEnabled(audio: bool)
    | SetVideoEnabled(video: bool)
    | AddPeer(id: string, peerStream: MediaStream)
    | RemovePeer(removed: string)
    | Reset

  /** `initialState`: no local stream, audio and video on, no peers. */
  const Initial: State := State(None, true, true, map[])

  function Reduce(s: State, a: Action): (r: State)
    ensures a.Reset? ==> r == Initial
    ensures !a.Reset? ==> forall f :: f != Target(a) ==> SameOn(r, s, f)
  {
    match a
    case SetLocalStream(x) => s.(localStream := x)
    case SetAudioEnabled(b) => s.(isAudioEnabled := b)
    case SetVideoEnabled(b) => s.(isVideoEnabled := b)
    case AddPeer(id, st) => s.(peers := s.peers[id := st])
    case RemovePeer(id) => s.(peers := s.peers - {id})
    case Reset => Initial
  }

  datatype Field = LocalStream | AudioEnabled | VideoEnabled | Peers

  function Target(a: Action): Field
    requires !a.Reset?
  {
    match a
    case SetLocalStream(_) => LocalStream
    case SetAudioEnabled(_) => AudioEnabled
    case SetVideoEnabled(_) => VideoEnabled
    case AddPeer(_, _) => Peers
    case RemovePeer(_) => Peers
  }

  predicate SameOn(s: State, t: State, f: Field)
  {
    match f
    case LocalStream => s.localStream == t.localStream
    case AudioEnabled => s.isAudioEnabled == t.isAudioEnabled
    case VideoEnabled => s.isVideoEnabled == t.isVideoEnabled
    case Peers => s.peers == t.peers
  }

  /** Every action other than `RESET` leaves all fields but its own as they were. */
  lemma ReduceWritesOnlyTarget(s: State, a: Action)
    requires !a.Reset?
    ensures forall f :: f != Target(a) ==> SameOn(Reduce(s, a), s, f)
  {
  }

  /** The `SET_*` actions store their payload. */
  lemma SetActionsStorePayload(s: State, x: Option<MediaStream>, b: bool)
    ensures Reduce(s, SetLocalStream(x)).localStream == x
    ensures Reduce(s, SetAudioEnabled(b)).isAudioEnabled == b
    ensures Reduce(s, SetVideoEnabled(b)).isVideoEnabled == b
  {
  }

  /** `ADD_PEER` maps the id to the stream, replacing any earlier entry, and keeps the other ids. */
  lemma AddPeerOverwrites(s: State, id: string, st: MediaStream)
    ensures var p := Reduce(s, AddPeer(id, st)).peers;
      id in p && p[id] == st &&
      (forall k :: k != id ==> (k in p <==> k in s.peers)) &&
      (forall k :: k != id && k in s.peers ==> p[k] == s.peers[k])
  {
  }

  /** `REMOVE_PEER` deletes only the given id; removing an absent id changes nothing. */
  lemma RemovePeerDeletesOnly(s: State, id: string)
    ensures var p := Reduce(s, RemovePeer(id)).peers;
      id !in p &&
      (forall k :: k != id ==> (k in p <==> k in s.peers)) &&
      (forall k :: k != id && k in s.peers ==> p[k] == s.peers[k])
    ensures id !in s.peers ==> Reduce(s, RemovePeer(id)) == s
  {
  }

  /** `RESET` gives the initial state from any state. */
  lemma ResetGivesInitial(s: State)
    ensures var r := Reduce(s, Reset);
      r.localStream.None? && r.isAudioEnabled && r.isVideoEnabled && r.peers == map[]
  {
  }

  /** The grid classes for a given number of peers. */
  function GridClass(peerCount: nat): (cls: string)
    ensures peerCount == 0 <==> cls == "grid-cols-1"
    ensures 1 <= peerCount <= 3 <==> cls == "grid-cols-1 sm:grid-cols-2"
    ensures 4 <= peerCount <==> cls == "grid-cols-1 sm:grid-cols-2 md:grid-cols-3"
  {
    if peerCount == 0 then "grid-cols-1"
    else if peerCount == 1 then "grid-cols-1 sm:grid-cols-2"
    else if peerCount <= 3 then "grid-cols-1 sm:grid-cols-2"
    else "grid-cols-1 sm:grid-cols-2 md:grid-cols-3"
  }

  /** `tracks.forEach(track => track.stop())`. */
  method StopAll(ts: seq<MediaTrack>)
    modifies TrackSet(ts)
    ensures forall t :: t in ts ==> t.stopped && t.enabled == old(t.enabled)
  {
    var i := 0;
    while i < |ts|
      invariant 0 <= i <= |ts|
      invariant forall j :: 0 <= j < i ==> ts[j].stopped
      invariant forall t :: t in ts ==> t.enabled == old(t.enabled)
    {
      ts[i].Stop();
      i := i + 1;
    }
  }

  /** `tracks.forEach(track => { track.enabled = v })`. */
  method SetAllEnabled(ts: seq<MediaTrack>, v: bool)
    modifies TrackSet(ts)
    ensures forall t :: t in ts ==> t.enabled == v && t.stopped == old(t.stopped)
  {
    var i := 0;
    while i < |ts|
      invariant 0 <= i <= |ts|
      invariant forall j :: 0 <= j < i ==> ts[j].enabled == v
      invariant forall t :: t in ts ==> t.stopped == old(t.stopped)
    {
      ts[i].enabled := v;
      i := i + 1;
    }
  }

  /** `peerConnections.current.forEach(pc => pc.close())`. */
  method CloseAll(pcs: map<string, PeerConnection>)
    modifies pcs.Values
    ensures forall k :: k in pcs ==> pcs[k].closed
  {
    var todo := pcs.Keys;
    while todo != {}
      invariant todo <= pcs.Keys
      invariant forall k :: k in pcs && k !in todo ==> pcs[k].closed
      decreases todo
    {
      var k :| k in todo;
      pcs[k].Close();
      todo := todo - {k};
    }
  }

  function FlagOf(s: State, k: TrackKind): bool
  {
    if k == Audio then s.isAudioEnabled else s.isVideoEnabled
  }

  function SetFlag(k: TrackKind, b: bool): Action
  {
    if k == Audio then SetAudioEnabled(b) else SetVideoEnabled(b)
  }

  class VideoChatComponent {
    var state: State
    /** `isMounted.current`. */
    var mounted: bool
    /** `localMediaStream`, the stream the media effect acquired (its cleanup stops this one). */
    var acquired: Option<MediaStream>
    /** `peerConnections.current`. */
    var peerConnections: map<string, PeerConnection>
    /** The number of `onLeave()` calls so far. */
    var leaves: nat

    constructor ()
      ensures state == Initial && mounted && acquired == None && peerConnections == map[] && leaves == 0
    {
      state := Initial;
      mounted := true;
      acquired := None;
      peerConnections := map[];
      leaves := 0;
    }

    function LocalTracks(): set<MediaTrack>
      reads this
    {
      if state.localStream.Some? then TrackSet(state.localStream.value.tracks) else {}
    }

    method Dispatch(a: Action)
      modifies this`state
      ensures state == Reduce(old(state), a)
    {
      state := Reduce(state, a);
    }

    /**
     * The continuation of the media effect once `getUserMedia` settled with `stream`
     * (None when both requests failed).
     */
    method OnMediaAcquired(stream: Option<MediaStream>)
      modifies this`state, this`acquired, if stream.Some? then TrackSet(stream.value.tracks) else {}
      ensures stream.None? ==> state == old(state) && acquired == old(acquired)
      ensures stream.Some? && !mounted ==>
        && state == old(state) && acquired == old(acquired)
        && forall t :: t in stream.value.tracks ==> t.stopped && t.enabled == old(t.enabled)
      ensures stream.Some? && mounted ==>
        var tracks := stream.value.tracks;
        && acquired == stream
        && state == old(state).(localStream := stream,
                                isAudioEnabled := FirstEnabled(OfKind(tracks, Audio)),
                                isVideoEnabled := FirstEnabled(OfKind(tracks, Video)))
        && forall t :: t in tracks ==> t.enabled == old(t.enabled) && t.stopped == old(t.stopped)
    {
      if stream.None? || !mounted {
        if stream.Some? {
          StopAll(stream.value.tracks);
        }
        return;
      }
      var st := stream.value;
      acquired := stream;
      Dispatch(SetLocalStream(stream));
      var audio := OfKind(st.tracks, Audio);
      Dispatch(SetAudioEnabled(|audio| > 0 && audio[0].enabled));
      var video := OfKind(st.tracks, Video);
      Dispatch(SetVideoEnabled(|video| > 0 && video[0].enabled));
    }

    /**
     * `toggleAudio` (kind Audio) and `toggleVideo` (kind Video): with a local stream that has
     * tracks of the kind, every such track gets the negated flag and the flag flips.
     */
    method Toggle(kind: TrackKind)
      modifies this`state, LocalTracks()
      ensures old(state).localStream.None? ==> state == old(state)
      ensures old(state).localStream.Some? && OfKind(old(state).localStream.value.tracks, kind) == [] ==>
        state == old(state)
      ensures old(state).localStream.Some? && OfKind(old(state).localStream.value.tracks, kind) != [] ==>
        && state == Reduce(old(state), SetFlag(kind, !FlagOf(old(state), kind)))
        && forall t :: t in old(state).localStream.value.tracks && t.kind == kind ==> t.enabled == FlagOf(state, kind)
      ensures forall t :: t in old(LocalTracks()) && t.kind != kind ==> t.enabled == old(t.enabled)
      ensures forall t :: t in old(LocalTracks()) ==> t.stopped == old(t.stopped)
    {
      if state.localStream.None? {
        return;
      }
      var tracks := OfKind(state.localStream.value.tracks, kind);
      if |tracks| > 0 {
        var newEnabled := !FlagOf(state, kind);
        SetAllEnabled(tracks, newEnabled);
        Dispatch(SetFlag(kind, newEnabled));
      }
      // otherwise the source only shows a toast
    }

    /**
     * `leaveRoom`. `fails` stands for an exception escaping the steps that are not guarded by
     * their own handlers (reading the stream's tracks); `onLeave` is called in either case.
     */
    method LeaveRoom(fails: bool)
      modifies this`state, this`peerConnections, this`leaves, LocalTracks(), peerConnections.Values
      ensures leaves == old(leaves) + 1
      ensures fails ==> state == old(state) && peerConnections == old(peerConnections)
      ensures fails ==> forall t :: t in old(LocalTracks()) ==> t.stopped == old(t.stopped)
      ensures fails ==> forall pc :: pc in old(peerConnections).Values ==> pc.closed == old(pc.closed)
      ensures forall t :: t in old(LocalTracks()) ==> t.enabled == old(t.enabled)
      ensures !fails ==>
        && state == Initial
        && peerConnections == map[]
        && (forall t :: t in old(LocalTracks()) ==> t.stopped)
        && (forall k :: k in old(peerConnections) ==> old(peerConnections)[k].closed)
    {
      if !fails {
        if state.localStream.Some? {
          StopAll(state.localStream.value.tracks);
        }
        CloseAll(peerConnections);
        peerConnections := map[];
        Dispatch(Reset);
      }
      leaves := leaves + 1;
    }

    /** The cleanup of the media effect, run on unmount. */
    method Cleanup()
      modifies this`state, this`mounted, this`peerConnections, peerConnections.Values,
        if acquired.Some? then TrackSet(acquired.value.tracks) else {}
      ensures !mounted
      ensures state == Initial
      ensures peerConnections == map[]
      ensures acquired.Some? ==>
        forall t :: t in acquired.value.tracks ==> t.stopped && t.enabled == old(t.enabled)
      ensures forall k :: k in old(peerConnections) ==> old(peerConnections)[k].closed
    {
      mounted := false;
      if acquired.Some? {
        StopAll(acquired.value.tracks);
      }
      CloseAll(peerConnections);
      peerConnections := map[];
      Dispatch(Reset);
    }
  }
}
