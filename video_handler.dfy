/**
 * The video path of video_handler.py. The sender writes its user name, then each encrypted
 * frame as a 4-byte big-endian length followed by the frame. The receiver reads the name
 * with one `recv(1024)`, then loops: `recv(4)` for a length and `recv` calls of at most
 * 8192 bytes until the frame is complete or the peer has closed. Capture, JPEG, pickle and
 * RSA are parameters; a socket is the byte stream it still has to deliver.
 */
module VideoStreaming {
  import opened Common
  import opened Messenger

  /** The size of the length prefix. */
  const SizeBytes: nat := 4
  /** The most one `recv` reads while collecting a frame. */
  const ChunkLimit: nat := 8192
  /** The most the name `recv` reads. */
  const NameLimit: nat := 1024

  function Pow256(k: nat): (p: nat)
    ensures p > 0
  {
    if k == 0 then 1 else 256 * Pow256(k - 1)
  }

  lemma {:induction false} Pow256Grows(j: nat, k: nat)
    requires j <= k
    ensures Pow256(j) <= Pow256(k)
  {
    if j < k {
      Pow256Grows(j, k - 1);
    }
  }

  /** `n.to_bytes(k, 'big')`; Python raises `OverflowError` when `n` needs more than `k` bytes. */
  function ToBytesBig(n: nat, k: nat): (b: seq<byte>)
    requires n < Pow256(k)
    ensures |b| == k
  {
    if k == 0 then []
    else
      assert n / 256 < Pow256(k - 1);
      ToBytesBig(n / 256, k - 1) + [(n % 256) as byte]
  }

  /** `int.from_bytes(b, 'big')`: the value is below 256 to the power of the length. */
  function FromBytesBig(b: seq<byte>): (n: nat)
    ensures n < Pow256(|b|)
  {
    if b == [] then 0
    else
      var high := FromBytesBig(b[..|b| - 1]);
      assert high * 256 + 255 < Pow256(|b|) by {
        assert high + 1 <= Pow256(|b| - 1);
        assert (high + 1) * 256 <= Pow256(|b| - 1) * 256;
      }
      high * 256 + b[|b| - 1] as nat
  }

  /** Reading a length prefix gives back the length that was written. */
  lemma {:induction false} FromToBytes(n: nat, k: nat)
    requires n < Pow256(k)
    ensures FromBytesBig(ToBytesBig(n, k)) == n
  {
    if k > 0 {
      var b := ToBytesBig(n, k);
      assert b[..k - 1] == ToBytesBig(n / 256, k - 1);
      FromToBytes(n / 256, k - 1);
    }
  }

  /** Every `k`-byte prefix is the encoding of the length it reads as. */
  lemma {:induction false} ToFromBytes(b: seq<byte>)
    ensures ToBytesBig(FromBytesBig(b), |b|) == b
  {
    if b != [] {
      var high := FromBytesBig(b[..|b| - 1]);
      var n := FromBytesBig(b);
      assert n / 256 == high && n % 256 == b[|b| - 1] as nat;
      ToFromBytes(b[..|b| - 1]);
    }
  }

  /** A frame whose length fits the 4-byte prefix. */
  predicate Fits(e: seq<byte>)
  {
    |e| < Pow256(SizeBytes)
  }

  predicate AllFit(es: seq<seq<byte>>)
  {
    forall i :: 0 <= i < |es| ==> Fits(es[i])
  }

  /** One frame on the wire: its length, then its bytes. */
  function Frame(e: seq<byte>): seq<byte>
    requires Fits(e)
  {
    ToBytesBig(|e|, SizeBytes) + e
  }

  /** The frames on the wire, one after another. */
  function Framed(es: seq<seq<byte>>): (w: seq<byte>)
    requires AllFit(es)
    ensures |w| >= SizeBytes * |es|
    ensures es == [] <==> w == []
  {
    if es == [] then [] else Frame(es[0]) + Framed(es[1..])
  }

  lemma {:induction false} FramedAppend(es: seq<seq<byte>>, e: seq<byte>)
    requires AllFit(es) && Fits(e)
    ensures AllFit(es + [e])
    ensures Framed(es + [e]) == Framed(es) + Frame(e)
  {
    if es != [] {
      assert (es + [e])[1..] == es[1..] + [e];
      FramedAppend(es[1..], e);
    }
  }

  /**
   * The frames the receive loop reads from a closed stream when every `recv` returns all it
   * asked for that is there: a length prefix of up to four bytes, then up to that many bytes.
   */
  function Unframe(wire: seq<byte>): (es: seq<seq<byte>>)
    ensures |es| <= |wire|
    ensures AllFit(es)
    decreases |wire|
  {
    if wire == [] then []
    else
      var size := FromBytesBig(wire[..Min(SizeBytes, |wire|)]);
      Pow256Grows(Min(SizeBytes, |wire|), SizeBytes);
      var rest := wire[Min(SizeBytes, |wire|)..];
      [rest[..Min(size, |rest|)]] + Unframe(rest[Min(size, |rest|)..])
  }

  /** One round of the receive loop reads the first frame `Unframe` gives. */
  lemma UnframeStep(before: seq<byte>, sizeData: seq<byte>, frame: seq<byte>, after: seq<byte>)
    requires sizeData != [] && sizeData == before[..Min(SizeBytes, |before|)]
    requires before[|sizeData|..] == frame + after
    requires frame == before[|sizeData|..][..Min(FromBytesBig(sizeData), |before[|sizeData|..]|)]
    ensures Unframe(before) == [frame] + Unframe(after)
  {
    var rest := before[|sizeData|..];
    assert rest[Min(FromBytesBig(sizeData), |rest|)..] == after;
  }

  /** Regrouping a concatenation; kept apart so that the receive loop's proof stays small. */
  lemma Associative<T>(a: seq<T>, b: seq<T>, c: seq<T>)
    ensures a + (b + c) == (a + b) + c
  {
  }

  /** Reading one frame off the front of a wire gives that frame, then the rest of the wire. */
  lemma UnframeFrame(e: seq<byte>, tail: seq<byte>)
    requires Fits(e)
    ensures Unframe(Frame(e) + tail) == [e] + Unframe(tail)
  {
    var header := ToBytesBig(|e|, SizeBytes);
    var wire := Frame(e) + tail;
    assert wire == header + (e + tail);
    assert wire[..SizeBytes] == header;
    FromToBytes(|e|, SizeBytes);
    var rest := wire[SizeBytes..];
    assert rest == e + tail;
    assert rest[..|e|] == e;
    assert rest[|e|..] == tail;
  }

  /** Reading back what the sender wrote gives its frames, in order. */
  lemma {:induction false} UnframeFramed(es: seq<seq<byte>>)
    requires AllFit(es)
    ensures Unframe(Framed(es)) == es
  {
    if es != [] {
      UnframeFrame(es[0], Framed(es[1..]));
      UnframeFramed(es[1..]);
    }
  }

  /** A frame that reaches the wire: it encrypted without error and its length fits the prefix. */
  predicate Sendable(c: Option<seq<byte>>)
  {
    c.Some? && Fits(c.value)
  }

  /**
   * The ciphertexts a stream sends: those of the leading frames, up to the first whose
   * encryption raises or whose length overflows the prefix.
   */
  function SentFrames(key: seq<byte>, frames: seq<seq<byte>>,
                      encrypt: (seq<byte>, seq<byte>) -> Option<seq<byte>>): (sent: seq<seq<byte>>)
    ensures |sent| <= |frames| && AllFit(sent)
    ensures forall i :: 0 <= i < |sent| ==> encrypt(key, frames[i]) == Some(sent[i])
    ensures |sent| < |frames| ==> !Sendable(encrypt(key, frames[|sent|]))
  {
    if frames == [] then []
    else
      var c := encrypt(key, frames[0]);
      if !Sendable(c) then [] else [c.value] + SentFrames(key, frames[1..], encrypt)
  }

  /** The contract of `SentFrames` determines it: a list with the same three properties is it. */
  lemma SentFramesUnique(key: seq<byte>, frames: seq<seq<byte>>,
                         encrypt: (seq<byte>, seq<byte>) -> Option<seq<byte>>, es: seq<seq<byte>>)
    requires |es| <= |frames| && AllFit(es)
    requires forall i :: 0 <= i < |es| ==> encrypt(key, frames[i]) == Some(es[i])
    requires |es| < |frames| ==> !Sendable(encrypt(key, frames[|es|]))
    ensures SentFrames(key, frames, encrypt) == es
  {
    var sent := SentFrames(key, frames, encrypt);
    assert |sent| < |es| ==> Sendable(encrypt(key, frames[|sent|]));
  }

  /**
   * Whether the frame of round `i` of the receive loop decrypted, was displayed and was not
   * answered by a `q` key press. Rounds past the end of `shown` count as shown.
   */
  predicate Shown(shown: seq<bool>, i: int)
  {
    0 <= i < |shown| ==> shown[i]
  }

  /**
   * The frames the receive loop keeps from `all`: the leading ones, up to and including the
   * first that is not shown.
   */
  function Leading(all: seq<seq<byte>>, shown: seq<bool>): (r: seq<seq<byte>>)
    ensures |r| <= |all| && r == all[..|r|]
    ensures forall i :: 0 <= i < |r| - 1 ==> Shown(shown, i)
    ensures |r| < |all| ==> r != [] && !Shown(shown, |r| - 1)
  {
    if all == [] then []
    else if !Shown(shown, 0) then [all[0]]
    else
      var later := if shown == [] then [] else shown[1..];
      var rest := Leading(all[1..], later);
      forall i | 1 <= i < |rest|
        ensures Shown(shown, i)
      {
        assert Shown(later, i - 1);
      }
      assert rest != [] ==> Shown(shown, |rest|) == Shown(later, |rest| - 1);
      [all[0]] + rest
  }

  /** The contract of `Leading` determines it: a list with the same three properties is it. */
  lemma LeadingUnique(all: seq<seq<byte>>, shown: seq<bool>, r: seq<seq<byte>>)
    requires |r| <= |all| && r == all[..|r|]
    requires forall i :: 0 <= i < |r| - 1 ==> Shown(shown, i)
    requires |r| < |all| ==> r != [] && !Shown(shown, |r| - 1)
    ensures Leading(all, shown) == r
  {
    var l := Leading(all, shown);
    assert |l| < |r| ==> Shown(shown, |l| - 1);
    assert |r| < |l| ==> Shown(shown, |r| - 1);
  }

  /** Frames read off the front of `all`, cut at an unshown one unless nothing is left, are `Leading`. */
  lemma KeptAreLeading(all: seq<seq<byte>>, shown: seq<bool>, frames: seq<seq<byte>>, rest: seq<seq<byte>>)
    requires all == frames + rest
    requires forall i :: 0 <= i < |frames| - 1 ==> Shown(shown, i)
    requires rest != [] ==> frames != [] && !Shown(shown, |frames| - 1)
    ensures frames == Leading(all, shown)
  {
    assert all[..|frames|] == frames;
    LeadingUnique(all, shown, frames);
  }

  /**
   * The receiving end of a connection whose peer has finished sending: the bytes not read yet,
   * and for each coming `recv` a bound on how much the network has delivered (0: everything).
   */
  class Socket {
    var inbound: seq<byte>
    var arrivals: seq<nat>

    constructor (inbound: seq<byte>, arrivals: seq<nat>)
      ensures this.inbound == inbound && this.arrivals == arrivals
    {
      this.inbound := inbound;
      this.arrivals := arrivals;
    }

    /** `recv(bufsize)`: some of the next bytes, never more than asked; empty only at the end. */
    method Recv(bufsize: nat) returns (chunk: seq<byte>)
      modifies this
      ensures |chunk| <= bufsize
      ensures old(inbound) == chunk + inbound
      ensures bufsize > 0 && old(inbound) != [] ==> chunk != []
      ensures old(arrivals) == [] ==> chunk == old(inbound)[..Min(bufsize, |old(inbound)|)]
      ensures arrivals == if old(arrivals) == [] then [] else old(arrivals)[1..]
    {
      var delivered := if arrivals != [] && arrivals[0] > 0 then arrivals[0] else |inbound|;
      var n := Min(Min(bufsize, delivered), |inbound|);
      chunk := inbound[..n];
      inbound := inbound[n..];
      if arrivals != [] {
        arrivals := arrivals[1..];
      }
    }
  }

  /** The inner loop of `_handle_video_client`: collects up to `frameSize` bytes in chunks of at most 8192. */
  method ReceiveFrame(client: Socket, frameSize: nat) returns (frame: seq<byte>)
    modifies client
    ensures frame == old(client.inbound)[..Min(frameSize, |old(client.inbound)|)]
    ensures old(client.inbound) == frame + client.inbound
    ensures old(client.arrivals) == [] ==> client.arrivals == []
  {
    ghost var start := client.inbound;
    ghost var unsplit := client.arrivals == [];
    frame := [];
    while |frame| < frameSize
      invariant |frame| <= frameSize
      invariant start == frame + client.inbound
      invariant unsplit ==> client.arrivals == []
      decreases frameSize - |frame|
    {
      var chunk := client.Recv(Min(frameSize - |frame|, ChunkLimit));
      if chunk == [] {
        break;
      }
      frame := frame + chunk;
    }
    assert |frame| == Min(frameSize, |start|);
    assert start[..|frame|] == frame;
  }

  /**
   * One round of the receive loop: `recv(4)` for the size, then the frame. None when the size
   * read is empty, which is exactly when the stream has ended.
   */
  method ReadFrame(client: Socket) returns (frame: Option<seq<byte>>)
    modifies client
    ensures frame.None? <==> old(client.inbound) == []
    ensures frame.Some? ==> Fits(frame.value) && |client.inbound| < |old(client.inbound)|
    ensures frame.None? ==> client.inbound == old(client.inbound)
    ensures old(client.arrivals) == [] ==> client.arrivals == []
    ensures old(client.arrivals) == [] && frame.Some? ==>
      Unframe(old(client.inbound)) == [frame.value] + Unframe(client.inbound)
  {
    ghost var before := client.inbound;
    var sizeData := client.Recv(SizeBytes);
    if sizeData == [] {
      return None;
    }
    ghost var middle := client.inbound;
    var frameSize := FromBytesBig(sizeData);
    var data := ReceiveFrame(client, frameSize);
    Pow256Grows(|sizeData|, SizeBytes);
    if old(client.arrivals) == [] {
      assert before[|sizeData|..] == middle;
      UnframeStep(before, sizeData, data, client.inbound);
    }
    return Some(data);
  }

  /**
   * The outcome of `start_video_stream`: an early return, the stream sent in full, or the
   * stream cut by an exception that escapes after the `finally` (the encryption error, or the
   * `OverflowError` of `to_bytes`), with what was sent before it.
   */
  datatype StreamOutcome =
    | NotAPeer
    | NoCapture
    | Streamed(wire: seq<byte>, count: nat)
    | Aborted(wire: seq<byte>, count: nat)

  class VideoHandler {
    const username: seq<byte>
    /** The `known_peers` dictionary, shared with the messenger. */
    const knownPeers: PeerDirectory
    var streaming: bool
    var receiving: bool

    constructor (username: seq<byte>, knownPeers: PeerDirectory)
      ensures this.username == username && this.knownPeers == knownPeers
      ensures !streaming && !receiving
    {
      this.username := username;
      this.knownPeers := knownPeers;
      streaming := false;
      receiving := false;
    }

    method StopVideoStream()
      modifies this`streaming
      ensures !streaming
    {
      streaming := false;
    }

    method StopReceiving()
      modifies this`receiving
      ensures !receiving
    {
      receiving := false;
    }

    /**
     * The `while self.receiving` loop of `_handle_video_client`. `shown[i]` says whether the
     * frame of round `i` was shown; the loop stops after the first frame that was not, and at
     * the end of the stream.
     */
    method ReceiveFrames(client: Socket, shown: seq<bool>) returns (frames: seq<seq<byte>>)
      modifies client
      ensures AllFit(frames)
      ensures forall i :: 0 <= i < |frames| - 1 ==> Shown(shown, i)
      ensures !receiving ==> frames == []
      ensures receiving && old(client.arrivals) == [] ==>
        frames == Leading(Unframe(old(client.inbound)), shown)
    {
      ghost var whole := receiving && client.arrivals == [];
      ghost var all := Unframe(client.inbound);
      ghost var ended := false;
      frames := [];
      while receiving
        invariant AllFit(frames)
        invariant forall i :: 0 <= i < |frames| ==> Shown(shown, i)
        invariant whole ==> client.arrivals == [] && all == frames + Unframe(client.inbound)
        invariant !ended
        invariant receiving || frames == []
        decreases |client.inbound|
      {
        var frame := ReadFrame(client);
        if frame.None? {
          break;
        }
        if whole {
          Associative(frames, [frame.value], Unframe(client.inbound));
        }
        var keep := Shown(shown, |frames|);
        frames := frames + [frame.value];
        if !keep {
          ended := true;
          break;
        }
      }
      if whole {
        assert !ended ==> client.inbound == [];
        KeptAreLeading(all, shown, frames, Unframe(client.inbound));
      }
    }

    /**
     * `_handle_video_client`: the header from one `recv(1024)`, its `decode()`, then the
     * frames. A header that is not UTF-8 raises before any frame is read.
     */
    method HandleVideoClient(client: Socket, shown: seq<bool>)
      returns (sender: seq<byte>, frames: seq<seq<byte>>)
      modifies this`receiving, client
      ensures !receiving
      ensures |sender| <= NameLimit
      ensures |sender| <= |old(client.inbound)| && sender == old(client.inbound)[..|sender|]
      ensures AllFit(frames)
      ensures forall i :: 0 <= i < |frames| - 1 ==> Shown(shown, i)
      ensures !ValidUtf8(sender) ==> frames == [] && client.inbound == old(client.inbound)[|sender|..]
      ensures ValidUtf8(sender) && |old(client.arrivals)| <= 1 ==>
        frames == Leading(Unframe(old(client.inbound)[|sender|..]), shown)
    {
      sender := client.Recv(NameLimit);
      assert old(client.inbound)[|sender|..] == client.inbound;
      if !ValidUtf8(sender) {
        // `UnicodeDecodeError`; the finally still runs
        frames := [];
        receiving := false;
        return;
      }
      receiving := true;
      frames := ReceiveFrames(client, shown);
      // finally
      receiving := false;
    }

    /**
     * `start_video_stream`. `cameraOpens` is `cap.isOpened()`; `captured` are the frames read
     * (already JPEG-encoded and pickled) until the camera stops or `q` is pressed; `encrypt`
     * is RSA-OAEP under the recipient's key, `None` when it raises.
     */
    method StartVideoStream(recipient: string, cameraOpens: bool, captured: seq<seq<byte>>,
                            encrypt: (seq<byte>, seq<byte>) -> Option<seq<byte>>)
      returns (outcome: StreamOutcome)
      modifies this`streaming
      ensures recipient !in knownPeers.keys ==> outcome == NotAPeer && streaming == old(streaming)
      ensures recipient in knownPeers.keys && !cameraOpens ==> outcome == NoCapture && streaming == old(streaming)
      ensures recipient in knownPeers.keys && cameraOpens ==> (outcome.Streamed? || outcome.Aborted?) && !streaming
      ensures outcome.Streamed? || outcome.Aborted? ==>
        var sent := SentFrames(knownPeers.keys[recipient], captured, encrypt);
        && outcome.count == |sent| && outcome.wire == username + Framed(sent)
        && (outcome.Aborted? <==> |sent| < |captured|)
    {
      if recipient !in knownPeers.keys {
        return NotAPeer;
      }
      var key := knownPeers.keys[recipient];
      if !cameraOpens {
        return NoCapture;
      }
      var wire := username;
      ghost var es: seq<seq<byte>> := [];
      streaming := true;
      var i := 0;
      while streaming && i < |captured|
        invariant 0 <= i <= |captured| && streaming
        invariant |es| == i && AllFit(es)
        invariant forall j :: 0 <= j < i ==> encrypt(key, captured[j]) == Some(es[j])
        invariant wire == username + Framed(es)
      {
        var encrypted := encrypt(key, captured[i]);
        if encrypted.None? || !Fits(encrypted.value) {
          // the encryption error, or the `OverflowError` of `to_bytes`, ends the stream
          break;
        }
        FramedAppend(es, encrypted.value);
        wire := wire + Frame(encrypted.value);
        es := es + [encrypted.value];
        i := i + 1;
      }
      // finally
      streaming := false;
      SentFramesUnique(key, captured, encrypt, es);
      outcome := if i < |captured| then Aborted(wire, i) else Streamed(wire, i);
    }
  }
}
