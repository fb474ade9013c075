/**
 * The text messenger of videop2p.py: a message travels as the sender's name, a `|` byte
 * and the ciphertext; the receiver splits at the first `|` only. Peers' public keys are
 * kept in a directory by user name, and a send to a name that is not there is refused.
 * Encryption is a parameter; keys and ciphertexts are opaque bytes.
 */
module Messenger {
  import opened Common

  /** The separator byte `b"|"`. */
  const Bar: byte := 124

  /** `f"{sender}|".encode() + encrypted_msg`, the sender name taken already encoded. */
  function WireMessage(sender: seq<byte>, ciphertext: seq<byte>): (w: seq<byte>)
    ensures |w| == |sender| + 1 + |ciphertext|
    ensures w[..|sender|] == sender && w[|sender|] == Bar && w[|sender| + 1..] == ciphertext
  {
    sender + [Bar] + ciphertext
  }

  /** The position of the first separator, or the length when there is none. */
  function FirstBar(data: seq<byte>): (i: nat)
    ensures i <= |data|
    ensures forall j :: 0 <= j < i ==> data[j] != Bar
    ensures i < |data| ==> data[i] == Bar
  {
    if data == [] then 0
    else if data[0] == Bar then 0
    else 1 + FirstBar(data[1..])
  }

  /** `sender, encrypted_msg = data.split(b"|", 1)`: unpacking raises when there is no separator. */
  datatype Split = Parts(sender: seq<byte>, ciphertext: seq<byte>) | NotEnoughValues

  function SplitOnce(data: seq<byte>): (r: Split)
    ensures r.NotEnoughValues? <==> Bar !in data
    ensures r.Parts? ==> data == r.sender + [Bar] + r.ciphertext && Bar !in r.sender
  {
    var i := FirstBar(data);
    if i == |data| then NotEnoughValues
    else Parts(data[..i], data[i + 1..])
  }

  /** The split is unique: a sender without `|` and any ciphertext are recovered from the wire form. */
  lemma SplitInvertsWire(sender: seq<byte>, ciphertext: seq<byte>)
    requires Bar !in sender
    ensures SplitOnce(WireMessage(sender, ciphertext)) == Parts(sender, ciphertext)
  {
    var data := WireMessage(sender, ciphertext);
    assert data[|sender|] == Bar;
    assert forall j :: 0 <= j < |sender| ==> data[j] == sender[j];
    assert FirstBar(data) == |sender|;
  }

  /** A sender name that contains `|` is cut at its first `|`; the rest moves into the ciphertext. */
  lemma SenderWithBarIsCut(sender: seq<byte>, ciphertext: seq<byte>)
    requires Bar in sender
    ensures var r := SplitOnce(WireMessage(sender, ciphertext));
      r.Parts? && |r.sender| < |sender| && r.sender == sender[..|r.sender|]
  {
    var data := WireMessage(sender, ciphertext);
    var r := SplitOnce(data);
    var k :| 0 <= k < |sender| && sender[k] == Bar;
    assert data[k] == Bar;
    assert data[..|sender|] == sender;
  }

  /**
   * What `handle_client` does with the bytes of its one `recv(4096)`: nothing when they are
   * empty; the unpacking `ValueError` when there is no separator; the `UnicodeDecodeError` of
   * `sender.decode()` when the name is not UTF-8; otherwise the name and the ciphertext.
   */
  datatype Received = NoData | SplitError | SenderNotUtf8 | Message(sender: seq<byte>, ciphertext: seq<byte>)

  function HandleClient(data: seq<byte>): (r: Received)
    ensures r.NoData? <==> data == []
    ensures r.SplitError? <==> data != [] && Bar !in data
    ensures r.SenderNotUtf8? <==> Bar in data && !ValidUtf8(SplitOnce(data).sender)
    ensures r.Message? ==> data == WireMessage(r.sender, r.ciphertext) && Bar !in r.sender && ValidUtf8(r.sender)
  {
    if data == [] then NoData
    else match SplitOnce(data)
      case NotEnoughValues => SplitError
      case Parts(sender, ct) => if ValidUtf8(sender) then Message(sender, ct) else SenderNotUtf8
  }

  /**
   * The outcome of `send_message`: refused for an unknown recipient, the exception of
   * `encrypt_message` escaping it, or one wire message sent.
   */
  datatype SendResult = UnknownRecipient | EncryptFailed | Sent(wire: seq<byte>)

  /**
   * `send_message`: looks the recipient's key up, encrypts with it and sends one wire message.
   * `encrypt` stands for loading the PEM key and RSA-OAEP encryption; it gives None where
   * those raise, as OAEP does for a message too long for the key.
   */
  function SendMessage(sender: seq<byte>, recipient: string, message: string,
                       knownPeers: map<string, seq<byte>>,
                       encrypt: (seq<byte>, string) -> Option<seq<byte>>): (r: SendResult)
    ensures r.UnknownRecipient? <==> recipient !in knownPeers
    ensures r.EncryptFailed? <==> recipient in knownPeers && encrypt(knownPeers[recipient], message).None?
    ensures r.Sent? && Bar !in sender ==>
      SplitOnce(r.wire) == Parts(sender, encrypt(knownPeers[recipient], message).value)
  {
    if recipient !in knownPeers then UnknownRecipient
    else
      match encrypt(knownPeers[recipient], message)
      case None => EncryptFailed
      case Some(ct) =>
        assert Bar !in sender ==> SplitOnce(WireMessage(sender, ct)) == Parts(sender, ct) by {
          if Bar !in sender { SplitInvertsWire(sender, ct); }
        }
        Sent(WireMessage(sender, ct))
  }

  /** A key stored under a name is the key a later send to that name encrypts with. */
  lemma AddedKeyIsUsed(sender: seq<byte>, name: string, key: seq<byte>, message: string,
                       knownPeers: map<string, seq<byte>>, encrypt: (seq<byte>, string) -> Option<seq<byte>>)
    ensures var r := SendMessage(sender, name, message, knownPeers[name := key], encrypt);
      match encrypt(key, message)
      case None => r == EncryptFailed
      case Some(ct) => r == Sent(WireMessage(sender, ct))
  {
  }

  /** The `known_peers` dictionary shared by the messenger and the video handler. */
  class PeerDirectory {
    var keys: map<string, seq<byte>>

    constructor ()
      ensures keys == map[]
    {
      keys := map[];
    }

    /** `known_peers[peer_username] = peer_public_key`. */
    method Add(name: string, key: seq<byte>)
      modifies this
      ensures keys == old(keys)[name := key]
    {
      keys := keys[name := key];
    }
  }
}
