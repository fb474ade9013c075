# videop2p in Dafny

This project models the rule-bearing core of videop2p, a peer-to-peer video chat. The
repository has three parts, and the model follows each one.

- **Signaling server.** A WebSocket server keeps a registry of rooms. Each room holds its set
  of connections. A `join` envelope adds the sender to a room. Every other envelope is relayed
  to the other open members of the room it names, with `from` defaulting to `"unknown"`. When a
  connection closes, it leaves every room, and rooms left empty are deleted.
- **Browser client.**
  - Four React components keep their state in reducers: the in-room video chat, the wallet
    sign-in component, the header wallet button, and the home page.
  - Handlers guard and sequence the dispatches: room create/join/leave, wallet connect,
    disconnect and account change, audio and video toggles over every track, and the release of
    tracks and peer connections.
- **Python prototype.**
  - Text messages travel as `sender|ciphertext`, and the receiver splits them at the first `|`.
  - Video frames travel as a 4-byte big-endian length followed by the encrypted frame. The
    receiver collects each frame in chunks of at most 8192 bytes.

The files are:

- `common.dfy`: `Option`, a `byte` type and `Min`.
- `signaling_server.dfy`: the room registry, a `Server` class with the `message` and `close`
  handlers, and the relay loop. It is proved against specification functions (`Join`,
  `Close`, `Broadcast`, `AfterMessage`, `Outgoing`), and the properties are lemmas about those
  functions.
- `wallet_provider.dfy`: the injected provider's flags and network detection, which both
  wallet components share.
- `wallet_auth.dfy`, `connect_wallet.dfy`, `home_page.dfy`, `video_chat.dfy`: each component
  has a pure reducer with lemmas about it. It also has a class whose methods are the handlers;
  each handler's contract gives the component state it ends in, as a function of the state it
  started from and of its inputs, and says which tracks and connections it changes. Tracks and
  peer connections are objects whose flags the handlers change in place.
- `messenger.dfy`: the text envelope, its split, the `known_peers` lookup in `send_message`,
  and the peer directory.
- `video_handler.dfy`: big-endian length encoding and decoding, and frame framing with a
  reference decoder. It also has a socket that may deliver fewer bytes than asked, the chunked
  receive loops, and the `VideoHandler` class with its streaming and receiving flags.

Outside inputs are parameters:

- the set of open connections;
- the provider and the outcome of its account request;
- the random room id;
- the media stream acquired;
- encryption;
- the frames captured;
- how the network splits a byte stream;
- for each round of the video receive loop, whether its frame was shown.

## Model

| member | source | states |
|---|---|---|
| SignalingServer.Forwarded | server/src/server.js:13-24 | the relayed object has `from` equal to the input's when truthy and `"unknown"` otherwise; every other key (`to`, `sdp`, `candidate`, ...) is present exactly when in the input, with the same value |
| SignalingServer.Without | server/src/server.js:39 | deleting a connection from a member list leaves exactly the other members |
| SignalingServer.WithoutDistinct | server/src/server.js:39 | deleting from a duplicate-free member list keeps it duplicate-free |
| SignalingServer.Join | server/src/server.js:15-17 | after `join` the registry has the old rooms plus the named one, and the joiner is a member of it |
| SignalingServer.Close | server/src/server.js:36-42 | `close` never creates a room: the rooms after it are among those before |
| SignalingServer.Broadcast | server/src/server.js:22-26 | the relay loop sends at most one message per member, each carrying the same relayed object |
| SignalingServer.AfterMessage | server/src/server.js:10-34 | no incoming message removes a room |
| SignalingServer.Outgoing | server/src/server.js:10-34 | a message causes sends only when it parsed, is not a `join` and names a known room, and then every send carries the forwarded object |
| SignalingServer.Add | server/src/server.js:17 | `Set.add` gives a set holding exactly the old members and the joining connection, growing by at most one and keeping the old order |
| SignalingServer.Truthy | server/src/server.js:24 | `undefined` and `null` are falsy and a string is truthy exactly when non-empty, so `from` falls back to "unknown" for those |
| SignalingServer.JoinCreatesRoom | server/src/server.js:15-17 | `join` on an absent room creates it with exactly the joining connection |
| SignalingServer.JoinAddsMember | server/src/server.js:15-17 | after `join` the room's members are the old ones plus the joiner (set semantics), and every other room is unchanged |
| SignalingServer.JoinIdempotent | server/src/server.js:16-17 | joining the same room twice gives the same registry as joining once |
| SignalingServer.JoinPreservesWellFormed | server/src/server.js:16-17 | `join` keeps the invariant that every present room is non-empty and lists each member once |
| SignalingServer.BroadcastRecipients | server/src/server.js:22-26 | the relay loop sends to exactly the members that are not the sender and are OPEN, each the same object |
| SignalingServer.BroadcastOnce | server/src/server.js:22-26 | over a duplicate-free member set, no connection is sent the same relayed message twice |
| SignalingServer.SenderNeverReceives | server/src/server.js:23 | no send caused by a message goes back to its sender |
| SignalingServer.RelayReachesOpenMembers | server/src/server.js:20-26 | a non-join envelope for a known room reaches exactly its open members other than the sender, whatever `to` says; for an unknown room nobody |
| SignalingServer.RelayKeepsRegistry | server/src/server.js:19-30 | a non-join or unparsable message leaves the registry unchanged |
| SignalingServer.UnknownRoomIsDropped | server/src/server.js:11-33 | an envelope for an unknown room, or one that fails to parse, is delivered to nobody and changes nothing |
| SignalingServer.CloseRemovesConnection | server/src/server.js:36-42 | after `close` the connection is in no room |
| SignalingServer.CloseKeepsOthers | server/src/server.js:36-42 | `close` keeps every other membership, and rooms without the connection are unchanged |
| SignalingServer.CloseDeletesEmptiedRooms | server/src/server.js:40 | a room is deleted on `close` exactly when the closing connection was its only member |
| SignalingServer.ClosePreservesWellFormed | server/src/server.js:37-42 | `close` keeps the invariant that no room is present and empty |
| SignalingServer.Relay | server/src/server.js:22-26 | the `forEach` send loop produces the `Broadcast` sends: exactly the open non-sender members |
| SignalingServer.Server.constructor | server/src/server.js:5 | the registry starts empty and well-formed |
| SignalingServer.Server.OnMessage | server/src/server.js:10-34 | the handler leaves the registry `AfterMessage` gives, sends what `Outgoing` gives, and keeps the registry invariant |
| SignalingServer.Server.OnClose | server/src/server.js:36-42 | the `forEach` over rooms leaves exactly `Close` of the old registry and keeps the invariant |
| WalletProvider.DetectNetwork | client/components/WalletAuth.tsx:102-105 | the network is "metamask" iff MetaMask, else "coinbase" iff Coinbase, else "walletconnect" iff WalletConnect, else "ethereum" |
| WalletAuth.Reduce | client/components/WalletAuth.tsx:43-58 | `RESET` gives the initial state; every other action leaves every field but its own as it was |
| WalletAuth.WalletAuthComponent.Dispatch | client/components/WalletAuth.tsx:65 | `dispatch` replaces the state by the reducer's result |
| WalletAuth.ReduceWritesOnlyTarget | client/components/WalletAuth.tsx:43-56 | each `SET_*` action stores its payload in its own field and leaves every other field unchanged |
| WalletAuth.ResetGivesInitial | client/components/WalletAuth.tsx:33-58 | `RESET` gives not connecting, not connected, empty address, network "ethereum", not disconnecting, no auto-connect |
| WalletAuth.DisconnectEndsInitial | client/components/WalletAuth.tsx:182-203 | `SET_DISCONNECTING true`, `RESET`, `SET_DISCONNECTING false` ends in exactly the initial state from any state |
| WalletAuth.AutoConnectSkippedAtMount | client/components/WalletAuth.tsx:244-256 | the guard needs the stored flag, `shouldAutoConnect`, and neither connecting nor disconnecting; since the initial `shouldAutoConnect` is false, it is false at mount whatever is stored |
| WalletAuth.WalletAuthComponent.constructor | client/components/WalletAuth.tsx:65-72 | the component starts in the initial state, mounted, with no callbacks made |
| WalletAuth.WalletAuthComponent.Unmount | client/components/WalletAuth.tsx:73-76 | the unmount cleanup clears the mounted flag |
| WalletAuth.WalletAuthComponent.ConnectWallet | client/components/WalletAuth.tsx:125-179 | a no-op while connecting; success while mounted sets address, network, connected, auto-connect, clears connecting, stores the flag and calls `onConnect` once; success after unmount stores the flag and leaves connecting set, changing nothing else; any failure only clears connecting |
| WalletAuth.WalletAuthComponent.DisconnectWallet | client/components/WalletAuth.tsx:182-203 | ends in the initial state, with the stored flag removed and `onDisconnect` called once when given |
| WalletAuth.WalletAuthComponent.CheckIfWalletIsConnected | client/components/WalletAuth.tsx:89-122 | reports true exactly when the provider yields an account; then, when mounted, sets address, network and connected and calls `onConnect` |
| WalletAuth.WalletAuthComponent.Init | client/components/WalletAuth.tsx:207-262 | a retry is scheduled exactly when the guard held and no account was found; when the guard fails nothing changes; when it holds the state is what `checkIfWalletIsConnected` leaves; a handler is installed exactly when there is a provider, capturing the current address |
| WalletAuth.WalletAuthComponent.HandleAccountsChanged | client/components/WalletAuth.tsx:210-228 | ignored when unmounted; an empty list disconnects, clears the address and calls `onDisconnect`; a new first account replaces the address and calls `onConnect`; the captured address again changes nothing |
| ConnectWallet.ReduceWritesOnlyTarget | client/components/connect-wallet.tsx:36-45 | each `SET_*` action stores its payload in its own field and leaves the others unchanged |
| ConnectWallet.ResetGivesInitial | client/components/connect-wallet.tsx:28-47 | `RESET` gives not connecting, not connected, empty address, network "ethereum" |
| ConnectWallet.Reduce | client/components/connect-wallet.tsx:36-47 | `RESET` gives the initial state; every other action leaves every field but its own as it was |
| ConnectWallet.Substring | client/components/connect-wallet.tsx:233 | JavaScript `substring`: never longer than the string, the slice between in-range ends in either order, the whole string for ends beyond both sides |
| ConnectWallet.ShortAddress | client/components/connect-wallet.tsx:233 | the label is the first min(6, n) characters, "...", and the last min(4, n) characters of the address, with JavaScript `substring` clamping |
| ConnectWallet.ShortAddressOfStandardAddress | client/components/connect-wallet.tsx:233 | a 42-character address shows as its first six characters, "...", and its last four |
| ConnectWallet.ConnectWalletComponent.constructor | client/components/connect-wallet.tsx:54 | the component starts in the initial state, mounted, with no `onConnect` calls |
| ConnectWallet.ConnectWalletComponent.Unmount | client/components/connect-wallet.tsx:59-62 | the unmount cleanup clears the mounted flag |
| ConnectWallet.ConnectWalletComponent.Dispatch | client/components/connect-wallet.tsx:54 | `dispatch` replaces the state by the reducer's result |
| ConnectWallet.ConnectWalletComponent.ConnectWallet | client/components/connect-wallet.tsx:153-214 | a no-op while connecting; a missing provider, rejection or empty list never connects, and the `finally` clears connecting only when mounted; success while mounted sets address, network, connected and calls `onConnect` once |
| ConnectWallet.ConnectWalletComponent.CheckConnection | client/components/connect-wallet.tsx:79-118 | with an account and mounted, sets address, network and connected and calls `onConnect`; otherwise changes nothing |
| ConnectWallet.ConnectWalletComponent.Commit | client/components/connect-wallet.tsx:76-151 | the effect runs exactly on the first commit and when `state.address` changed since its last run; a run does what `checkConnection` does and installs a handler capturing the address of that commit; otherwise nothing changes |
| ConnectWallet.ConnectWalletComponent.ConnectThenCommit | client/components/connect-wallet.tsx:151-214 | a connect that finds a new account, followed by the next commit while the wallet still reports it, calls `onConnect` twice with that address |
| ConnectWallet.ConnectWalletComponent.HandleAccountsChanged | client/components/connect-wallet.tsx:123-139 | ignored when unmounted; an empty list disconnects and clears the address; a first account other than the captured one replaces the address and calls `onConnect` |
| HomePage.ReduceWritesOnlyTarget | client/app/page.tsx:41-54 | each `SET_*` action stores its payload in its own field and leaves the others unchanged |
| HomePage.ResetGivesInitial | client/app/page.tsx:31-56 | `RESET` gives no wallet, no room, no operation in progress |
| HomePage.Reduce | client/app/page.tsx:41-56 | `RESET` gives the initial state; every other action leaves every field but its own as it was |
| HomePage.TrimStart | client/app/page.tsx:98 | drops exactly a leading run of removable characters: the result is a suffix, every dropped character is white space or a line terminator, and a non-empty result starts with a character that is not |
| HomePage.TrimEnd | client/app/page.tsx:98 | drops exactly a trailing run of removable characters: the result is a prefix, every dropped character is white space or a line terminator, and a non-empty result ends with a character that is not |
| HomePage.Trim | client/app/page.tsx:98 | `trim()` is a slice of its input with only white space and line terminators before and after it, and a non-empty result begins and ends with a character it does not remove |
| HomePage.TrimEmptyIffBlank | client/app/page.tsx:98 | `roomId.trim()` is empty exactly when every character is ECMAScript white space or a line terminator |
| HomePage.ViewOf | client/app/page.tsx:133-181 | the connect prompt iff no wallet, the lobby iff a wallet and not in a room, else the chat for the room id and wallet address |
| HomePage.Home.constructor | client/app/page.tsx:63 | the page starts in the initial state |
| HomePage.Home.Dispatch | client/app/page.tsx:63 | `dispatch` replaces the state by the reducer's result |
| HomePage.Home.HandleWalletConnect | client/app/page.tsx:67-71 | sets the wallet connected with the address and nothing else |
| HomePage.Home.CreateRoom | client/app/page.tsx:73-92 | ignored while creating; otherwise sets the room id, enters the room, and ends with creating false |
| HomePage.Home.JoinRoom | client/app/page.tsx:94-115 | ignored while joining or when the trimmed room id is empty; otherwise enters the room and ends with joining false |
| HomePage.Home.HandleLeaveRoom | client/app/page.tsx:117-121 | leaves the room and clears the room id; wallet fields are unchanged |
| VideoChat.OfKind | client/components/video-chat.tsx:116-121 | `getAudioTracks`/`getVideoTracks` returns tracks of the stream of that kind and includes every one |
| VideoChat.OfKindFirst | client/components/video-chat.tsx:116-121 | the first track of a kind returned is the stream's first track of that kind |
| VideoChat.Reduce | client/components/video-chat.tsx:41-60 | `RESET` gives the initial state; every other action leaves every field but its own as it was |
| VideoChat.ReduceWritesOnlyTarget | client/components/video-chat.tsx:41-58 | every action other than `RESET` changes only its own field |
| VideoChat.SetActionsStorePayload | client/components/video-chat.tsx:43-48 | `SET_LOCAL_STREAM`, `SET_AUDIO_ENABLED`, `SET_VIDEO_ENABLED` store their payload |
| VideoChat.AddPeerOverwrites | client/components/video-chat.tsx:49-53 | `ADD_PEER` maps the id to the stream, replacing an earlier entry; other ids keep their streams |
| VideoChat.RemovePeerDeletesOnly | client/components/video-chat.tsx:54-58 | `REMOVE_PEER` deletes only the id; removing an absent id changes nothing |
| VideoChat.ResetGivesInitial | client/components/video-chat.tsx:33-60 | `RESET` gives no local stream, audio and video enabled, no peers |
| VideoChat.GridClass | client/components/video-chat.tsx:334-341 | one column iff no peers; `sm:grid-cols-2` iff 1 to 3 peers; adds `md:grid-cols-3` iff 4 or more |
| VideoChat.StopAll | client/components/video-chat.tsx:182-188 | every track of the list is stopped, enablement unchanged |
| VideoChat.SetAllEnabled | client/components/video-chat.tsx:214-238 | every track of the list gets the given `enabled`, stopped state unchanged |
| VideoChat.CloseAll | client/components/video-chat.tsx:192-198 | every peer connection of the map is closed |
| VideoChat.VideoChatComponent.constructor | client/components/video-chat.tsx:68-77 | the component starts in the initial state, mounted, with no stream and no connections |
| VideoChat.VideoChatComponent.Dispatch | client/components/video-chat.tsx:68 | `dispatch` replaces the state by the reducer's result |
| VideoChat.VideoChatComponent.OnMediaAcquired | client/components/video-chat.tsx:103-122 | with no stream nothing changes; when unmounted the new tracks are stopped with their `enabled` kept and state is untouched; otherwise the stream is stored, each flag is "tracks of the kind exist and the first is enabled", and no track's `enabled` or stopped state changes |
| VideoChat.VideoChatComponent.Toggle | client/components/video-chat.tsx:207-248 | without a stream or without tracks of the kind nothing changes; otherwise every track of the kind gets the negated flag, the flag flips, and tracks of the other kind are untouched |
| VideoChat.VideoChatComponent.LeaveRoom | client/components/video-chat.tsx:282-317 | `onLeave` is called on both paths; with an error nothing is released (state, map, tracks and connections as they were); without one every local track is stopped, every connection closed, the map emptied and the state reset; no track's `enabled` changes |
| VideoChat.VideoChatComponent.Cleanup | client/components/video-chat.tsx:176-203 | on unmount the acquired tracks are stopped with their `enabled` kept, every connection closed, the map emptied and the state reset |
| Messenger.SplitOnce | videop2p.py:69 | splitting fails exactly when the data holds no separator byte (124); otherwise the data is the sender, the separator and the ciphertext, with no separator in the sender |
| Messenger.WireMessage | videop2p.py:86 | the wire message is the sender, one separator byte, then the ciphertext, and nothing else |
| Messenger.SplitInvertsWire | videop2p.py:69-86 | splitting a wire message gives back the sender and the ciphertext whenever the sender holds no separator, whatever bytes the ciphertext holds |
| Messenger.SenderWithBarIsCut | videop2p.py:69-86 | a sender name holding the separator is read back as its part before its first separator |
| Messenger.HandleClient | videop2p.py:66-72 | empty data is not parsed; data without a separator fails to unpack; a sender part that is not UTF-8 fails to decode; otherwise the sender and ciphertext it yields rebuild the data, the sender holding no separator and being UTF-8 |
| Messenger.SendMessage | videop2p.py:76-86 | the send is refused iff the recipient is unknown; it fails iff encryption under the recipient's stored key raises; otherwise the wire message splits back into the sender and that ciphertext |
| Messenger.AddedKeyIsUsed | videop2p.py:81-109 | after storing a key under a name, a send to that name encrypts with that key, and fails exactly when that encryption raises |
| Messenger.PeerDirectory.constructor | videop2p.py:101 | the directory starts empty |
| Messenger.PeerDirectory.Add | videop2p.py:109 | stores the key under the name, other entries unchanged |
| Common.ValidUtf8 | video_handler.py:35 | `decode()` accepts a byte string only if it ends in an ASCII byte or a continuation byte, never mid-sequence |
| Common.AsciiIsValidUtf8 | video_handler.py:35 | every ASCII name decodes |
| Common.ValidUtf8Bytes | video_handler.py:35 | the bytes C0, C1 and F5 to FF never occur in a name that decodes |
| VideoStreaming.ToBytesBig | video_handler.py:124 | `to_bytes(k, 'big')` is defined only below 256^k and gives k bytes |
| VideoStreaming.FromBytesBig | video_handler.py:45 | `from_bytes(b, 'big')` is below 256^len(b) |
| VideoStreaming.FromToBytes | video_handler.py:124 | reading a written length prefix gives the length back, for every length below 2^32 |
| VideoStreaming.ToFromBytes | video_handler.py:45 | every 4-byte header is the encoding of the value it reads as |
| VideoStreaming.Framed | video_handler.py:124-126 | the sender's wire is empty exactly when there are no frames, and holds at least a 4-byte header per frame |
| VideoStreaming.Unframe | video_handler.py:40-53 | the reference decoding yields at most one frame per byte read, and every frame fits the 4-byte header |
| VideoStreaming.UnframeFramed | video_handler.py:42-53 | reading back the framed stream gives the encrypted frames, in order |
| VideoStreaming.Socket.Recv | video_handler.py:42-50 | `recv(n)` returns at most n of the next bytes, empty only at the end of the stream |
| VideoStreaming.ReceiveFrame | video_handler.py:48-53 | the chunk loop collects exactly the next min(frame size, available) bytes, so it never exceeds the frame size and stops short only at the end of the stream |
| VideoStreaming.ReadFrame | video_handler.py:42-53 | one round reads nothing exactly at the end of the stream; otherwise it consumes bytes and yields a frame that fits the header, and on an unsplit stream that frame is the first of the reference decoding |
| VideoStreaming.SentFrames | video_handler.py:104-126 | the ciphertexts sent are those of the leading frames, each the frame's encryption and fitting the header, stopping at the first frame whose encryption raises or whose length overflows `to_bytes` |
| VideoStreaming.SentFramesUnique | video_handler.py:104-126 | those three properties determine the list of ciphertexts sent |
| VideoStreaming.Leading | video_handler.py:40-72 | the frames the receiver keeps are a prefix of those it reads: all shown but the last, and shorter than all only when the last was not shown |
| VideoStreaming.LeadingUnique | video_handler.py:40-72 | those three properties determine the frames kept |
| VideoStreaming.VideoHandler.constructor | video_handler.py:11-17 | a new handler is neither streaming nor receiving |
| VideoStreaming.VideoHandler.StopVideoStream | video_handler.py:139-141 | streaming is false |
| VideoStreaming.VideoHandler.StopReceiving | video_handler.py:143-145 | receiving is false |
| VideoStreaming.VideoHandler.ReceiveFrames | video_handler.py:40-72 | every frame fits the 4-byte header and all but the last were shown; nothing is read when not receiving; on an unsplit stream the frames are the leading frames of the reference decoding up to the first unshown one |
| VideoStreaming.VideoHandler.HandleVideoClient | video_handler.py:30-77 | the header is at most 1024 leading bytes; afterwards receiving is false; a header that is not UTF-8 reads no frame; otherwise the frames are as for `ReceiveFrames` on the rest |
| VideoStreaming.VideoHandler.StartVideoStream | video_handler.py:79-137 | an unknown recipient or closed camera streams nothing and leaves the flag; otherwise the wire is the name followed by the framed `SentFrames` and streaming ends false, and the stream ends by an escaping exception exactly when fewer frames were sent than captured |

## Left out

- WebSocket transport, `JSON.parse`/`JSON.stringify` and logging in the signaling server: a message arrives already parsed or as `Malformed`, and sends are returned as (recipient, envelope) records. JSON field values are reduced to scalars (`undefined`, `null`, booleans, integers, strings); objects, arrays and fractional numbers are not modelled, and `sdp`/`candidate` are passed through as opaque values.
- Connections are numbers; whether a connection is OPEN is a set passed to each handler.
- Browser media: the `getUserMedia` audio-only fallback and the demo peer added after two seconds (client/components/video-chat.tsx:79-101,130-138). The stream that was acquired, if any, is a parameter of `OnMediaAcquired`.
- `RTCPeerConnection`: the map of peer connections is only iterated and cleared, never filled, so a connection has only its closed state.
- VideoChat.VideoChatComponent.LeaveRoom: an exception escaping the unguarded steps is reduced to a boolean `fails` raised before anything changes. The per-track and per-connection `try`/`catch` blocks are not modelled because stopping and closing cannot fail here.
- Rendering and JSX, `toast`, `alert`, the clipboard copy, the screen-share placeholder and the network icon choice.
- `localStorage` is reduced to the one stored key (`Option<string>`).
- The random room id of `createRoom` (floating-point `Math.random`) is a string parameter.
- `window.ethereum` RPC calls: their outcome is a parameter (a list of accounts, a rejection, or no provider). A provider that resolves to `null` is treated like a rejection.
- The 500 ms retry timer in WalletAuth: `Init` reports that a retry would be scheduled and does not run it.
- Stale closures: handlers read the component's current state; only the account-change handlers receive the address they captured, as a parameter.
- The effect in connect-wallet re-installs its listener on every address change without removing the previous one. `Commit` returns the new handler, but the accumulation of installed listeners is not modelled. `onConnect` is taken to keep its identity, as the page's `useCallback` with no dependencies gives it.
- Removing the listener on unmount is not modelled.
- GoogleAuth.tsx, UsernameAuth.tsx, ui/walletconnectBtn.tsx, app/provider.tsx, app/ClientWrapper.tsx, the toast hook, next.config.js and client/server.js are not part of this model.
- Python RSA key generation, PEM (de)serialisation, OAEP, pickle, JPEG and OpenCV capture and display: ciphertexts, keys and frames are byte sequences. Encryption is a function parameter that yields nothing where key loading or OAEP raises.
- Messenger.SendMessage: the connection to port 5555 and the send are assumed to succeed. In the source a refused `client.connect` raises out of `send_message` (videop2p.py:84-85), and since the menu loop of `main` does not catch it, it ends the messenger (videop2p.py:116-137); the model reports `Sent` instead.
- Messenger.HandleClient: the decryption after the split and the `decode()` of the plaintext can raise; the model stops at the decoded sender and the ciphertext.
- The thread per connection, `main`'s menu loop and `start_server`'s accept loop are left out. A stop issued from another thread while a loop runs is not modelled: inside a loop the flags change only by the loop itself.
- `socket.send` is taken to send everything. The name `recv(1024)` and the message `recv(4096)` take whatever the network delivered, so they may merge with later bytes or be cut short. The model shows this through `Socket.arrivals`, and only for the video path.
- The connection attempt of `start_video_stream` is assumed to succeed. A refused connection ends the call with an escaping error after the `finally` resets `streaming` and closes the socket (video_handler.py:99-100,133-137); only a failing `socket.socket()` would leave `client` unbound there.
- `default_backend` is used in video_handler.py:88 without being imported, so the source raises `NameError` there for every known recipient. The model assumes the import is present and loads the key.
- VideoStreaming.VideoHandler.HandleVideoClient: a size read that returns fewer than 4 bytes is decoded as a shorter big-endian number, as the source does (video_handler.py:42-45). The equality with the reference decoding is therefore stated only for a stream that arrives unsplit after the name.
