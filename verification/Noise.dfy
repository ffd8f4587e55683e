/**
 The Noise session (src/crypto.rs) over an ideal cipher: a sealed packet is its keys, direction,
 nonce and plaintext, and opens only under the same keys and nonce. Handshake messages follow
 the XX pattern (Noise Protocol Framework, section 7.5); nonces and sizes follow sections 5.1 and 3.
 */
module Noise {
  import opened Basics

  /** A packet is at most 65535 bytes, of which the authentication tag takes 16. */
  const MAX_MESSAGE: nat := 65535
  const TAG: nat := 16
  const MAX_CHUNK_PLAIN: nat := 65535 - 16

  /** The nonce 2^64 - 1 is reserved, so a direction seals at most this many packets. */
  const NONCES: nat := 0xFFFF_FFFF_FFFF_FFFF

  datatype CryptoError = HandshakeFailed | EncryptFailed | DecryptFailed | InvalidState

  datatype Role = Initiator | Responder {
    function Other(): Role {
      if Initiator? then Responder else Initiator
    }
  }

  /** The ephemeral keys of both sides, which identify a session. */
  datatype Keys = Keys(initiator: nat, responder: nat)

  datatype Packet =
    | Hello(ephemeral: nat, payload: seq<byte>)
    | Reply(keys: Keys, payload: seq<byte>)
    | Finish(keys: Keys, payload: seq<byte>)
    | Sealed(keys: Keys, from: Role, nonce: nat, plain: seq<byte>)
    | Foreign(len: nat)
  {
    /** Bytes on the wire: 32 per key, 16 per authentication tag. */
    function Len(): nat {
      match this
      case Hello(_, p) => 32 + |p|
      case Reply(_, p) => 96 + |p|
      case Finish(_, p) => 64 + |p|
      case Sealed(_, _, _, p) => |p| + TAG
      case Foreign(n) => n
    }
  }

  /** `step` counts the handshake messages so far, ours and theirs; `local` is our ephemeral key. */
  datatype NoiseState =
    | Handshake(role: Role, step: nat, local: nat, remote: nat)
    | Transport(role: Role, keys: Keys, sendNonce: nat, recvNonce: nat)
  {
    function SessionKeys(): Keys
      requires Handshake?
    {
      if role.Initiator? then Keys(local, remote) else Keys(remote, local)
    }

    /** The initiator writes messages 0 and 2, the responder message 1. */
    predicate MyTurn()
      requires Handshake?
    {
      step < 3 && (role.Initiator? <==> step != 1)
    }

    function Advanced(remoteKey: nat): NoiseState
      requires Handshake?
    {
      var s := Handshake(role, step + 1, local, remoteKey);
      if step + 1 == 3 then Transport(role, s.SessionKeys(), 0, 0) else s
    }
  }

  type State = Option<NoiseState>

  function Outgoing(s: NoiseState, payload: seq<byte>): Packet
    requires s.Handshake?
  {
    if s.step == 0 then Hello(s.local, payload)
    else if s.step == 1 then Reply(s.SessionKeys(), payload)
    else Finish(s.SessionKeys(), payload)
  }

  /** The answer of `write_message`: an error whenever the state has been lost. */
  function Written(state: State, payload: seq<byte>, room: nat): Result<Packet, CryptoError> {
    match state
    case None => Err(InvalidState)
    case Some(s) =>
      if s.Handshake? then
        if s.MyTurn() && Outgoing(s, payload).Len() <= room && Outgoing(s, payload).Len() <= MAX_MESSAGE
        then Ok(Outgoing(s, payload)) else Err(HandshakeFailed)
      else if |payload| + TAG <= MAX_MESSAGE && |payload| + TAG <= room && s.sendNonce < NONCES
      then Ok(Sealed(s.keys, s.role, s.sendNonce, payload)) else Err(EncryptFailed)
  }

  /** The state `write_message` leaves: none after a failure. */
  function AfterWrite(state: State, payload: seq<byte>, room: nat): State {
    if Written(state, payload, room).Err? then None
    else if state.value.Handshake? then Some(state.value.Advanced(state.value.remote))
    else Some(state.value.(sendNonce := state.value.sendNonce + 1))
  }

  /** Whether a handshake packet is the one this side waits for; replies are bound to the keys already exchanged. */
  predicate Expected(s: NoiseState, packet: Packet)
    requires s.Handshake?
  {
    && s.step < 3 && !s.MyTurn()
    && match packet
       case Hello(_, _) => s.step == 0
       case Reply(k, _) => s.step == 1 && k.initiator == s.local
       case Finish(k, _) => s.step == 2 && k == s.SessionKeys()
       case _ => false
  }

  /** The answer of `read_message`: the payload, or an error. */
  function Opened(state: State, packet: Packet, room: nat): Result<seq<byte>, CryptoError> {
    match state
    case None => Err(InvalidState)
    case Some(s) =>
      if s.Handshake? then
        if Expected(s, packet) && packet.Len() <= MAX_MESSAGE && |packet.payload| <= room
        then Ok(packet.payload) else Err(HandshakeFailed)
      else if packet.Sealed? && packet.keys == s.keys && packet.from == s.role.Other() && packet.nonce == s.recvNonce
              && packet.Len() <= MAX_MESSAGE && |packet.plain| <= room && s.recvNonce < NONCES
      then Ok(packet.plain) else Err(DecryptFailed)
  }

  function AfterOpen(state: State, packet: Packet, room: nat): State {
    if Opened(state, packet, room).Err? then None
    else if state.value.Handshake? then
      Some(state.value.Advanced(
             if packet.Hello? then packet.ephemeral
             else if packet.Reply? then packet.keys.responder
             else state.value.remote))
    else Some(state.value.(recvNonce := state.value.recvNonce + 1))
  }

  predicate Finished(state: State) {
    state.Some? && state.value.Transport?
  }

  // ------------------------------------------------------------------
  // Chunking
  // ------------------------------------------------------------------

  /** The payload cut into chunks of the maximum size, the last possibly shorter. */
  function Chunks(p: seq<byte>): seq<seq<byte>> {
    if |p| == 0 then []
    else if |p| <= MAX_CHUNK_PLAIN then [p]
    else [p[..MAX_CHUNK_PLAIN]] + Chunks(p[MAX_CHUNK_PLAIN..])
  }

  /** Encrypting chunks one after another; the first failure is the answer. */
  function EncryptAll(state: State, chunks: seq<seq<byte>>): Result<seq<Packet>, CryptoError>
    decreases |chunks|
  {
    if |chunks| == 0 then Ok([])
    else match Written(state, chunks[0], |chunks[0]| + TAG)
      case Err(e) => Err(e)
      case Ok(packet) =>
        match EncryptAll(AfterWrite(state, chunks[0], |chunks[0]| + TAG), chunks[1..])
        case Err(e) => Err(e)
        case Ok(rest) => Ok([packet] + rest)
  }

  function AfterEncryptAll(state: State, chunks: seq<seq<byte>>): State
    decreases |chunks|
  {
    if |chunks| == 0 || Written(state, chunks[0], |chunks[0]| + TAG).Err? then
      if |chunks| == 0 then state else None
    else AfterEncryptAll(AfterWrite(state, chunks[0], |chunks[0]| + TAG), chunks[1..])
  }

  /** Encrypting two lists of chunks in turn is encrypting them together. */
  lemma {:induction false} EncryptAppend(state: State, a: seq<seq<byte>>, b: seq<seq<byte>>)
    requires EncryptAll(state, a).Ok?
    ensures var middle := AfterEncryptAll(state, a);
            && AfterEncryptAll(state, a + b) == AfterEncryptAll(middle, b)
            && EncryptAll(state, a + b) == match EncryptAll(middle, b)
                                           case Ok(rest) => Ok(EncryptAll(state, a).value + rest)
                                           case Err(e) => Err(e)
    decreases |a|
  {
    if |a| == 0 {
      assert a + b == b;
      assert forall rest: seq<Packet> :: [] + rest == rest;
    } else {
      assert (a + b)[0] == a[0] && (a + b)[1..] == a[1..] + b;
      var next := AfterWrite(state, a[0], |a[0]| + TAG);
      EncryptAppend(next, a[1..], b);
      var packet, tail := [Written(state, a[0], |a[0]| + TAG).value], EncryptAll(next, a[1..]).value;
      assert forall rest: seq<Packet> :: packet + (tail + rest) == (packet + tail) + rest;
    }
  }

  function DecryptAll(state: State, packets: seq<Packet>): Result<seq<byte>, CryptoError>
    decreases |packets|
  {
    if |packets| == 0 then Ok([])
    else match Opened(state, packets[0], packets[0].Len())
      case Err(e) => Err(e)
      case Ok(plain) =>
        match DecryptAll(AfterOpen(state, packets[0], packets[0].Len()), packets[1..])
        case Err(e) => Err(e)
        case Ok(rest) => Ok(plain + rest)
  }

  function AfterDecryptAll(state: State, packets: seq<Packet>): State
    decreases |packets|
  {
    if |packets| == 0 then state
    else if Opened(state, packets[0], packets[0].Len()).Err? then None
    else AfterDecryptAll(AfterOpen(state, packets[0], packets[0].Len()), packets[1..])
  }

  /** A successful result with `front` put before it. */
  ghost function Prepend<T>(front: seq<T>, r: Result<seq<T>, CryptoError>): (p: Result<seq<T>, CryptoError>)
    ensures |front| == 0 ==> p == r
    ensures r == Ok([]) ==> p == Ok(front)
  {
    match r
    case Err(e) => Err(e)
    case Ok(rest) =>
      assert [] + rest == rest && front + [] == front;
      Ok(front + rest)
  }

  lemma PrependTwice<T>(front: seq<T>, x: T, r: Result<seq<T>, CryptoError>)
    ensures Prepend(front, Prepend([x], r)) == Prepend(front + [x], r)
  {
    if r.Ok? {
      assert front + ([x] + r.value) == (front + [x]) + r.value;
    }
  }

  class NoiseSession {
    var state: State

    /** The client begins the handshake. */
    constructor Client(ephemeral: nat)
      ensures state == Some(Handshake(Initiator, 0, ephemeral, 0))
    {
      state := Some(Handshake(Initiator, 0, ephemeral, 0));
    }

    /** The server answers it. */
    constructor Server(ephemeral: nat)
      ensures state == Some(Handshake(Responder, 0, ephemeral, 0))
    {
      state := Some(Handshake(Responder, 0, ephemeral, 0));
    }

    /** Read one packet; its payload must fit in `room` bytes. */
    method ReadMessage(packet: Packet, room: nat) returns (r: Result<seq<byte>, CryptoError>)
      modifies this
      ensures r == Opened(old(state), packet, room) && state == AfterOpen(old(state), packet, room)
    {
      var taken := state;
      state := None;
      if taken.None? {
        return Err(InvalidState);
      }
      var s := taken.value;
      if s.Handshake? {
        if !Expected(s, packet) || packet.Len() > MAX_MESSAGE || |packet.payload| > room {
          return Err(HandshakeFailed);
        }
        var remote := s.remote;
        if packet.Hello? {
          remote := packet.ephemeral;
        } else if packet.Reply? {
          remote := packet.keys.responder;
        }
        state := Some(s.Advanced(remote));
        return Ok(packet.payload);
      } else {
        if !packet.Sealed? || packet.keys != s.keys || packet.from == s.role || packet.nonce != s.recvNonce
           || packet.Len() > MAX_MESSAGE || |packet.plain| > room || s.recvNonce >= NONCES
        {
          return Err(DecryptFailed);
        }
        state := Some(s.(recvNonce := s.recvNonce + 1));
        return Ok(packet.plain);
      }
    }

    /** Write one packet of at most `room` bytes. */
    method WriteMessage(payload: seq<byte>, room: nat) returns (r: Result<Packet, CryptoError>)
      modifies this
      ensures r == Written(old(state), payload, room) && state == AfterWrite(old(state), payload, room)
    {
      var taken := state;
      state := None;
      if taken.None? {
        return Err(InvalidState);
      }
      var s := taken.value;
      if s.Handshake? {
        var packet := Outgoing(s, payload);
        if !s.MyTurn() || packet.Len() > room || packet.Len() > MAX_MESSAGE {
          return Err(HandshakeFailed);
        }
        state := Some(s.Advanced(s.remote));
        return Ok(packet);
      } else {
        if |payload| + TAG > MAX_MESSAGE || |payload| + TAG > room || s.sendNonce >= NONCES {
          return Err(EncryptFailed);
        }
        state := Some(s.(sendNonce := s.sendNonce + 1));
        return Ok(Sealed(s.keys, s.role, s.sendNonce, payload));
      }
    }

    /** The payload is cut into chunks, and each becomes a packet; an empty payload becomes none. */
    method EncryptChunked(payload: seq<byte>) returns (r: Result<seq<Packet>, CryptoError>)
      modifies this
      ensures r == EncryptAll(old(state), Chunks(payload)) && state == AfterEncryptAll(old(state), Chunks(payload))
    {
      var packets: seq<Packet> := [];
      var i := 0;
      assert payload[0..] == payload;
      while i < |payload|
        invariant 0 <= i <= |payload|
        invariant EncryptAll(old(state), Chunks(payload)) ==
                  Prepend(packets, EncryptAll(state, Chunks(payload[i..])))
        invariant AfterEncryptAll(old(state), Chunks(payload)) == AfterEncryptAll(state, Chunks(payload[i..]))
      {
        var end := if i + MAX_CHUNK_PLAIN < |payload| then i + MAX_CHUNK_PLAIN else |payload|;
        var chunk := payload[i..end];
        ghost var rest := Chunks(payload[i..]);
        assert rest[0] == chunk && rest[1..] == Chunks(payload[end..]) by {
          assert payload[i..][..end - i] == chunk && payload[i..][end - i..] == payload[end..];
        }
        ghost var before := state;
        var packet := WriteMessage(chunk, |chunk| + TAG);
        if packet.Err? {
          return Err(packet.error);
        }
        ghost var tail := EncryptAll(state, Chunks(payload[end..]));
        assert EncryptAll(before, rest) == Prepend([packet.value], tail);
        PrependTwice(packets, packet.value, tail);
        packets := packets + [packet.value];
        i := end;
      }
      assert payload[i..] == [];
      return Ok(packets);
    }

    /** The packets are opened in turn and their plaintexts joined, up to the first that does not open. */
    method DecryptChunked(packets: seq<Packet>) returns (r: Result<seq<byte>, CryptoError>)
      modifies this
      ensures r == DecryptAll(old(state), packets) && state == AfterDecryptAll(old(state), packets)
    {
      var out: seq<byte> := [];
      assert packets[0..] == packets;
      for i := 0 to |packets|
        invariant DecryptAll(old(state), packets) ==
                  Prepend(out, DecryptAll(state, packets[i..]))
        invariant AfterDecryptAll(old(state), packets) == AfterDecryptAll(state, packets[i..])
      {
        assert packets[i..][1..] == packets[i + 1..];
        ghost var before := state;
        var plain := ReadMessage(packets[i], packets[i].Len());
        if plain.Err? {
          return Err(plain.error);
        }
        ghost var tail := DecryptAll(state, packets[i + 1..]);
        if tail.Ok? {
          assert out + (plain.value + tail.value) == (out + plain.value) + tail.value;
        }
        assert DecryptAll(before, packets[i..]) == Prepend(plain.value, tail);
        out := out + plain.value;
      }
      return Ok(out);
    }

    /** Whether the handshake is over. */
    method IsFinished() returns (r: bool)
      ensures r <==> Finished(state)
    {
      r := state.Some? && state.value.Transport?;
    }
  }

  // ------------------------------------------------------------------
  // Properties
  // ------------------------------------------------------------------

  /** Chunking loses nothing, makes ceil(|p| / 65519) chunks, none empty or too long, and only the last one short. */
  lemma {:induction false} ChunksShape(p: seq<byte>)
    ensures Flatten(Chunks(p)) == p
    ensures |Chunks(p)| == ChunkCount(|p|)
    ensures forall k | 0 <= k < |Chunks(p)| :: 0 < |Chunks(p)[k]| <= MAX_CHUNK_PLAIN
    ensures forall k | 0 <= k < |Chunks(p)| - 1 :: |Chunks(p)[k]| == MAX_CHUNK_PLAIN
  {
    if |p| > MAX_CHUNK_PLAIN {
      var rest := p[MAX_CHUNK_PLAIN..];
      ChunksShape(rest);
      assert Chunks(p) == [p[..MAX_CHUNK_PLAIN]] + Chunks(rest);
      assert Chunks(p)[1..] == Chunks(rest);
      assert p == p[..MAX_CHUNK_PLAIN] + rest;
    } else if |p| > 0 {
      assert Chunks(p)[1..] == [];
      assert Flatten(Chunks(p)) == p + [];
    }
  }

  /** The packets carrying `chunks`, numbered from `nonce`. */
  ghost function Seals(keys: Keys, from: Role, nonce: nat, chunks: seq<seq<byte>>): (r: seq<Packet>)
    ensures |r| == |chunks|
    ensures forall k | 0 <= k < |chunks| :: r[k] == Sealed(keys, from, nonce + k, chunks[k])
  {
    seq(|chunks|, k requires 0 <= k < |chunks| => Sealed(keys, from, nonce + k, chunks[k]))
  }

  /** In transport mode encryption succeeds exactly when the nonces last, numbering the packets consecutively. */
  lemma {:induction false} EncryptSeals(s: NoiseState, chunks: seq<seq<byte>>)
    requires s.Transport? && forall k | 0 <= k < |chunks| :: |chunks[k]| <= MAX_CHUNK_PLAIN
    ensures if |chunks| == 0 || s.sendNonce + |chunks| <= NONCES then
              && EncryptAll(Some(s), chunks) == Ok(Seals(s.keys, s.role, s.sendNonce, chunks))
              && AfterEncryptAll(Some(s), chunks) == Some(s.(sendNonce := s.sendNonce + |chunks|))
            else EncryptAll(Some(s), chunks).Err? && AfterEncryptAll(Some(s), chunks) == None
    decreases |chunks|
  {
    if |chunks| > 0 && s.sendNonce < NONCES {
      EncryptSeals(s.(sendNonce := s.sendNonce + 1), chunks[1..]);
      assert [Sealed(s.keys, s.role, s.sendNonce, chunks[0])] + Seals(s.keys, s.role, s.sendNonce + 1, chunks[1..])
          == Seals(s.keys, s.role, s.sendNonce, chunks);
    }
  }

  /** Opening consecutive packets in order returns their plaintexts. */
  lemma {:induction false} DecryptOpens(s: NoiseState, chunks: seq<seq<byte>>)
    requires s.Transport? && forall k | 0 <= k < |chunks| :: |chunks[k]| <= MAX_CHUNK_PLAIN
    requires s.recvNonce + |chunks| <= NONCES
    ensures var packets := Seals(s.keys, s.role.Other(), s.recvNonce, chunks);
            && DecryptAll(Some(s), packets) == Ok(Flatten(chunks))
            && AfterDecryptAll(Some(s), packets) == Some(s.(recvNonce := s.recvNonce + |chunks|))
    decreases |chunks|
  {
    if |chunks| > 0 {
      DecryptOpens(s.(recvNonce := s.recvNonce + 1), chunks[1..]);
      assert Seals(s.keys, s.role.Other(), s.recvNonce, chunks)[1..] == Seals(s.keys, s.role.Other(), s.recvNonce + 1, chunks[1..]);
    }
  }

  /** Two ends of one session, the second having opened everything the first has sealed. */
  ghost predicate InStep(a: NoiseState, b: NoiseState) {
    && a.Transport? && b.Transport? && a.keys == b.keys && b.role == a.role.Other()
    && a.sendNonce == b.recvNonce
  }

  /** ceil(n / 65519). */
  ghost function ChunkCount(n: nat): nat {
    (n + MAX_CHUNK_PLAIN - 1) / MAX_CHUNK_PLAIN
  }

  lemma SealedRoundTrip(a: NoiseState, b: NoiseState, chunks: seq<seq<byte>>)
    requires InStep(a, b) && a.sendNonce + |chunks| <= NONCES
    requires forall k | 0 <= k < |chunks| :: |chunks[k]| <= MAX_CHUNK_PLAIN
    ensures EncryptAll(Some(a), chunks) == Ok(Seals(a.keys, a.role, a.sendNonce, chunks))
    ensures DecryptAll(Some(b), Seals(a.keys, a.role, a.sendNonce, chunks)) == Ok(Flatten(chunks))
    ensures InStepAfter(AfterEncryptAll(Some(a), chunks), AfterDecryptAll(Some(b), Seals(a.keys, a.role, a.sendNonce, chunks)))
    ensures forall packet | packet in Seals(a.keys, a.role, a.sendNonce, chunks) :: packet.Len() <= MAX_MESSAGE
  {
    EncryptSeals(a, chunks);
    DecryptOpens(b, chunks);
  }

  ghost predicate InStepAfter(a: State, b: State) {
    a.Some? && b.Some? && InStep(a.value, b.value)
  }

  /**
   Round trip, whatever was exchanged before: encryption succeeds, every packet fits in 65535 bytes,
   there are ceil(|p| / 65519) of them, they open to the payload, and the ends stay in step.
   */
  lemma ChunkedRoundTrip(a: NoiseState, b: NoiseState, p: seq<byte>) returns (packets: seq<Packet>)
    requires InStep(a, b) && a.sendNonce + ChunkCount(|p|) <= NONCES
    ensures EncryptAll(Some(a), Chunks(p)) == Ok(packets)
    ensures |packets| == ChunkCount(|p|) && forall packet | packet in packets :: packet.Len() <= MAX_MESSAGE
    ensures DecryptAll(Some(b), packets) == Ok(p)
    ensures InStepAfter(AfterEncryptAll(Some(a), Chunks(p)), AfterDecryptAll(Some(b), packets))
  {
    var chunks := Chunks(p);
    ChunksShape(p);
    SealedRoundTrip(a, b, chunks);
    packets := Seals(a.keys, a.role, a.sendNonce, chunks);
  }

  /** One call on a session. */
  datatype Call = Write(payload: seq<byte>, room: nat) | Read(packet: Packet, room: nat)

  function Succeeds(state: State, call: Call): bool {
    match call
    case Write(p, room) => Written(state, p, room).Ok?
    case Read(packet, room) => Opened(state, packet, room).Ok?
  }

  function AfterCall(state: State, call: Call): State {
    match call
    case Write(p, room) => AfterWrite(state, p, room)
    case Read(packet, room) => AfterOpen(state, packet, room)
  }

  function AfterCalls(state: State, calls: seq<Call>): State {
    if |calls| == 0 then state else AfterCall(AfterCalls(state, calls[..|calls| - 1]), calls[|calls| - 1])
  }

  predicate AllSucceed(state: State, calls: seq<Call>) {
    |calls| > 0 ==>
      && AllSucceed(state, calls[..|calls| - 1])
      && Succeeds(AfterCalls(state, calls[..|calls| - 1]), calls[|calls| - 1])
  }

  /** The state is lost exactly when some call failed, and it never comes back. */
  lemma {:induction false} FailurePoisons(state: State, calls: seq<Call>)
    requires state.Some?
    ensures AfterCalls(state, calls).Some? <==> AllSucceed(state, calls)
  {
    if |calls| > 0 {
      FailurePoisons(state, calls[..|calls| - 1]);
    }
  }

  /** After any failure every later call fails. */
  lemma {:induction false} FailureIsFinal(state: State, calls: seq<Call>, later: seq<Call>)
    requires state.Some? && !AllSucceed(state, calls)
    ensures AfterCalls(state, calls + later).None?
    ensures forall call: Call :: !Succeeds(AfterCalls(state, calls + later), call)
  {
    if |later| == 0 {
      FailurePoisons(state, calls);
      assert calls + later == calls;
    } else {
      FailureIsFinal(state, calls, later[..|later| - 1]);
      assert (calls + later)[..|calls + later| - 1] == calls + later[..|later| - 1];
    }
  }

  /** Which error a call that fails returns: by whether the state is lost, the handshake still on, or the direction. */
  lemma WhichError(state: State, payload: seq<byte>, packet: Packet, room: nat)
    ensures Written(state, payload, room).Err? ==>
              Written(state, payload, room).error ==
                if state == None then InvalidState else if Finished(state) then EncryptFailed else HandshakeFailed
    ensures Opened(state, packet, room).Err? ==>
              Opened(state, packet, room).error ==
                if state == None then InvalidState else if Finished(state) then DecryptFailed else HandshakeFailed
  {
  }

  /** The three handshake messages without payloads are 32, 96 and 64 bytes long. */
  lemma HandshakeSizes(x: nat, y: nat)
    ensures var client, server := Handshake(Initiator, 0, x, 0), Handshake(Responder, 1, y, x);
            && Written(Some(client), [], 65535).Ok? && Written(Some(client), [], 65535).value.Len() == 32
            && Written(Some(server), [], 65535).Ok? && Written(Some(server), [], 65535).value.Len() == 96
            && Written(Some(Handshake(Initiator, 2, x, y)), [], 65535).Ok?
            && Written(Some(Handshake(Initiator, 2, x, y)), [], 65535).value.Len() == 64
  {
  }

  /** Every packet of a payload but the last is 65535 bytes long, the last is no longer, and up to 65519 bytes make one. */
  lemma {:induction false} PacketSizes(p: seq<byte>)
    ensures forall k | 0 <= k < |Chunks(p)| - 1 :: |Chunks(p)[k]| + 16 == 65535
    ensures forall k | 0 <= k < |Chunks(p)| :: 0 < |Chunks(p)[k]| && |Chunks(p)[k]| + 16 <= 65535
    ensures |Chunks(p)| == (|p| + 65518) / 65519
  {
    ChunksShape(p);
  }

  /** A sealed packet needs 16 bytes more than its payload, and no packet is longer than 65535 bytes. */
  lemma RoomNeeded(role: Role, keys: Keys, sent: nat, received: nat, payload: seq<byte>, room: nat)
    requires sent < 18446744073709551615
    ensures Written(Some(Transport(role, keys, sent, received)), payload, room).Ok? <==> |payload| + 16 <= room && |payload| + 16 <= 65535
  {
  }

  /** The nonce 2^64 - 2 is the last that is used. */
  lemma LastNonce(role: Role, keys: Keys, received: nat, payload: seq<byte>)
    requires |payload| <= 65519
    ensures Written(Some(Transport(role, keys, 18446744073709551614, received)), payload, |payload| + 16).Ok?
    ensures Written(Some(Transport(role, keys, 18446744073709551615, received)), payload, |payload| + 16).Err?
  {
  }

  /** A fresh session is finished after three successful calls and not before; they alternate, the initiator writing first. */
  lemma {:induction false} FinishedAfterThree(role: Role, ephemeral: nat, calls: seq<Call>)
    requires AllSucceed(Some(Handshake(role, 0, ephemeral, 0)), calls)
    ensures Finished(AfterCalls(Some(Handshake(role, 0, ephemeral, 0)), calls)) <==> |calls| >= 3
    ensures forall k | 0 <= k < |calls| && k < 3 :: calls[k].Write? <==> (role.Initiator? <==> k != 1)
    ensures var s := AfterCalls(Some(Handshake(role, 0, ephemeral, 0)), calls);
            s.Some? && s.value.role == role && (s.value.Handshake? ==> s.value.step == |calls| && s.value.local == ephemeral)
  {
    if |calls| > 0 {
      FinishedAfterThree(role, ephemeral, calls[..|calls| - 1]);
    }
  }

  /** The three messages the client and the server exchange, over buffers of 65535 bytes; no call fails. */
  method PerformHandshake(clientKey: nat, serverKey: nat) returns (client: NoiseSession, server: NoiseSession)
    ensures fresh(client) && fresh(server) && client != server
    ensures client.state == Some(Transport(Initiator, Keys(clientKey, serverKey), 0, 0))
    ensures server.state == Some(Transport(Responder, Keys(clientKey, serverKey), 0, 0))
  {
    client := new NoiseSession.Client(clientKey);
    server := new NoiseSession.Server(serverKey);
    var e := client.WriteMessage([], MAX_MESSAGE);
    var r := server.ReadMessage(e.value, MAX_MESSAGE);
    var ee := server.WriteMessage([], MAX_MESSAGE);
    r := client.ReadMessage(ee.value, MAX_MESSAGE);
    var se := client.WriteMessage([], MAX_MESSAGE);
    r := server.ReadMessage(se.value, MAX_MESSAGE);
  }
}
