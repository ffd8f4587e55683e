/**
 A client's and a server's Noise session (src/crypto.rs) with any network between them: their calls
 interleave at will, and the network may hold back, repeat, reorder and return what they write.
 */
module Handshakes {
  import opened Basics
  import opened Noise

  /** One session, and the payloads it has sealed and opened in transport mode. */
  datatype Side = Side(state: State, sent: seq<seq<byte>>, received: seq<seq<byte>>)

  /** Both sessions, and every packet either has written. */
  datatype Pair = Pair(client: Side, server: Side, written: set<Packet>)

  /** A call on one session. */
  datatype Event = Event(client: bool, call: Call)

  /** What a call makes of the session it is made on. */
  ghost function AfterSide(s: Side, call: Call): Side {
    var next := s.(state := AfterCall(s.state, call));
    if !Finished(s.state) || !Succeeds(s.state, call) then next
    else match call
      case Write(payload, _) => next.(sent := s.sent + [payload])
      case Read(packet, room) => next.(received := s.received + [Opened(s.state, packet, room).value])
  }

  ghost function AfterWritten(s: Side, call: Call): set<Packet> {
    if call.Write? && Succeeds(s.state, call) then {Written(s.state, call.payload, call.room).value} else {}
  }

  /** A packet can be read once it has been written; anything that is none of this protocol's can come at any time. */
  ghost predicate CanBeRead(written: set<Packet>, call: Call) {
    call.Read? ==> call.packet in written || call.packet.Foreign?
  }

  ghost function Step(p: Pair, ev: Event): Pair {
    if !CanBeRead(p.written, ev.call) then p
    else if ev.client then Pair(AfterSide(p.client, ev.call), p.server, p.written + AfterWritten(p.client, ev.call))
    else Pair(p.client, AfterSide(p.server, ev.call), p.written + AfterWritten(p.server, ev.call))
  }

  ghost function Run(p: Pair, evs: seq<Event>): Pair {
    if |evs| == 0 then p else Step(Run(p, evs[..|evs| - 1]), evs[|evs| - 1])
  }

  ghost function Begun(keys: Keys): Pair {
    Pair(Side(Some(Handshake(Initiator, 0, keys.initiator, 0)), [], []), Side(Some(Handshake(Responder, 0, keys.responder, 0)), [], []), {})
  }

  /** What one side has come to: it knows the other's key once it has read it, and its nonces count its payloads. */
  ghost predicate SideInv(s: Side, role: Role, keys: Keys) {
    s.state.Some? ==>
      match s.state.value
      case Handshake(r, step, local, remote) =>
        && r == role && step < 3 && local == KeyOf(role, keys) && s.sent == [] && s.received == []
        && (step == 2 || (step == 1 && role.Responder?) ==> remote == KeyOf(role.Other(), keys))
      case Transport(r, k, sendNonce, recvNonce) => r == role && k == keys && sendNonce == |s.sent| && recvNonce == |s.received|
  }

  ghost function KeyOf(role: Role, keys: Keys): nat {
    if role.Initiator? then keys.initiator else keys.responder
  }

  ghost function SentOf(role: Role, p: Pair): seq<seq<byte>> {
    if role.Initiator? then p.client.sent else p.server.sent
  }

  /** Every packet there is carries the keys of these two, and a sealed one the payload its number stands for. */
  ghost predicate PacketInv(packet: Packet, p: Pair, keys: Keys) {
    match packet
    case Hello(ephemeral, _) => ephemeral == keys.initiator
    case Reply(k, _) => k == keys
    case Finish(k, _) => k == keys
    case Sealed(k, from, nonce, plain) => k == keys && nonce < |SentOf(from, p)| && plain == SentOf(from, p)[nonce]
    case Foreign(_) => false
  }

  /** Until the client has written its last handshake message the server cannot finish. */
  ghost predicate ClientFirst(p: Pair) {
    p.client.state.Some? && p.client.state.value.Handshake? ==>
      !Finished(p.server.state) && forall packet | packet in p.written :: !packet.Finish?
  }

  ghost predicate Inv(p: Pair, keys: Keys) {
    && ClientFirst(p)
    && SideInv(p.client, Initiator, keys) && SideInv(p.server, Responder, keys)
    && p.client.received <= p.server.sent && p.server.received <= p.client.sent
    && forall packet | packet in p.written :: PacketInv(packet, p, keys)
  }

  /** A packet's payload number stands for the same payload when more are sent. */
  lemma PacketKeeps(packet: Packet, p: Pair, q: Pair, keys: Keys)
    requires PacketInv(packet, p, keys) && p.client.sent <= q.client.sent && p.server.sent <= q.server.sent
    ensures PacketInv(packet, q, keys)
  {
  }

  /** Writing: the new packet carries these keys and its number. */
  lemma WriteKeeps(s: Side, role: Role, keys: Keys, payload: seq<byte>, room: nat)
    requires SideInv(s, role, keys)
    ensures var call := Write(payload, room); var t := AfterSide(s, call);
            && SideInv(t, role, keys) && s.sent <= t.sent && t.received == s.received
            && forall packet | packet in AfterWritten(s, call) ::
                 match packet
                 case Hello(ephemeral, _) => ephemeral == keys.initiator
                 case Reply(k, _) => k == keys
                 case Finish(k, _) => k == keys
                 case Sealed(k, from, nonce, plain) => k == keys && from == role && nonce == |s.sent| && t.sent == s.sent + [plain]
                 case Foreign(_) => false
  {
  }

  /** Reading: only the other side's next payload is opened. */
  lemma ReadKeeps(s: Side, role: Role, p: Pair, keys: Keys, packet: Packet, room: nat)
    requires SideInv(s, role, keys) && (PacketInv(packet, p, keys) || packet.Foreign?)
    requires s.received <= SentOf(role.Other(), p)
    ensures var t := AfterSide(s, Read(packet, room));
            SideInv(t, role, keys) && t.sent == s.sent && t.received <= SentOf(role.Other(), p)
  {
  }

  /** The side that plays a role. */
  ghost function SideOf(role: Role, p: Pair): Side {
    if role.Initiator? then p.client else p.server
  }

  lemma WriteStep(p: Pair, ev: Event, keys: Keys)
    requires Inv(p, keys) && ev.call.Write?
    ensures Inv(Step(p, ev), keys)
  {
    var q, role := Step(p, ev), if ev.client then Initiator else Responder;
    WriteKeeps(SideOf(role, p), role, keys, ev.call.payload, ev.call.room);
    forall packet | packet in q.written ensures PacketInv(packet, q, keys) {
      if packet in p.written {
        PacketKeeps(packet, p, q, keys);
      }
    }
  }

  lemma ReadStep(p: Pair, ev: Event, keys: Keys)
    requires Inv(p, keys) && ev.call.Read? && CanBeRead(p.written, ev.call)
    ensures Inv(Step(p, ev), keys)
  {
    var q, role := Step(p, ev), if ev.client then Initiator else Responder;
    ReadKeeps(SideOf(role, p), role, p, keys, ev.call.packet, ev.call.room);
    forall packet | packet in q.written ensures PacketInv(packet, q, keys) {
      PacketKeeps(packet, p, q, keys);
    }
  }

  lemma {:induction false} RunKeeps(keys: Keys, evs: seq<Event>)
    ensures Inv(Run(Begun(keys), evs), keys)
  {
    if |evs| > 0 {
      var p, ev := Run(Begun(keys), evs[..|evs| - 1]), evs[|evs| - 1];
      RunKeeps(keys, evs[..|evs| - 1]);
      if ev.call.Write? {
        WriteStep(p, ev, keys);
      } else if CanBeRead(p.written, ev.call) {
        ReadStep(p, ev, keys);
      }
    }
  }

  /**
   Agreement, over every interleaving and whatever the network does with the packets: a session that has
   finished holds the keys of both, so two finished ones hold the same keys in opposite roles, and the
   server never finishes before the client has written its last message.
   */
  lemma SameKeys(keys: Keys, evs: seq<Event>)
    ensures var p := Run(Begun(keys), evs);
            && (Finished(p.client.state) ==> p.client.state.value.keys == keys && p.client.state.value.role == Initiator)
            && (Finished(p.server.state) ==> p.server.state.value.keys == keys && p.server.state.value.role == Responder)
            && (Finished(p.server.state) && p.client.state.Some? ==> Finished(p.client.state))
  {
    RunKeeps(keys, evs);
  }

  /** In transport mode each side opens, in order and once each, the payloads the other has sealed, and nothing else. */
  lemma OpensWhatWasSealed(keys: Keys, evs: seq<Event>)
    ensures var p := Run(Begun(keys), evs);
            p.client.received <= p.server.sent && p.server.received <= p.client.sent
  {
    RunKeeps(keys, evs);
  }
}
