/**
 Reading packets (src/ws/client/connection_loop.rs): the receive arm the message loops share, and
 recv_one_frame, which reads until one frame is complete.
 */
module Receiving {
  import opened Basics
  import opened Frames
  import opened Noise
  import opened ReceivePath

  datatype ReceiveError = ConnectionClosed | NoiseDecryptFailed | BadFrame

  /** The receive arm both message loops share: decrypt, feed, and decode when a payload is complete. */
  method ReceivePacket(packet: Packet, noise: NoiseSession, acc: FrameAccumulator, maxBytes: nat)
      returns (r: Result<Option<Frame>, ReceiveError>)
    modifies noise, acc
    ensures noise.state == AfterOpen(old(noise.state), packet, packet.Len())
    ensures var plain := Opened(old(noise.state), packet, packet.Len());
            acc.View() == if plain.Ok? then old(acc.View()).AfterFeed(plain.value, maxBytes) else old(acc.View())
    ensures r == Received(old(noise.state), old(acc.View()), packet, maxBytes)
  {
    var plain := noise.ReadMessage(packet, packet.Len());
    if plain.Err? {
      return Err(NoiseDecryptFailed);
    }
    var payload := acc.Feed(plain.value, maxBytes);
    if payload.Err? {
      return Err(BadFrame);
    }
    if payload.value.None? {
      return Ok(None);
    }
    var frame := DecodeFrame(payload.value.value);
    if frame.None? {
      return Err(BadFrame);
    }
    return Ok(frame);
  }

  ghost function FrameAnswer(payload: Result<Option<seq<byte>>, FeedError>): Result<Option<Frame>, ReceiveError> {
    if payload.Err? then Err(BadFrame)
    else if payload.value.None? then Ok(None)
    else if DecodeFrame(payload.value.value).None? then Err(BadFrame)
    else Ok(DecodeFrame(payload.value.value))
  }

  /** The outcome of one packet: a frame, None when more is needed, or the error that ends the loop. */
  ghost function Received(state: State, acc: Acc, packet: Packet, maxBytes: nat): Result<Option<Frame>, ReceiveError> {
    var plain := Opened(state, packet, packet.Len());
    if plain.Err? then Err(NoiseDecryptFailed) else FrameAnswer(acc.Feed(plain.value, maxBytes))
  }

  /** What reading until a payload is complete comes to: the payload, the packets left unread, the session's state. */
  datatype Reading = Reading(payload: Result<seq<byte>, ReceiveError>, unread: seq<Packet>, state: State)

  ghost function ReadPayload(state: State, acc: Acc, ws: seq<Packet>, maxBytes: nat): Reading
    decreases |ws|
  {
    if |ws| == 0 then Reading(Err(ConnectionClosed), ws, state)
    else
      var plain, after := Opened(state, ws[0], ws[0].Len()), AfterOpen(state, ws[0], ws[0].Len());
      if plain.Err? then Reading(Err(NoiseDecryptFailed), ws[1..], after)
      else match acc.Feed(plain.value, maxBytes)
        case Err(_) => Reading(Err(BadFrame), ws[1..], after)
        case Ok(None) => ReadPayload(after, acc.AfterFeed(plain.value, maxBytes), ws[1..], maxBytes)
        case Ok(Some(payload)) => Reading(Ok(payload), ws[1..], after)
  }

  /** The packets that will arrive are read until they make one frame; `unread` are those left. */
  method RecvOneFrame(ws: seq<Packet>, noise: NoiseSession, maxBytes: nat)
      returns (r: Result<Frame, ReceiveError>, unread: seq<Packet>)
    modifies noise
    ensures var reading := ReadPayload(old(noise.state), Acc(0, []), ws, maxBytes);
            && unread == reading.unread && noise.state == reading.state
            && r == match reading.payload
                    case Err(e) => Err(e)
                    case Ok(payload) => match DecodeFrame(payload) case Some(f) => Ok(f) case None => Err(BadFrame)
  {
    var acc := new FrameAccumulator();
    unread := ws;
    while |unread| > 0
      invariant fresh(acc)
      invariant ReadPayload(noise.state, acc.View(), unread, maxBytes) == ReadPayload(old(noise.state), Acc(0, []), ws, maxBytes)
    {
      var packet := unread[0];
      unread := unread[1..];
      var plain := noise.ReadMessage(packet, packet.Len());
      if plain.Err? {
        return Err(NoiseDecryptFailed), unread;
      }
      var payload := acc.Feed(plain.value, maxBytes);
      if payload.Err? {
        return Err(BadFrame), unread;
      }
      if payload.value.Some? {
        var frame := DecodeFrame(payload.value.value);
        return if frame.Some? then Ok(frame.value) else Err(BadFrame), unread;
      }
    }
    return Err(ConnectionClosed), unread;
  }

  /** Why one packet ends a loop: the cipher refuses it, or what it completes is no frame. */
  lemma WhyBadPacket(state: State, acc: Acc, packet: Packet, maxBytes: nat)
    ensures var plain, got := Opened(state, packet, packet.Len()), Received(state, acc, packet, maxBytes);
            && (got == Err(NoiseDecryptFailed) <==> plain.Err?)
            && (got == Err(BadFrame) <==>
                  plain.Ok? && (acc.Feed(plain.value, maxBytes).Err?
                                || (acc.Feed(plain.value, maxBytes).value.Some? && DecodeFrame(acc.Feed(plain.value, maxBytes).value.value).None?)))
            && got != Err(ConnectionClosed)
  {
  }

  /**
   How reading one frame ends, after `k` packets: the stream is over, or packet number `k` does not open,
   or what it completes is too much, or it completes the payload.
   */
  lemma {:induction false} ReadEnds(state: State, acc: Acc, ws: seq<Packet>, maxBytes: nat) returns (k: nat)
    ensures k <= |ws| && ReadPayload(state, acc, ws, maxBytes).unread == ws[k..]
    ensures match ReadPayload(state, acc, ws, maxBytes).payload
            case Err(ConnectionClosed) => k == |ws|
            case Err(NoiseDecryptFailed) => k > 0 && Opened(AfterDecryptAll(state, ws[..k - 1]), ws[k - 1], ws[k - 1].Len()).Err?
            case Err(BadFrame) => k > 0 && Opened(AfterDecryptAll(state, ws[..k - 1]), ws[k - 1], ws[k - 1].Len()).Ok?
            case Ok(_) => k > 0 && Opened(AfterDecryptAll(state, ws[..k - 1]), ws[k - 1], ws[k - 1].Len()).Ok?
    decreases |ws|
  {
    k := 0;
    if |ws| > 0 {
      var plain, after := Opened(state, ws[0], ws[0].Len()), AfterOpen(state, ws[0], ws[0].Len());
      k := 1;
      assert ws[..0] == [];
      if plain.Ok? && acc.Feed(plain.value, maxBytes) == Ok(None) {
        var rest := ReadEnds(after, acc.AfterFeed(plain.value, maxBytes), ws[1..], maxBytes);
        k := rest + 1;
        assert ws[1..][rest..] == ws[k..];
        if rest > 0 {
          assert ws[..k - 1][1..] == ws[1..][..rest - 1];
        }
      }
    }
  }

  lemma SealsTail(keys: Keys, from: Role, nonce: nat, cs: seq<seq<byte>>, rest: seq<Packet>)
    requires |cs| > 0
    ensures var line := Seals(keys, from, nonce, cs) + rest;
            && |line| > 0 && line[0] == Sealed(keys, from, nonce, cs[0])
            && line[1..] == Seals(keys, from, nonce + 1, cs[1..]) + rest
            && (|cs| == 1 ==> line[1..] == rest)
  {
    assert Seals(keys, from, nonce, cs)[1..] == Seals(keys, from, nonce + 1, cs[1..]);
  }

  /** Pieces that the accumulator turns into a payload at the last of them are read to the last, and no further. */
  lemma {:induction false} ReadsDelivered(s: NoiseState, acc: Acc, cs: seq<seq<byte>>, rest: seq<Packet>, payload: seq<byte>, maxBytes: nat)
    requires s.Transport? && Sealable(cs) && s.recvNonce + |cs| <= NONCES
    requires FeedAll(acc, cs, maxBytes) == Delivered(|cs|, payload)
    ensures ReadPayload(Some(s), acc, Seals(s.keys, s.role.Other(), s.recvNonce, cs) + rest, maxBytes)
         == Reading(Ok(payload), rest, Some(s.(recvNonce := s.recvNonce + |cs|)))
    decreases |cs|
  {
    var line, next := Seals(s.keys, s.role.Other(), s.recvNonce, cs) + rest, s.(recvNonce := s.recvNonce + 1);
    SealsTail(s.keys, s.role.Other(), s.recvNonce, cs, rest);
    assert Opened(Some(s), line[0], line[0].Len()) == Ok(cs[0]) && AfterOpen(Some(s), line[0], line[0].Len()) == Some(next);
    DeliveredHead(acc, cs, payload, maxBytes);
    if |cs| > 1 {
      ReadsDelivered(next, acc.AfterFeed(cs[0], maxBytes), cs[1..], rest, payload, maxBytes);
    }
  }

  lemma DeliveredHead(acc: Acc, cs: seq<seq<byte>>, payload: seq<byte>, maxBytes: nat)
    requires |cs| > 0 && FeedAll(acc, cs, maxBytes) == Delivered(|cs|, payload)
    ensures acc.Feed(cs[0], maxBytes) == if |cs| == 1 then Ok(Some(payload)) else Ok(None)
    ensures |cs| > 1 ==> FeedAll(acc.AfterFeed(cs[0], maxBytes), cs[1..], maxBytes) == Delivered(|cs| - 1, payload)
  {
    var all := FeedAll(acc, cs, maxBytes);
    assert acc.Feed(cs[0], maxBytes) == all[0] == Delivered(|cs|, payload)[0];
    if |cs| > 1 {
      DeliveredUnfold(|cs|, payload, FeedAll(acc.AfterFeed(cs[0], maxBytes), cs[1..], maxBytes));
    }
  }

  /** The chunks of a frame meet what reassembly asks of its pieces. */
  lemma FramePieces(f: Frame)
    ensures var cs := FrameChunks(f);
            && Sealable(cs) && Flatten(cs) == Prefix(Postcard(f)) + Postcard(f)
            && |cs[0]| >= 4 && |cs[|cs| - 1]| > 0
  {
    FrameSealable(f);
    ChunksShape(EncodeFrame(f));
    ChunksSliced(EncodeFrame(f));
  }

  lemma ReadsPieces(s: NoiseState, cs: seq<seq<byte>>, payload: seq<byte>, rest: seq<Packet>, maxBytes: nat)
    requires s.Transport? && Sealable(cs) && s.recvNonce + |cs| <= NONCES
    requires 0 < |payload| <= maxBytes && |payload| < U32
    requires Flatten(cs) == Prefix(payload) + payload && |cs[0]| >= 4 && |cs[|cs| - 1]| > 0
    ensures ReadPayload(Some(s), Acc(0, []), Seals(s.keys, s.role.Other(), s.recvNonce, cs) + rest, maxBytes)
         == Reading(Ok(payload), rest, Some(s.(recvNonce := s.recvNonce + |cs|)))
  {
    Reassembly(payload, cs, maxBytes);
    ReadsDelivered(s, Acc(0, []), cs, rest, payload, maxBytes);
  }

  /** When the packets of a frame that fits are next in line, exactly that frame's payload is read and nothing beyond it. */
  lemma ReadsOneFrame(s: NoiseState, f: Frame, cs: seq<seq<byte>>, rest: seq<Packet>, maxBytes: nat)
    requires s.Transport? && Fits(f, maxBytes) && cs == FrameChunks(f) && s.recvNonce + |cs| <= NONCES
    ensures ReadPayload(Some(s), Acc(0, []), Seals(s.keys, s.role.Other(), s.recvNonce, cs) + rest, maxBytes)
         == Reading(Ok(Postcard(f)), rest, Some(s.(recvNonce := s.recvNonce + |cs|)))
  {
    FramePieces(f);
    ReadsPieces(s, cs, Postcard(f), rest, maxBytes);
  }
}
