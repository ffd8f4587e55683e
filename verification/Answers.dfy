/**
 From an answered request back to the peer: the frame that answers it is one the server sent
 (src/ws/client/mod.rs, src/ws/client/connection_loop.rs).
 */
module Answers {
  import opened Basics
  import opened Frames
  import opened Noise
  import opened Correlation
  import opened CorrelationRuns
  import P = Pipe

  /** One connection of the client, and all that happened on it. */
  datatype Connection = Connection(keys: Keys, maxHere: nat, maxThere: nat, events: seq<P.Event>) {
    ghost function Net(): P.Net {
      P.Run(P.Start(Initiator, keys, maxHere, maxThere), events)
    }

    /** The frames the client has decoded. */
    ghost function Decoded(): seq<Frame> {
      Net().here.received
    }

    /** The frames the server has sent. */
    ghost function Sent(): seq<Frame> {
      P.FramesOf(Net().there.sent)
    }
  }

  /** The frames decoded over one connection after another. */
  ghost function DecodedOver(connections: seq<Connection>): seq<Frame> {
    if |connections| == 0 then []
    else DecodedOver(connections[..|connections| - 1]) + connections[|connections| - 1].Decoded()
  }

  lemma DecodedWasSent(c: Connection)
    ensures c.Decoded() <= c.Sent()
  {
    P.RunKeeps(Initiator, c.keys, c.maxHere, c.maxThere, c.events);
  }

  /** Frame number `f` of all that was decoded was sent as number `j` of connection `i`. */
  ghost predicate SentAs(connections: seq<Connection>, f: nat, i: nat, j: nat) {
    && i < |connections| && j < |connections[i].Sent()| && f == |DecodedOver(connections[..i])| + j
    && f < |DecodedOver(connections)| && DecodedOver(connections)[f] == connections[i].Sent()[j]
  }

  lemma {:induction false} WasSent(connections: seq<Connection>, f: nat) returns (i: nat, j: nat)
    requires f < |DecodedOver(connections)|
    ensures SentAs(connections, f, i, j)
    decreases |connections|
  {
    var n := |connections| - 1;
    var init, last := connections[..n], connections[n];
    if f < |DecodedOver(init)| {
      i, j := WasSent(init, f);
      assert connections[..i] == init[..i];
    } else {
      DecodedWasSent(last);
      i, j := n, f - |DecodedOver(init)|;
    }
  }

  /**
   An answered request, over any number of connections and whatever happens on each: the answer is the
   frame that the server sent as number `j` of connection `i`, a Message with the request's own non-zero
   id, and no other request is answered by that frame.
   */
  lemma AnswerWasSent(acts: seq<Act>, k: nat, f: nat, connections: seq<Connection>) returns (i: nat, j: nat)
    requires PhaseIs(After(acts), k, Finished(Answer(f))) && After(acts).received <= DecodedOver(connections)
    ensures SentAs(connections, f, i, j) && f < |After(acts).received|
    ensures var frame := connections[i].Sent()[j];
            frame == After(acts).received[f] && frame.kind == Message && frame.id == IdOf(k) && IdOf(k) > 0
    ensures forall k' | PhaseIs(After(acts), k', Finished(Answer(f))) :: k' == k
  {
    AnswerIsOwn(acts, k, f);
    i, j := WasSent(connections, f);
    forall k' | PhaseIs(After(acts), k', Finished(Answer(f))) ensures k' == k {
      AnswersDistinct(acts, k, k', f);
    }
  }
}
