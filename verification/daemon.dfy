/**
 From the byte stream of a client to the state of the seat: the read loop's
 handlers are the steps of the seat's transition system, so the seat's state
 depends on what a client sent and not on how the reads cut it up.
 */
module Daemon {
  import opened Bytes
  import opened SeatModel
  import opened SeatRequests
  import opened SeatSafety
  import opened Framing
  import opened ClientLoop

  /** What comes before a request of the client from others, and what kernel and peer
      answer while it is handled */
  datatype Around = Around(others: seq<Input>, env: Env, fin: Env)

  type Surroundings = nat -> Around

  /** The world after the requests of client c, each in its surroundings */
  function Talk(w: World, c: ClientId, rs: seq<Request>, around: Surroundings): World {
    if rs == [] then w
    else
      var n := |rs| - 1;
      Step(Run(Talk(w, c, rs[..n], around), around(n).others), Message(c, rs[n], around(n).env, around(n).fin))
  }

  /** The handler of the last request succeeded exactly if the client is still there. */
  function Verdict(w: World, c: ClientId, around: Surroundings): Handler {
    (rs: seq<Request>) => c in Talk(w, c, rs, around).clients
  }

  lemma {:induction false} RunKeeps(w: World, inputs: seq<Input>)
    requires Settled(w)
    ensures Settled(Run(w, inputs))
  {
    hide Settled, Step;
    if inputs != [] {
      RunKeeps(w, inputs[..|inputs| - 1]);
      StepKeeps(Run(w, inputs[..|inputs| - 1]), inputs[|inputs| - 1]);
    }
  }

  lemma {:induction false} TalkKeeps(w: World, c: ClientId, rs: seq<Request>, around: Surroundings)
    requires Settled(w)
    ensures Settled(Talk(w, c, rs, around))
  {
    hide Settled, Step;
    if rs != [] {
      var n := |rs| - 1;
      TalkKeeps(w, c, rs[..n], around);
      RunKeeps(Talk(w, c, rs[..n], around), around(n).others);
      StepKeeps(Run(Talk(w, c, rs[..n], around), around(n).others), Message(c, rs[n], around(n).env, around(n).fin));
    }
  }

  /** What the read loop is told by client_handle_opcode: after a request the client
      is there exactly if its handler succeeded, under the conditions of `Succeeds`, and
      its replies could be sent.  A refused ack, switch, open or close leaves it there. */
  lemma VerdictIsTheHandlers(w: World, c: ClientId, request: Request, env: Env, fin: Env)
    requires Settled(w) && c in w.clients
    ensures c in Step(w, Message(c, request, env, fin)).clients <==> Succeeds(w, c, request, env) && env.flushes
  {
    hide Settled, SettledBut, Handle, Destroy, Succeeds;
    SuccessExactly(w, c, request, env);
    HandleKeeps(w, c, request, env);
    var (w1, ok) := Handle(w, c, request, env);
    StillThere(w1, c);
    if !(ok && env.flushes) { DestroyKeeps(w1, c, fin); }
  }

  lemma StillThere(w: World, c: ClientId)
    requires SettledBut(w, c)
    ensures c in w.clients
  {
  }

  /** A conversation that goes on ended with a request that succeeded. */
  lemma {:induction false} AliveIsAccepted(b: seq<byte>, done: seq<Request>, accept: Handler)
    requires done == [] || accept(done)
    ensures var p := Parse(b, done, accept); p.alive ==> p.dispatched == [] || accept(p.dispatched)
    decreases |b|
  {
    hide FirstRequest;
    if Complete(b) && !Oversize(b) && FirstRequest(b).Some? && accept(done + [FirstRequest(b).value]) {
      AliveIsAccepted(After(b), done + [FirstRequest(b).value], accept);
    }
  }

  /** However the reads cut the stream, the seat is in the state that the stream's
      requests lead to, which keeps the invariant; and a client that is still being
      read from is one the daemon still has. */
  lemma SeatFollowsTheStream(w: World, c: ClientId, around: Surroundings, chunks: seq<seq<byte>>)
    requires Settled(w) && c in w.clients && Deliverable(chunks, Verdict(w, c, around))
    ensures var accept := Verdict(w, c, around);
      var s, p := FeedAll(chunks, accept), Parse(Concat(chunks), [], accept);
      && Talk(w, c, s.dispatched, around) == Talk(w, c, p.dispatched, around)
      && Settled(Talk(w, c, s.dispatched, around))
      && (s.alive ==> c in Talk(w, c, s.dispatched, around).clients)
  {
    hide Settled, Parse, FeedAll, Deliverable;
    var accept := Verdict(w, c, around);
    ChunkingIndependence(chunks, accept);
    TalkKeeps(w, c, FeedAll(chunks, accept).dispatched, around);
    AliveIsAccepted(Concat(chunks), [], accept);
  }

  /** Two ways of cutting one stream lead to one state of the seat. */
  lemma CutsDoNotMatter(w: World, c: ClientId, around: Surroundings, a: seq<seq<byte>>, b: seq<seq<byte>>)
    requires Settled(w) && c in w.clients
    requires Deliverable(a, Verdict(w, c, around)) && Deliverable(b, Verdict(w, c, around)) && Concat(a) == Concat(b)
    ensures var accept := Verdict(w, c, around);
      Talk(w, c, FeedAll(a, accept).dispatched, around) == Talk(w, c, FeedAll(b, accept).dispatched, around)
  {
    hide Settled, Talk, FeedAll, Deliverable, Verdict;
    SeatFollowsTheStream(w, c, around, a);
    SeatFollowsTheStream(w, c, around, b);
  }

  /** The requests of the library reach the seat: if none of them costs the client its
      connection, the seat is in the state they lead to, one after the other. */
  lemma RequestsReachTheSeat(w: World, c: ClientId, around: Surroundings, rs: seq<Request>, chunks: seq<seq<byte>>)
    requires Settled(w) && c in w.clients
    requires AllShort(rs) && Welcome([], rs, Verdict(w, c, around))
    requires Deliverable(chunks, Verdict(w, c, around)) && Concat(chunks) == EncodeAll(rs)
    ensures FeedAll(chunks, Verdict(w, c, around)).dispatched == rs
    ensures Settled(Talk(w, c, rs, around)) && c in Talk(w, c, rs, around).clients
  {
    hide Settled, FeedAll, Deliverable, EncodeAll, AllShort, Welcome;
    RequestsArrive(rs, chunks, Verdict(w, c, around));
    SeatFollowsTheStream(w, c, around, chunks);
  }

  /** The same for the loop on the ring: after any number of readable events. */
  lemma SeatFollowsTheRing(conn: ClientConnection, w: World, c: ClientId, around: Surroundings)
    requires conn.Valid() && conn.Faithful() && conn.accept == Verdict(w, c, around)
    requires Settled(w) && c in w.clients
    ensures Talk(w, c, conn.dispatched, around) == Talk(w, c, Parse(Concat(conn.chunks), [], conn.accept).dispatched, around)
    ensures Settled(Talk(w, c, conn.dispatched, around))
    ensures conn.alive ==> c in Talk(w, c, conn.dispatched, around).clients
  {
    hide Settled, Parse, FeedAll, Deliverable;
    SeatFollowsTheStream(w, c, around, conn.chunks);
  }
}
