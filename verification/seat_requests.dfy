/**
 What each request of a client does to the seat, and what becomes of the client:
 for every request the whole effect on every client's record, on the lists and on
 the signals sent, and exactly when the daemon keeps the connection.
 */
module SeatRequests {
  import opened Bytes
  import opened Logs
  import opened Options
  import opened SeatModel
  import opened SeatTrace
  import opened SeatInvariant
  import opened SeatSafety
  import opened SeatTheorems
  import opened Sequences

  // ----- who is told what -----

  /** Between w and w1 client x was sent, or had accepted, exactly these signals. */
  ghost predicate Told(w: World, w1: World, x: ClientId, signals: seq<Signal>) {
    Signals(w1.log, x) == Signals(w.log, x) + signals
  }

  /** From t to t1 nobody was told anything. */
  ghost predicate Silence(t: Trace, t1: Trace) {
    forall x :: Signals(t1, x) == Signals(t, x)
  }

  /** Client x is as it was, and nothing was sent to it. */
  ghost predicate LeftAlone(w: World, w1: World, x: ClientId) {
    Get(w1, x) == Get(w, x) && Told(w, w1, x, [])
  }

  /** Client t took the seat: it is active, its DRM devices are back and no other
      device changed, and it was told so once. */
  ghost predicate TookTheSeat(w: World, w1: World, t: ClientId) {
    && Get(w1, t) == Get(w, t).(state := Active, devices := Get(w1, t).devices)
    && |Get(w1, t).devices| == |Get(w, t).devices|
    && (forall i :: 0 <= i < |Get(w, t).devices| ==>
          var d := Get(w, t).devices[i]; Get(w1, t).devices[i] == d.(active := d.active || d.kind == Drm))
    && Told(w, w1, t, [EnableSent])
  }

  /** The seat went to t, or to nobody, and everybody else was left alone. */
  ghost predicate HandedTo(w: World, w1: World, t: Option<ClientId>) {
    && w1 == w.(clients := w1.clients, active := t, next := None, log := w1.log)
    && (forall x: ClientId :: if t == Some(x) then TookTheSeat(w, w1, x) else LeftAlone(w, w1, x))
  }

  lemma SeatTaken(w: World, c: ClientId, env: Env, out: set<ClientId>)
    requires Mid(w, out) && w.active == None && c in w.members && c in w.clients && w.next == None
    requires w.vtBound ==> w.clients[c].session == w.curVt != -1 && env.vtOpens
    ensures HandedTo(w, OpenClient(w, c, env).0, Some(c))
  {
    hide Mid, OpenClient, TookTheSeat, LeftAlone, Get, Signals;
    var w1 := OpenClient(w, c, env).0;
    OpenClientExactly(w, c, env, out, c, 0);
    forall x: ClientId ensures if Some(c) == Some(x) then TookTheSeat(w, w1, x) else LeftAlone(w, w1, x) {
      OneAtATime(w, c, env, out, x);
    }
  }

  lemma OneAtATime(w: World, c: ClientId, env: Env, out: set<ClientId>, x: ClientId)
    requires Mid(w, out) && w.active == None && c in w.members && c in w.clients
    requires w.vtBound ==> w.clients[c].session == w.curVt != -1 && env.vtOpens
    ensures var w1 := OpenClient(w, c, env).0;
      if x == c then TookTheSeat(w, w1, x) else LeftAlone(w, w1, x)
  {
    hide Mid, OpenClient;
    OpenClientExactly(w, c, env, out, x, 0);
    forall i: nat { OpenClientExactly(w, c, env, out, x, i); }
  }

  // ----- opening and closing the seat -----

  /** A join on a free seat opens it, unless it is VT-bound and the terminal does not open. */
  predicate OpensAtOnce(w: World, env: Env) {
    w.active == None && (w.vtBound ==> env.vtOpens)
  }

  /** What a client is after joining, and what it was told: active and enabled if the
      seat was free, else new. */
  ghost predicate Joined(w: World, w1: World, c: ClientId, session: int, open: bool) {
    && Get(w1, c) == Get(w, c).(seated := true, session := session, state := if open then Active else New)
    && Told(w, w1, c, if open then [EnableSent] else [])
    && w1.active == (if open then Some(c) else w.active)
    && w1.members == [c] + w.members && w1.idle == Without(w.idle, c)
  }

  /** open_seat succeeds exactly if the client may join and its reply could be written.
      A client that joins a free seat is active and enabled at once, with VTs and
      without; on a seat that is taken it stays new.  Nobody else notices. */
  lemma OpenSeatExactly(w: World, c: ClientId, env: Env)
    requires Settled(w) && c in w.clients
    ensures var (w1, ok) := Handle(w, c, OpenSeat, env);
      var vt := JoinVt(w, env);
      && (ok <==> MayJoin(w, c, vt) && env.replies)
      && w1.next == w.next && (forall x: ClientId :: x != c ==> LeftAlone(w, w1, x))
      && (if MayJoin(w, c, vt) then
            Joined(w, w1, c, if w.vtBound then vt else w.sessionCnt, OpensAtOnce(w, env) && env.replies)
          else LeftAlone(w, w1, c) && w1.members == w.members && w1.idle == w.idle && w1.active == w.active)
  {
    hide Settled, AddClient, OpenClient, MayJoin, LeftAlone, Joined, Without;
    AddClientExactly(w, c, env);
    var (w0, ok) := AddClient(w, c, env);
    forall x: ClientId ensures x != c || !ok ==> LeftAlone(w, w0, x) {
      JoinIsQuiet(w, c, env, x);
    }
    if ok {
      NewcomerHasNothing(w, c, JoinVt(w, env));
      JoinedNotOpened(w, c, env);
      if env.replies {
        if w0.active.Some? {
          BusySeatRefuses(w0, c, env);
        } else if w0.vtBound && !env.vtOpens {
          NoTerminal(w0, c, env);
        } else {
          AddClientKeeps(w, c, env) by { SettledInv(w); }
          QueueEmpty(w0);
          SeatTaken(w0, c, env, {});
          JoinedAndOpened(w, w0, OpenClient(w0, c, env).0, c, if w.vtBound then JoinVt(w, env) else w.sessionCnt);
        }
      }
    }
  }

  lemma JoinIsQuiet(w: World, c: ClientId, env: Env, x: ClientId)
    requires Settled(w) && c in w.clients
    ensures x != c || !AddClient(w, c, env).1 ==> LeftAlone(w, AddClient(w, c, env).0, x)
  {
    hide Settled, AddClient, MayJoin, Without;
    AddClientExactly(w, c, env);
    AddClientIsQuiet(w, c, env, x);
  }

  lemma NewcomerHasNothing(w: World, c: ClientId, vt: int)
    requires Settled(w) && c in w.clients && MayJoin(w, c, vt)
    ensures w.clients[c].state == New && w.clients[c].devices == []
  {
    hide Mid;
    ClientFacts(w, c);
  }

  lemma JoinedNotOpened(w: World, c: ClientId, env: Env)
    requires Settled(w) && c in w.clients && AddClient(w, c, env).1
    ensures var w0 := AddClient(w, c, env).0;
      Joined(w, w0, c, if w.vtBound then JoinVt(w, env) else w.sessionCnt, false)
  {
    hide Settled, AddClient, Without, Signals;
    AddClientExactly(w, c, env);
    AddClientIsQuiet(w, c, env, c);
  }

  lemma NoTerminal(w: World, c: ClientId, env: Env)
    requires w.vtBound && !env.vtOpens
    ensures OpenClient(w, c, env) == (w, false)
  {
    hide ActivateFrom;
  }

  lemma QueueEmpty(w: World)
    requires Inv(w) && w.active == None
    ensures w.next == None
  {
  }

  lemma JoinedAndOpened(w: World, w0: World, w1: World, c: ClientId, session: int)
    requires Joined(w, w0, c, session, false) && Get(w, c).devices == [] && w0.next == w.next
    requires forall x: ClientId :: x != c ==> LeftAlone(w, w0, x)
    requires HandedTo(w0, w1, Some(c))
    ensures Joined(w, w1, c, session, true)
    ensures forall x: ClientId :: x != c ==> LeftAlone(w, w1, x)
  {
    assert TookTheSeat(w0, w1, c);
    forall x: ClientId | x != c ensures LeftAlone(w, w1, x) {
      assert LeftAlone(w, w0, x) && LeftAlone(w0, w1, x);
    }
  }

  lemma NobodyTakesIt(w: World)
    ensures w.active == None && w.next == None ==> HandedTo(w, w, None)
  {
  }

  /** A seat that became free goes to its heir, and everybody else is left alone. */
  lemma HandoverExactly(w: World, env: Env, out: set<ClientId>)
    requires Free(w, out)
    ensures var w1 := ActivateSeat(w, env).0;
      Inherits(w, w.members, env, w1.active) && HandedTo(w, w1, w1.active)
  {
    HeirIsOpened(w, env, out);
    ActivateSeatKeeps(w, env, out);
    hide History, OnlyBy, OpenClient, Lists, Roles, Mid, RoleOk, HandedTo, Candidate, Inherits;
    CandidateIsMember(w, out);
    var w0 := w.(next := None);
    NobodyTakesIt(w);
    NobodyTakesIt(w0);
    match Candidate(w) {
      case None =>
      case Some(c) =>
        FreeIsMid(w0, out) by { HistoryIgnoresLists(w, w0); SameLists(w, w0, out); }
        if w.vtBound && !env.vtOpens {
          NoTerminal(w0, c, env);
        } else {
          SeatTaken(w0, c, env, out);
          QueueForgotten(w, OpenClient(w0, c, env).0, Some(c));
        }
    }
  }

  lemma QueueForgotten(w: World, w1: World, t: Option<ClientId>)
    requires HandedTo(w.(next := None), w1, t)
    ensures HandedTo(w, w1, t)
  {
    var w0 := w.(next := None);
    forall x: ClientId ensures if t == Some(x) then TookTheSeat(w, w1, x) else LeftAlone(w, w1, x) {
      assert if t == Some(x) then TookTheSeat(w0, w1, x) else LeftAlone(w0, w1, x);
    }
  }

  /** disable_seat: the ack of a client that was told to disable is accepted, and the
      seat goes to the heir; any other changes nothing.  Either way only the reply
      decides whether the client stays. */
  lemma AckExactly(w: World, c: ClientId, env: Env)
    requires Settled(w) && c in w.clients
    ensures var (w1, ok) := Handle(w, c, DisableSeat, env);
      var w0 := w.(clients := w.clients[c := w.clients[c].(state := Disabled)], active := None, log := Then(w.log, Ack(c)));
      && (ok <==> w.clients[c].seated && env.replies)
      && if w.clients[c].seated && w.clients[c].state == PendingDisable then
           Inherits(w, w.members, env, w1.active) && HandedTo(w0, w1, w1.active)
         else w1 == w
  {
    hide Settled, HandedTo, ActivateSeat, Inherits, Free;
    assert Inv(w) by { SettledInv(w); }
    ClientFacts(w, c);
    if w.clients[c].seated {
      AckHandsOn(w, c, env);
      if w.clients[c].state == PendingDisable {
        AckFrees(w, c);
        HandoverExactly(Emit(SetState(w, c, Disabled), Ack(c)).(active := None), env, {});
      }
    }
  }

  lemma CloseIsQuiet(w: World, c: ClientId, k: nat, fails: set<int>, x: ClientId)
    requires k < |Get(w, c).devices|
    ensures Signals(CloseNth(w, c, k, fails).log, x) == Signals(w.log, x)
  {
    var t1 := Then(w.log, Unref(c, Get(w, c).devices[k].path));
    assert Signals(t1, x) == Signals(w.log, x);
    var t2 := Then(t1, Withdraw(c, Get(w, c).devices[k], fails));
    assert Signals(t2, x) == Signals(w.log, x);
    hide Get, Withdraw;
  }

  lemma {:induction false} TeardownIsQuiet(w: World, c: ClientId, fails: set<int>, x: ClientId)
    ensures Signals(Teardown(w, c, fails).log, x) == Signals(w.log, x)
    decreases TotalRefs(Get(w, c).devices)
  {
    hide CloseNth, Signals;
    if Get(w, c).devices != [] {
      CloseIsQuiet(w, c, 0, fails, x);
      CloseShrinks(w, c, fails);
      TeardownIsQuiet(CloseNth(w, c, 0, fails), c, fails, x);
    }
  }

  /** What becomes of the others when client c leaves: if it was the active one the
      seat goes to its heir, and everybody else is left alone. */
  ghost predicate OthersAfter(w: World, w1: World, c: ClientId, env: Env) {
    && (if w.active == Some(c) then Inherits(w, Without(w.members, c), env, w1.active) else w1.active == w.active)
    && (forall x: ClientId :: x != c ==>
          if w.active == Some(c) && w1.active == Some(x) then TookTheSeat(w, w1, x) else LeftAlone(w, w1, x))
    && w1.members == Without(w.members, c)
    && w1.next == (if w.active == Some(c) || w.next == Some(c) then None else w.next)
  }

  /** And of c: it is closed and without devices. */
  ghost predicate RemovedFrom(w: World, w1: World, c: ClientId, env: Env) {
    && OthersAfter(w, w1, c, env)
    && Get(w1, c) == Get(w, c).(state := Closed, seated := false, devices := []) && Told(w, w1, c, [])
  }

  lemma RemovalExactly(w: World, c: ClientId, env: Env)
    requires Inv(w) && c in w.members
    ensures RemovedFrom(w, RemoveClient(w, c, env), c, env)
    ensures RemoveClient(w, c, env).idle == w.idle
  {
    hide Inherits, Without, TookTheSeat, LeftAlone, Detach, ActivateSeat, MarkClosed, HandedTo, Free, Mid;
    MemberFacts(w, c, {});
    RemovalHandsOn(w, c, env);
    RemoveClientKeeps(w, c, env);
    DetachKeeps(w, c, env);
    var w1 := Detach(w, c, env);
    DetachedIsQuiet(w, c, env);
    if w.active == Some(c) {
      var w2 := w1.(active := None);
      HandoverExactly(w2, env, {c});
      HeirIsAnother(w, w2, env, c);
      RemovedThenHanded(w, w2, ActivateSeat(w2, env).0, c);
    } else {
      RemovedOnly(w, w1, c);
    }
  }

  lemma DetachedIsQuiet(w: World, c: ClientId, env: Env)
    ensures Silence(w.log, Detach(w, c, env).log)
  {
    hide Teardown, Signals;
    var w0 := w.(next := if w.next == Some(c) then None else w.next, members := Without(w.members, c));
    forall x ensures Signals(Detach(w, c, env).log, x) == Signals(w.log, x) { TeardownIsQuiet(w0, c, env.revokeFails, x); }
  }

  lemma HeirIsAnother(w: World, w2: World, env: Env, c: ClientId)
    requires Free(w2, {c})
    ensures ActivateSeat(w2, env).0.active != Some(c)
  {
    ActivateSeatKeeps(w2, env, {c});
    hide ActivateSeat, History, Roles, OnlyBy;
    assert Lists(ActivateSeat(w2, env).0, {c});
  }

  lemma RemovedThenHanded(w: World, w2: World, w3: World, c: ClientId)
    requires c in w.clients && w2.clients == w.clients[c := w.clients[c].(devices := [])]
    requires Silence(w.log, w2.log) && HandedTo(w2, w3, w3.active) && w3.active != Some(c)
    ensures var w1 := MarkClosed(w3, c);
      && Get(w1, c) == Get(w, c).(state := Closed, seated := false, devices := []) && Told(w, w1, c, [])
      && (forall x: ClientId :: x != c ==> if w1.active == Some(x) then TookTheSeat(w, w1, x) else LeftAlone(w, w1, x))
  {
    var w1 := MarkClosed(w3, c);
    assert LeftAlone(w2, w3, c) && Signals(w1.log, c) == Signals(w3.log, c);
    forall x: ClientId | x != c ensures if w1.active == Some(x) then TookTheSeat(w, w1, x) else LeftAlone(w, w1, x) {
      assert if w3.active == Some(x) then TookTheSeat(w2, w3, x) else LeftAlone(w2, w3, x);
      assert Signals(w1.log, x) == Signals(w3.log, x) && Signals(w2.log, x) == Signals(w.log, x);
    }
  }

  lemma RemovedOnly(w: World, w3: World, c: ClientId)
    requires c in w.clients && w3.clients == w.clients[c := w.clients[c].(devices := [])]
    requires Silence(w.log, w3.log)
    ensures var w1 := MarkClosed(w3, c);
      && Get(w1, c) == Get(w, c).(state := Closed, seated := false, devices := []) && Told(w, w1, c, [])
      && (forall x: ClientId :: x != c ==> LeftAlone(w, w1, x))
  {
    var w1 := MarkClosed(w3, c);
    assert Signals(w1.log, c) == Signals(w3.log, c) == Signals(w.log, c);
    forall x: ClientId | x != c ensures LeftAlone(w, w1, x) {
      assert Signals(w1.log, x) == Signals(w3.log, x) == Signals(w.log, x);
    }
  }

  /** close_seat removes the client and parks it on the idle list; without a seat it
      is refused, at the cost of the connection. */
  lemma CloseSeatExactly(w: World, c: ClientId, env: Env)
    requires Settled(w) && c in w.clients
    ensures var (w1, ok) := Handle(w, c, CloseSeat, env);
      && (ok <==> w.clients[c].seated && env.replies)
      && if w.clients[c].seated then RemovedFrom(w, w1, c, env) && w1.idle == [c] + w.idle else w1 == w
  {
    hide Settled, RemoveClient, RemovedFrom;
    assert Inv(w) by { SettledInv(w); }
    ClientFacts(w, c);
    if w.clients[c].seated {
      RemovalExactly(w, c, env);
      Parked(w, RemoveClient(w, c, env), c, env);
    }
  }

  lemma Parked(w: World, w1: World, c: ClientId, env: Env)
    requires RemovedFrom(w, w1, c, env)
    ensures RemovedFrom(w, w1.(idle := [c] + w1.idle), c, env)
  {
    var w2 := w1.(idle := [c] + w1.idle);
    forall x: ClientId | x != c
      ensures if w.active == Some(c) && w2.active == Some(x) then TookTheSeat(w, w2, x) else LeftAlone(w, w2, x)
    {
      assert if w.active == Some(c) && w1.active == Some(x) then TookTheSeat(w, w1, x) else LeftAlone(w, w1, x);
    }
  }

  // ----- devices -----

  /** From w to w1 nothing changed but client c's devices and what follows from them. */
  ghost predicate OnlyDevices(w: World, w1: World, c: ClientId) {
    && w1 == w.(clients := w1.clients, nextFile := w1.nextFile, log := w1.log)
    && Get(w1, c) == Get(w, c).(devices := Get(w1, c).devices) && Told(w, w1, c, [])
    && (forall x: ClientId :: x != c ==> LeftAlone(w, w1, x))
  }

  lemma SetDevicesOnly(w: World, w1: World, c: ClientId)
    requires c in w.clients && c in w1.clients && Silence(w.log, w1.log)
    requires w1 == w.(clients := w.clients[c := w.clients[c].(devices := w1.clients[c].devices)], nextFile := w1.nextFile, log := w1.log)
    ensures OnlyDevices(w, w1, c)
  {
    hide Signals;
    assert Signals(w1.log, c) == Signals(w.log, c);
    forall x: ClientId | x != c ensures LeftAlone(w, w1, x) { assert Signals(w1.log, x) == Signals(w.log, x); }
  }

  /** The table after one reference of entry k is given up */
  function OneLess(ds: seq<Device>, k: nat): seq<Device>
    requires k < |ds|
  {
    if ds[k].refCount > 1 then ds[k := ds[k].(refCount := ds[k].refCount - 1)] else ds[..k] + ds[k + 1..]
  }

  lemma CloseNthExactly(w: World, c: ClientId, k: nat, fails: set<int>)
    requires Settled(w) && c in w.members && c in w.clients && k < |w.clients[c].devices|
    ensures var w1 := CloseNth(w, c, k, fails);
      OnlyDevices(w, w1, c) && w1.nextFile == w.nextFile && Get(w1, c).devices == OneLess(w.clients[c].devices, k)
  {
    hide Settled, CloseNth, OnlyDevices;
    CloseDeviceExactly(w, c, k, fails);
    assert Inv(w) by { SettledInv(w); }
    assert HolderActive(w.log, Holder(w)) by { HolderIsActive(w, {}); }
    assert History(w) by { InvHistory(w); }
    CloseNthKeeps(w, c, k, fails, Holder(w));
    assert Silence(w.log, CloseNth(w, c, k, fails).log) by {
      forall x ensures Signals(CloseNth(w, c, k, fails).log, x) == Signals(w.log, x) { CloseIsQuiet(w, c, k, fails, x); }
    }
    SetDevicesOnly(w, CloseNth(w, c, k, fails), c);
  }

  /** close_device gives up one reference of the device with that id, and of no other;
      the entry goes with its last reference.  An unknown id changes nothing.  Either
      way only the reply decides whether the client stays. */
  lemma CloseDeviceByIdExactly(w: World, c: ClientId, id: int, env: Env, j: nat)
    requires Settled(w) && c in w.clients
    ensures var (w1, ok) := Handle(w, c, CloseDevice(id), env);
      var ds := w.clients[c].devices;
      && (ok <==> w.clients[c].seated && env.replies)
      && OnlyDevices(w, w1, c) && w1.nextFile == w.nextFile
      && (j < |ds| && ds[j].id == id ==> Get(w1, c).devices == OneLess(ds, j))
      && ((forall i :: 0 <= i < |ds| ==> ds[i].id != id) ==> w1 == w)
  {
    hide Settled, CloseNth, OnlyDevices, FindDevice, OneLess;
    assert Inv(w) by { SettledInv(w); }
    ClientFacts(w, c);
    assert OnlyDevices(w, w, c) by { NothingChanged(w, c); }
    var k := FindDevice(w.clients[c].devices, id);
    FindDeviceExactly(w, c, id, j);
    if w.clients[c].seated && k.Some? {
      FindDeviceExactly(w, c, id, k.value);
      CloseNthExactly(w, c, k.value, env.revokeFails);
    }
  }

  lemma NothingChanged(w: World, c: ClientId)
    ensures OnlyDevices(w, w, c)
  {
  }

  /** A close takes the access to exactly one file: that of the entry whose last
      reference it was, if there is a revoke for it that works. */
  lemma CloseTakesAccess(w: World, c: ClientId, k: nat, fails: set<int>, x: ClientId, f: nat)
    requires Settled(w) && c in w.members && c in w.clients && k < |w.clients[c].devices|
    ensures var d := w.clients[c].devices[k];
      (x, f) in AccessOf(CloseNth(w, c, k, fails).log) <==>
        (x, f) in AccessOf(w.log) && !(x == c && f == d.file && d.refCount == 1 && Revocable(d, fails))
  {
    hide Settled, CloseNth, AfterClose, TableOk, AccessMatches;
    assert History(w) by { SettledInv(w); InvHistory(w); }
    hide History;
    TableFacts(w, c);
    AccessAfterClose(w, c, k, fails);
    AfterCloseExactly(w.clients[c].devices, AccessOf(w.log), c, k, fails, x, f);
  }

  lemma AccessAfterClose(w: World, c: ClientId, k: nat, fails: set<int>)
    requires Settled(w) && c in w.members && c in w.clients && k < |w.clients[c].devices|
    ensures var d := w.clients[c].devices[k];
      && d.refCount >= 1
      && AccessOf(CloseNth(w, c, k, fails).log) ==
           if d.refCount == 1 then AfterClose(AccessOf(w.log), c, d, fails) else AccessOf(w.log)
  {
    hide Settled, AfterClose;
    assert Inv(w) by { SettledInv(w); }
    assert HolderActive(w.log, Holder(w)) by { HolderIsActive(w, {}); }
    assert History(w) by { InvHistory(w); }
    hide Inv, History, HolderActive, Holder;
    TableFacts(w, c);
    if w.clients[c].devices[k].refCount == 1 {
      hide CloseNth;
      LastCloseKeeps(w, c, k, fails, Holder(w));
    }
  }

  lemma AfterCloseExactly(ds: seq<Device>, g: Access, c: ClientId, k: nat, fails: set<int>, x: ClientId, f: nat)
    requires TableOk(ds) && AccessMatches(ds, g, c) && k < |ds|
    ensures (x, f) in AfterClose(g, c, ds[k], fails) <==>
      (x, f) in g && !(x == c && f == ds[k].file && Revocable(ds[k], fails))
  {
    if !ds[k].active && (c, ds[k].file) in g { InactiveIsOutOfReach(ds, g, c, k); }
    hide TableOk;
  }

  lemma InactiveIsOutOfReach(ds: seq<Device>, g: Access, c: ClientId, k: nat)
    requires TableOk(ds) && AccessMatches(ds, g, c) && k < |ds| && !ds[k].active && (c, ds[k].file) in g
    ensures ds[k].kind == Wscons
  {
    FilesDiffer(ds, k);
    hide TableOk;
    assert !HasActive(ds, ds[k].file);
  }

  lemma OpenIsQuiet(w: World, c: ClientId, env: Env, x: ClientId)
    ensures Signals(OpenDeviceOn(w, c, env).0.log, x) == Signals(w.log, x)
  {
    hide FindPath, FreshId;
    if env.resolved.Some? {
      var t := Then(w.log, Ref(c, env.resolved.value.path));
      assert Signals(t, x) == Signals(w.log, x);
    }
  }

  /** What seat_open_device does to the table, if anything */
  lemma OpenDeviceOnExactly(w: World, c: ClientId, env: Env, k: nat)
    requires Settled(w) && c in w.members && c in w.clients
    ensures var (w1, device) := OpenDeviceOn(w, c, env);
      var ds := w.clients[c].devices;
      && OnlyDevices(w, w1, c) && Settled(w1) && c in w1.members && c in w1.clients
      && w1.nextFile == (if MakesEntry(w, c, env) then w.nextFile + 1 else w.nextFile)
      && (device.Some? <==> MakesEntry(w, c, env))
      && (MakesEntry(w, c, env) ==> w1.clients[c].devices == [NewEntry(w, c, env.resolved.value)] + ds)
      && (Reopens(w, c, env, k) ==> w1.clients[c].devices == ds[k := ds[k].(refCount := ds[k].refCount + 1)])
      && (!MakesEntry(w, c, env) && NothingToReopen(w, c, env) ==> w1 == w)
  {
    hide Settled, OpenDeviceOn, OnlyDevices, MakesEntry;
    OpenReturnsExactlyNewEntries(w, c, env);
    OpenDeviceOnKeeps(w, c, env);
    var (w1, device) := OpenDeviceOn(w, c, env);
    forall x ensures Signals(w1.log, x) == Signals(w.log, x) { OpenIsQuiet(w, c, env, x); }
    OpenFrame(w, c, env);
    SetDevicesOnly(w, w1, c);
    if Reopens(w, c, env, k) {
      OpenFacts(w, c);
      ReopenIsCountedButRefused(w, c, env, k, {});
      KnownIsNotNew(w, c, env, k);
    }
  }

  /** The holder asks for the path of its k-th device. */
  ghost predicate Reopens(w: World, c: ClientId, env: Env, k: nat) {
    && Holder(w) == Some(c) && env.resolved.Some?
    && k < |Get(w, c).devices| && Get(w, c).devices[k].path == env.resolved.value.path
  }

  ghost predicate NothingToReopen(w: World, c: ClientId, env: Env) {
    Holder(w) != Some(c) || env.resolved.None? || Unopened(w, c, env)
  }

  lemma KnownIsNotNew(w: World, c: ClientId, env: Env, k: nat)
    requires Reopens(w, c, env, k)
    ensures !MakesEntry(w, c, env) && !NothingToReopen(w, c, env)
  {
  }

  lemma OpenFrame(w: World, c: ClientId, env: Env)
    requires c in w.clients
    ensures var w1 := OpenDeviceOn(w, c, env).0;
      && c in w1.clients
      && w1 == w.(clients := w.clients[c := w.clients[c].(devices := w1.clients[c].devices)], nextFile := w1.nextFile, log := w1.log)
      && (OpenDeviceOn(w, c, env).1.None? ==> w1.nextFile == w.nextFile)
  {
    hide FindPath, FreshId;
    assert w.clients[c := w.clients[c]] == w.clients;
  }

  /** open_device: a new entry is made under the conditions of seat_open_device; it
      stays exactly if its descriptor could be duplicated, and is closed again if not.
      A path that is open is counted; anything else changes nothing.  The connection is
      lost only if the reply, or the new descriptor, could not be queued. */
  lemma OpenDeviceRequestExactly(w: World, c: ClientId, path: seq<byte>, env: Env, k: nat)
    requires Settled(w) && c in w.clients
    ensures var (w1, ok) := Handle(w, c, OpenDevice(path), env);
      var ds := w.clients[c].devices;
      && (ok <==> w.clients[c].seated && if MakesEntry(w, c, env) && env.dups && !env.queuesFd then false else env.replies)
      && OnlyDevices(w, w1, c)
      && (MakesEntry(w, c, env) ==>
            Get(w1, c).devices == if env.dups then [NewEntry(w, c, env.resolved.value)] + ds else ds)
      && (Reopens(w, c, env, k) ==> Get(w1, c).devices == ds[k := ds[k].(refCount := ds[k].refCount + 1)])
      && (!MakesEntry(w, c, env) && NothingToReopen(w, c, env) ==> w1 == w)
  {
    hide Settled, OpenDeviceOn, CloseNth, OnlyDevices, Reopens, NothingToReopen, NewEntry, Holder;
    assert Inv(w) by { SettledInv(w); }
    ClientFacts(w, c);
    if w.clients[c].seated {
      OpenDeviceOnExactly(w, c, env, k);
      var (w1, device) := OpenDeviceOn(w, c, env);
      if Reopens(w, c, env, k) { KnownIsNotNew(w, c, env, k); }
      if device.Some? && !env.dups {
        CloseNthExactly(w1, c, 0, env.revokeFails);
        LastOpenedFirstClosed(w, w1, CloseNth(w1, c, 0, env.revokeFails), c, env);
      }
    } else {
      NothingChanged(w, c);
      NoSeatNoDevice(w, c, env, k);
    }
  }

  lemma NoSeatNoDevice(w: World, c: ClientId, env: Env, k: nat)
    requires Settled(w) && c in w.clients && !w.clients[c].seated
    ensures !MakesEntry(w, c, env) && !Reopens(w, c, env, k)
  {
    hide Mid;
    ClientFacts(w, c);
    if Holder(w) == Some(c) { ActiveIsMember(w); }
  }

  lemma ActiveIsMember(w: World)
    requires Inv(w)
    ensures w.active.Some? ==> w.active.value in w.members
  {
  }

  lemma LastOpenedFirstClosed(w: World, w1: World, w2: World, c: ClientId, env: Env)
    requires OnlyDevices(w, w1, c) && OnlyDevices(w1, w2, c) && env.resolved.Some? && c in w.clients && c in w1.clients
    requires w1.clients[c].devices == [NewEntry(w, c, env.resolved.value)] + w.clients[c].devices
    requires Get(w2, c).devices == OneLess(w1.clients[c].devices, 0)
    ensures OnlyDevices(w, w2, c) && Get(w2, c).devices == w.clients[c].devices
  {
    hide Signals;
    assert Get(w2, c).devices == w.clients[c].devices;
    forall x: ClientId | x != c ensures LeftAlone(w, w2, x) { assert LeftAlone(w, w1, x) && LeftAlone(w1, w2, x); }
  }

  // ----- switching, pinging, and what keeps a client connected -----

  /** The member that a switch to a session goes to: the caller holds the seat, which
      has no VTs and nothing queued, and asks for the positive session of another. */
  ghost predicate SwitchesTo(w: World, c: ClientId, session: int, t: ClientId) {
    && Holder(w) == Some(c) && !w.vtBound && w.next == None
    && t in w.members && t != c && Get(w, t).session == session > 0
  }

  /** The caller gave up its devices, but for those whose revoke failed, and was told
      to disable; t is queued, and everybody else is left alone. */
  ghost predicate Queued(w: World, w1: World, c: ClientId, t: ClientId, fails: set<int>) {
    && w1 == w.(clients := w1.clients, next := Some(t), log := w1.log)
    && GaveUpDevices(w, w1, c, fails)
    && (forall x: ClientId :: x != c ==> LeftAlone(w, w1, x))
  }

  ghost predicate GaveUpDevices(w: World, w1: World, c: ClientId, fails: set<int>) {
    && Get(w1, c) == Get(w, c).(state := PendingDisable, devices := Get(w1, c).devices)
    && |Get(w1, c).devices| == |Get(w, c).devices|
    && (forall i :: 0 <= i < |Get(w, c).devices| ==>
          var d := Get(w, c).devices[i]; Get(w1, c).devices[i] == d.(active := d.active && d.kind != Wscons && d.id in fails))
    && Told(w, w1, c, [DisableSent])
  }

  lemma DisabledExactly(w: World, c: ClientId, env: Env)
    requires c in w.clients && w.clients[c].state == Active
    ensures var w1 := DisableClient(w, c, env).0;
      && w1 == w.(clients := w1.clients, log := w1.log)
      && GaveUpDevices(w, w1, c, env.revokeFails) && (forall x: ClientId :: x != c ==> LeftAlone(w, w1, x))
  {
    hide DisableClient, Signals;
    var w1 := DisableClient(w, c, env).0;
    DisableClientExactly(w, c, env, c, 0);
    forall i: nat { DisableClientExactly(w, c, env, c, i); }
    forall x: ClientId | x != c ensures LeftAlone(w, w1, x) { DisableClientExactly(w, c, env, x, 0); }
  }

  lemma HolderFacts(w: World, c: ClientId)
    requires Settled(w) && Holder(w) == Some(c)
    ensures c in w.clients && w.active == Some(c) && w.clients[c].state == Active
  {
  }

  /** switch_session queues exactly the member that the session belongs to, and tells
      the caller to disable; a refused or unnecessary switch changes nothing.  Either
      way only the reply decides whether the client stays. */
  lemma SwitchExactly(w: World, c: ClientId, session: int, env: Env, t: ClientId)
    requires Settled(w) && c in w.clients
    ensures var (w1, ok) := Handle(w, c, SwitchSession(session), env);
      && (ok <==> w.clients[c].seated && env.replies)
      && (SwitchesTo(w, c, session, t) ==> Queued(w, w1, c, t, env.revokeFails))
      && (w1 == w || exists x :: SwitchesTo(w, c, session, x))
  {
    hide Settled, DisableClient, Queued, Holder, FindSession, LeftAlone, GaveUpDevices;
    if w.clients[c].state == Active { ActiveIsHolder(w, c); }
    if Holder(w) == Some(c) { HolderFacts(w, c); HolderIsSeated(w, c); }
    if SwitchesTo(w, c, session, t) && Get(w, c).session == session { SessionIsUnique(w, t, c); }
    FindSessionFinds(w, w.members, session);
    var target := FindSession(w, w.members, session);
    if target.Some? && SwitchesTo(w, c, session, target.value) {
      if SwitchesTo(w, c, session, t) { SessionIsUnique(w, t, target.value); }
      var w0 := w.(next := target);
      DisabledExactly(w0, c, env);
      QueuedBehind(w, w0, DisableClient(w0, c, env).0, c, target.value, env.revokeFails);
    }
  }

  lemma QueuedBehind(w: World, w0: World, w1: World, c: ClientId, t: ClientId, fails: set<int>)
    requires w0 == w.(next := Some(t)) && w1 == w0.(clients := w1.clients, log := w1.log)
    requires GaveUpDevices(w0, w1, c, fails) && (forall x: ClientId :: x != c ==> LeftAlone(w0, w1, x))
    ensures Queued(w, w1, c, t, fails)
  {
    forall x: ClientId | x != c ensures LeftAlone(w, w1, x) { assert LeftAlone(w0, w1, x); }
  }

  lemma ActiveIsHolder(w: World, c: ClientId)
    requires Settled(w) && c in w.clients && w.clients[c].state == Active
    ensures Holder(w) == Some(c) && w.next == None
  {
    hide History, OnlyBy;
    ClientFacts(w, c);
  }

  lemma HolderIsSeated(w: World, c: ClientId)
    requires Settled(w) && Holder(w) == Some(c)
    ensures c in w.members && Get(w, c).seated
  {
    hide History, OnlyBy, Roles;
  }

  lemma SessionIsUnique(w: World, t: ClientId, x: ClientId)
    requires Settled(w) && !w.vtBound && t in w.members && x in w.members && Get(w, t).session == Get(w, x).session
    ensures t == x
  {
    assert SessionsOk(w);
    MemberFacts(w, t, {});
    MemberFacts(w, x, {});
    hide Mid;
  }

  /** When a switch is reported as done: the caller holds the seat and asks for a positive
      session that is its own, or another member's, or a VT that can be switched to. */
  lemma SwitchAnswer(w: World, c: ClientId, session: int, env: Env)
    requires Settled(w) && c in w.members && c in w.clients
    ensures SetNextSession(w, c, session, env).1 <==>
      && Holder(w) == Some(c) && session > 0
      && (session == Get(w, c).session || if w.vtBound then env.vtSwitches else exists t :: SwitchesTo(w, c, session, t))
  {
    hide Settled, DisableClient, FindSession, Holder;
    OpenFacts(w, c);
    if w.clients[c].state == Active { ActiveIsHolder(w, c); }
    FindSessionFinds(w, w.members, session);
    var target := FindSession(w, w.members, session);
    if Holder(w) == Some(c) && session > 0 && session != Get(w, c).session && !w.vtBound && target.Some? {
      assert SwitchesTo(w, c, session, target.value);
    }
  }

  /** What keeps a client connected: for each request, whether its handler succeeds.
      Only an open_seat that is refused, a request without a seat, a reply that could
      not be written, and a new device's descriptor that could not be queued are fatal;
      a refused ack, switch, open or close is not. */
  ghost predicate Succeeds(w: World, c: ClientId, request: Request, env: Env) {
    match request
    case OpenSeat => MayJoin(w, c, JoinVt(w, env)) && env.replies
    case Ping => env.replies
    case OpenDevice(_) => Get(w, c).seated && env.replies && (MakesEntry(w, c, env) && env.dups ==> env.queuesFd)
    case _ => Get(w, c).seated && env.replies
  }

  lemma SuccessExactly(w: World, c: ClientId, request: Request, env: Env)
    requires Settled(w) && c in w.clients
    ensures Handle(w, c, request, env).1 <==> Succeeds(w, c, request, env)
    ensures request.Ping? ==> Handle(w, c, request, env).0 == w
  {
    hide Settled, MayJoin, MakesEntry, Handle;
    match request {
      case OpenSeat => OpenSeatExactly(w, c, env);
      case CloseSeat => CloseSeatExactly(w, c, env);
      case OpenDevice(path) => OpenDeviceRequestExactly(w, c, path, env, 0);
      case CloseDevice(id) => CloseDeviceByIdExactly(w, c, id, env, 0);
      case DisableSeat => AckExactly(w, c, env);
      case SwitchSession(session) => SwitchExactly(w, c, session, env, 0);
      case Ping => PingExactly(w, c, env);
    }
  }

  lemma PingExactly(w: World, c: ClientId, env: Env)
    ensures Handle(w, c, Ping, env) == (w, env.replies)
  {
  }

  // ----- connecting, disconnecting, and the VT -----

  /** A new client gets an identity nobody has had; nobody else notices. */
  lemma ConnectExactly(w: World)
    requires Settled(w)
    ensures var w1 := Step(w, Connect);
      && w.nextId !in w.clients && PhaseOf(w.log, w.nextId) == Unseen
      && Get(w1, w.nextId) == Client(New, -1, false, []) && w1.clients.Keys == w.clients.Keys + {w.nextId}
      && w1.idle == [w.nextId] + w.idle && w1.members == w.members && w1.active == w.active && w1.next == w.next
      && w1.nextId == w.nextId + 1 && w1.log == w.log
      && forall x: ClientId :: x != w.nextId ==> LeftAlone(w, w1, x)
  {
    LifeFacts(w, w.nextId);
    hide History, Roles, OnlyBy, Signals;
    assert w.nextId !in w.clients;
  }

  /** A client that is destroyed is forgotten; the seat goes on as after a removal. */
  lemma DestroyExactly(w: World, c: ClientId, env: Env)
    requires SettledBut(w, c)
    ensures var w1 := Destroy(w, c, env);
      && w1.clients.Keys == w.clients.Keys - {c} && w1.idle == Without(w.idle, c)
      && OthersAfter(w, w1, c, env)
  {
    hide Mid, RemoveClient, OthersAfter, Without;
    ClientFacts(w, c);
    if w.clients[c].seated {
      RemovalExactly(w, c, env);
      SameClients(w, c, env);
      Forgotten(w, RemoveClient(w, c, env), Destroy(w, c, env), c, env);
    } else {
      NotAMember(w, c);
      NotInvolved(w, c);
      IdleLeaves(w, c, env);
      Forgotten(w, w, Destroy(w, c, env), c, env);
    }
  }

  lemma SameClients(w: World, c: ClientId, env: Env)
    requires Inv(w) && c in w.members
    ensures RemoveClient(w, c, env).clients.Keys == w.clients.Keys
  {
    hide Mid, Detach, ActivateSeat, Free;
    MemberFacts(w, c, {});
    DetachKeeps(w, c, env);
    var w1 := Detach(w, c, env);
    if w1.active == Some(c) { ActivateSeatKeeps(w1.(active := None), env, {c}); }
  }

  lemma NotInvolved(w: World, c: ClientId)
    requires Inv(w) && c !in w.members
    ensures w.active != Some(c) && w.next != Some(c)
  {
  }

  lemma IdleLeaves(w: World, c: ClientId, env: Env)
    requires w.active != Some(c) && w.next != Some(c) && Without(w.members, c) == w.members
    ensures OthersAfter(w, w, c, env)
  {
    hide Signals;
  }

  lemma Forgotten(w: World, w1: World, w2: World, c: ClientId, env: Env)
    requires OthersAfter(w, w1, c, env) && w2 == w1.(clients := w1.clients - {c}, idle := w2.idle)
    ensures OthersAfter(w, w2, c, env)
  {
    hide Signals, Inherits, Without;
    forall x: ClientId | x != c
      ensures if w.active == Some(c) && w2.active == Some(x) then TookTheSeat(w, w2, x) else LeftAlone(w, w2, x)
    {
      assert if w.active == Some(c) && w1.active == Some(x) then TookTheSeat(w, w1, x) else LeftAlone(w, w1, x);
    }
  }

  /** A VT that was acquired becomes the current one if it can be found out, and a free
      seat goes to its heir. */
  lemma VtAcquiredExactly(w: World, env: Env)
    requires Settled(w)
    ensures var w1 := Step(w, VtAcquired(env));
      var w0 := w.(curVt := JoinVt(w, env), log := UpdateVt(w, env).log);
      && Silence(w.log, w0.log)
      && if !w.vtBound then w1 == w
         else if w.active.Some? then w1 == w0
         else Inherits(w0, w.members, env, w1.active) && HandedTo(w0, w1, w1.active)
  {
    hide Settled, ActivateSeat, Inherits, HandedTo, Signals, Free;
    forall x ensures Signals(UpdateVt(w, env).log, x) == Signals(w.log, x) { QueryIsQuiet(w, env, x); }
    if w.vtBound {
      UpdateVtKeeps(w, env) by { SettledInv(w); }
      var w0 := UpdateVt(w, env);
      if w0.active == None {
        FreeWhenIdle(w0);
        HandoverExactly(w0, env, {});
      }
    }
  }

  lemma QueryIsQuiet(w: World, env: Env, x: ClientId)
    ensures Signals(UpdateVt(w, env).log, x) == Signals(w.log, x)
  {
  }

  /** When the VT is released its client, if it holds the seat, gives up its devices and
      is told to disable; nobody else notices, and the seat has no VT. */
  lemma VtReleasedExactly(w: World, env: Env)
    requires Settled(w)
    ensures var w1 := Step(w, VtReleased(env));
      if !w.vtBound then w1 == w
      else
        && w1 == w.(clients := w1.clients, curVt := -1, log := w1.log) && Released(w1.log)
        && forall x: ClientId :: if Holder(w) == Some(x) then GaveUpDevices(w, w1, x, env.revokeFails) else LeftAlone(w, w1, x)
  {
    hide Settled, DisableClient, Signals, GaveUpDevices, LeftAlone;
    if w.vtBound {
      var w0 := UpdateVt(w, env);
      var w2 := if w0.active.Some? then DisableClient(w0, w0.active.value, env).0 else w0;
      forall x: ClientId
        ensures if Holder(w) == Some(x) then GaveUpDevices(w0, w2, x, env.revokeFails) else LeftAlone(w0, w2, x)
        ensures w2 == w0.(clients := w2.clients, log := w2.log)
      {
        ReleaseDisables(w, w0, env, x);
      }
      assert w2 == w0.(clients := w2.clients, log := w2.log) by { ReleaseDisables(w, w0, env, 0); }
      var w1 := Emit(w2.(curVt := -1), VtRelease);
      forall x: ClientId ensures if Holder(w) == Some(x) then GaveUpDevices(w, w1, x, env.revokeFails) else LeftAlone(w, w1, x) {
        QueryIsQuiet(w, env, x);
        AroundRelease(w, w0, w2, w1, x, env.revokeFails);
      }
    }
  }

  lemma ReleaseDisables(w: World, w0: World, env: Env, x: ClientId)
    requires Settled(w) && w0 == w.(curVt := w0.curVt, log := w0.log)
    ensures var w2 := if w0.active.Some? then DisableClient(w0, w0.active.value, env).0 else w0;
      && w2 == w0.(clients := w2.clients, log := w2.log)
      && if Holder(w) == Some(x) then GaveUpDevices(w0, w2, x, env.revokeFails) else LeftAlone(w0, w2, x)
  {
    hide Settled, DeactivateFrom, GaveUpDevices;
    ActiveIsConnected(w);
    if w.active.Some? && Get(w, w.active.value).state == Active {
      hide DisableClient;
      HolderFacts(w, w.active.value);
      DisabledExactly(w0, w.active.value, env);
    }
  }

  lemma AroundRelease(w: World, w0: World, w2: World, w1: World, x: ClientId, fails: set<int>)
    requires w0.clients == w.clients && w1.clients == w2.clients
    requires Signals(w0.log, x) == Signals(w.log, x) && w1.log == Then(w2.log, VtRelease)
    ensures GaveUpDevices(w0, w2, x, fails) ==> GaveUpDevices(w, w1, x, fails)
    ensures LeftAlone(w0, w2, x) ==> LeftAlone(w, w1, x)
  {
    assert Signals(w1.log, x) == Signals(w2.log, x);
  }
}
