/**
 The seat invariant `Inv`, its preservation by every step of the daemon, and so
 its truth in every state of every run.
 */
module SeatSafety {
  import opened Logs
  import opened Options
  import opened SeatModel
  import opened SeatTrace
  import opened SeatInvariant
  import opened Sequences

  /** Every connected client is on exactly one list, except those in `out`,
      which are on none. */
  ghost predicate Lists(w: World, out: set<ClientId>) {
    && Distinct(w.members)
    && Distinct(w.idle)
    && (forall c :: c in w.members ==> c in w.clients && c !in w.idle && c !in out && w.clients[c].seated)
    && (forall c :: c in w.idle ==> c in w.clients && c !in out && !w.clients[c].seated)
    && (forall c :: c in w.clients ==> c < w.nextId && (c in w.members || c in w.idle || c in out))
    && (w.active.Some? ==> w.active.value in w.members)
  }

  ghost predicate RoleOk(w: World, c: ClientId)
    requires c in w.clients
  {
    var r := w.clients[c];
    if r.seated then
      && r.session != -1
      && r.state != Closed
      && (r.state == Active || r.state == PendingDisable <==> w.active == Some(c))
      && (r.state == New ==> r.devices == [])
    else
      && r.devices == []
      && (r.session == -1 ==> r.state == New)
      && (r.session != -1 ==> r.state == Closed)
  }

  ghost predicate Roles(w: World, out: set<ClientId>) {
    forall c :: c in w.clients && c !in out ==> RoleOk(w, c)
  }

  ghost predicate QueueOk(w: World) {
    w.next.Some? ==>
      && !w.vtBound
      && w.active.Some? && Get(w, w.active.value).state == PendingDisable
      && w.next.value in w.members && w.next != w.active
      && Get(w, w.next.value).session > 0
  }

  /** The client entitled to use devices: the active one, unless it is on its way out. */
  function Holder(w: World): Option<ClientId> {
    if w.active.Some? && Get(w, w.active.value).state == Active then w.active else None
  }

  /** The seat invariant while the clients in `out` are being removed. */
  ghost predicate Mid(w: World, out: set<ClientId>) {
    && History(w)
    && Lists(w, out)
    && Roles(w, out)
    && QueueOk(w)
    && OnlyBy(AccessOf(w.log), Holder(w))
  }

  ghost predicate Inv(w: World) {
    Mid(w, {})
  }

  // ----- events that move a client through its life -----

  ghost predicate LifeEvent(e: Event, c: ClientId) {
    match e
    case Join(x, _) => x == c
    case Leave(x) => x == c
    case Enable(x, _, _) => x == c
    case Disable(x) => x == c
    case Ack(x) => x == c
    case _ => false
  }

  /** A life event of c with the matching change of c's record keeps the history. */
  lemma LifeEventKeeps(w: World, c: ClientId, r: Client, cnt: int, e: Event)
    requires c in w.clients && History(w) && LifeEvent(e, c)
    requires r.devices == w.clients[c].devices
    requires PhaseNext(PhaseOf(w.log, c), e, c) == if r.session == -1 then Unseen else In(r.state)
    requires Sound(Then(w.log, e), w.vtBound)
    requires SessionsOk(Emit(Put(w, c, r).(sessionCnt := cnt), e))
    ensures History(Emit(Put(w, c, r).(sessionCnt := cnt), e))
  {
    var w1 := Emit(Put(w, c, r).(sessionCnt := cnt), e);
    assert AccessOf(w1.log) == AccessOf(w.log);
    forall x ensures ClientOk(w1, x) {
      assert ClientOk(w, x);
      assert Get(w1, x).devices == Get(w, x).devices;
      assert forall p :: Balance(w1.log, x, p) == Balance(w.log, x, p);
      assert PhaseOf(w1.log, x) == PhaseNext(PhaseOf(w.log, x), e, x);
    }
  }

  lemma SameSessions(w: World, c: ClientId, state: ClientState, seated: bool, e: Event)
    requires c in w.clients && SessionsOk(w) && !e.Join?
    ensures SessionsOk(Emit(Put(w, c, w.clients[c].(state := state, seated := seated)), e))
  {
    var w1 := Emit(Put(w, c, w.clients[c].(state := state, seated := seated)), e);
    assert forall x :: x in w1.clients ==> x in w.clients && w1.clients[x].session == w.clients[x].session;
  }

  lemma LifeEventSound(t: Trace, e: Event, c: ClientId, holder: Option<ClientId>, vtBound: bool)
    requires Sound(t, vtBound) && LifeEvent(e, c)
    requires OnlyBy(AccessOf(t), holder) && (holder.Some? ==> PhaseOf(Then(t, e), holder.value) == In(Active))
    requires e.Enable? ==> !Released(t) && (vtBound ==> e.session == e.vt)
    requires e.Join? && !vtBound ==> JoinedBelow(t, e.session)
    requires e.Disable? || e.Leave? ==> GivenUp(AccessOf(t), c)
    ensures Sound(Then(t, e), vtBound)
  {
    hide Sound;
    assert AccessOf(Then(t, e)) == AccessOf(t);
    SoundThen(t, e, holder, vtBound);
  }

  /** A change of state announced by its event keeps the history. */
  lemma StateChangeKeeps(w: World, c: ClientId, state: ClientState, seated: bool, e: Event, holder: Option<ClientId>)
    requires c in w.clients && History(w) && LifeEvent(e, c) && !e.Join?
    requires w.clients[c].session != -1
    requires PhaseNext(In(w.clients[c].state), e, c) == In(state)
    requires OnlyBy(AccessOf(w.log), holder)
    requires holder.Some? ==> if holder.value == c then state == Active else PhaseOf(w.log, holder.value) == In(Active)
    requires e.Enable? ==> !Released(w.log) && (w.vtBound ==> e.session == e.vt)
    requires e.Disable? ==> GivenUp(AccessOf(w.log), c)
    requires e.Leave? ==> w.clients[c].devices == []
    ensures History(Emit(Put(w, c, w.clients[c].(state := state, seated := seated)), e))
    ensures AccessOf(Then(w.log, e)) == AccessOf(w.log)
  {
    var r := w.clients[c].(state := state, seated := seated);
    hide SessionsOk, Sound, ClientOk, OnlyBy;
    LifeFacts(w, c);
    SameSessions(w, c, state, seated, e);
    if e.Leave? { NoDevicesNoAccess(w, c, None); }
    LifeEventSound(w.log, e, c, holder, w.vtBound);
    LifeEventKeeps(w, c, r, w.sessionCnt, e);
    assert Emit(Put(w, c, r).(sessionCnt := w.sessionCnt), e) == Emit(Put(w, c, r), e);
  }

  /** The holder of the seat is active by the log, too. */
  lemma HolderIsActive(w: World, out: set<ClientId>)
    requires Mid(w, out)
    ensures HolderActive(w.log, Holder(w))
  {
    if Holder(w).Some? {
      var c := w.active.value;
      assert RoleOk(w, c);
      LifeFacts(w, c);
    }
  }

  lemma MemberFacts(w: World, c: ClientId, out: set<ClientId>)
    requires Mid(w, out) && c in w.members
    ensures c in w.clients && w.clients[c].seated && RoleOk(w, c)
  {
  }

  // ----- opening a client -----

  /** The history does not mention the seat's lists and links. */
  lemma HistoryIgnoresLists(w: World, w1: World)
    requires History(w)
    requires w1 == w.(members := w1.members, idle := w1.idle, active := w1.active, next := w1.next)
    ensures History(w1)
  {
    forall x ensures ClientOk(w1, x) {
      assert ClientOk(w, x);
    }
  }

  /** w1 differs from w only in the record of c, the active client and the log. */
  ghost predicate ClientFrame(w: World, w1: World, c: ClientId) {
    && c in w.clients && c in w1.clients
    && w1 == w.(clients := w.clients[c := w1.clients[c]], active := w1.active, log := w1.log)
    && w1.clients[c].session == w.clients[c].session
    && w1.clients[c].seated == w.clients[c].seated
  }

  lemma RolesAfterOpen(w: World, w1: World, c: ClientId, out: set<ClientId>)
    requires Lists(w, out) && Roles(w, out)
    requires w.active == None && c in w.members
    requires ClientFrame(w, w1, c) && w1.active == Some(c) && w1.clients[c].state == Active
    ensures Lists(w1, out) && Roles(w1, out)
  {
    forall x | x in w1.clients && x !in out ensures RoleOk(w1, x) {
      assert RoleOk(w, x);
    }
  }

  lemma OpenClientHistory(w: World, c: ClientId, env: Env)
    requires c in w.clients && w.clients[c].session != -1
    requires w.clients[c].state == New || w.clients[c].state == Disabled
    requires w.clients[c].state == New ==> w.clients[c].devices == []
    requires History(w) && w.active == None && OnlyBy(AccessOf(w.log), None)
    requires w.vtBound ==> w.clients[c].session == w.curVt && w.curVt != -1 && env.vtOpens
    ensures var w1 := OpenClient(w, c, env).0;
      && History(w1) && ClientFrame(w, w1, c) && OnlyBy(AccessOf(w1.log), Some(c))
      && w1.active == Some(c) && w1.clients[c].state == Active
  {
    hide History, ActivateFrom;
    assert OnlyBy(AccessOf(w.log), Some(c));
    hide OnlyBy;
    LifeFacts(w, c);
    ActivateFromKeeps(w, c, 0);
    hide LifeMatches;
    var w1 := ActivateFrom(w, c, 0);
    assert !Released(w1.log) by { OpenSeatIsNotReleased(w1); }
    var e := Enable(c, w.clients[c].session, w.curVt);
    StateChangeKeeps(w1, c, Active, w1.clients[c].seated, e, Some(c));
    var w2 := Emit(Put(w1, c, w1.clients[c].(state := Active, seated := w1.clients[c].seated)), e);
    var w3 := OpenClient(w, c, env).0;
    assert w3 == w2.(active := Some(c));
    HistoryIgnoresLists(w2, w3);
  }

  lemma OpenSeatIsNotReleased(w: World)
    requires History(w) && (w.vtBound ==> w.curVt != -1)
    ensures !Released(w.log)
  {
  }

  /** seat_open_client on a free seat keeps the invariant, and always succeeds
      in making the client active unless its terminal cannot be opened. */
  lemma OpenClientKeeps(w: World, c: ClientId, env: Env, out: set<ClientId>)
    requires Mid(w, out) && w.active == None && c in w.members
    requires w.vtBound ==> w.clients[c].session == w.curVt && w.curVt != -1
    ensures var w1 := OpenClient(w, c, env).0;
      && Mid(w1, out) && ClientFrame(w, w1, c)
      && w1.active == if w.vtBound && !env.vtOpens then None else Some(c)
  {
    hide History;
    assert RoleOk(w, c);
    var w1 := OpenClient(w, c, env).0;
    if w.vtBound && !env.vtOpens {
      assert w1 == w;
      assert w.clients[c := w.clients[c]] == w.clients;
    } else {
      OpenClientHistory(w, c, env);
      RolesAfterOpen(w, w1, c, out);
    }
  }

  // ----- choosing the next client -----

  lemma {:induction false} FindSessionFinds(w: World, cs: seq<ClientId>, session: int)
    ensures match FindSession(w, cs, session)
      case None => forall i :: 0 <= i < |cs| ==> Get(w, cs[i]).session != session
      case Some(c) => c in cs && Get(w, c).session == session
  {
    if cs != [] && Get(w, cs[0]).session != session {
      FindSessionFinds(w, cs[1..], session);
      assert forall i :: 1 <= i < |cs| ==> cs[i] == cs[1..][i - 1];
    }
  }

  /** w1 differs from w only in who is active, who is queued, the log, and the
      state and devices of members. */
  ghost predicate SeatFrame(w: World, w1: World) {
    && w1 == w.(clients := w1.clients, active := w1.active, next := w1.next, log := w1.log)
    && w1.clients.Keys == w.clients.Keys
    && (forall x :: x in w.clients ==>
          && w1.clients[x].session == w.clients[x].session
          && w1.clients[x].seated == w.clients[x].seated
          && (x !in w.members ==> w1.clients[x] == w.clients[x]))
  }

  /** Nobody's session changed. */
  ghost predicate SessionsKept(w: World, w1: World) {
    forall x :: x in w.clients ==> x in w1.clients && w1.clients[x].session == w.clients[x].session
  }

  /** What seat_activate may find when the seat has just become free: a queued
      client is a member, and the seat is then not VT-bound. */
  ghost predicate Free(w: World, out: set<ClientId>) {
    && History(w) && Lists(w, out) && Roles(w, out)
    && OnlyBy(AccessOf(w.log), None)
    && w.active == None
    && (w.next.Some? ==> !w.vtBound && w.next.value in w.members)
  }

  /** Re-entrant activation restores the invariant, empties the queue, and on a
      seat that is not VT-bound finds somebody whenever there is a member. */
  lemma ActivateSeatKeeps(w: World, env: Env, out: set<ClientId>)
    requires Free(w, out)
    ensures var w1 := ActivateSeat(w, env).0;
      && Mid(w1, out) && SeatFrame(w, w1) && w1.next == None
      && w1.active == (if w.vtBound && !env.vtOpens then None else Candidate(w))
      && (!w.vtBound && w.members != [] ==> w1.active.Some?)
      && (w.next.Some? ==> w1.active == w.next)
  {
    hide History, OnlyBy, OpenClient, Lists, Roles, Mid, RoleOk, Without;
    CandidateIsMember(w, out);
    match Candidate(w) {
      case None => FreeIsMid(w, out);
      case Some(c) =>
        var w0 := w.(next := None);
        FreeIsMid(w0, out) by { HistoryIgnoresLists(w, w0); SameLists(w, w0, out); }
        OpenClientKeeps(w0, c, env, out);
        ClientFrameIsSeatFrame(w, w0, OpenClient(w0, c, env).0, c);
    }
  }

  lemma CandidateIsMember(w: World, out: set<ClientId>)
    requires Free(w, out)
    ensures match Candidate(w)
      case None => w.next == None && (w.members == [] || w.vtBound)
      case Some(c) => c in w.members && c in w.clients && (w.vtBound ==> w.next == None && w.clients[c].session == w.curVt != -1)
  {
    hide History, OnlyBy, Roles;
    if w.members != [] { assert w.members[0] in w.members; }
    FindSessionFinds(w, w.members, w.curVt);
  }

  lemma FreeIsMid(w: World, out: set<ClientId>)
    requires Free(w, out) && w.next == None
    ensures Mid(w, out)
  {
  }

  lemma SameLists(w: World, w1: World, out: set<ClientId>)
    requires Lists(w, out) && Roles(w, out) && w1 == w.(next := w1.next)
    ensures Lists(w1, out) && Roles(w1, out)
  {
    forall x | x in w1.clients && x !in out ensures RoleOk(w1, x) { assert RoleOk(w, x); }
  }

  lemma ClientFrameIsSeatFrame(w: World, w0: World, w1: World, c: ClientId)
    requires w0 == w.(next := None) && ClientFrame(w0, w1, c) && c in w.members
    ensures SeatFrame(w, w1)
  {
  }

  // ----- disabling -----

  lemma RolesAfterStateChange(w: World, w1: World, c: ClientId)
    requires Lists(w, {}) && Roles(w, {})
    requires c in w.members && ClientFrame(w, w1, c)
    requires w1.active == None || w1.active == w.active
    requires w.active == Some(c)
    requires w1.active == Some(c) ==> w1.clients[c].state == Active || w1.clients[c].state == PendingDisable
    requires w1.active == None ==> w1.clients[c].state == Disabled
    ensures Lists(w1, {}) && Roles(w1, {})
  {
    forall x | x in w1.clients ensures RoleOk(w1, x) {
      assert RoleOk(w, x);
    }
  }

  lemma NobodysIsGivenUp(g: Access, c: ClientId)
    requires OnlyBy(g, None)
    ensures GivenUp(g, c)
  {
  }

  lemma DisableHistory(w: World, c: ClientId, env: Env)
    requires c in w.clients && w.clients[c].session != -1 && w.clients[c].state == Active
    requires History(w) && OnlyBy(AccessOf(w.log), Some(c))
    ensures var w1 := DisableClient(w, c, env).0;
      && History(w1) && ClientFrame(w, w1, c) && OnlyBy(AccessOf(w1.log), None)
      && w1.active == w.active && w1.clients[c].state == PendingDisable
  {
    hide History, DeactivateFrom, OnlyBy;
    assert Surrendered(w, c, 0);
    LifeFacts(w, c);
    DeactivateFromKeeps(w, c, 0, env.revokeFails);
    var w1 := DeactivateFrom(w, c, 0, env.revokeFails);
    NobodysIsGivenUp(AccessOf(w1.log), c);
    StateChangeKeeps(w1, c, PendingDisable, w1.clients[c].seated, Disable(c), None);
    assert DisableClient(w, c, env).0
           == Emit(Put(w1, c, w1.clients[c].(state := PendingDisable, seated := w1.clients[c].seated)), Disable(c));
  }

  lemma DisableClientKeeps(w: World, c: ClientId, env: Env)
    requires History(w) && Lists(w, {}) && Roles(w, {})
    requires w.active == Some(c) && Get(w, c).state == Active && OnlyBy(AccessOf(w.log), Some(c))
    requires w.next.Some? ==>
      !w.vtBound && w.next.value in w.members && w.next != Some(c) && Get(w, w.next.value).session > 0
    ensures var w1 := DisableClient(w, c, env).0;
      && Mid(w1, {}) && ClientFrame(w, w1, c)
      && w1.active == Some(c) && w1.clients[c].state == PendingDisable
  {
    hide History, DisableClient, OnlyBy;
    assert RoleOk(w, c);
    DisableHistory(w, c, env);
    RolesAfterStateChange(w, DisableClient(w, c, env).0, c);
  }

  lemma AckHistory(w: World, c: ClientId)
    requires c in w.clients && w.clients[c].session != -1 && w.clients[c].state == PendingDisable
    requires History(w) && OnlyBy(AccessOf(w.log), None)
    ensures var w1 := Emit(SetState(w, c, Disabled), Ack(c)).(active := None);
      && History(w1) && ClientFrame(w, w1, c) && AccessOf(w1.log) == AccessOf(w.log)
  {
    hide History;
    StateChangeKeeps(w, c, Disabled, w.clients[c].seated, Ack(c), None);
    var w1 := Emit(SetState(w, c, Disabled), Ack(c));
    assert w1 == Emit(Put(w, c, w.clients[c].(state := Disabled, seated := w.clients[c].seated)), Ack(c));
    HistoryIgnoresLists(w1, w1.(active := None));
  }

  lemma AckFrees(w: World, c: ClientId)
    requires Inv(w) && c in w.members && w.clients[c].state == PendingDisable
    ensures w.active == Some(c)
    ensures Free(Emit(SetState(w, c, Disabled), Ack(c)).(active := None), {})
  {
    hide History, OnlyBy;
    assert RoleOk(w, c);
    AckHistory(w, c);
    RolesAfterStateChange(w, Emit(SetState(w, c, Disabled), Ack(c)).(active := None), c);
  }

  /** An accepted ack frees the seat, and the seat is handed on at once. */
  lemma AckDisableKeeps(w: World, c: ClientId, env: Env)
    requires Inv(w) && c in w.members
    ensures var w1 := AckDisable(w, c, env).0;
      && Inv(w1) && SeatFrame(w, w1)
      && (w.clients[c].state == PendingDisable && !w.vtBound ==> w1.active.Some?)
      && (w.clients[c].state == PendingDisable && w.next.Some? ==> w1.active == w.next && w1.next == None)
      && (w.clients[c].state != PendingDisable ==> w1 == w)
  {
    hide Mid, Free, ActivateSeat;
    MemberFacts(w, c, {});
    if w.clients[c].state == PendingDisable {
      AckFrees(w, c);
      ActivateSeatKeeps(Emit(SetState(w, c, Disabled), Ack(c)).(active := None), env, {});
    }
  }

  // ----- removal -----

  lemma DistinctCons(c: ClientId, cs: seq<ClientId>)
    requires Distinct(cs) && c !in cs
    ensures Distinct([c] + cs)
  {
  }

  lemma {:induction false} WithoutRemoves(cs: seq<ClientId>, c: ClientId)
    requires Distinct(cs)
    ensures Distinct(Without(cs, c))
    ensures forall x :: x in Without(cs, c) <==> x in cs && x != c
  {
    if cs != [] {
      var tail := cs[1..];
      assert cs == [cs[0]] + tail;
      assert forall i :: 0 <= i < |tail| ==> tail[i] == cs[i + 1] != cs[0];
      if cs[0] != c {
        WithoutRemoves(tail, c);
        DistinctCons(cs[0], Without(tail, c));
      }
    }
  }

  /** Removing a client from a list is what unlinking its node leaves of the ring. */
  lemma {:induction false} WithoutIsUnlinking(cs: seq<ClientId>, k: nat)
    requires Distinct(cs) && k < |cs|
    ensures Without(cs, cs[k]) == cs[..k] + cs[k + 1..]
  {
    if k > 0 {
      assert cs[0] != cs[k] && cs[1..][k - 1] == cs[k];
      WithoutIsUnlinking(cs[1..], k - 1);
      assert [cs[0]] + (cs[1..][..k - 1] + cs[1..][k..]) == cs[..k] + cs[k + 1..];
    }
  }

  lemma DetachHistory(w: World, c: ClientId, env: Env)
    requires Mid(w, {}) && c in w.members
    ensures var w1 := Detach(w, c, env);
      && History(w1) && OnlyBy(AccessOf(w1.log), Holder(w))
      && Unlinked(w, w1, c)
  {
    HolderIsActive(w, {});
    hide History, Roles, Teardown;
    var w0 := w.(next := if w.next == Some(c) then None else w.next, members := Without(w.members, c));
    HistoryIgnoresLists(w, w0);
    TeardownKeeps(w0, c, env.revokeFails, Holder(w));
  }

  /** A client without devices has no access but where a revoke failed. */
  lemma NoDevicesNoAccess(w: World, c: ClientId, holder: Option<ClientId>)
    requires History(w) && Get(w, c).devices == []
    ensures GivenUp(AccessOf(w.log), c)
    ensures holder == Some(c) && OnlyBy(AccessOf(w.log), holder) ==> OnlyBy(AccessOf(w.log), None)
  {
    hide History;
    TableFacts(w, c);
    assert forall f :: !HasActive([], f);
  }

  ghost predicate Unlinked(w: World, w1: World, c: ClientId) {
    && c in w.clients && c in w1.clients && w1.clients[c] == w.clients[c].(devices := [])
    && w1 == w.(clients := w.clients[c := w1.clients[c]], log := w1.log,
                next := if w.next == Some(c) then None else w.next, members := Without(w.members, c))
  }

  lemma DetachLists(w: World, w1: World, c: ClientId)
    requires Lists(w, {}) && Roles(w, {}) && c in w.members && Unlinked(w, w1, c)
    ensures var w2 := if w1.active == Some(c) then w1.(active := None) else w1;
      Lists(w2, {c}) && Roles(w2, {c})
  {
    WithoutRemoves(w.members, c);
    var w2 := if w1.active == Some(c) then w1.(active := None) else w1;
    forall x | x in w2.clients && x != c ensures RoleOk(w2, x) { assert RoleOk(w, x); }
  }

  lemma DetachShape(w: World, w1: World, c: ClientId)
    requires Lists(w, {}) && Roles(w, {}) && QueueOk(w) && c in w.members && Unlinked(w, w1, c)
    ensures var w2 := if w1.active == Some(c) then w1.(active := None) else w1;
      && Lists(w2, {c}) && Roles(w2, {c})
      && (w2.active == None && w2.next.Some? ==> !w2.vtBound && w2.next.value in w2.members)
      && (w.active != Some(c) ==> QueueOk(w2) && Holder(w2) == Holder(w))
  {
    hide Roles;
    DetachLists(w, w1, c);
    WithoutRemoves(w.members, c);
  }

  /** After the removal of c only c's closed record is left, on no list. */
  ghost predicate Removed(w: World, c: ClientId) {
    && Mid(w, {c}) && c in w.clients && c < w.nextId
    && !w.clients[c].seated && w.clients[c].state == Closed && RoleOk(w, c)
  }

  lemma MarkClosedKeeps(w: World, c: ClientId)
    requires Mid(w, {c}) && c in w.clients
    requires w.clients[c].session != -1 && w.clients[c].state != Closed && w.clients[c].devices == []
    ensures Removed(MarkClosed(w, c), c)
    ensures MarkClosed(w, c).active == w.active
  {
    HolderIsActive(w, {c});
    assert Holder(w) != Some(c);
    hide History, OnlyBy;
    StateChangeKeeps(w, c, Closed, false, Leave(c), Holder(w));
    var w1 := MarkClosed(w, c);
    ClosedShape(w, w1, c);
    hide Lists, Roles, QueueOk;
    assert AccessOf(w1.log) == AccessOf(w.log);
  }

  lemma ClosedShape(w: World, w1: World, c: ClientId)
    requires Lists(w, {c}) && Roles(w, {c}) && QueueOk(w) && c in w.clients
    requires w.clients[c].session != -1 && w.clients[c].devices == []
    requires w1 == w.(clients := w.clients[c := w.clients[c].(state := Closed, seated := false)], log := w1.log)
    ensures Lists(w1, {c}) && Roles(w1, {c}) && QueueOk(w1) && Holder(w1) == Holder(w)
    ensures RoleOk(w1, c) && c < w1.nextId
  {
    forall x | x in w1.clients && x != c ensures RoleOk(w1, x) { assert RoleOk(w, x); }
  }

  lemma DetachKeeps(w: World, c: ClientId, env: Env)
    requires Inv(w) && c in w.members
    ensures var w1 := Detach(w, c, env);
      && Unlinked(w, w1, c)
      && (if w.active == Some(c) then Free(w1.(active := None), {c}) else Mid(w1, {c}))
  {
    hide Detach, History, OnlyBy, Roles, Lists;
    var w1 := Detach(w, c, env);
    DetachHistory(w, c, env);
    DetachShape(w, w1, c);
    if w.active == Some(c) {
      HistoryIgnoresLists(w1, w1.(active := None));
      NoDevicesNoAccess(w1, c, Holder(w));
    }
  }

  /** seat_remove_client up to the point where the seat has been handed on */
  lemma HandoverKeeps(w: World, c: ClientId, env: Env)
    requires Inv(w) && c in w.members
    ensures var w1 := Detach(w, c, env);
      var w2 := if w1.active == Some(c) then ActivateSeat(w1.(active := None), env).0 else w1;
      && Mid(w2, {c}) && c in w2.clients && w2.clients[c] == w.clients[c].(devices := [])
      && w2 == w.(clients := w2.clients, active := w2.active, next := w2.next, log := w2.log, members := Without(w.members, c))
      && (!w.vtBound && w2.members != [] && w.active.Some? ==> w2.active.Some?)
      && (w.active == Some(c) && w.next.Some? ==> w2.active == w.next)
      && w2.next == (if w.active == Some(c) || w.next == Some(c) then None else w.next)
      && (w.active != Some(c) ==> w2.active == w.active)
      && SessionsKept(w, w2)
  {
    assert w.next != Some(c) || w.active != Some(c);
    WithoutRemoves(w.members, c);
    hide Mid, Free, Detach, ActivateSeat, Without, SessionsKept;
    DetachKeeps(w, c, env);
    var w1 := Detach(w, c, env);
    if w.active == Some(c) {
      ActivateSeatKeeps(w1.(active := None), env, {c});
      HandoverSessions(w, w1, ActivateSeat(w1.(active := None), env).0, c);
    } else {
      UnlinkedSessions(w, w1, c);
    }
  }

  lemma UnlinkedSessions(w: World, w1: World, c: ClientId)
    requires Unlinked(w, w1, c)
    ensures SessionsKept(w, w1)
  {
  }

  lemma HandoverSessions(w: World, w1: World, w2: World, c: ClientId)
    requires Unlinked(w, w1, c) && SeatFrame(w1.(active := None), w2)
    ensures SessionsKept(w, w2)
  {
  }

  lemma RemoveClientKeeps(w: World, c: ClientId, env: Env)
    requires Inv(w) && c in w.members
    ensures var w1 := RemoveClient(w, c, env);
      && Removed(w1, c)
      && w1 == w.(clients := w1.clients, active := w1.active, next := w1.next, log := w1.log, members := Without(w.members, c))
      && (!w.vtBound && w1.members != [] && w.active.Some? ==> w1.active.Some?)
      && (w.active == Some(c) && w.next.Some? ==> w1.active == w.next)
      && w1.next == (if w.active == Some(c) || w.next == Some(c) then None else w.next)
      && (w.active != Some(c) ==> w1.active == w.active)
      && SessionsKept(w, w1)
  {
    hide Mid, Detach, ActivateSeat, Removed;
    MemberFacts(w, c, {});
    HandoverKeeps(w, c, env);
    var w1 := Detach(w, c, env);
    var w2 := if w1.active == Some(c) then ActivateSeat(w1.(active := None), env).0 else w1;
    MarkClosedKeeps(w2, c);
  }

  // ----- event boundaries -----

  /** A seat that is not VT-bound never idles while it has a member. */
  ghost predicate NoIdle(w: World) {
    !w.vtBound && w.members != [] ==> w.active.Some?
  }

  /** The invariant at event boundaries. */
  ghost predicate Settled(w: World) {
    Inv(w) && NoIdle(w)
  }

  /** Settled, but for client c, which may be about to be destroyed. */
  ghost predicate SettledBut(w: World, c: ClientId) {
    && Inv(w) && c in w.clients
    && (!w.vtBound && Without(w.members, c) != [] ==> w.active.Some?)
  }

  lemma SettledIsSettledBut(w: World, c: ClientId)
    requires Settled(w) && c in w.clients
    ensures SettledBut(w, c)
  {
  }

  lemma ForgetHistory(w: World, c: ClientId)
    requires History(w) && c in w.clients && w.clients[c].devices == [] && c < w.nextId
    requires w.clients[c].session == -1 || w.clients[c].state == Closed
    ensures History(w.(clients := w.clients - {c}))
  {
    var w1 := w.(clients := w.clients - {c});
    forall x ensures ClientOk(w1, x) {
      assert ClientOk(w, x);
    }
  }

  lemma ForgetShape(w: World, w1: World, c: ClientId, out: set<ClientId>)
    requires Lists(w, out) && Roles(w, out) && c in w.clients && !w.clients[c].seated
    requires out == {c} || (out == {} && c in w.idle)
    requires w1 == w.(clients := w.clients - {c}, idle := Without(w.idle, c))
    ensures Lists(w1, {}) && Roles(w1, {}) && c !in w.members
    ensures w.active.Some? ==> w.active.value in w.members
  {
    WithoutRemoves(w.idle, c);
    forall x | x in w1.clients ensures RoleOk(w1, x) { assert RoleOk(w, x); }
  }

  lemma ForgetKeeps(w: World, c: ClientId, out: set<ClientId>)
    requires Mid(w, out) && c in w.clients && !w.clients[c].seated && RoleOk(w, c) && c < w.nextId
    requires out == {c} || (out == {} && c in w.idle)
    ensures Inv(w.(clients := w.clients - {c}, idle := Without(w.idle, c)))
  {
    hide History, OnlyBy, Lists, Roles;
    var w0 := w.(clients := w.clients - {c});
    var w1 := w0.(idle := Without(w.idle, c));
    ForgetHistory(w, c);
    HistoryIgnoresLists(w0, w1);
    ForgetShape(w, w1, c, out);
    LinksSurvive(w, w1, c);
  }

  lemma LinksSurvive(w: World, w1: World, c: ClientId)
    requires w1 == w.(clients := w.clients - {c}, idle := w1.idle)
    requires QueueOk(w) && c !in w.members && (w.active.Some? ==> w.active.value in w.members)
    ensures QueueOk(w1) && Holder(w1) == Holder(w)
  {
  }

  lemma DestroyKeeps(w: World, c: ClientId, env: Env)
    requires SettledBut(w, c)
    ensures Settled(Destroy(w, c, env))
    ensures c !in Destroy(w, c, env).clients
    ensures Destroy(w, c, env).vtBound == w.vtBound
  {
    if w.clients[c].seated {
      assert c in w.members;
      hide Mid, RemoveClient;
      RemoveClientKeeps(w, c, env);
      ForgetKeeps(RemoveClient(w, c, env), c, {c});
    } else {
      assert c in w.idle && RoleOk(w, c);
      NotAMember(w, c);
      ForgetKeeps(w, c, {});
    }
  }

  lemma NotAMember(w: World, c: ClientId)
    requires Inv(w) && c !in w.members
    ensures Without(w.members, c) == w.members
  {
    WithoutNothing(w.members, c);
  }

  lemma {:induction false} WithoutNothing(cs: seq<ClientId>, c: ClientId)
    requires c !in cs
    ensures Without(cs, c) == cs
  {
    if cs != [] { WithoutNothing(cs[1..], c); }
  }

  lemma CloseSeatKeeps(w: World, c: ClientId, env: Env)
    requires Settled(w) && c in w.members
    ensures var w1 := HandleCloseSeat(w, c, env).0;
      && Settled(w1) && w1.vtBound == w.vtBound
      && c in w1.idle && c in w1.clients && w1.clients[c].state == Closed && w1.clients[c].devices == []
  {
    hide Mid, RemoveClient;
    MemberFacts(w, c, {});
    RemoveClientKeeps(w, c, env);
    ParkKeeps(RemoveClient(w, c, env), c);
  }

  lemma ParkKeeps(w: World, c: ClientId)
    requires Removed(w, c)
    ensures Inv(w.(idle := [c] + w.idle))
  {
    hide History, OnlyBy;
    var w1 := w.(idle := [c] + w.idle);
    HistoryIgnoresLists(w, w1);
    forall x | x in w1.clients ensures RoleOk(w1, x) { assert RoleOk(w, x); }
  }

  // ----- joining -----

  lemma {:induction false} JoinedBelowMonotone(t: Trace, m: int, n: int)
    requires JoinedBelow(t, m) && m <= n
    ensures JoinedBelow(t, n)
  {
    if t.Then? { JoinedBelowMonotone(t.before, m, n); }
  }

  lemma JoinSessions(w: World, c: ClientId, session: int, cnt: int)
    requires c in w.clients && SessionsOk(w) && w.clients[c].session == -1
    requires !w.vtBound ==> session == w.sessionCnt && cnt == session + 1
    ensures SessionsOk(Emit(Put(w, c, w.clients[c].(session := session, seated := true)).(sessionCnt := cnt), Join(c, session)))
  {
    if !w.vtBound { JoinedBelowMonotone(w.log, w.sessionCnt, cnt); }
  }

  lemma JoinHistory(w: World, c: ClientId, session: int, cnt: int, holder: Option<ClientId>)
    requires c in w.clients && History(w)
    requires w.clients[c].session == -1 && w.clients[c].state == New && session != -1
    requires !w.vtBound ==> session == w.sessionCnt && cnt == session + 1
    requires HolderActive(w.log, holder)
    ensures History(Seat(w.(sessionCnt := cnt), c, session))
    ensures AccessOf(Then(w.log, Join(c, session))) == AccessOf(w.log)
  {
    hide ClientOk, Sound;
    var e := Join(c, session);
    var r := w.clients[c].(session := session, seated := true);
    LifeFacts(w, c);
    LifeEventSound(w.log, e, c, holder, w.vtBound);
    JoinSessions(w, c, session, cnt);
    LifeEventKeeps(w, c, r, cnt, e);
    HistoryIgnoresLists(Emit(Put(w, c, r).(sessionCnt := cnt), e), Seat(w.(sessionCnt := cnt), c, session));
  }

  lemma JoinShape(w: World, w1: World, c: ClientId)
    requires Lists(w, {}) && Roles(w, {}) && QueueOk(w) && c in w.idle && w.clients[c].session == -1
    requires c in w1.clients && w1.clients[c] == w.clients[c].(session := w1.clients[c].session, seated := true)
    requires w1.clients[c].session != -1
    requires w1 == w.(clients := w.clients[c := w1.clients[c]], idle := Without(w.idle, c), members := [c] + w.members,
                      sessionCnt := w1.sessionCnt, log := w1.log)
    ensures Lists(w1, {}) && Roles(w1, {}) && QueueOk(w1) && Holder(w1) == Holder(w)
  {
    assert RoleOk(w, c);
    WithoutRemoves(w.idle, c);
    forall x | x in w1.clients ensures RoleOk(w1, x) { assert RoleOk(w, x); }
  }

  lemma JoinKeeps(w: World, c: ClientId, session: int, cnt: int)
    requires Inv(w) && c in w.idle && w.clients[c].session == -1 && session != -1
    requires !w.vtBound ==> session == w.sessionCnt && cnt == session + 1
    ensures Inv(Seat(w.(sessionCnt := cnt), c, session))
  {
    HolderIsActive(w, {});
    hide History, OnlyBy;
    assert RoleOk(w, c);
    JoinHistory(w, c, session, cnt, Holder(w));
    var w1 := Seat(w.(sessionCnt := cnt), c, session);
    hide Lists, Roles;
    JoinShape(w, w1, c);
    assert AccessOf(w1.log) == AccessOf(w.log);
  }

  lemma QuerySound(t: Trace, vt: int, holder: Option<ClientId>, vtBound: bool)
    requires Sound(t, vtBound) && HolderActive(t, holder)
    ensures Sound(Then(t, VtQuery(vt)), vtBound)
  {
    hide Sound;
    SoundThen(t, VtQuery(vt), holder, vtBound);
  }

  lemma SessionsIgnoreVt(w: World, w1: World)
    requires SessionsOk(w) && w1 == w.(curVt := w1.curVt, log := w1.log)
    requires forall n :: JoinedBelow(w.log, n) ==> JoinedBelow(w1.log, n)
    ensures SessionsOk(w1)
  {
  }

  /** From t to t1 nothing happened to clients and devices. */
  ghost predicate Quiet(t: Trace, t1: Trace) {
    && AccessOf(t1) == AccessOf(t) && (forall f :: OpenedAs(t1, f) == OpenedAs(t, f))
    && (forall x :: PhaseOf(t1, x) == PhaseOf(t, x)) && (forall x, p :: Balance(t1, x, p) == Balance(t, x, p))
    && (forall n :: FilesBelow(t, n) ==> FilesBelow(t1, n)) && (forall n :: JoinedBelow(t, n) ==> JoinedBelow(t1, n))
  }

  lemma QuietKeeps(w: World, w1: World)
    requires History(w) && w1 == w.(curVt := w1.curVt, log := w1.log)
    requires Quiet(w.log, w1.log) && Sound(w1.log, w1.vtBound)
    requires Released(w1.log) ==> w1.vtBound && w1.curVt == -1
    ensures History(w1)
  {
    hide Sound, SessionsOk, AccessOf, OpenedAs, PhaseOf, Balance, FilesBelow, JoinedBelow, Released, TableOk, TableBelow, AccessMatches;
    assert SessionsOk(w1) by { SessionsIgnoreVt(w, w1); }
    forall x ensures ClientOk(w1, x) { assert ClientOk(w, x); }
  }

  lemma VtEventIsQuiet(t: Trace, e: Event)
    requires e.VtQuery? || e.VtRelease?
    ensures Quiet(t, Then(t, e))
  {
  }

  lemma UpdateVtHistory(w: World, env: Env, holder: Option<ClientId>)
    requires History(w) && HolderActive(w.log, holder)
    ensures History(UpdateVt(w, env))
    ensures AccessOf(UpdateVt(w, env).log) == AccessOf(w.log)
  {
    if env.vtQuery.Some? {
      var w1 := UpdateVt(w, env);
      QuerySound(w.log, w1.curVt, holder, w.vtBound);
      VtEventIsQuiet(w.log, w1.log.event);
      assert Released(w1.log) ==> w1.vtBound && w1.curVt == -1;
      hide History, Sound;
      QuietKeeps(w, w1);
    }
  }

  lemma UpdateVtKeeps(w: World, env: Env)
    requires Inv(w)
    ensures Inv(UpdateVt(w, env))
  {
    HolderIsActive(w, {});
    hide History, OnlyBy;
    UpdateVtHistory(w, env, Holder(w));
    var w1 := UpdateVt(w, env);
    forall x | x in w1.clients ensures RoleOk(w1, x) { assert RoleOk(w, x); }
  }

  /** seat_add_client keeps the invariant, and only a client that never joined gets in. */
  lemma AddClientKeeps(w: World, c: ClientId, env: Env)
    requires Inv(w) && c in w.clients
    ensures var (w1, ok) := AddClient(w, c, env);
      && Inv(w1) && w1.active == w.active && w1.next == w.next && w1.vtBound == w.vtBound && c in w1.clients
      && (ok ==> w1.members == [c] + w.members && w.clients[c].session == -1)
      && (ok && w.vtBound ==> w1.clients[c].session == w1.curVt && w1.curVt != -1)
      && (!ok ==> w1.members == w.members)
  {
    hide Mid;
    ClientFacts(w, c);
    if !w.clients[c].seated && w.clients[c].session == -1 {
      UpdateVtKeeps(w, env);
      var w1 := UpdateVt(w, env);
      if w.vtBound && w1.curVt != -1 {
        JoinKeeps(w1, c, w1.curVt, w1.sessionCnt);
        assert w1.(sessionCnt := w1.sessionCnt) == w1;
      } else if !w.vtBound {
        CountIsNatural(w);
        JoinKeeps(w, c, w.sessionCnt, w.sessionCnt + 1);
      }
    }
  }

  lemma CountIsNatural(w: World)
    requires Inv(w)
    ensures !w.vtBound ==> w.sessionCnt >= 0
  {
  }

  lemma ClientFacts(w: World, c: ClientId)
    requires Inv(w) && c in w.clients
    ensures RoleOk(w, c)
    ensures if w.clients[c].seated then c in w.members else c in w.idle && c !in w.members
  {
  }

  // ----- requests -----

  lemma OpenSeatKeeps(w: World, c: ClientId, env: Env)
    requires Settled(w) && c in w.clients
    ensures var (w1, ok) := HandleOpenSeat(w, c, env);
      SettledBut(w1, c) && (ok ==> Settled(w1)) && w1.vtBound == w.vtBound
  {
    hide Mid, AddClient, OpenClient;
    ClientFacts(w, c);
    AddClientKeeps(w, c, env);
    var (w1, ok) := AddClient(w, c, env);
    SettledIsSettledBut(w, c);
    if ok {
      MemberFacts(w1, c, {});
      assert Without([c] + w.members, c) == w.members;
      if env.replies {
        if w1.active.Some? {
          BusySeatRefuses(w1, c, env);
        } else {
          OpenClientKeeps(w1, c, env, {});
        }
      }
    }
  }

  lemma BusySeatRefuses(w: World, c: ClientId, env: Env)
    requires w.active.Some?
    ensures OpenClient(w, c, env) == (w, false)
  {
  }

  lemma DeviceWorkKeeps(w: World, w1: World, c: ClientId)
    requires Inv(w) && DeviceFrame(w.(nextFile := w1.nextFile), w1, c) && History(w1)
    requires w.clients[c].seated && (w.clients[c].state == New ==> w1.clients[c].devices == [])
    requires OnlyBy(AccessOf(w1.log), Holder(w))
    ensures Inv(w1)
  {
    hide History, OnlyBy;
    forall x | x in w1.clients ensures RoleOk(w1, x) { assert RoleOk(w, x); }
  }

  lemma CloseDeviceKeeps(w: World, c: ClientId, k: nat, env: Env)
    requires Settled(w) && c in w.members && k < |w.clients[c].devices|
    ensures Settled(CloseNth(w, c, k, env.revokeFails))
    ensures var w1 := CloseNth(w, c, k, env.revokeFails);
      w1.vtBound == w.vtBound && w1.active == w.active && w1.next == w.next && w1.members == w.members && SessionsKept(w, w1)
    ensures c in CloseNth(w, c, k, env.revokeFails).clients
  {
    HolderIsActive(w, {});
    hide History, OnlyBy, CloseNth;
    assert RoleOk(w, c);
    CloseNthKeeps(w, c, k, env.revokeFails, Holder(w));
    DeviceWorkKeeps(w, CloseNth(w, c, k, env.revokeFails), c);
  }

  /** seat_open_device: only the holder of the seat gets past the first check. */
  lemma OpenDeviceOnKeeps(w: World, c: ClientId, env: Env)
    requires Settled(w) && c in w.members
    ensures var (w1, device) := OpenDeviceOn(w, c, env);
      && Settled(w1) && w1.vtBound == w.vtBound && c in w1.members && c in w1.clients
      && w1.active == w.active && w1.next == w.next && w1.members == w.members && SessionsKept(w, w1)
      && (device.Some? ==> w1.clients[c].devices != [])
      && (w1 != w ==> Holder(w) == Some(c))
  {
    hide History, OnlyBy;
    assert RoleOk(w, c);
    if w.clients[c].state == Active {
      hide OpenDeviceOn;
      OpenDeviceKeeps(w, c, env);
      DeviceWorkKeeps(w, OpenDeviceOn(w, c, env).0, c);
    }
  }

  lemma HandleOpenDeviceKeeps(w: World, c: ClientId, env: Env)
    requires Settled(w) && c in w.members
    ensures var w1 := HandleOpenDevice(w, c, env).0;
      && Settled(w1) && c in w1.clients && w1.vtBound == w.vtBound && w1.active == w.active && w1.next == w.next
      && w1.members == w.members && SessionsKept(w, w1)
  {
    hide Mid, OpenDeviceOn, CloseNth;
    OpenDeviceOnKeeps(w, c, env);
    var (w1, device) := OpenDeviceOn(w, c, env);
    if device.Some? && !env.dups {
      CloseDeviceKeeps(w1, c, 0, env);
    }
  }

  /** A switch to another member queues it and starts the disable handshake. */
  lemma SetNextSessionKeeps(w: World, c: ClientId, session: int, env: Env)
    requires Settled(w) && c in w.members
    ensures var w1 := SetNextSession(w, c, session, env).0;
      && Settled(w1) && c in w1.clients && w1.vtBound == w.vtBound
      && w1.members == w.members && SessionsKept(w, w1)
  {
    hide History, OnlyBy, DisableClient;
    assert RoleOk(w, c);
    if w.clients[c].state == Active && 0 < session != w.clients[c].session && w.next == None && !w.vtBound {
      FindSessionFinds(w, w.members, session);
      var target := FindSession(w, w.members, session);
      if target.Some? {
        var w0 := w.(next := target);
        HistoryIgnoresLists(w, w0);
        forall x | x in w0.clients ensures RoleOk(w0, x) { assert RoleOk(w, x); }
        DisableClientKeeps(w0, c, env);
      }
    }
  }

  lemma HandleKeeps(w: World, c: ClientId, request: Request, env: Env)
    requires Settled(w) && c in w.clients
    ensures var (w1, ok) := Handle(w, c, request, env);
      SettledBut(w1, c) && (ok ==> Settled(w1)) && w1.vtBound == w.vtBound
  {
    hide Mid, HandleOpenSeat, OpenDeviceOn, CloseNth, SetNextSession, AckDisable, RemoveClient;
    ClientFacts(w, c);
    SettledIsSettledBut(w, c);
    var (w1, ok) := Handle(w, c, request, env);
    if request.OpenSeat? {
      OpenSeatKeeps(w, c, env);
    } else if w.clients[c].seated {
      match request {
        case CloseSeat => CloseSeatKeeps(w, c, env);
        case OpenDevice(_) => HandleOpenDeviceKeeps(w, c, env);
        case CloseDevice(id) =>
          var k := FindDevice(w.clients[c].devices, id);
          if k.Some? { CloseDeviceKeeps(w, c, k.value, env); }
        case DisableSeat => AckDisableKeeps(w, c, env);
        case SwitchSession(session) => SetNextSessionKeeps(w, c, session, env);
        case Ping =>
      }
      SettledIsSettledBut(w1, c);
    }
  }

  // ----- VT signals -----

  lemma VtActivateKeeps(w: World, env: Env)
    requires Settled(w)
    ensures Settled(VtActivate(w, env))
    ensures VtActivate(w, env).vtBound == w.vtBound
  {
    if w.vtBound {
      hide History, OnlyBy, UpdateVt, ActivateSeat;
      UpdateVtKeeps(w, env);
      var w1 := UpdateVt(w, env);
      assert w1.active == w.active && w1.vtBound by { UpdateVtFrame(w, env); }
      if w1.active == None {
        ActivateSeatKeeps(w1, env, {});
      }
    }
  }

  lemma UpdateVtFrame(w: World, env: Env)
    ensures UpdateVt(w, env) == w.(curVt := UpdateVt(w, env).curVt, log := UpdateVt(w, env).log)
  {
  }

  lemma ReleaseSound(w: World)
    requires Inv(w) && w.vtBound && Holder(w) == None
    ensures Sound(Then(w.log, VtRelease), w.vtBound)
  {
    var t := Then(w.log, VtRelease);
    assert Entitled(t, None);
    EntitledFacts(t, None);
    hide Exclusive, WantedByHolder, ClientOk, SessionsOk, Entitled;
    forall x ensures PhaseOf(t, x) != In(Active) {
      assert LifeMatches(w, x) by { LifeFacts(w, x); }
      if x in w.clients { assert RoleOk(w, x); }
    }
  }

  lemma ReleaseHistory(w: World)
    requires Inv(w) && w.vtBound && Holder(w) == None
    ensures History(Emit(w.(curVt := -1), VtRelease))
    ensures AccessOf(Then(w.log, VtRelease)) == AccessOf(w.log)
  {
    hide History, Sound, Lists, Roles, QueueOk, OnlyBy;
    ReleaseSound(w);
    VtEventIsQuiet(w.log, VtRelease);
    QuietKeeps(w, Emit(w.(curVt := -1), VtRelease));
  }

  lemma ReleaseKeeps(w: World)
    requires Inv(w) && w.vtBound && Holder(w) == None
    ensures Inv(Emit(w.(curVt := -1), VtRelease))
  {
    hide History, OnlyBy;
    ReleaseHistory(w);
    var w1 := Emit(w.(curVt := -1), VtRelease);
    forall x | x in w1.clients ensures RoleOk(w1, x) { assert RoleOk(w, x); }
  }

  /** After the disable of seat_vt_release nobody holds the seat. */
  lemma VtReleaseDisables(w: World, env: Env)
    requires Inv(w) && w.vtBound && w.active.Some?
    ensures var w1 := DisableClient(w, w.active.value, env).0;
      Inv(w1) && w1.vtBound && Holder(w1) == None
  {
    hide History, OnlyBy;
    var c := w.active.value;
    assert RoleOk(w, c);
    if Get(w, c).state == Active {
      DisableClientKeeps(w, c, env);
    }
  }

  lemma VtReleaseKeeps(w: World, env: Env)
    requires Settled(w)
    ensures Settled(VtReleaseSeat(w, env))
    ensures VtReleaseSeat(w, env).vtBound == w.vtBound
  {
    if w.vtBound {
      hide Mid, UpdateVt, DisableClient;
      UpdateVtKeeps(w, env);
      var w1 := UpdateVt(w, env);
      assert w1.active == w.active && w1.vtBound by { UpdateVtFrame(w, env); }
      if w1.active.Some? {
        VtReleaseDisables(w1, env);
        ReleaseKeeps(DisableClient(w1, w1.active.value, env).0);
      } else {
        ReleaseKeeps(w1);
      }
    }
  }

  lemma ConnectHistory(w: World)
    requires Inv(w)
    ensures History(ConnectClient(w))
  {
    var w1 := ConnectClient(w);
    var c := w.nextId;
    assert c !in w.clients;
    forall x ensures ClientOk(w1, x) { assert ClientOk(w, x); }
  }

  lemma ConnectKeeps(w: World)
    requires Settled(w)
    ensures Settled(ConnectClient(w))
    ensures ConnectClient(w).vtBound == w.vtBound
  {
    hide History, OnlyBy;
    ConnectHistory(w);
    var w1 := ConnectClient(w);
    assert w.nextId !in w.clients;
    assert Holder(w1) == Holder(w);
    forall x | x in w1.clients ensures RoleOk(w1, x) {
      if x in w.clients { assert RoleOk(w, x); }
    }
  }

  // ----- every step, every run -----

  lemma StepKeeps(w: World, input: Input)
    requires Settled(w)
    ensures Settled(Step(w, input))
    ensures Step(w, input).vtBound == w.vtBound
  {
    hide Settled, SettledBut, Handle, Destroy, VtActivate, VtReleaseSeat, ConnectClient;
    match input {
      case Connect => ConnectKeeps(w);
      case Message(c, request, env, fin) =>
        if c in w.clients {
          HandleKeeps(w, c, request, env);
          var (w1, ok) := Handle(w, c, request, env);
          if !(ok && env.flushes) { DestroyKeeps(w1, c, fin); }
        }
      case Disconnect(c, env) =>
        if c in w.clients {
          SettledIsSettledBut(w, c);
          DestroyKeeps(w, c, env);
        }
      case VtAcquired(env) => VtActivateKeeps(w, env);
      case VtReleased(env) => VtReleaseKeeps(w, env);
    }
  }

  lemma InitSettled(vtBound: bool)
    ensures Settled(Init(vtBound))
  {
  }

  /** The invariant holds in every state the daemon can reach. */
  lemma {:induction false} AlwaysSettled(vtBound: bool, inputs: seq<Input>)
    ensures Settled(Run(Init(vtBound), inputs))
    ensures Run(Init(vtBound), inputs).vtBound == vtBound
  {
    hide Settled, Step;
    if inputs == [] {
      InitSettled(vtBound);
    } else {
      AlwaysSettled(vtBound, inputs[..|inputs| - 1]);
      StepKeeps(Run(Init(vtBound), inputs[..|inputs| - 1]), inputs[|inputs| - 1]);
    }
  }
}
