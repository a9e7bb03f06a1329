/**
 What the daemon guarantees in every run, for any kernel and client behaviour.
 Each theorem is about `Run(Init(vtBound), inputs)` for arbitrary inputs, or
 about a step from a state that satisfies the invariant `Settled`.
 */
module SeatTheorems {
  import opened Logs
  import opened Options
  import opened SeatModel
  import opened SeatTrace
  import opened SeatInvariant
  import opened SeatSafety
  import opened Sequences

  // ----- exclusive device access -----

  /** The last event that concerns client c's access to file f */
  function LastAbout(t: Trace, c: ClientId, f: nat): Option<Event> {
    match t
    case Start => None
    case Then(before, e) =>
      if (e.Grant? || e.Revoke? || e.Unmark?) && e.client == c && e.file == f then Some(e) else LastAbout(before, c, f)
  }

  /** The last attempt to take file f from client c failed. */
  predicate RevokeFailed(t: Trace, c: ClientId, f: nat) {
    LastAbout(t, c, f) == Some(Revoke(c, f, false))
  }

  /** File f was to be taken from client c, but is of a kind that nothing takes away. */
  predicate OnlyUnmarked(t: Trace, c: ClientId, f: nat) {
    LastAbout(t, c, f) == Some(Unmark(c, f))
  }

  /** File f was to be taken from client c and was not. */
  predicate NotTaken(t: Trace, c: ClientId, f: nat) {
    RevokeFailed(t, c, f) || OnlyUnmarked(t, c, f)
  }

  predicate NoRevokeFails(t: Trace) {
    t.Then? ==> (t.event.Revoke? ==> t.event.ok) && NoRevokeFails(t.before)
  }

  /** Access is wanted exactly after a grant, and otherwise left exactly after a
      failed revoke, or where there was none to try. */
  lemma {:induction false} AccessFromLastEvent(t: Trace, c: ClientId, f: nat)
    ensures (c, f) in AccessOf(t) && AccessOf(t)[(c, f)] == Wanted <==>
            LastAbout(t, c, f).Some? && LastAbout(t, c, f).value.Grant?
    ensures (c, f) in AccessOf(t) && AccessOf(t)[(c, f)] == Stuck <==> RevokeFailed(t, c, f)
    ensures (c, f) in AccessOf(t) && AccessOf(t)[(c, f)] == Kept <==> OnlyUnmarked(t, c, f)
  {
    if t.Then? { AccessFromLastEvent(t.before, c, f); }
  }

  lemma {:induction false} NoFailureNoLinger(t: Trace, c: ClientId, f: nat)
    requires NoRevokeFails(t)
    ensures !RevokeFailed(t, c, f)
  {
    if t.Then? { NoFailureNoLinger(t.before, c, f); }
  }

  /** At every point of every run, also inside a handover and after devices were
      closed and clients left, two clients have access together only if one of the
      files was to be taken away and was not. */
  lemma ExclusiveAccess(vtBound: bool, inputs: seq<Input>, p: Trace, c1: ClientId, f1: nat, c2: ClientId, f2: nat)
    requires PrefixOf(p, Run(Init(vtBound), inputs).log)
    requires (c1, f1) in AccessOf(p) && (c2, f2) in AccessOf(p) && c1 != c2
    ensures NotTaken(p, c1, f1) || NotTaken(p, c2, f2)
  {
    AlwaysSettled(vtBound, inputs);
    SoundPrefix(p, Run(Init(vtBound), inputs).log, vtBound);
    assert p.Then? && Exclusive(AccessOf(p));
    AccessFromLastEvent(p, c1, f1);
    AccessFromLastEvent(p, c2, f2);
  }

  /** At every point of every run, access that is not left over belongs to a client
      that holds the seat, or is getting its devices back to take it. */
  lemma OnlyTheHolderHasAccess(vtBound: bool, inputs: seq<Input>, p: Trace, c: ClientId, f: nat)
    requires PrefixOf(p, Run(Init(vtBound), inputs).log) && (c, f) in AccessOf(p)
    ensures HoldsOrTakes(p, c) || NotTaken(p, c, f)
  {
    AlwaysSettled(vtBound, inputs);
    SoundPrefix(p, Run(Init(vtBound), inputs).log, vtBound);
    AccessFromLastEvent(p, c, f);
    assert p.Then?;
  }

  /** What is left over of a file, and why: a wscons device stays accessible to the
      client that opened it, for ever; on any other kind a revoke was tried and failed. */
  lemma WhatIsLeftOver(vtBound: bool, inputs: seq<Input>, p: Trace, c: ClientId, f: nat)
    requires PrefixOf(p, Run(Init(vtBound), inputs).log)
    ensures OpenedAs(p, f) == Some(Opened(c, Wscons)) ==> (c, f) in AccessOf(p) && !RevokeFailed(p, c, f)
    ensures OnlyUnmarked(p, c, f) ==> OpenedAs(p, f) == Some(Opened(c, Wscons))
    ensures RevokeFailed(p, c, f) ==> OpenedAs(p, f).Some? && OpenedAs(p, f).value.client == c && OpenedAs(p, f).value.kind != Wscons
  {
    AlwaysSettled(vtBound, inputs);
    SoundPrefix(p, Run(Init(vtBound), inputs).log, vtBound);
    LeftOverByKind(p, vtBound, c, f);
  }

  lemma {:induction false} LeftOverByKind(t: Trace, vtBound: bool, c: ClientId, f: nat)
    requires Sound(t, vtBound)
    ensures OpenedAs(t, f) == Some(Opened(c, Wscons)) ==> (c, f) in AccessOf(t) && !RevokeFailed(t, c, f)
    ensures OnlyUnmarked(t, c, f) ==> OpenedAs(t, f) == Some(Opened(c, Wscons))
    ensures RevokeFailed(t, c, f) ==> OpenedAs(t, f).Some? && OpenedAs(t, f).value.client == c && OpenedAs(t, f).value.kind != Wscons
  {
    if t.Then? {
      hide Exclusive, WantedByHolder, NoneActive, GivenUp;
      LeftOverByKind(t.before, vtBound, c, f);
      assert KindRight(t.before, t.event);
    }
  }

  /** Between events, a device marked active on a client that does not hold the
      seat is one whose revoke failed; if no revoke failed there is none. */
  lemma OnlyTheHolderHasActiveDevices(vtBound: bool, inputs: seq<Input>, c: ClientId, k: nat)
    requires var w := Run(Init(vtBound), inputs);
      c in w.clients && k < |w.clients[c].devices| && w.clients[c].devices[k].active && Holder(w) != Some(c)
    ensures var w := Run(Init(vtBound), inputs);
      RevokeFailed(w.log, c, w.clients[c].devices[k].file) && !NoRevokeFails(w.log)
  {
    var w := Run(Init(vtBound), inputs);
    var f := w.clients[c].devices[k].file;
    AlwaysSettled(vtBound, inputs);
    TableFacts(w, c);
    AccessFromLastEvent(w.log, c, f);
    if NoRevokeFails(w.log) { NoFailureNoLinger(w.log, c, f); }
  }

  /** When a client is told to disable, when an entry is dropped and when a client
      leaves, it keeps its access to exactly the files that were not taken. */
  lemma AccessEndsFirst(vtBound: bool, inputs: seq<Input>, p: Trace, f: nat)
    requires PrefixOf(p, Run(Init(vtBound), inputs).log) && p.Then?
    ensures p.event.Disable? || p.event.Leave? ==>
      ((p.event.client, f) in AccessOf(p) <==> NotTaken(p, p.event.client, f))
    ensures p.event.Drop? ==>
      ((p.event.client, p.event.file) in AccessOf(p) <==> NotTaken(p, p.event.client, p.event.file))
  {
    AlwaysSettled(vtBound, inputs);
    SoundPrefix(p, Run(Init(vtBound), inputs).log, vtBound);
    hide Sound, Exclusive, NoneActive, WantedByHolder;
    assert PointOk(p, vtBound) by { SoundPoint(p, vtBound); }
    if p.event.Disable? || p.event.Leave? { AccessFromLastEvent(p, p.event.client, f); }
    if p.event.Drop? { AccessFromLastEvent(p, p.event.client, p.event.file); }
  }

  /** A newly opened file never occurred in the log before. */
  lemma FilesNeverReused(vtBound: bool, inputs: seq<Input>, p: Trace)
    requires PrefixOf(p, Run(Init(vtBound), inputs).log) && p.Then? && p.event.Grant? && p.event.created
    ensures FilesBelow(p.before, p.event.file)
    ensures OpenedAs(p.before, p.event.file) == None && forall c :: LastAbout(p.before, c, p.event.file) == None
  {
    AlwaysSettled(vtBound, inputs);
    SoundPrefix(p, Run(Init(vtBound), inputs).log, vtBound);
    var f := p.event.file;
    if OpenedAs(p.before, f).Some? { OpenedBelow(p.before, f, f); }
    forall c ensures LastAbout(p.before, c, f) == None { NothingAbove(p.before, f, c, f); }
  }

  lemma {:induction false} NothingAbove(t: Trace, bound: nat, c: ClientId, f: nat)
    requires FilesBelow(t, bound) && f >= bound
    ensures LastAbout(t, c, f) == None
  {
    if t.Then? { NothingAbove(t.before, bound, c, f); }
  }

  /** There is a revoke for this device, and it works. */
  predicate Revocable(d: Device, fails: set<int>) {
    d.kind != Wscons && d.id !in fails
  }

  /** No entry of the table lets file f be taken. */
  ghost predicate Keeps(ds: seq<Device>, f: nat, fails: set<int>) {
    forall k :: 0 <= k < |ds| && ds[k].file == f ==> !Revocable(ds[k], fails)
  }

  /** What closing the first device leaves of the access to f */
  lemma CloseLeaves(ds: seq<Device>, g: Access, c: ClientId, fails: set<int>, f: nat)
    requires ds != [] && TableOk(ds) && AccessMatches(ds, g, c)
    ensures (c, f) in AfterClose(g, c, ds[0], fails) && Keeps(ds[1..], f, fails) <==> (c, f) in g && Keeps(ds, f, fails)
  {
    assert forall k :: 1 <= k < |ds| ==> ds[k] == ds[1..][k - 1] && ds[k].file != ds[0].file;
    if f == ds[0].file && (c, f) in g && HasActive(ds, f) {
      var k :| 0 <= k < |ds| && ds[k].file == f && ds[k].active;
    }
  }

  lemma RefsDoNotMatter(ds: seq<Device>, n: int, f: nat, fails: set<int>)
    requires ds != []
    ensures Keeps(ds[0 := ds[0].(refCount := n)], f, fails) <==> Keeps(ds, f, fails)
  {
    var ds1 := ds[0 := ds[0].(refCount := n)];
    assert forall k :: 0 <= k < |ds| ==> ds1[k].file == ds[k].file && Revocable(ds1[k], fails) == Revocable(ds[k], fails);
  }

  /** What teardown leaves of c's access to f: what was left of a closed file, and
      an open one exactly if there is no revoke for it or it fails. */
  lemma {:induction false} TeardownExactly(w: World, c: ClientId, fails: set<int>, f: nat, holder: Option<ClientId>)
    requires c in w.clients && History(w) && HolderActive(w.log, holder)
    ensures (c, f) in AccessOf(Teardown(w, c, fails).log) <==> (c, f) in AccessOf(w.log) && Keeps(w.clients[c].devices, f, fails)
    decreases TotalRefs(w.clients[c].devices)
  {
    hide History, HolderActive, CloseNth, Keeps, AfterClose, TableOk, TableBelow, AccessMatches, KindsTold;
    var ds := w.clients[c].devices;
    if ds == [] {
      assert Keeps(ds, f, fails) by { NothingToTake(f, fails); }
    } else {
      CloseNthKeeps(w, c, 0, fails, holder);
      CloseShrinks(w, c, fails);
      TeardownExactly(CloseNth(w, c, 0, fails), c, fails, f, holder);
      TableFacts(w, c);
      FirstClose(w, c, fails, holder);
      CloseLeaves(ds, AccessOf(w.log), c, fails, f);
      RefsDoNotMatter(ds, ds[0].refCount - 1, f, fails);
    }
  }

  lemma NothingToTake(f: nat, fails: set<int>)
    ensures Keeps([], f, fails)
  {
  }

  lemma FirstClose(w: World, c: ClientId, fails: set<int>, holder: Option<ClientId>)
    requires c in w.clients && w.clients[c].devices != [] && History(w) && HolderActive(w.log, holder)
    ensures var ds, w1 := w.clients[c].devices, CloseNth(w, c, 0, fails);
      && c in w1.clients
      && if ds[0].refCount > 1 then
           w1.clients[c].devices == ds[0 := ds[0].(refCount := ds[0].refCount - 1)] && AccessOf(w1.log) == AccessOf(w.log)
         else
           w1.clients[c].devices == ds[1..] && AccessOf(w1.log) == AfterClose(AccessOf(w.log), c, ds[0], fails)
  {
    TableFacts(w, c);
    if w.clients[c].devices[0].refCount == 1 {
      hide CloseNth, History;
      LastCloseKeeps(w, c, 0, fails, holder);
    }
  }

  lemma {:induction false} ActivateFromOthers(w: World, c: ClientId, k: nat, x: ClientId, f: nat)
    requires x != c
    ensures (x, f) in AccessOf(ActivateFrom(w, c, k).log) <==> (x, f) in AccessOf(w.log)
    decreases |Get(w, c).devices| - k
  {
    if k < |Get(w, c).devices| { ActivateFromOthers(ActivateDevice(w, c, k), c, k + 1, x, f); }
  }

  lemma OpenClientOthers(w: World, c: ClientId, env: Env, x: ClientId, f: nat)
    requires x != c
    ensures (x, f) in AccessOf(OpenClient(w, c, env).0.log) <==> (x, f) in AccessOf(w.log)
  {
    ActivateFromOthers(w, c, 0, x, f);
  }

  /** A client that is removed keeps its access to file f exactly if it had it and
      either f's entry was closed before or there is no revoke for it that works. */
  lemma RemovalLeavesAccess(w: World, c: ClientId, env: Env, f: nat)
    requires Settled(w) && c in w.members && c in w.clients
    ensures (c, f) in AccessOf(RemoveClient(w, c, env).log) <==>
      (c, f) in AccessOf(w.log) && Keeps(w.clients[c].devices, f, env.revokeFails)
  {
    hide Mid, History, Teardown, HolderActive, ActivateSeat, Keeps, Without;
    assert HolderActive(w.log, Holder(w)) by { HolderIsActive(w, {}); }
    assert History(w) by { InvHistory(w); }
    DetachKeeps(w, c, env);
    var w0 := w.(next := if w.next == Some(c) then None else w.next, members := Without(w.members, c));
    HistoryIgnoresLists(w, w0);
    TeardownExactly(w0, c, env.revokeFails, f, Holder(w));
    if w.active == Some(c) { HandoverOthers(Detach(w, c, env).(active := None), env, c, f); }
  }

  lemma HandoverOthers(w: World, env: Env, c: ClientId, f: nat)
    requires Free(w, {c})
    ensures (c, f) in AccessOf(ActivateSeat(w, env).0.log) <==> (c, f) in AccessOf(w.log)
  {
    CandidateCanBeOpened(w, {c});
    hide History, Roles, OnlyBy, OpenClient, Candidate;
    match Candidate(w) {
      case None =>
      case Some(x) => OpenClientOthers(w.(next := None), x, env, c, f);
    }
  }

  lemma SoundPoint(p: Trace, vtBound: bool)
    requires Sound(p, vtBound) && p.Then?
    ensures PointOk(p, vtBound)
  {
  }

  // ----- the seat -----

  /** The properties the assertions of seat.c rely on, in every reachable state. */
  lemma ActiveClientInvariant(vtBound: bool, inputs: seq<Input>, c: ClientId)
    ensures var w := Run(Init(vtBound), inputs);
      && (w.active.Some? ==> w.active.value in w.members)
      && (w.next.Some? ==> w.next.value in w.members)
      && (c in w.members ==> c in w.clients && w.clients[c].state != Closed)
      && (c in w.clients ==>
            (w.clients[c].state == Active || w.clients[c].state == PendingDisable <==> w.active == Some(c)))
  {
    AlwaysSettled(vtBound, inputs);
    var w := Run(Init(vtBound), inputs);
    hide History, OnlyBy;
    if c in w.clients { assert RoleOk(w, c); }
  }

  /** A queued switch exists only on a seat without VTs whose active client has
      been told to disable; the queued client is another member, able to be opened. */
  lemma QueueInvariant(vtBound: bool, inputs: seq<Input>)
    ensures var w := Run(Init(vtBound), inputs);
      w.next.Some? ==>
        && !w.vtBound && Holder(w) == None
        && w.active.Some? && w.active != w.next && Get(w, w.active.value).state == PendingDisable
        && (Get(w, w.next.value).state == New || Get(w, w.next.value).state == Disabled)
  {
    AlwaysSettled(vtBound, inputs);
    var w := Run(Init(vtBound), inputs);
    hide History, OnlyBy;
    if w.next.Some? { assert RoleOk(w, w.next.value); }
  }

  /** Whenever the seat is not VT-bound and has a member, some client is active. */
  lemma NoIdleSeat(vtBound: bool, inputs: seq<Input>)
    ensures var w := Run(Init(vtBound), inputs);
      !w.vtBound && w.members != [] ==> w.active.Some? && w.active.value in w.members
  {
    AlwaysSettled(vtBound, inputs);
  }

  // ----- life of a client -----

  /** The enable and disable events sent to a client and the acks accepted from
      it go round the cycle enable, disable, ack, starting with enable. */
  lemma SignalsCycle(vtBound: bool, inputs: seq<Input>, c: ClientId, i: nat)
    requires i < |Signals(Run(Init(vtBound), inputs).log, c)|
    ensures Signals(Run(Init(vtBound), inputs).log, c)[i] == Cycle(i)
  {
    NeverBroken(vtBound, inputs, c);
    UnbrokenLifeCycles(Run(Init(vtBound), inputs).log, c);
  }

  lemma NeverBroken(vtBound: bool, inputs: seq<Input>, c: ClientId)
    ensures PhaseOf(Run(Init(vtBound), inputs).log, c) != Broken
  {
    AlwaysSettled(vtBound, inputs);
    LifeFacts(Run(Init(vtBound), inputs), c);
  }

  /** Once a client has left the seat it gets no event, has no ack accepted and joins no more. */
  lemma LeavingIsFinal(vtBound: bool, inputs: seq<Input>, c: ClientId, p: Trace)
    requires PrefixOf(p, Run(Init(vtBound), inputs).log) && PhaseOf(p, c) == In(Closed)
    ensures var t := Run(Init(vtBound), inputs).log;
      PhaseOf(t, c) == In(Closed) && Signals(t, c) == Signals(p, c)
  {
    NeverBroken(vtBound, inputs, c);
    ClosedIsAbsorbing(p, Run(Init(vtBound), inputs).log, c);
  }

  // ----- VTs -----

  /** Where the log says that c was enabled, c's session was the current VT. */
  lemma EnabledOnTheCurrentVt(inputs: seq<Input>, p: Trace)
    requires PrefixOf(p, Run(Init(true), inputs).log) && p.Then? && p.event.Enable?
    ensures p.event.session == p.event.vt
  {
    AlwaysSettled(true, inputs);
    SoundPrefix(p, Run(Init(true), inputs).log, true);
  }

  /** From the release of a VT until a query finds a VT again nobody is active. */
  lemma NobodyActiveWhileReleased(vtBound: bool, inputs: seq<Input>, p: Trace, c: ClientId)
    requires PrefixOf(p, Run(Init(vtBound), inputs).log) && Released(p)
    ensures PhaseOf(p, c) != In(Active)
  {
    AlwaysSettled(vtBound, inputs);
    SoundPrefix(p, Run(Init(vtBound), inputs).log, vtBound);
  }

  // ----- sessions -----

  /** On a seat without VTs every session is larger than all handed out before,
      also to clients that are gone. */
  lemma SessionsNeverReissued(inputs: seq<Input>, p: Trace, q: Trace)
    requires PrefixOf(p, Run(Init(false), inputs).log) && p.Then? && p.event.Join?
    requires PrefixOf(q, p.before) && q.Then? && q.event.Join?
    ensures 0 <= q.event.session < p.event.session
  {
    AlwaysSettled(false, inputs);
    SoundPrefix(p, Run(Init(false), inputs).log, false);
    JoinedBefore(p.before, p.event.session, q);
  }

  lemma {:induction false} JoinedBefore(t: Trace, bound: int, q: Trace)
    requires JoinedBelow(t, bound) && PrefixOf(q, t) && q.Then? && q.event.Join?
    ensures 0 <= q.event.session < bound
  {
    if q != t { JoinedBefore(t.before, bound, q); }
  }

  lemma SessionsDistinct(inputs: seq<Input>, c: ClientId, x: ClientId)
    requires var w := Run(Init(false), inputs); c in w.members && x in w.members && c != x
    ensures var w := Run(Init(false), inputs); Get(w, c).session != Get(w, x).session
  {
    AlwaysSettled(false, inputs);
    MemberFacts(Run(Init(false), inputs), c, {});
  }

  // ----- devices -----

  /** Every client's table in every reachable state, members and others. */
  lemma DeviceTable(vtBound: bool, inputs: seq<Input>, c: ClientId, path: string)
    ensures var w := Run(Init(vtBound), inputs);
      && TableOk(Get(w, c).devices)
      && Balance(w.log, c, path) == RefOf(Get(w, c).devices, path)
  {
    AlwaysSettled(vtBound, inputs);
    var w := Run(Init(vtBound), inputs);
    assert ClientOk(w, c);
  }

  /** An entry that was switched off comes back only if it is a DRM device. */
  lemma OnlyDrmComesBack(vtBound: bool, inputs: seq<Input>, p: Trace)
    requires PrefixOf(p, Run(Init(vtBound), inputs).log) && p.Then? && p.event.Grant? && !p.event.created
    ensures p.event.kind == Drm
  {
    AlwaysSettled(vtBound, inputs);
    SoundPrefix(p, Run(Init(vtBound), inputs).log, vtBound);
  }

  lemma {:induction false} ActivateFromIsQuiet(w: World, c: ClientId, k: nat, x: ClientId)
    requires k <= |Get(w, c).devices|
    ensures Signals(ActivateFrom(w, c, k).log, x) == Signals(w.log, x)
    decreases |Get(w, c).devices| - k
  {
    if k < |Get(w, c).devices| {
      ActivateFromIsQuiet(ActivateDevice(w, c, k), c, k + 1, x);
    }
  }

  lemma {:induction false} DeactivateFromIsQuiet(w: World, c: ClientId, k: nat, fails: set<int>, x: ClientId)
    requires k <= |Get(w, c).devices|
    ensures Signals(DeactivateFrom(w, c, k, fails).log, x) == Signals(w.log, x)
    decreases |Get(w, c).devices| - k
  {
    if k < |Get(w, c).devices| {
      DeactivateFromIsQuiet(DeactivateDevice(w, c, k, fails), c, k + 1, fails, x);
    }
  }

  /** Opening a client on a free seat: it becomes active, gets back exactly its DRM
      devices, keeps the rest of its record, and is the only one told. */
  lemma OpenClientExactly(w: World, c: ClientId, env: Env, out: set<ClientId>, x: ClientId, i: nat)
    requires Mid(w, out) && w.active == None && c in w.members && c in w.clients
    requires w.vtBound ==> w.clients[c].session == w.curVt != -1 && env.vtOpens
    ensures var w1 := OpenClient(w, c, env).0;
      && w1 == w.(clients := w1.clients, active := Some(c), log := w1.log)
      && Get(w1, c) == Get(w, c).(state := Active, devices := Get(w1, c).devices)
      && (x != c ==> Get(w1, x) == Get(w, x))
      && w1.log.Then? && w1.log.event == Enable(c, Get(w, c).session, w.curVt) && OpenClient(w, c, env).1 == env.sends
      && Signals(w1.log, x) == Signals(w.log, x) + (if x == c then [EnableSent] else [])
      && |Get(w1, c).devices| == |Get(w, c).devices|
      && (i < |Get(w, c).devices| ==>
            var d := Get(w, c).devices[i];
            Get(w1, c).devices[i] == d.(active := d.active || d.kind == Drm))
  {
    hide Mid, ActivateFrom, RoleOk;
    CanBeOpened(w, c, out);
    ActivateFrame(w, c);
    ActivateFromIsQuiet(w, c, 0, x);
    if Get(w, c).devices != [] {
      ActivateFromExact(w, c, 0, if i < |Get(w, c).devices| then i else 0);
    } else {
      ActivateNothing(w, c);
    }
  }

  lemma CanBeOpened(w: World, c: ClientId, out: set<ClientId>)
    requires Mid(w, out) && w.active == None && c in w.members
    ensures c in w.clients && (w.clients[c].state == New || w.clients[c].state == Disabled)
  {
    MemberFacts(w, c, out);
  }

  lemma {:induction false} ActivateFromFrame(w: World, c: ClientId, k: nat)
    requires c in w.clients
    ensures var w1 := ActivateFrom(w, c, k);
      c in w1.clients && w1 == w.(clients := w.clients[c := w.clients[c].(devices := w1.clients[c].devices)], log := w1.log)
    decreases |Get(w, c).devices| - k
  {
    assert w.clients[c := w.clients[c]] == w.clients;
    if k < |Get(w, c).devices| { ActivateFromFrame(ActivateDevice(w, c, k), c, k + 1); }
  }

  lemma ActivateFrame(w: World, c: ClientId)
    requires c in w.clients
    ensures var w1 := ActivateFrom(w, c, 0);
      && c in w1.clients && w1.clients[c] == w.clients[c].(devices := w1.clients[c].devices)
      && (forall x :: x != c ==> Get(w1, x) == Get(w, x))
      && w1 == w.(clients := w1.clients, log := w1.log)
  {
    hide ActivateFrom;
    ActivateFromFrame(w, c, 0);
  }

  lemma ActivateNothing(w: World, c: ClientId)
    requires Get(w, c).devices == []
    ensures ActivateFrom(w, c, 0) == w
  {
  }

  /** Disabling an active client: it keeps its place but is pending, exactly the devices
      whose revoke failed stay active, and it is the only one told. */
  lemma DisableClientExactly(w: World, c: ClientId, env: Env, x: ClientId, i: nat)
    requires c in w.clients && w.clients[c].state == Active
    ensures var w1 := DisableClient(w, c, env).0;
      && w1 == w.(clients := w1.clients, log := w1.log)
      && Get(w1, c) == Get(w, c).(state := PendingDisable, devices := Get(w1, c).devices)
      && (x != c ==> Get(w1, x) == Get(w, x))
      && Signals(w1.log, x) == Signals(w.log, x) + (if x == c then [DisableSent] else [])
      && |Get(w1, c).devices| == |Get(w, c).devices|
      && (i < |Get(w, c).devices| ==>
            var d := Get(w, c).devices[i];
            Get(w1, c).devices[i] == d.(active := d.active && d.kind != Wscons && d.id in env.revokeFails))
  {
    hide DeactivateFrom;
    DeactivateFrame(w, c, env.revokeFails);
    DeactivateFromIsQuiet(w, c, 0, env.revokeFails, x);
    if Get(w, c).devices != [] {
      DeactivateFromExact(w, c, 0, env.revokeFails, if i < |Get(w, c).devices| then i else 0);
    } else {
      DeactivateNothing(w, c, env.revokeFails);
    }
  }

  lemma {:induction false} DeactivateFromFrame(w: World, c: ClientId, k: nat, fails: set<int>)
    requires c in w.clients
    ensures var w1 := DeactivateFrom(w, c, k, fails);
      c in w1.clients && w1 == w.(clients := w.clients[c := w.clients[c].(devices := w1.clients[c].devices)], log := w1.log)
    decreases |Get(w, c).devices| - k
  {
    assert w.clients[c := w.clients[c]] == w.clients;
    if k < |Get(w, c).devices| { DeactivateFromFrame(DeactivateDevice(w, c, k, fails), c, k + 1, fails); }
  }

  lemma DeactivateFrame(w: World, c: ClientId, fails: set<int>)
    requires c in w.clients
    ensures var w1 := DeactivateFrom(w, c, 0, fails);
      && c in w1.clients && w1.clients[c] == w.clients[c].(devices := w1.clients[c].devices)
      && (forall x :: x != c ==> Get(w1, x) == Get(w, x)) && w1 == w.(clients := w1.clients, log := w1.log)
  {
    hide DeactivateFrom;
    DeactivateFromFrame(w, c, 0, fails);
  }

  lemma DeactivateNothing(w: World, c: ClientId, fails: set<int>)
    requires Get(w, c).devices == []
    ensures DeactivateFrom(w, c, 0, fails) == w
  {
  }

  /** Closing one reference leaves the entry while others remain, and removes it with the last. */
  lemma CloseDeviceExactly(w: World, c: ClientId, k: nat, fails: set<int>)
    requires Settled(w) && c in w.members && c in w.clients && k < |w.clients[c].devices|
    ensures var ds, ds1 := w.clients[c].devices, Get(CloseNth(w, c, k, fails), c).devices;
      if ds[k].refCount > 1 then ds1 == ds[k := ds[k].(refCount := ds[k].refCount - 1)]
      else ds1 == ds[..k] + ds[k + 1..]
  {
    TableFacts(w, c);
    var ds := w.clients[c].devices;
    if ds[k].refCount == 1 { LastCloseValue(w, c, k, fails); }
  }

  /** A device id names at most one entry, and close finds it. */
  lemma FindDeviceExactly(w: World, c: ClientId, id: int, k: nat)
    requires Settled(w) && c in w.clients
    ensures FindDevice(w.clients[c].devices, id) == Some(k) <==>
            k < |w.clients[c].devices| && w.clients[c].devices[k].id == id
  {
    TableFacts(w, c);
    FindIdIsFirst(w.clients[c].devices, id);
  }

  lemma {:induction false} FindIdIsFirst(ds: seq<Device>, id: int)
    ensures match FindId(ds, id)
      case None => forall i :: 0 <= i < |ds| ==> ds[i].id != id
      case Some(k) => ds[k].id == id && forall i :: 0 <= i < k ==> ds[i].id != id
  {
    if ds != [] && ds[0].id != id {
      FindIdIsFirst(ds[1..], id);
      assert forall i :: 1 <= i < |ds| ==> ds[i] == ds[1..][i - 1];
    }
  }

  /** The loop of seat_open_client turns on the DRM devices and changes nothing else. */
  lemma {:induction false} ActivateFromExact(w: World, c: ClientId, k: nat, i: nat)
    requires k <= |Get(w, c).devices| && i < |Get(w, c).devices|
    ensures var ds, ds1 := Get(w, c).devices, Get(ActivateFrom(w, c, k), c).devices;
      && |ds1| == |ds|
      && ds1[i] == if i < k then ds[i] else ds[i].(active := ds[i].active || ds[i].kind == Drm)
    decreases |Get(w, c).devices| - k
  {
    if k < |Get(w, c).devices| {
      ActivateFromExact(ActivateDevice(w, c, k), c, k + 1, i);
    }
  }

  /** The loop of seat_disable_client turns off every device whose revoke does not fail. */
  lemma {:induction false} DeactivateFromExact(w: World, c: ClientId, k: nat, fails: set<int>, i: nat)
    requires k <= |Get(w, c).devices| && i < |Get(w, c).devices|
    ensures var ds, ds1 := Get(w, c).devices, Get(DeactivateFrom(w, c, k, fails), c).devices;
      && |ds1| == |ds|
      && ds1[i] == if i < k then ds[i]
                   else ds[i].(active := ds[i].active && ds[i].kind != Wscons && ds[i].id in fails)
    decreases |Get(w, c).devices| - k
  {
    if k < |Get(w, c).devices| {
      DeactivateFromExact(DeactivateDevice(w, c, k, fails), c, k + 1, fails, i);
    }
  }

  lemma InvHistory(w: World)
    requires Inv(w)
    ensures History(w)
  {
  }

  /** Opening a path that is already open is refused with NULL although it is
      counted: no device is returned, the table is the same but for one more
      reference, and the next close of that device leaves it open. */
  lemma ReopenIsCountedButRefused(w: World, c: ClientId, env: Env, k: nat, fails: set<int>)
    requires Settled(w) && c in w.members && c in w.clients && w.clients[c].state == Active
    requires k < |w.clients[c].devices| && env.resolved.Some? && env.resolved.value.path == w.clients[c].devices[k].path
    ensures var (w1, device) := OpenDeviceOn(w, c, env);
      && device == None
      && c in w1.clients
      && w1.clients[c].devices == w.clients[c].devices[k := w.clients[c].devices[k].(refCount := w.clients[c].devices[k].refCount + 1)]
      && Get(CloseNth(w1, c, k, fails), c).devices == w.clients[c].devices
  {
    hide Mid, FindPath;
    assert History(w) by { InvHistory(w); }
    hide History;
    var ds := w.clients[c].devices;
    TableFacts(w, c);
    FindPathIsFirst(ds, ds[k].path);
    assert FindPath(ds, ds[k].path) == Some(k);
    assert ds[k := ds[k].(refCount := ds[k].refCount + 1)][k := ds[k]] == ds;
  }

  /** The client holds the seat, and the path is that of a device it has not opened yet. */
  ghost predicate Unopened(w: World, c: ClientId, env: Env) {
    && Holder(w) == Some(c) && env.resolved.Some?
    && forall i :: 0 <= i < |Get(w, c).devices| ==> Get(w, c).devices[i].path != env.resolved.value.path
  }

  ghost predicate MakesEntry(w: World, c: ClientId, env: Env) {
    Unopened(w, c, env) && env.opens && |Get(w, c).devices| < MAX_SEAT_DEVICES
  }

  /** The entry made: its id is the next one after the newest device's, from 1 on. */
  function NewEntry(w: World, c: ClientId, r: Resolved): Device {
    var ds := Get(w, c).devices;
    Device(if ds == [] then 1 else ds[0].id + 1, r.path, r.kind, 1, true, w.nextFile)
  }

  lemma {:induction false} FreshIdStays(ds: seq<Device>, id: int)
    requires forall i :: 0 <= i < |ds| ==> ds[i].id < id
    ensures FreshId(ds, id) == id
  {
    if ds != [] {
      assert forall i :: 0 <= i < |ds| - 1 ==> ds[1..][i] == ds[i + 1];
      FreshIdStays(ds[1..], id);
    }
  }

  lemma FreshIdIsNext(ds: seq<Device>)
    requires TableOk(ds)
    ensures FreshId(ds, 1) == if ds == [] then 1 else ds[0].id + 1
  {
    if ds != [] { FreshIdStays(ds[1..], ds[0].id + 1); }
  }

  /** seat_open_device returns a device exactly when it makes a new entry, at the head
      of the table; for anything but a known path nothing changes otherwise. */
  lemma OpenReturnsExactlyNewEntries(w: World, c: ClientId, env: Env)
    requires Settled(w) && c in w.members
    ensures var (w1, device) := OpenDeviceOn(w, c, env);
      && (device.Some? <==> MakesEntry(w, c, env))
      && (device.Some? ==>
            var d := NewEntry(w, c, env.resolved.value);
            && device.value == d.id
            && w1 == SetDevices(w, c, [d] + Get(w, c).devices).(nextFile := w.nextFile + 1, log := w1.log)
            && w1.log == Then(Then(w.log, Ref(c, d.path)), Grant(c, d.file, d.kind, true))
            && forall i :: 0 <= i < |Get(w, c).devices| ==> Get(w, c).devices[i].id < device.value)
      && (device.None? && (Holder(w) != Some(c) || env.resolved.None? || Unopened(w, c, env)) ==> w1 == w)
  {
    hide Settled, Holder, FindPath, FreshId, TableOk;
    OpenFacts(w, c);
    var ds := Get(w, c).devices;
    if env.resolved.Some? { FindPathIsFirst(ds, env.resolved.value.path); }
    FreshIdIsNext(ds);
    FreshIdAbove(ds, 1);
  }

  lemma OpenFacts(w: World, c: ClientId)
    requires Settled(w) && c in w.members
    ensures Get(w, c).state == Active <==> Holder(w) == Some(c)
    ensures TableOk(Get(w, c).devices)
  {
    TableFacts(w, c);
    MemberFacts(w, c, {});
    hide History, OnlyBy;
  }

  // ----- lists and switching -----

  /** Each connected client is on exactly one list, once: the seat's if it has a seat, else the idle one. */
  lemma EachClientOnOneList(vtBound: bool, inputs: seq<Input>, c: ClientId)
    ensures var w := Run(Init(vtBound), inputs);
      && Distinct(w.members) && Distinct(w.idle)
      && (c in w.clients ==> (c in w.members) == w.clients[c].seated && (c in w.idle) == !w.clients[c].seated)
      && (c !in w.clients ==> c !in w.members && c !in w.idle)
  {
    AlwaysSettled(vtBound, inputs);
    hide History, OnlyBy, Roles;
  }

  /** On a seat without VTs a switch request queues t exactly if the caller holds
      the seat, no switch is queued, and t is the member with that positive
      session; t is then unique and not the caller. */
  lemma SwitchTarget(inputs: seq<Input>, c: ClientId, session: int, env: Env, t: ClientId)
    requires var w := Run(Init(false), inputs); c in w.members && w.next == None
    ensures var w := Run(Init(false), inputs);
      var w1 := SetNextSession(w, c, session, env).0;
      && (w1.next == Some(t) <==>
            Holder(w) == Some(c) && t in w.members && t != c && Get(w, t).session == session > 0)
      && (w1.next == Some(t) ==>
            && w1.active == Some(c) && Get(w1, c).state == PendingDisable
            && forall x :: x in w.members && Get(w, x).session == session ==> x == t)
  {
    AlwaysSettled(false, inputs);
    var w := Run(Init(false), inputs);
    assert SessionsOk(w);
    MemberFacts(w, c, {});
    hide History, OnlyBy, Roles, DisableClient;
    FindSessionFinds(w, w.members, session);
    var target := FindSession(w, w.members, session);
    if w.clients[c].state == Active && 0 < session != w.clients[c].session && target.Some? {
      SwitchQueues(w, c, target.value, env);
    }
  }

  lemma SwitchQueues(w: World, c: ClientId, t: ClientId, env: Env)
    requires Inv(w) && w.active == Some(c) && Get(w, c).state == Active && !w.vtBound
    requires t in w.members && t != c && Get(w, t).session > 0
    ensures var w1 := DisableClient(w.(next := Some(t)), c, env).0;
      w1.next == Some(t) && w1.active == Some(c) && Get(w1, c).state == PendingDisable
  {
    hide History, OnlyBy, DisableClient;
    var w0 := w.(next := Some(t));
    HistoryIgnoresLists(w, w0);
    forall x | x in w0.clients ensures RoleOk(w0, x) { assert RoleOk(w, x); }
    DisableClientKeeps(w0, c, env);
  }

  /** A client with session 0 is never queued. */
  lemma SessionZeroIsNeverQueued(vtBound: bool, inputs: seq<Input>)
    ensures var w := Run(Init(vtBound), inputs);
      w.next.Some? ==> Get(w, w.next.value).session > 0
  {
    AlwaysSettled(vtBound, inputs);
  }

  /** The assertion at the start of seat_open_client: whoever seat_activate
      chooses, also in the middle of a removal, belongs to the seat and can be opened. */
  lemma CandidateCanBeOpened(w: World, out: set<ClientId>)
    requires Free(w, out)
    ensures match Candidate(w)
      case None => w.members == [] || w.vtBound
      case Some(c) =>
        && c in w.members && c in w.clients && w.clients[c].seated
        && (w.clients[c].state == New || w.clients[c].state == Disabled)
        && (w.vtBound ==> w.clients[c].session == w.curVt != -1)
  {
    hide History, OnlyBy;
    if w.members != [] { assert w.members[0] in w.members; }
    FindSessionFinds(w, w.members, w.curVt);
    match Candidate(w) {
      case None =>
      case Some(c) => assert RoleOk(w, c);
    }
  }

  // ----- a queued switch is served -----

  /** From w to w1 the queued client n stays queued behind the same active
      client, or takes the seat, or is gone from the seat. */
  ghost predicate Served(w: World, w1: World, n: ClientId) {
    || (w1.next == Some(n) && w1.active == w.active)
    || (w1.next == None && w1.active == Some(n))
    || (w1.next == None && n !in w1.members)
  }

  lemma DestroyServes(w: World, w0: World, c: ClientId, env: Env, n: ClientId)
    requires SettledBut(w, c) && Served(w0, w, n) && (w.active == Some(n) ==> c != n)
    ensures Served(w0, Destroy(w, c, env), n)
  {
    ClientFacts(w, c);
    hide History, OnlyBy, Roles, RemoveClient;
    WithoutRemoves(w.members, c);
    if w.clients[c].seated {
      RemoveClientKeeps(w, c, env);
    }
  }

  lemma HandleServes(w: World, c: ClientId, request: Request, env: Env, n: ClientId)
    requires Settled(w) && c in w.clients && w.next == Some(n)
    ensures var w1 := Handle(w, c, request, env).0;
      Served(w, w1, n) && (w1.active == Some(n) ==> c != n)
  {
    hide Settled, AddClient, HandleOpenDevice, CloseNth, RemoveClient, AckDisable, OpenClient, SetNextSession, FindDevice;
    SeatBusy(w, n);
    assert Settled(w) && Inv(w) by { SettledInv(w); }
    ClientFacts(w, c);
    hide RoleOk, Inv;
    if request.OpenSeat? {
      AddClientKeeps(w, c, env);
      BusySeatRefuses(AddClient(w, c, env).0, c, env);
    } else if w.clients[c].seated {
      match request {
        case CloseSeat => CloseSeatServes(w, c, env, n);
        case OpenDevice(_) => HandleOpenDeviceKeeps(w, c, env);
        case CloseDevice(id) =>
          var k := FindDevice(w.clients[c].devices, id);
          if k.Some? { CloseDeviceKeeps(w, c, k.value, env); }
        case DisableSeat => AckServes(w, c, env, n);
        case SwitchSession(session) => IdleCannotSwitch(w, c, session, env);
        case Ping =>
      }
    } else {
      NoSeatNoWork(w, c, request, env);
    }
  }

  lemma NoSeatNoWork(w: World, c: ClientId, request: Request, env: Env)
    requires !Get(w, c).seated && !request.OpenSeat?
    ensures Handle(w, c, request, env).0 == w
  {
  }

  lemma SeatBusy(w: World, n: ClientId)
    requires Settled(w) && w.next == Some(n)
    ensures w.active.Some? && w.active != Some(n) && Holder(w) == None && !w.vtBound
  {
  }

  lemma SettledInv(w: World)
    requires Settled(w)
    ensures Inv(w)
  {
  }

  lemma CloseSeatServes(w: World, c: ClientId, env: Env, n: ClientId)
    requires Settled(w) && c in w.members && w.next == Some(n)
    ensures var w1 := RemoveClient(w, c, env);
      Served(w, w1, n) && (w1.active == Some(n) ==> c != n)
  {
    hide Mid, RemoveClient, Without;
    SeatBusy(w, n);
    RemoveClientKeeps(w, c, env);
    MembersDistinct(w);
    WithoutRemoves(w.members, c);
    QueueTwice(w, n, c);
  }

  lemma QueueTwice(w: World, n: ClientId, c: ClientId)
    requires Inv(w) && w.next == Some(n)
    ensures w.active == Some(c) ==> c != n
  {
  }

  lemma AckServes(w: World, c: ClientId, env: Env, n: ClientId)
    requires Settled(w) && c in w.members && w.next == Some(n)
    ensures var w1 := AckDisable(w, c, env).0;
      Served(w, w1, n) && (w1.active == Some(n) ==> c != n)
  {
    MemberFacts(w, c, {});
    hide Mid, AckDisable;
    SeatBusy(w, n);
    AckDisableKeeps(w, c, env);
  }

  /** Only the holder gets past the first check. */
  lemma IdleCannotSwitch(w: World, c: ClientId, session: int, env: Env)
    requires Settled(w) && c in w.members && Holder(w) == None
    ensures SetNextSession(w, c, session, env) == (w, false)
  {
    MemberFacts(w, c, {});
    hide Mid;
  }

  lemma MembersDistinct(w: World)
    requires Inv(w)
    ensures Distinct(w.members)
  {
  }

  /** The moment the seat becomes free, the queued client takes it or was dropped. */
  lemma QueuedClientIsServed(w: World, input: Input, n: ClientId)
    requires Settled(w) && w.next == Some(n)
    ensures Served(w, Step(w, input), n)
  {
    hide Settled, SettledBut, Handle, Destroy;
    SeatNotTaken(w, n);
    match input {
      case Connect =>
      case Message(c, request, env, fin) =>
        if c in w.clients {
          HandleKeeps(w, c, request, env);
          HandleServes(w, c, request, env, n);
          var (w1, ok) := Handle(w, c, request, env);
          if !(ok && env.flushes) { DestroyServes(w1, w, c, fin, n); }
        }
      case Disconnect(c, env) =>
        if c in w.clients {
          SettledIsSettledBut(w, c);
          DestroyServes(w, w, c, env, n);
        }
      case VtAcquired(env) =>
      case VtReleased(env) =>
    }
  }

  lemma SeatNotTaken(w: World, n: ClientId)
    requires Settled(w) && w.next == Some(n)
    ensures w.active != Some(n) && !w.vtBound
  {
  }

  // ----- who gets the seat -----

  /** On a seat without VTs the queued client follows, else the member that joined last. */
  function Successor(w: World, left: seq<ClientId>): Option<ClientId> {
    if w.next.Some? then w.next else if left == [] then None else Some(left[0])
  }

  /** Whom a seat goes to that has become free while these members are left.  With VTs
      it is the first member on the current VT, if that is known and its terminal opens. */
  ghost predicate Inherits(w: World, left: seq<ClientId>, env: Env, t: Option<ClientId>) {
    if !w.vtBound then t == Successor(w, left)
    else
      match t
      case None => !env.vtOpens || w.curVt == -1 || forall k :: 0 <= k < |left| ==> Get(w, left[k]).session != w.curVt
      case Some(c) => env.vtOpens && w.curVt != -1 && FirstOnVt(w, left, c)
  }

  ghost predicate FirstOnVt(w: World, cs: seq<ClientId>, c: ClientId) {
    exists k :: 0 <= k < |cs| && cs[k] == c && Get(w, c).session == w.curVt
                && forall j :: 0 <= j < k ==> Get(w, cs[j]).session != w.curVt
  }

  lemma {:induction false} FindSessionIsFirst(w: World, cs: seq<ClientId>, c: ClientId)
    requires FindSession(w, cs, w.curVt) == Some(c)
    ensures FirstOnVt(w, cs, c)
  {
    if Get(w, cs[0]).session == w.curVt {
      assert cs[0] == c;
    } else {
      FindSessionIsFirst(w, cs[1..], c);
      var k :| 0 <= k < |cs[1..]| && cs[1..][k] == c && forall j :: 0 <= j < k ==> Get(w, cs[1..][j]).session != w.curVt;
      assert cs[k + 1] == c;
      forall j | 0 <= j < k + 1 ensures Get(w, cs[j]).session != w.curVt {
        if j > 0 { assert cs[j] == cs[1..][j - 1]; }
      }
    }
  }

  /** seat_activate hands a free seat to the heir. */
  lemma HeirIsOpened(w: World, env: Env, out: set<ClientId>)
    requires Free(w, out)
    ensures Inherits(w, w.members, env, ActivateSeat(w, env).0.active)
  {
    ActivateSeatKeeps(w, env, out);
    hide History, Lists, Roles, OnlyBy, ActivateSeat, FindSession, FirstOnVt;
    FindSessionFinds(w, w.members, w.curVt);
    var found := FindSession(w, w.members, w.curVt);
    if found.Some? { FindSessionIsFirst(w, w.members, found.value); }
  }

  lemma SameHeir(w: World, w1: World, left: seq<ClientId>, env: Env, t: Option<ClientId>)
    requires w1.vtBound == w.vtBound && w1.curVt == w.curVt && w1.next == w.next
    requires forall x :: Get(w1, x).session == Get(w, x).session
    ensures Inherits(w, left, env, t) <==> Inherits(w1, left, env, t)
  {
  }

  /** When the active client leaves the seat goes to its heir; otherwise it stays where it is. */
  lemma RemovalHandsOn(w: World, c: ClientId, env: Env)
    requires Inv(w) && c in w.members
    ensures var taken := RemoveClient(w, c, env).active;
      if w.active == Some(c) then Inherits(w, Without(w.members, c), env, taken) else taken == w.active
  {
    hide Mid, Free, ActivateSeat, Detach, Inherits, Without;
    if w.active == Some(c) {
      if w.next.Some? { QueueTwice(w, w.next.value, c); }
      DetachKeeps(w, c, env);
      var w1 := Detach(w, c, env).(active := None);
      HeirIsOpened(w1, env, {c});
      SameHeir(w, w1, w1.members, env, ActivateSeat(w1, env).0.active);
    } else {
      hide RemoveClient;
      RemoveClientKeeps(w, c, env);
    }
  }

  /** An ack of the client that was told to disable hands the seat to the heir, which
      may be that client itself; any other ack is refused. */
  lemma AckHandsOn(w: World, c: ClientId, env: Env)
    requires Settled(w) && c in w.members && c in w.clients
    ensures var (w1, ok) := AckDisable(w, c, env);
      && ok == (w.clients[c].state == PendingDisable)
      && if ok then Inherits(w, w.members, env, w1.active) else w1 == w
  {
    if w.clients[c].state == PendingDisable {
      AckFrees(w, c);
      hide Mid, Free, ActivateSeat, Inherits;
      var w1 := Emit(SetState(w, c, Disabled), Ack(c)).(active := None);
      HeirIsOpened(w1, env, {});
      SameHeir(w, w1, w.members, env, ActivateSeat(w1, env).0.active);
    }
  }

  /** The VT a client would join on */
  function JoinVt(w: World, env: Env): int {
    if env.vtQuery.Some? then env.vtQuery.value else w.curVt
  }

  /** Who may join: a client that never joined; on a VT-bound seat only while the
      seat is free or being given up, on a VT that is known, and in the latter
      case only if no member sits on that VT. */
  ghost predicate MayJoin(w: World, c: ClientId, vt: int) {
    && !Get(w, c).seated && Get(w, c).state == New
    && (w.vtBound ==>
          && Holder(w) == None && vt != -1
          && (w.active.Some? ==> forall x :: x in w.members ==> Get(w, x).session != vt))
  }

  lemma AddClientExactly(w: World, c: ClientId, env: Env)
    requires Settled(w) && c in w.clients
    ensures var (w1, ok) := AddClient(w, c, env);
      var vt := JoinVt(w, env);
      && (ok <==> MayJoin(w, c, vt))
      && (ok ==>
            var r := w.clients[c].(seated := true, session := if w.vtBound then vt else w.sessionCnt);
            && c in w1.clients && w1.clients[c] == r
            && w1 == w.(clients := w.clients[c := r], members := [c] + w.members, idle := Without(w.idle, c),
                        curVt := if w.vtBound then vt else w.curVt,
                        sessionCnt := if w.vtBound then w.sessionCnt else w.sessionCnt + 1, log := w1.log))
      && (!ok ==> w1 == w.(curVt := w1.curVt, log := w1.log) && (w1.curVt == w.curVt || (w.vtBound && w1.curVt == vt)))
  {
    hide Settled, FindSession, Without, Holder;
    JoinFacts(w, c);
    var w1 := UpdateVt(w, env);
    FindSessionFinds(w1, w1.members, w1.curVt);
    assert forall x :: Get(w1, x) == Get(w, x);
  }

  /** The conditions of seat_add_client, seen by their meaning */
  lemma JoinFacts(w: World, c: ClientId)
    requires Settled(w) && c in w.clients
    ensures !w.clients[c].seated ==> (w.clients[c].session == -1 <==> w.clients[c].state == New)
    ensures Holder(w) == None <==> w.active == None || Get(w, w.active.value).state == PendingDisable
  {
    hide Mid;
    ClientFacts(w, c);
    ActiveIsConnected(w);
  }

  lemma AddClientIsQuiet(w: World, c: ClientId, env: Env, x: ClientId)
    ensures Signals(AddClient(w, c, env).0.log, x) == Signals(w.log, x)
  {
    hide FindSession, Without, Get;
    var w1 := UpdateVt(w, env);
    assert Signals(w1.log, x) == Signals(w.log, x);
    assert Signals(Seat(w1, c, w1.curVt).log, x) == Signals(w1.log, x);
  }

  lemma ActiveIsConnected(w: World)
    requires Settled(w)
    ensures w.active.Some? ==>
      var r := Get(w, w.active.value); r.state == Active || r.state == PendingDisable
  {
    if w.active.Some? { MemberFacts(w, w.active.value, {}); }
  }

  /** Releasing the VT: the active client, if any, keeps its place but not its
      devices, and the seat has no VT. */
  lemma VtReleaseExactly(w: World, env: Env)
    requires Settled(w) && w.vtBound
    ensures var w1 := VtReleaseSeat(w, env);
      && w1.curVt == -1 && w1.active == w.active && w1.members == w.members && Holder(w1) == None
      && Released(w1.log)
  {
    hide Mid, UpdateVt, DisableClient;
    UpdateVtKeeps(w, env);
    UpdateVtFrame(w, env);
    var w1 := UpdateVt(w, env);
    if w1.active.Some? {
      VtReleaseDisables(w1, env);
      DisableFrame(w1, env);
    }
  }

  lemma DisableFrame(w: World, env: Env)
    requires Inv(w) && w.active.Some?
    ensures var w1 := DisableClient(w, w.active.value, env).0;
      w1.active == w.active && w1.members == w.members && w1.curVt == w.curVt && SessionsKept(w, w1)
  {
    hide History, OnlyBy;
    var c := w.active.value;
    assert RoleOk(w, c);
    if Get(w, c).state == Active {
      hide DisableClient;
      DisableClientKeeps(w, c, env);
    }
  }

  /** Acquiring a VT: a free seat is taken exactly if the VT is known, its terminal
      opens and it is some member's session; the first such member takes it. */
  lemma VtActivateExactly(w: World, env: Env, k: nat)
    requires Settled(w) && w.vtBound && w.active == None
    ensures var taken := VtActivate(w, env).active;
      var vt := if env.vtQuery.Some? then env.vtQuery.value else w.curVt;
      && (taken.Some? ==> env.vtOpens && vt != -1 && taken.value in w.members && Get(w, taken.value).session == vt)
      && (env.vtOpens && vt != -1 && k < |w.members| && Get(w, w.members[k]).session == vt
          && (forall j :: 0 <= j < k ==> Get(w, w.members[j]).session != vt) ==>
            taken == Some(w.members[k]))
  {
    hide History, OnlyBy, ActivateSeat, FindSession;
    UpdateVtKeeps(w, env);
    var w1 := UpdateVt(w, env);
    var vt := w1.curVt;
    assert forall x :: Get(w1, x) == Get(w, x);
    FindSessionFinds(w1, w1.members, vt);
    if k < |w.members| && Get(w, w.members[k]).session == vt && forall j :: 0 <= j < k ==> Get(w, w.members[j]).session != vt {
      FindFirst(w1, w1.members, vt, k);
    }
    ActivateSeatKeeps(w1, env, {});
  }

  lemma {:induction false} FindFirst(w: World, cs: seq<ClientId>, session: int, k: nat)
    requires k < |cs| && Get(w, cs[k]).session == session
    requires forall j :: 0 <= j < k ==> Get(w, cs[j]).session != session
    ensures FindSession(w, cs, session) == Some(cs[k])
  {
    if k > 0 {
      assert forall j :: 0 <= j < |cs| - 1 ==> cs[1..][j] == cs[j + 1];
      FindFirst(w, cs[1..], session, k - 1);
    }
  }

  // ----- one client for each VT -----

  /** What the comment on seat_create promises of a VT-bound seat. */
  ghost predicate OneClientPerVt(w: World) {
    forall x, y :: x in w.members && y in w.members && x != y ==> Get(w, x).session != Get(w, y).session
  }

  ghost predicate VtTaken(w: World, vt: int) {
    exists x :: x in w.members && Get(w, x).session == vt
  }

  /** A client that joins a seat with one client for each VT keeps it so exactly if
      no member has the VT it joins on.  A seat with an active client sees to that
      itself; a free one does not. */
  lemma JoiningKeepsOneClientPerVt(w: World, c: ClientId, env: Env)
    requires Settled(w) && w.vtBound && c in w.clients && OneClientPerVt(w) && AddClient(w, c, env).1
    ensures OneClientPerVt(AddClient(w, c, env).0) <==> !VtTaken(w, JoinVt(w, env))
    ensures w.active.Some? ==> OneClientPerVt(AddClient(w, c, env).0)
  {
    hide Settled, AddClient;
    AddClientExactly(w, c, env);
    NotSeatedNotMember(w, c);
    var w1, vt := AddClient(w, c, env).0, JoinVt(w, env);
    AddClientFrame(w, c, env);
    assert c in w1.members && Get(w1, c).session == vt;
    forall x | x in w.members ensures x in w1.members && Get(w1, x).session == Get(w, x).session {}
  }

  lemma NotSeatedNotMember(w: World, c: ClientId)
    requires Settled(w) && c in w.clients && !w.clients[c].seated
    ensures c !in w.members
  {
    hide History, OnlyBy, Roles, QueueOk;
  }

  lemma AddClientFrame(w: World, c: ClientId, env: Env)
    ensures forall x :: x != c ==> Get(AddClient(w, c, env).0, x) == Get(w, x)
    ensures !AddClient(w, c, env).1 ==> AddClient(w, c, env).0.members == w.members && Get(AddClient(w, c, env).0, c) == Get(w, c)
  {
    hide FindSession, Without;
  }

  /** Nobody came to the seat and no member's session changed. */
  ghost predicate NoNewcomers(w: World, w1: World) {
    forall x :: x in w1.members ==> x in w.members && Get(w1, x).session == Get(w, x).session
  }

  lemma NoNewcomersKeep(w: World, w1: World)
    requires NoNewcomers(w, w1) && OneClientPerVt(w)
    ensures OneClientPerVt(w1)
  {
  }

  lemma KeptSessions(w: World, w1: World, out: set<ClientId>)
    requires Mid(w, out) && SessionsKept(w, w1) && forall x :: x in w1.members ==> x in w.members
    ensures NoNewcomers(w, w1)
  {
    forall x | x in w1.members ensures x in w.members && Get(w1, x).session == Get(w, x).session {
      MemberFacts(w, x, out);
    }
  }

  lemma DestroyNoNewcomers(w: World, c: ClientId, env: Env)
    requires SettledBut(w, c)
    ensures NoNewcomers(w, Destroy(w, c, env))
    ensures c !in Destroy(w, c, env).members
  {
    hide Mid, RemoveClient, Without, RoleOk, Removed, SessionsKept;
    ClientFacts(w, c);
    MembersDistinct(w);
    WithoutRemoves(w.members, c);
    assert NoNewcomers(w, w);
    if w.clients[c].seated {
      RemoveClientKeeps(w, c, env);
      KeptSessions(w, RemoveClient(w, c, env), {});
      ForgottenIsNoMember(RemoveClient(w, c, env), Destroy(w, c, env), c);
    } else {
      ForgottenIsNoMember(w, Destroy(w, c, env), c);
    }
  }

  lemma ForgottenIsNoMember(w: World, w1: World, c: ClientId)
    requires c !in w.members && w1 == w.(clients := w.clients - {c}, idle := w1.idle)
    ensures forall x :: x in w1.members ==> x in w.members && Get(w1, x) == Get(w, x)
  {
  }

  lemma HandleNoNewcomers(w: World, c: ClientId, request: Request, env: Env)
    requires Settled(w) && c in w.clients && !request.OpenSeat?
    ensures NoNewcomers(w, Handle(w, c, request, env).0)
  {
    ClientFacts(w, c);
    MembersDistinct(w);
    hide Mid, HandleOpenDevice, CloseNth, RemoveClient, AckDisable, SetNextSession, NoNewcomers, Without;
    var w1 := Handle(w, c, request, env).0;
    assert NoNewcomers(w, w) by { KeptSessions(w, w, {}); }
    if w.clients[c].seated {
      match request {
        case CloseSeat =>
          RemoveClientKeeps(w, c, env);
          WithoutRemoves(w.members, c);
          KeptSessions(w, w1, {});
        case OpenDevice(_) =>
          HandleOpenDeviceKeeps(w, c, env);
          KeptSessions(w, w1, {});
        case CloseDevice(id) =>
          var k := FindDevice(w.clients[c].devices, id);
          if k.Some? {
            CloseDeviceKeeps(w, c, k.value, env);
            KeptSessions(w, w1, {});
          }
        case DisableSeat =>
          AckDisableKeeps(w, c, env);
          KeptSessions(w, w1, {});
        case SwitchSession(session) =>
          SetNextSessionKeeps(w, c, session, env);
          KeptSessions(w, w1, {});
        case Ping =>
      }
    }
  }

  lemma VtNoNewcomers(w: World, env: Env)
    requires Settled(w)
    ensures NoNewcomers(w, VtActivate(w, env)) && NoNewcomers(w, VtReleaseSeat(w, env))
  {
    hide Mid, UpdateVt, ActivateSeat, DisableClient, NoNewcomers;
    assert NoNewcomers(w, w) by { KeptSessions(w, w, {}); }
    if w.vtBound {
      UpdateVtKeeps(w, env);
      UpdateVtFrame(w, env);
      var w1 := UpdateVt(w, env);
      KeptSessions(w, VtActivate(w, env), {}) by {
        if w1.active == None {
          FreeWhenIdle(w1);
          ActivateSeatKeeps(w1, env, {});
        }
      }
      KeptSessions(w, VtReleaseSeat(w, env), {}) by {
        if w1.active.Some? { DisableFrame(w1, env); }
      }
    }
  }

  lemma FreeWhenIdle(w: World)
    requires Inv(w) && w.active == None
    ensures Free(w, {})
  {
  }

  /** A client joins on a VT that a member has, and stays. */
  ghost predicate Crowds(w: World, input: Input) {
    && input.Message? && input.client in w.clients && input.request.OpenSeat?
    && AddClient(w, input.client, input.env).1 && input.env.replies && input.env.flushes
    && VtTaken(w, JoinVt(w, input.env))
  }

  /** Joining and staying keeps one client for each VT exactly if the VT is free. */
  lemma OpenSeatOneClientPerVt(w: World, c: ClientId, env: Env, fin: Env)
    requires Settled(w) && w.vtBound && c in w.clients && OneClientPerVt(w)
    ensures var input := Message(c, OpenSeat, env, fin);
      OneClientPerVt(Step(w, input)) <==> !Crowds(w, input)
  {
    hide Settled, AddClient, OpenClient, Destroy, OneClientPerVt, NoNewcomers, SettledBut, SameSeating;
    var (w1, ok) := AddClient(w, c, env);
    OpenSeatKeeps(w, c, env);
    AddClientFrame(w, c, env);
    OpenSeatSeating(w, c, env);
    var w2 := HandleOpenSeat(w, c, env).0;
    if ok && env.replies && env.flushes {
      JoiningKeepsOneClientPerVt(w, c, env);
      SameSeatingKeeps(w1, w2);
    } else {
      DestroyNoNewcomers(w2, c, fin);
      AddClientExactly(w, c, env);
      LastOneOut(w, w1, w2, Destroy(w2, c, fin), c);
      NoNewcomersKeep(w, Destroy(w2, c, fin));
    }
  }

  /** The same members with the same sessions */
  ghost predicate SameSeating(w: World, w1: World) {
    w1.members == w.members && (forall x :: Get(w1, x).session == Get(w, x).session)
  }

  /** Opening the seat for the client changes no list and no session. */
  lemma OpenSeatSeating(w: World, c: ClientId, env: Env)
    requires Settled(w) && c in w.clients
    ensures SameSeating(AddClient(w, c, env).0, HandleOpenSeat(w, c, env).0)
  {
    AddClientKeeps(w, c, env);
    var (w1, ok) := AddClient(w, c, env);
    hide Mid, AddClient, OpenClient, SameSeating;
    assert SameSeating(w1, w1) by { SameSelf(w1); }
    if ok && env.replies {
      if w1.active.Some? {
        BusySeatRefuses(w1, c, env);
      } else {
        OpenClientKeeps(w1, c, env, {});
        FrameSeating(w1, OpenClient(w1, c, env).0, c);
      }
    }
  }

  lemma SameSelf(w: World)
    ensures SameSeating(w, w)
  {
  }

  lemma FrameSeating(w: World, w1: World, c: ClientId)
    requires ClientFrame(w, w1, c)
    ensures SameSeating(w, w1)
  {
  }

  lemma SameSeatingKeeps(w: World, w1: World)
    requires SameSeating(w, w1)
    ensures OneClientPerVt(w1) <==> OneClientPerVt(w)
  {
  }

  /** After adding and removing c the members are those of before. */
  lemma LastOneOut(w: World, w1: World, w2: World, w3: World, c: ClientId)
    requires forall x :: x in w1.members ==> x in w.members || x == c
    requires forall x :: x != c ==> Get(w1, x) == Get(w, x)
    requires SameSeating(w1, w2) && NoNewcomers(w2, w3) && c !in w3.members
    ensures NoNewcomers(w, w3)
  {
  }

  /** Of all that can happen, only joining on a taken VT and staying ends it. */
  lemma StepOneClientPerVt(w: World, input: Input)
    requires Settled(w) && w.vtBound && OneClientPerVt(w)
    ensures OneClientPerVt(Step(w, input)) <==> !Crowds(w, input)
  {
    hide Settled, SettledBut, Handle, Destroy, VtActivate, VtReleaseSeat, OneClientPerVt, NoNewcomers;
    match input {
      case Connect => SameSeatingKeeps(w, ConnectClient(w)) by { NewcomersAreNobody(w); }
      case Message(c, request, env, fin) =>
        if c in w.clients && request.OpenSeat? {
          OpenSeatOneClientPerVt(w, c, env, fin);
        } else if c in w.clients {
          HandleKeeps(w, c, request, env);
          HandleNoNewcomers(w, c, request, env);
          var (w1, ok) := Handle(w, c, request, env);
          NoNewcomersKeep(w, w1);
          if !(ok && env.flushes) {
            DestroyNoNewcomers(w1, c, fin);
            NoNewcomersKeep(w1, Destroy(w1, c, fin));
          }
        }
      case Disconnect(c, env) =>
        if c in w.clients {
          SettledIsSettledBut(w, c);
          DestroyNoNewcomers(w, c, env);
          NoNewcomersKeep(w, Destroy(w, c, env));
        }
      case VtAcquired(env) =>
        VtNoNewcomers(w, env);
        NoNewcomersKeep(w, VtActivate(w, env));
      case VtReleased(env) =>
        VtNoNewcomers(w, env);
        NoNewcomersKeep(w, VtReleaseSeat(w, env));
    }
  }

  lemma NewcomersAreNobody(w: World)
    requires Settled(w)
    ensures SameSeating(w, ConnectClient(w))
  {
    hide History, OnlyBy, Roles;
    assert w.nextId !in w.clients;
  }

  /** One client for each VT throughout a run */
  ghost predicate AlwaysOneClientPerVt(inputs: seq<Input>) {
    && OneClientPerVt(Run(Init(true), inputs))
    && (inputs != [] ==> AlwaysOneClientPerVt(inputs[..|inputs| - 1]))
  }

  ghost predicate NeverCrowds(inputs: seq<Input>) {
    inputs != [] ==>
      var before := inputs[..|inputs| - 1];
      NeverCrowds(before) && !Crowds(Run(Init(true), before), inputs[|inputs| - 1])
  }

  /** A run keeps one client for each VT throughout exactly if nobody ever joins on
      a taken VT and stays. */
  lemma {:induction false} OneClientPerVtInRuns(inputs: seq<Input>)
    ensures AlwaysOneClientPerVt(inputs) <==> NeverCrowds(inputs)
  {
    hide OneClientPerVt, Crowds, Step, Settled;
    if inputs == [] {
      NobodyYet();
    } else {
      var before := inputs[..|inputs| - 1];
      OneClientPerVtInRuns(before);
      AlwaysSettled(true, before);
      var w := Run(Init(true), before);
      if OneClientPerVt(w) { StepOneClientPerVt(w, inputs[|inputs| - 1]); }
    }
  }

  lemma NobodyYet()
    ensures OneClientPerVt(Init(true))
  {
  }
}
