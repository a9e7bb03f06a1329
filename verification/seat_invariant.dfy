/**
 The invariant of the daemon and its preservation by every operation.

 `History` ties the log to the clients and their device tables and does not
 mention the seat's lists, so it holds in the middle of a handover too.
 */
module SeatInvariant {
  import opened Logs
  import opened Options
  import opened SeatModel
  import opened SeatTrace

  // ----- device tables -----

  ghost predicate TableOk(ds: seq<Device>) {
    && |ds| <= MAX_SEAT_DEVICES
    && (forall i :: 0 <= i < |ds| ==> ds[i].id > 0 && ds[i].refCount >= 1)
    && (forall i, j :: 0 <= i < j < |ds| ==> ds[i].id > ds[j].id)
    && (forall i, j :: 0 <= i < j < |ds| ==> ds[i].path != ds[j].path)
    && (forall i, j :: 0 <= i < j < |ds| ==> ds[i].file > ds[j].file)
  }

  /** The open files of a table lie below the bound. */
  ghost predicate TableBelow(ds: seq<Device>, bound: nat) {
    forall i :: 0 <= i < |ds| ==> ds[i].file < bound
  }

  ghost predicate HasActive(ds: seq<Device>, f: nat) {
    exists k :: 0 <= k < |ds| && ds[k].file == f && ds[k].active
  }

  function RefsOf(d: Device, path: string): int {
    if d.path == path then d.refCount else 0
  }

  /** References held on a path by a table */
  function RefOf(ds: seq<Device>, path: string): int {
    if ds == [] then 0 else RefsOf(ds[0], path) + RefOf(ds[1..], path)
  }

  lemma {:induction false} RefOfConcat(a: seq<Device>, b: seq<Device>, path: string)
    ensures RefOf(a + b, path) == RefOf(a, path) + RefOf(b, path)
  {
    if a == [] {
      assert a + b == b;
    } else {
      RefOfConcat(a[1..], b, path);
      assert (a + b)[1..] == a[1..] + b;
    }
  }

  lemma RefOfUpdate(ds: seq<Device>, k: nat, d: Device, path: string)
    requires k < |ds|
    ensures RefOf(ds[k := d], path) == RefOf(ds, path) - RefsOf(ds[k], path) + RefsOf(d, path)
    ensures RefOf(ds[..k] + ds[k + 1..], path) == RefOf(ds, path) - RefsOf(ds[k], path)
  {
    assert ds == ds[..k] + ([ds[k]] + ds[k + 1..]);
    assert ds[k := d] == ds[..k] + ([d] + ds[k + 1..]);
    RefOfConcat(ds[..k], [ds[k]] + ds[k + 1..], path);
    RefOfConcat(ds[..k], [d] + ds[k + 1..], path);
    RefOfConcat(ds[..k], ds[k + 1..], path);
    RefOfConcat([ds[k]], ds[k + 1..], path);
    RefOfConcat([d], ds[k + 1..], path);
  }

  // ----- history -----

  /** File f has no entry in the table that a revoke could have been tried on. */
  ghost predicate OutOfReach(ds: seq<Device>, f: nat) {
    forall k :: 0 <= k < |ds| && ds[k].file == f ==> ds[k].kind == Wscons
  }

  /** The files client c has access to are those of the devices marked active in
      its table, and files out of reach that nobody wants it to have.  An active
      entry's access is wanted, or its revoke failed. */
  ghost predicate AccessMatches(ds: seq<Device>, g: Access, c: ClientId) {
    && (forall f :: (c, f) in g ==> HasActive(ds, f) || (g[(c, f)] != Wanted && OutOfReach(ds, f)))
    && (forall k :: 0 <= k < |ds| && ds[k].active ==> (c, ds[k].file) in g && g[(c, ds[k].file)] != Kept)
  }

  /** The log knows the open files of client c's table. */
  ghost predicate KindsTold(ds: seq<Device>, t: Trace, c: ClientId) {
    forall k :: 0 <= k < |ds| ==> OpenedAs(t, ds[k].file) == Some(Opened(c, ds[k].kind))
  }

  ghost predicate BalanceMatches(ds: seq<Device>, t: Trace, c: ClientId) {
    forall p :: Balance(t, c, p) == RefOf(ds, p)
  }

  ghost predicate LifeMatches(w: World, c: ClientId) {
    if c in w.clients then
      PhaseOf(w.log, c) == if w.clients[c].session == -1 then Unseen else In(w.clients[c].state)
    else
      && (PhaseOf(w.log, c) == Unseen || PhaseOf(w.log, c) == In(Closed))
      && (c >= w.nextId ==> PhaseOf(w.log, c) == Unseen)
  }

  ghost predicate ClientOk(w: World, c: ClientId) {
    && TableOk(Get(w, c).devices) && TableBelow(Get(w, c).devices, w.nextFile)
    && AccessMatches(Get(w, c).devices, AccessOf(w.log), c) && KindsTold(Get(w, c).devices, w.log, c)
    && BalanceMatches(Get(w, c).devices, w.log, c)
    && LifeMatches(w, c)
  }

  ghost predicate SessionsOk(w: World) {
    !w.vtBound ==>
      && 0 <= w.sessionCnt
      && JoinedBelow(w.log, w.sessionCnt)
      && (forall c :: c in w.clients ==> -1 <= w.clients[c].session < w.sessionCnt)
      && (forall c, x :: c in w.clients && x in w.clients && c != x && w.clients[c].session != -1
            ==> w.clients[c].session != w.clients[x].session)
  }

  ghost predicate History(w: World) {
    && Sound(w.log, w.vtBound)
    && (Released(w.log) ==> w.vtBound && w.curVt == -1)
    && SessionsOk(w)
    && FilesBelow(w.log, w.nextFile)
    && (forall c :: ClientOk(w, c))
  }

  /** An event that does not make a client active. */
  ghost predicate Calm(t: Trace, e: Event) {
    forall c :: PhaseOf(Then(t, e), c) == In(Active) ==> PhaseOf(t, c) == In(Active)
  }

  /** If access is wanted by at most the given client, it holds the seat or takes it. */
  ghost predicate Entitled(t: Trace, holder: Option<ClientId>) {
    OnlyBy(AccessOf(t), holder) && (holder.Some? ==> HoldsOrTakes(t, holder.value))
  }

  lemma EntitledFacts(t: Trace, holder: Option<ClientId>)
    requires Entitled(t, holder)
    ensures Exclusive(AccessOf(t)) && WantedByHolder(t)
  {
  }

  lemma SoundThen(t: Trace, e: Event, holder: Option<ClientId>, vtBound: bool)
    requires Sound(t, vtBound) && Entitled(Then(t, e), holder)
    requires Calm(t, e) || !Released(t)
    requires !e.VtRelease?
    requires e.Enable? && vtBound ==> e.session == e.vt
    requires KindRight(t, e)
    requires e.Grant? && !e.created ==> e.kind == Drm
    requires e.Grant? && e.created ==> FilesBelow(t, e.file)
    requires e.Join? && !vtBound ==> JoinedBelow(t, e.session)
    requires e.Disable? || e.Leave? ==> GivenUp(AccessOf(t), e.client)
    requires e.Drop? && (e.client, e.file) in AccessOf(t) ==> AccessOf(t)[(e.client, e.file)] != Wanted
    ensures Sound(Then(t, e), vtBound)
  {
    var t' := Then(t, e);
    EntitledFacts(t', holder);
    hide Exclusive, WantedByHolder, Entitled;
    assert Released(t') ==> Released(t);
    if Released(t') {
      assert t.Then? && NoneActive(t);
    }
  }

  lemma {:induction false} AccessBelow(t: Trace, bound: nat, c: ClientId, f: nat)
    requires FilesBelow(t, bound) && (c, f) in AccessOf(t)
    ensures f < bound
  {
    if (c, f) in AccessOf(t.before) { AccessBelow(t.before, bound, c, f); }
  }

  lemma {:induction false} OpenedBelow(t: Trace, bound: nat, f: nat)
    requires FilesBelow(t, bound) && OpenedAs(t, f).Some?
    ensures f < bound
  {
    if OpenedAs(t.before, f).Some? { OpenedBelow(t.before, bound, f); }
  }

  lemma {:induction false} FilesBelowMonotone(t: Trace, m: nat, n: nat)
    requires FilesBelow(t, m) && m <= n
    ensures FilesBelow(t, n)
  {
    if t.Then? { FilesBelowMonotone(t.before, m, n); }
  }

  lemma TableFacts(w: World, c: ClientId)
    requires History(w)
    ensures TableOk(Get(w, c).devices) && TableBelow(Get(w, c).devices, w.nextFile)
    ensures AccessMatches(Get(w, c).devices, AccessOf(w.log), c) && KindsTold(Get(w, c).devices, w.log, c)
  {
    assert ClientOk(w, c);
  }

  lemma LogFacts(w: World, c: ClientId)
    requires History(w)
    ensures Sound(w.log, w.vtBound) && FilesBelow(w.log, w.nextFile) && BalanceMatches(Get(w, c).devices, w.log, c)
  {
    hide Sound, FilesBelow, BalanceMatches, TableOk, TableBelow, AccessMatches, KindsTold, LifeMatches;
    assert ClientOk(w, c);
  }

  lemma KindAt(ds: seq<Device>, t: Trace, c: ClientId, k: nat)
    requires KindsTold(ds, t, c) && k < |ds|
    ensures OpenedAs(t, ds[k].file) == Some(Opened(c, ds[k].kind))
  {
  }

  lemma FileBelowAt(ds: seq<Device>, bound: nat, k: nat)
    requires TableBelow(ds, bound) && k < |ds|
    ensures ds[k].file < bound
  {
  }

  lemma FilesDiffer(ds: seq<Device>, k: nat)
    requires TableOk(ds) && k < |ds|
    ensures forall i :: 0 <= i < |ds| && ds[i].file == ds[k].file ==> i == k
  {
  }

  lemma WithdrawOnlyBy(g: Access, e: Event, holder: Option<ClientId>)
    requires OnlyBy(g, holder) && (e.Revoke? || e.Unmark?)
    ensures OnlyBy(AccessNext(g, e), holder)
  {
  }

  lemma LifeFacts(w: World, c: ClientId)
    requires History(w)
    ensures LifeMatches(w, c)
  {
    assert ClientOk(w, c);
  }

  // ----- device operations -----

  /** w1 differs from w only in the devices of client c and in the log. */
  ghost predicate DeviceFrame(w: World, w1: World, c: ClientId) {
    && c in w.clients
    && c in w1.clients
    && w1 == w.(clients := w.clients[c := w.clients[c].(devices := w1.clients[c].devices)], log := w1.log)
  }

  /** t1 extends t by events about the devices of client c only. */
  ghost predicate Neutral(t: Trace, t1: Trace, c: ClientId) {
    && (forall x :: PhaseOf(t1, x) == PhaseOf(t, x))
    && (Released(t1) == Released(t))
    && (forall n :: JoinedBelow(t, n) ==> JoinedBelow(t1, n))
    && (forall x, f :: x != c ==> ((x, f) in AccessOf(t1) <==> (x, f) in AccessOf(t)))
    && (forall x, f :: x != c && (x, f) in AccessOf(t1) ==> AccessOf(t1)[(x, f)] == AccessOf(t)[(x, f)])
    && (forall x, p :: x != c ==> Balance(t1, x, p) == Balance(t, x, p))
    && (forall f :: OpenedAs(t, f).Some? ==> OpenedAs(t1, f) == OpenedAs(t, f))
  }

  /** Device bookkeeping of one client leaves the history of all others alone. */
  lemma DeviceStepKeeps(w: World, w1: World, c: ClientId)
    requires History(w)
    requires DeviceFrame(w, w1, c) && Neutral(w.log, w1.log, c)
    requires Sound(w1.log, w1.vtBound) && FilesBelow(w1.log, w1.nextFile)
    requires TableOk(w1.clients[c].devices) && TableBelow(w1.clients[c].devices, w1.nextFile)
    requires AccessMatches(w1.clients[c].devices, AccessOf(w1.log), c) && KindsTold(w1.clients[c].devices, w1.log, c)
    requires BalanceMatches(w1.clients[c].devices, w1.log, c)
    ensures History(w1)
  {
    assert SessionsOk(w1) by {
      forall x | x in w1.clients ensures x in w.clients && w1.clients[x].session == w.clients[x].session {}
    }
    forall x ensures ClientOk(w1, x) {
      assert ClientOk(w, x);
      if x != c {
        assert Get(w1, x) == Get(w, x);
      } else {
        assert LifeMatches(w, c);
      }
    }
  }

  /** An event about the devices of client c that fits c's phase. */
  ghost predicate DeviceEvent(t: Trace, e: Event, c: ClientId) {
    match e
    case Drop(x, f) => x == c && ((c, f) in AccessOf(t) ==> AccessOf(t)[(c, f)] != Wanted)
    case Revoke(x, _, _) => x == c && KindRight(t, e)
    case Unmark(x, _) => x == c && KindRight(t, e)
    case Unref(x, _) => x == c
    case Ref(x, _) => x == c && PhaseOf(t, c) == In(Active)
    case Grant(x, f, kind, created) =>
      && x == c && PhaseOf(t, c) == In(if created then Active else Disabled)
      && if created then FilesBelow(t, f) else kind == Drm
    case _ => false
  }

  /** How a device event changes the references c holds on a path */
  function RefDelta(e: Event, path: string): int {
    if e.Ref? && e.path == path then 1 else if e.Unref? && e.path == path then -1 else 0
  }

  lemma DeviceEventNeutral(t: Trace, e: Event, c: ClientId)
    requires DeviceEvent(t, e, c)
    ensures Neutral(t, Then(t, e), c)
    ensures forall p :: Balance(Then(t, e), c, p) == Balance(t, c, p) + RefDelta(e, p)
  {
  }

  /** Who is active, and what it takes for c's next device event. */
  ghost predicate Ready(t: Trace, e: Event, c: ClientId, holder: Option<ClientId>) {
    holder.Some? ==> PhaseOf(t, holder.value) == In(Active) || (holder == Some(c) && e.Grant? && !e.created)
  }

  lemma DeviceEventSound(t: Trace, e: Event, c: ClientId, holder: Option<ClientId>, vtBound: bool)
    requires DeviceEvent(t, e, c) && Ready(t, e, c, holder)
    requires Sound(t, vtBound) && OnlyBy(AccessNext(AccessOf(t), e), holder)
    ensures Sound(Then(t, e), vtBound)
  {
    hide Sound;
    assert AccessOf(Then(t, e)) == AccessNext(AccessOf(t), e);
    SoundThen(t, e, holder, vtBound);
  }

  /** One device event with the matching change of c's table keeps the history. */
  lemma DeviceEventKeeps(w: World, c: ClientId, ds1: seq<Device>, e: Event, holder: Option<ClientId>)
    requires c in w.clients && History(w)
    requires DeviceEvent(w.log, e, c) && Ready(w.log, e, c, holder) && FileBelow(e, w.nextFile)
    requires OnlyBy(AccessNext(AccessOf(w.log), e), holder)
    requires TableOk(ds1) && TableBelow(ds1, w.nextFile)
    requires AccessMatches(ds1, AccessNext(AccessOf(w.log), e), c) && KindsTold(ds1, w.log, c)
    requires forall p :: RefOf(ds1, p) == RefOf(w.clients[c].devices, p) + RefDelta(e, p)
    ensures History(Emit(SetDevices(w, c, ds1), e))
    ensures DeviceFrame(w, Emit(SetDevices(w, c, ds1), e), c)
    ensures forall x :: PhaseOf(Then(w.log, e), x) == PhaseOf(w.log, x)
  {
    var w1 := Emit(SetDevices(w, c, ds1), e);
    DeviceEventNeutral(w.log, e, c);
    DeviceEventSound(w.log, e, c, holder, w.vtBound);
    assert ClientOk(w, c);
    assert BalanceMatches(ds1, w1.log, c);
    DeviceStepKeeps(w, w1, c);
  }

  /** The mark after a withdrawal: only a failed revoke leaves it. */
  predicate StaysMarked(d: Device, fails: set<int>) {
    d.kind != Wscons && d.id in fails
  }

  lemma DeactivateMatches(ds: seq<Device>, g: Access, c: ClientId, k: nat, fails: set<int>)
    requires k < |ds| && ds[k].active && TableOk(ds) && AccessMatches(ds, g, c)
    ensures AccessMatches(ds[k := ds[k].(active := StaysMarked(ds[k], fails))], AccessNext(g, Withdraw(c, ds[k], fails)), c)
  {
    FilesDiffer(ds, k);
    hide TableOk;
    var ds1, g1 := ds[k := ds[k].(active := StaysMarked(ds[k], fails))], AccessNext(g, Withdraw(c, ds[k], fails));
    assert forall i :: 0 <= i < |ds| ==> ds1[i].file == ds[i].file && ds1[i].kind == ds[i].kind;
    forall f | (c, f) in g1 ensures HasActive(ds1, f) || (g1[(c, f)] != Wanted && OutOfReach(ds1, f)) {
      if f == ds[k].file {
        assert ds1[k].file == f;
      } else if HasActive(ds, f) {
        var j :| 0 <= j < |ds| && ds[j].file == f && ds[j].active;
        assert ds1[j] == ds[j];
      }
    }
  }

  /** Switching a device on or off changes neither the table's order nor its references. */
  lemma SwitchTable(ds: seq<Device>, k: nat, on: bool, bound: nat, t: Trace, c: ClientId)
    requires k < |ds| && TableOk(ds) && TableBelow(ds, bound)
    ensures var ds1 := ds[k := ds[k].(active := on)];
      && TableOk(ds1) && TableBelow(ds1, bound) && ds[k].file < bound && (KindsTold(ds, t, c) ==> KindsTold(ds1, t, c))
      && forall p :: RefOf(ds1, p) == RefOf(ds, p)
  {
    var ds1 := ds[k := ds[k].(active := on)];
    forall p ensures RefOf(ds1, p) == RefOf(ds, p) {
      RefOfUpdate(ds, k, ds1[k], p);
    }
  }

  /** Each of c's first k devices is off, or its revoke failed. */
  ghost predicate Surrendered(w: World, c: ClientId, k: nat) {
    forall j :: 0 <= j < k && j < |Get(w, c).devices| && Get(w, c).devices[j].active
      ==> (c, Get(w, c).devices[j].file) in AccessOf(w.log) && AccessOf(w.log)[(c, Get(w, c).devices[j].file)] != Wanted
  }

  lemma DeactivateHistory(w: World, c: ClientId, k: nat, fails: set<int>)
    requires c in w.clients && k < |w.clients[c].devices| && w.clients[c].devices[k].active
    requires History(w) && OnlyBy(AccessOf(w.log), Some(c)) && PhaseOf(w.log, c) == In(Active)
    ensures var ds := w.clients[c].devices;
      var w1 := Emit(SetDevices(w, c, ds[k := ds[k].(active := StaysMarked(ds[k], fails))]), Withdraw(c, ds[k], fails));
      && History(w1) && OnlyBy(AccessOf(w1.log), Some(c)) && DeviceFrame(w, w1, c)
      && PhaseOf(w1.log, c) == In(Active)
  {
    hide History, TableOk, TableBelow, AccessMatches, KindsTold, OpenedAs, OnlyBy, RefOf;
    var ds := w.clients[c].devices;
    var ds1 := ds[k := ds[k].(active := StaysMarked(ds[k], fails))];
    TableFacts(w, c);
    DeactivateMatches(ds, AccessOf(w.log), c, k, fails);
    SwitchTable(ds, k, StaysMarked(ds[k], fails), w.nextFile, w.log, c);
    KindAt(ds, w.log, c, k);
    WithdrawOnlyBy(AccessOf(w.log), Withdraw(c, ds[k], fails), Some(c));
    DeviceEventKeeps(w, c, ds1, Withdraw(c, ds[k], fails), Some(c));
  }

  lemma DeactivateValue(w: World, c: ClientId, k: nat, fails: set<int>)
    requires c in w.clients && k < |w.clients[c].devices|
    ensures var ds := w.clients[c].devices;
      DeactivateDevice(w, c, k, fails) ==
        if ds[k].active then Emit(SetDevices(w, c, ds[k := ds[k].(active := StaysMarked(ds[k], fails))]), Withdraw(c, ds[k], fails))
        else w
  {
    var ds := w.clients[c].devices;
    assert ds[k := ds[k]] == ds && w.clients[c := w.clients[c]] == w.clients;
  }

  lemma DeactivateDeviceKeeps(w: World, c: ClientId, k: nat, fails: set<int>)
    requires c in w.clients && k < |w.clients[c].devices|
    requires History(w) && OnlyBy(AccessOf(w.log), Some(c)) && PhaseOf(w.log, c) == In(Active)
    requires Surrendered(w, c, k)
    ensures var w1 := DeactivateDevice(w, c, k, fails);
      && History(w1) && OnlyBy(AccessOf(w1.log), Some(c)) && PhaseOf(w1.log, c) == In(Active)
      && DeviceFrame(w, w1, c)
      && |w1.clients[c].devices| == |w.clients[c].devices|
      && Surrendered(w1, c, k + 1)
  {
    hide History, DeactivateDevice, OnlyBy;
    var d := w.clients[c].devices[k];
    DeactivateValue(w, c, k, fails);
    TableFacts(w, c);
    if d.active {
      DeactivateHistory(w, c, k, fails);
    } else {
      assert w.clients[c := w.clients[c]] == w.clients;
    }
  }

  lemma {:induction false} DeactivateFromKeeps(w: World, c: ClientId, k: nat, fails: set<int>)
    requires c in w.clients && k <= |w.clients[c].devices|
    requires History(w) && OnlyBy(AccessOf(w.log), Some(c)) && PhaseOf(w.log, c) == In(Active)
    requires Surrendered(w, c, k)
    ensures var w1 := DeactivateFrom(w, c, k, fails);
      History(w1) && OnlyBy(AccessOf(w1.log), None) && DeviceFrame(w, w1, c)
    decreases |w.clients[c].devices| - k
  {
    hide History;
    var ds := w.clients[c].devices;
    if k == |ds| {
      assert w.clients[c := w.clients[c]] == w.clients;
      TableFacts(w, c);
      forall f | (c, f) in AccessOf(w.log) ensures AccessOf(w.log)[(c, f)] != Wanted {
        if HasActive(ds, f) {
          var j :| 0 <= j < |ds| && ds[j].file == f && ds[j].active;
        }
      }
    } else {
      DeactivateDeviceKeeps(w, c, k, fails);
      DeactivateFromKeeps(DeactivateDevice(w, c, k, fails), c, k + 1, fails);
    }
  }

  lemma ActivateMatches(ds: seq<Device>, g: Access, c: ClientId, k: nat)
    requires k < |ds| && AccessMatches(ds, g, c)
    ensures AccessMatches(ds[k := ds[k].(active := true)], g[(c, ds[k].file) := Wanted], c)
  {
    var ds1, g1 := ds[k := ds[k].(active := true)], g[(c, ds[k].file) := Wanted];
    assert forall i :: 0 <= i < |ds| ==> ds1[i].file == ds[i].file && ds1[i].kind == ds[i].kind;
    forall f | (c, f) in g1 ensures HasActive(ds1, f) || (g1[(c, f)] != Wanted && OutOfReach(ds1, f)) {
      if f == ds[k].file {
        assert ds1[k].active;
      } else if HasActive(ds, f) {
        var j :| 0 <= j < |ds| && ds[j].file == f && ds[j].active;
        assert ds1[j].file == f && ds1[j].active;
      }
    }
  }

  lemma ActivateDeviceKeeps(w: World, c: ClientId, k: nat)
    requires c in w.clients && k < |w.clients[c].devices|
    requires PhaseOf(w.log, c) == In(Disabled)
    requires History(w) && OnlyBy(AccessOf(w.log), Some(c))
    ensures var w1 := ActivateDevice(w, c, k);
      && History(w1) && OnlyBy(AccessOf(w1.log), Some(c)) && DeviceFrame(w, w1, c)
      && PhaseOf(w1.log, c) == In(Disabled)
      && |w1.clients[c].devices| == |w.clients[c].devices|
  {
    hide History, TableOk, TableBelow, AccessMatches, KindsTold, OpenedAs, OnlyBy, RefOf;
    assert w.clients[c := w.clients[c]] == w.clients;
    var ds := w.clients[c].devices;
    var d := ds[k];
    if !d.active && d.kind == Drm {
      var ds1 := ds[k := d.(active := true)];
      TableFacts(w, c);
      ActivateMatches(ds, AccessOf(w.log), c, k);
      SwitchTable(ds, k, true, w.nextFile, w.log, c);
      GrantOnlyBy(AccessOf(w.log), c, d.file);
      DeviceEventKeeps(w, c, ds1, Grant(c, d.file, d.kind, false), Some(c));
    }
  }

  lemma {:induction false} ActivateFromKeeps(w: World, c: ClientId, k: nat)
    requires c in w.clients && k <= |w.clients[c].devices|
    requires PhaseOf(w.log, c) == In(Disabled) || w.clients[c].devices == []
    requires History(w) && OnlyBy(AccessOf(w.log), Some(c))
    ensures var w1 := ActivateFrom(w, c, k);
      && History(w1) && OnlyBy(AccessOf(w1.log), Some(c)) && DeviceFrame(w, w1, c)
      && PhaseOf(w1.log, c) == PhaseOf(w.log, c)
    decreases |w.clients[c].devices| - k
  {
    hide History, OnlyBy;
    if k == |w.clients[c].devices| {
      assert w.clients[c := w.clients[c]] == w.clients;
    } else {
      ActivateDeviceKeeps(w, c, k);
      ActivateFromKeeps(ActivateDevice(w, c, k), c, k + 1);
    }
  }

  // ----- closing devices -----

  /** The holder, if any, is active. */
  ghost predicate HolderActive(t: Trace, holder: Option<ClientId>) {
    OnlyBy(AccessOf(t), holder) && (holder.Some? ==> PhaseOf(t, holder.value) == In(Active))
  }

  lemma UnrefKeeps(w: World, c: ClientId, k: nat, holder: Option<ClientId>)
    requires c in w.clients && k < |w.clients[c].devices| && w.clients[c].devices[k].refCount > 1
    requires History(w) && HolderActive(w.log, holder)
    ensures var ds := w.clients[c].devices;
      var w1 := Emit(SetDevices(w, c, ds[k := ds[k].(refCount := ds[k].refCount - 1)]), Unref(c, ds[k].path));
      History(w1) && DeviceFrame(w, w1, c) && HolderActive(w1.log, holder)
  {
    hide History, TableOk, TableBelow, AccessMatches, KindsTold, OpenedAs, OnlyBy, RefOf;
    var ds := w.clients[c].devices;
    var d := ds[k].(refCount := ds[k].refCount - 1);
    TableFacts(w, c);
    RefChangeKeeps(ds, AccessOf(w.log), w.log, w.nextFile, c, k, d.refCount);
    DeviceEventKeeps(w, c, ds[k := d], Unref(c, d.path), holder);
  }

  /** Another count keeps the table, and only the count of the path changes. */
  lemma RefChangeKeeps(ds: seq<Device>, g: Access, t: Trace, bound: nat, c: ClientId, k: nat, n: int)
    requires k < |ds| && n >= 1 && TableOk(ds) && TableBelow(ds, bound) && AccessMatches(ds, g, c) && KindsTold(ds, t, c)
    ensures var ds1 := ds[k := ds[k].(refCount := n)];
      && TableOk(ds1) && TableBelow(ds1, bound) && AccessMatches(ds1, g, c) && KindsTold(ds1, t, c)
      && forall p :: RefOf(ds1, p) == RefOf(ds, p) + if p == ds[k].path then n - ds[k].refCount else 0
  {
    var ds1 := ds[k := ds[k].(refCount := n)];
    RefChangeMatches(ds, g, c, k, ds1[k]);
    hide AccessMatches, RefOf, OpenedAs;
    forall p ensures RefOf(ds1, p) == RefOf(ds, p) + if p == ds[k].path then n - ds[k].refCount else 0 {
      RefOfUpdate(ds, k, ds1[k], p);
    }
  }

  lemma RefChangeMatches(ds: seq<Device>, g: Access, c: ClientId, k: nat, d: Device)
    requires k < |ds| && d == ds[k].(refCount := d.refCount) && AccessMatches(ds, g, c)
    ensures AccessMatches(ds[k := d], g, c)
  {
    var ds1 := ds[k := d];
    assert forall i :: 0 <= i < |ds| ==> ds1[i].file == ds[i].file && ds1[i].kind == ds[i].kind && ds1[i].active == ds[i].active;
    forall f | (c, f) in g ensures HasActive(ds1, f) || (g[(c, f)] != Wanted && OutOfReach(ds1, f)) {
      if HasActive(ds, f) {
        var j :| 0 <= j < |ds| && ds[j].file == f && ds[j].active;
        assert ds1[j].file == f && ds1[j].active;
      }
    }
  }

  /** What is left of the access to a closed device: nothing if its revoke worked, all of it if not. */
  function AfterClose(g: Access, c: ClientId, d: Device, fails: set<int>): Access {
    if d.active then AccessNext(g, Withdraw(c, d, fails)) else g
  }

  lemma DropMatches(ds: seq<Device>, g: Access, c: ClientId, k: nat, fails: set<int>)
    requires k < |ds| && TableOk(ds) && AccessMatches(ds, g, c)
    ensures AccessMatches(ds[..k] + ds[k + 1..], AfterClose(g, c, ds[k], fails), c)
    ensures !ds[k].active && (c, ds[k].file) in g ==> g[(c, ds[k].file)] != Wanted
  {
    FilesDiffer(ds, k);
    hide TableOk;
    var ds1, g1 := ds[..k] + ds[k + 1..], AfterClose(g, c, ds[k], fails);
    forall i | 0 <= i < |ds1| ensures ds1[i] == ds[if i < k then i else i + 1] {}
    forall f | (c, f) in g1 ensures HasActive(ds1, f) || (g1[(c, f)] != Wanted && OutOfReach(ds1, f)) {
      if f != ds[k].file && HasActive(ds, f) {
        var j :| 0 <= j < |ds| && ds[j].file == f && ds[j].active;
        assert ds1[if j < k then j else j - 1] == ds[j];
      }
    }
  }

  lemma DropTable(ds: seq<Device>, k: nat, bound: nat, t: Trace, c: ClientId)
    requires k < |ds| && TableOk(ds) && TableBelow(ds, bound) && KindsTold(ds, t, c)
    ensures var ds1 := ds[..k] + ds[k + 1..];
      TableOk(ds1) && TableBelow(ds1, bound) && KindsTold(ds1, t, c)
  {
    hide OpenedAs;
    var ds1 := ds[..k] + ds[k + 1..];
    forall i | 0 <= i < |ds1| ensures ds1[i] == ds[if i < k then i else i + 1] {}
  }

  /** The log after the last close of device d of client c */
  function LastCloseLog(t: Trace, c: ClientId, d: Device, fails: set<int>): Trace {
    var t1 := Then(t, Unref(c, d.path));
    var t2 := if d.active then Then(t1, Withdraw(c, d, fails)) else t1;
    Then(t2, Drop(c, d.file))
  }

  /** The access ends exactly if the revoke works. */
  lemma LastCloseLogFacts(t: Trace, c: ClientId, d: Device, fails: set<int>, holder: Option<ClientId>, bound: nat, vtBound: bool)
    requires Sound(t, vtBound) && HolderActive(t, holder)
    requires !d.active && (c, d.file) in AccessOf(t) ==> AccessOf(t)[(c, d.file)] != Wanted
    requires FilesBelow(t, bound) && d.file < bound && OpenedAs(t, d.file) == Some(Opened(c, d.kind))
    ensures var t3 := LastCloseLog(t, c, d, fails);
      && Neutral(t, t3, c) && FilesBelow(t3, bound)
      && Sound(t3, vtBound)
      && AccessOf(t3) == AfterClose(AccessOf(t), c, d, fails)
      && forall p :: Balance(t3, c, p) == Balance(t, c, p) + RefDelta(Unref(c, d.path), p)
  {
    hide Sound, Neutral;
    var t1 := Then(t, Unref(c, d.path));
    var t2 := if d.active then Then(t1, Withdraw(c, d, fails)) else t1;
    DeviceEventSound(t, t1.event, c, holder, vtBound);
    DeviceEventNeutral(t, t1.event, c);
    if d.active {
      DeviceEventSound(t1, t2.event, c, holder, vtBound);
      DeviceEventNeutral(t1, t2.event, c);
      NeutralTransitive(t, t1, t2, c);
    }
    assert FilesBelow(t1, bound) && FilesBelow(t2, bound);
    DeviceEventSound(t2, Drop(c, d.file), c, holder, vtBound);
    DeviceEventNeutral(t2, Drop(c, d.file), c);
    NeutralTransitive(t, t2, Then(t2, Drop(c, d.file)), c);
  }

  lemma NeutralTransitive(t: Trace, t1: Trace, t2: Trace, c: ClientId)
    requires Neutral(t, t1, c) && Neutral(t1, t2, c)
    ensures Neutral(t, t2, c)
  {
  }

  lemma KindsLater(ds: seq<Device>, t: Trace, t1: Trace, c: ClientId)
    requires Neutral(t, t1, c) && KindsTold(ds, t, c)
    ensures KindsTold(ds, t1, c)
  {
  }

  lemma NeutralPhases(t: Trace, t1: Trace, c: ClientId, holder: Option<ClientId>)
    requires Neutral(t, t1, c) && HolderActive(t, holder) && OnlyBy(AccessOf(t1), holder)
    ensures HolderActive(t1, holder)
  {
  }

  lemma AfterCloseOnlyBy(g: Access, c: ClientId, d: Device, fails: set<int>, holder: Option<ClientId>)
    requires OnlyBy(g, holder)
    ensures OnlyBy(AfterClose(g, c, d, fails), holder)
  {
  }

  lemma LastCloseValue(w: World, c: ClientId, k: nat, fails: set<int>)
    requires c in w.clients && k < |w.clients[c].devices| && w.clients[c].devices[k].refCount == 1
    ensures var ds := w.clients[c].devices;
      CloseNth(w, c, k, fails) ==
        SetDevices(w, c, ds[..k] + ds[k + 1..]).(log := LastCloseLog(w.log, c, ds[k], fails))
  {
    var ds := w.clients[c].devices;
    var ds0 := ds[k := ds[k].(refCount := 0)];
    assert ds0[..k] + ds0[k + 1..] == ds[..k] + ds[k + 1..];
  }

  lemma LastCloseKeeps(w: World, c: ClientId, k: nat, fails: set<int>, holder: Option<ClientId>)
    requires c in w.clients && k < |w.clients[c].devices| && w.clients[c].devices[k].refCount == 1
    requires History(w) && HolderActive(w.log, holder)
    ensures var w1 := CloseNth(w, c, k, fails);
      && History(w1) && HolderActive(w1.log, holder) && DeviceFrame(w, w1, c)
      && w1.clients[c].devices == w.clients[c].devices[..k] + w.clients[c].devices[k + 1..]
      && AccessOf(w1.log) == AfterClose(AccessOf(w.log), c, w.clients[c].devices[k], fails)
  {
    hide History, Neutral, Sound, CloseNth, LastCloseLog, FilesBelow, TableOk, TableBelow, AccessMatches, AfterClose, OnlyBy, KindsTold, OpenedAs;
    var ds := w.clients[c].devices;
    var w1 := CloseNth(w, c, k, fails);
    var ds1 := ds[..k] + ds[k + 1..];
    LogFacts(w, c);
    LastCloseValue(w, c, k, fails);
    TableFacts(w, c);
    DropMatches(ds, AccessOf(w.log), c, k, fails);
    DropTable(ds, k, w.nextFile, w.log, c);
    KindAt(ds, w.log, c, k);
    FileBelowAt(ds, w.nextFile, k);
    LastCloseLogFacts(w.log, c, ds[k], fails, holder, w.nextFile, w.vtBound);
    AfterCloseOnlyBy(AccessOf(w.log), c, ds[k], fails, holder);
    KindsLater(ds1, w.log, w1.log, c);
    NeutralPhases(w.log, w1.log, c, holder);
    forall p ensures Balance(w1.log, c, p) == RefOf(ds1, p) {
      RefOfUpdate(ds, k, ds[k], p);
    }
    DeviceStepKeeps(w, w1, c);
  }

  lemma CloseNthKeeps(w: World, c: ClientId, k: nat, fails: set<int>, holder: Option<ClientId>)
    requires c in w.clients && k < |w.clients[c].devices|
    requires History(w) && HolderActive(w.log, holder)
    ensures var w1 := CloseNth(w, c, k, fails);
      && History(w1) && HolderActive(w1.log, holder) && DeviceFrame(w, w1, c)
  {
    hide History;
    TableFacts(w, c);
    if w.clients[c].devices[k].refCount > 1 {
      UnrefKeeps(w, c, k, holder);
    } else {
      LastCloseKeeps(w, c, k, fails, holder);
    }
  }

  lemma {:induction false} TeardownKeeps(w: World, c: ClientId, fails: set<int>, holder: Option<ClientId>)
    requires c in w.clients
    requires History(w) && HolderActive(w.log, holder)
    ensures var w1 := Teardown(w, c, fails);
      && History(w1) && HolderActive(w1.log, holder) && DeviceFrame(w, w1, c)
      && w1.clients[c].devices == []
    decreases TotalRefs(w.clients[c].devices)
  {
    hide History, HolderActive, CloseNth;
    if w.clients[c].devices == [] {
      assert w.clients[c := w.clients[c]] == w.clients;
    } else {
      CloseNthKeeps(w, c, 0, fails, holder);
      CloseShrinks(w, c, fails);
      TeardownKeeps(CloseNth(w, c, 0, fails), c, fails, holder);
    }
  }

  // ----- opening devices -----

  lemma {:induction false} FreshIdAbove(ds: seq<Device>, id: int)
    ensures FreshId(ds, id) >= id
    ensures forall i :: 0 <= i < |ds| ==> FreshId(ds, id) > ds[i].id
  {
    if ds != [] {
      FreshIdAbove(ds[1..], if ds[0].id >= id then ds[0].id + 1 else id);
      assert forall i :: 1 <= i < |ds| ==> ds[i] == ds[1..][i - 1];
    }
  }

  lemma {:induction false} FindPathIsFirst(ds: seq<Device>, path: string)
    ensures match FindPath(ds, path)
      case None => forall i :: 0 <= i < |ds| ==> ds[i].path != path
      case Some(k) => ds[k].path == path && forall i :: 0 <= i < k ==> ds[i].path != path
  {
    if ds != [] && ds[0].path != path {
      FindPathIsFirst(ds[1..], path);
      assert forall i :: 1 <= i < |ds| ==> ds[i] == ds[1..][i - 1];
    }
  }

  lemma ReopenKeeps(w: World, c: ClientId, k: nat, holder: Option<ClientId>)
    requires c in w.clients && k < |w.clients[c].devices|
    requires PhaseOf(w.log, c) == In(Active)
    requires History(w) && HolderActive(w.log, holder)
    ensures var ds := w.clients[c].devices;
      var w1 := Emit(SetDevices(w, c, ds[k := ds[k].(refCount := ds[k].refCount + 1)]), Ref(c, ds[k].path));
      History(w1) && DeviceFrame(w, w1, c) && AccessOf(w1.log) == AccessOf(w.log)
  {
    var ds := w.clients[c].devices;
    var d := ds[k].(refCount := ds[k].refCount + 1);
    TableFacts(w, c);
    assert d.refCount >= 1;
    hide History, TableOk, TableBelow, AccessMatches, KindsTold, OpenedAs, OnlyBy, RefOf;
    RefChangeKeeps(ds, AccessOf(w.log), w.log, w.nextFile, c, k, d.refCount);
    DeviceEventKeeps(w, c, ds[k := d], Ref(c, d.path), holder);
  }

  lemma NewDeviceMatches(ds: seq<Device>, g: Access, c: ClientId, d: Device)
    requires AccessMatches(ds, g, c) && d.active && (c, d.file) !in g
    ensures AccessMatches([d] + ds, g[(c, d.file) := Wanted], c)
  {
    var ds1, g1 := [d] + ds, g[(c, d.file) := Wanted];
    forall i | 1 <= i < |ds1| ensures ds1[i] == ds[i - 1] {}
    forall f | (c, f) in g1 ensures HasActive(ds1, f) || (g1[(c, f)] != Wanted && OutOfReach(ds1, f)) {
      if f == d.file {
        assert ds1[0].active;
      } else if HasActive(ds, f) {
        var j :| 0 <= j < |ds| && ds[j].file == f && ds[j].active;
        assert ds1[j + 1] == ds[j];
      }
    }
  }

  lemma NewDeviceBalance(ds: seq<Device>, t: Trace, t1: Trace, c: ClientId, d: Device)
    requires BalanceMatches(ds, t, c) && d.refCount == 1
    requires forall p :: Balance(t1, c, p) == Balance(t, c, p) + if p == d.path then 1 else 0
    ensures BalanceMatches([d] + ds, t1, c)
  {
    hide Balance;
    forall p ensures Balance(t1, c, p) == RefOf([d] + ds, p) {
      RefOfConcat([d], ds, p);
    }
  }

  lemma MoreTable(ds: seq<Device>, d: Device)
    requires TableBelow(ds, d.file)
    ensures TableBelow([d] + ds, d.file + 1)
  {
  }

  lemma GrantOnlyBy(g: Access, c: ClientId, f: nat)
    requires OnlyBy(g, Some(c))
    ensures OnlyBy(g[(c, f) := Wanted], Some(c))
  {
  }

  lemma NewDeviceKinds(ds: seq<Device>, t: Trace, t1: Trace, c: ClientId, d: Device)
    requires KindsTold(ds, t, c) && Neutral(t, t1, c) && OpenedAs(t1, d.file) == Some(Opened(c, d.kind))
    ensures KindsTold([d] + ds, t1, c)
  {
  }

  /** More room for names changes nothing. */
  lemma MoreFiles(w: World, n: nat)
    requires History(w) && w.nextFile <= n
    ensures History(w.(nextFile := n))
  {
    var w1 := w.(nextFile := n);
    FilesBelowMonotone(w.log, w.nextFile, n);
    forall x ensures ClientOk(w1, x) { assert ClientOk(w, x); }
  }

  lemma NewDeviceLog(t: Trace, c: ClientId, d: Device, vtBound: bool)
    requires Sound(t, vtBound) && OnlyBy(AccessOf(t), Some(c)) && PhaseOf(t, c) == In(Active)
    requires FilesBelow(t, d.file)
    ensures var t2 := Then(Then(t, Ref(c, d.path)), Grant(c, d.file, d.kind, true));
      && Neutral(t, t2, c) && Sound(t2, vtBound) && FilesBelow(t2, d.file + 1)
      && AccessOf(t2) == AccessOf(t)[(c, d.file) := Wanted] && OpenedAs(t2, d.file) == Some(Opened(c, d.kind))
      && forall p :: Balance(t2, c, p) == Balance(t, c, p) + if p == d.path then 1 else 0
  {
    hide Neutral, Sound;
    var t1 := Then(t, Ref(c, d.path));
    var t2 := Then(t1, Grant(c, d.file, d.kind, true));
    DeviceEventNeutral(t, t1.event, c);
    DeviceEventSound(t, t1.event, c, Some(c), vtBound);
    DeviceEventNeutral(t1, t2.event, c);
    DeviceEventSound(t1, t2.event, c, Some(c), vtBound);
    NeutralTransitive(t, t1, t2, c);
    FilesBelowMonotone(t, d.file, d.file + 1);
    if OpenedAs(t, d.file).Some? { OpenedBelow(t, d.file, d.file); }
    assert OpenedAs(t1, d.file) == None;
  }

  lemma NewDeviceKeeps(w: World, c: ClientId, d: Device)
    requires c in w.clients && PhaseOf(w.log, c) == In(Active)
    requires History(w) && OnlyBy(AccessOf(w.log), Some(c))
    requires d.refCount == 1 && d.active && TableOk([d] + w.clients[c].devices) && d.file == w.nextFile
    ensures var w1 := Emit(Emit(SetDevices(w.(nextFile := d.file + 1), c, [d] + w.clients[c].devices), Ref(c, d.path)),
                           Grant(c, d.file, d.kind, true));
      && History(w1) && OnlyBy(AccessOf(w1.log), Some(c)) && DeviceFrame(w.(nextFile := d.file + 1), w1, c)
  {
    var ds := w.clients[c].devices;
    var ds1 := [d] + ds;
    var w0 := w.(nextFile := d.file + 1);
    var w1 := Emit(Emit(SetDevices(w0, c, ds1), Ref(c, d.path)), Grant(c, d.file, d.kind, true));
    hide History, Neutral, Sound, LifeMatches, TableOk, TableBelow, FilesBelow, KindsTold, OpenedAs, AccessMatches, OnlyBy, BalanceMatches, Balance;
    LogFacts(w, c);
    TableFacts(w, c);
    MoreTable(ds, d);
    GrantOnlyBy(AccessOf(w.log), c, d.file);
    if (c, d.file) in AccessOf(w.log) { AccessBelow(w.log, w.nextFile, c, d.file); }
    NewDeviceMatches(ds, AccessOf(w.log), c, d);
    NewDeviceLog(w.log, c, d, w.vtBound);
    MoreFiles(w, d.file + 1);
    NewDeviceKinds(ds, w.log, w1.log, c, d);
    NewDeviceBalance(ds, w.log, w1.log, c, d);
    DeviceStepKeeps(w0, w1, c);
  }

  lemma NewDeviceTable(ds: seq<Device>, d: Device)
    requires TableOk(ds) && |ds| < MAX_SEAT_DEVICES && FindPath(ds, d.path) == None
    requires d.id == FreshId(ds, 1) && d.refCount == 1 && TableBelow(ds, d.file)
    ensures TableOk([d] + ds)
  {
    FindPathIsFirst(ds, d.path);
    FreshIdAbove(ds, 1);
  }

  lemma FrameSelf(w: World, c: ClientId)
    requires c in w.clients
    ensures DeviceFrame(w, w, c)
  {
    assert w.clients[c := w.clients[c]] == w.clients;
  }

  /** Any open by the holder keeps the history; NULL for a known path included. */
  lemma OpenDeviceKeeps(w: World, c: ClientId, env: Env)
    requires c in w.clients && History(w) && OnlyBy(AccessOf(w.log), Some(c))
    requires w.clients[c].session != -1
    ensures var w1 := OpenDeviceOn(w, c, env).0;
      && History(w1) && OnlyBy(AccessOf(w1.log), Some(c)) && DeviceFrame(w.(nextFile := w1.nextFile), w1, c)
      && (OpenDeviceOn(w, c, env).1.Some? ==> w1.clients[c].devices != [])
  {
    hide History, OnlyBy, AccessMatches, KindsTold, TableOk, TableBelow, FindPath, FreshId, DeviceFrame;
    var r := w.clients[c];
    LifeFacts(w, c);
    assert DeviceFrame(w, w, c) by { FrameSelf(w, c); }
    if r.state == Active && env.resolved.Some? {
      var path := env.resolved.value.path;
      match FindPath(r.devices, path) {
        case Some(k) =>
          FindPathIsFirst(r.devices, path);
          ReopenKeeps(w, c, k, Some(c));
        case None =>
          if |r.devices| < MAX_SEAT_DEVICES && env.opens {
            var d := Device(FreshId(r.devices, 1), path, env.resolved.value.kind, 1, true, w.nextFile);
            TableFacts(w, c);
            NewDeviceTable(r.devices, d);
            NewDeviceKeeps(w, c, d);
          }
      }
    }
  }
}
