/**
 seatd/poller.c: file descriptor event sources, the lazily rebuilt pollfd array
 and the dispatch loop, whose callbacks may add, update and destroy sources
 while the list is being walked.
 */
module Poller {
  import opened Logs
  import opened Options

  /** What happened to the sources, in order */
  datatype Event =
    | Created(id: nat)
    | Called(id: nat, fd: int, mask: int)
    | Killed(id: nat)
    | Freed(id: nat)

  type History = Log<Event>

  /** A source's life as told by the log; `Broken` is absorbing. */
  datatype Phase = Unseen | Live | Dying | Gone | Broken

  function PhaseNext(p: Phase, e: Event, id: nat): Phase {
    if e.id != id then p
    else
      match e
      case Created(_) => if p == Unseen then Live else Broken
      case Called(_, _, _) => if p == Live then Live else Broken
      case Killed(_) => if p == Live then Dying else Broken
      case Freed(_) => if p == Dying then Gone else Broken
  }

  function PhaseOf(log: History, id: nat): Phase {
    match log
    case Start => Unseen
    case Then(before, e) => PhaseNext(PhaseOf(before, id), e, id)
  }

  // Event masks of the poller and of poll(2); both use 1, 4, 8 and 16 here.

  predicate Has(mask: int, bit: int)
    requires bit > 0
  {
    (mask / bit) % 2 == 1
  }

  /** event_mask_to_poll_mask */
  function ToPollMask(mask: int): int {
    (if Has(mask, 1) then 1 else 0) + (if Has(mask, 4) then 4 else 0)
  }

  /** poll_mask_to_event_mask */
  function ToEventMask(revents: int): int {
    (if Has(revents, 1) then 1 else 0) + (if Has(revents, 4) then 4 else 0)
    + (if Has(revents, 8) then 8 else 0) + (if Has(revents, 16) then 16 else 0)
  }

  /** The bits of a mask are those it is put together from. */
  lemma BitsOf(readable: bool, writable: bool, error: bool, hangup: bool)
    ensures var mask := (if readable then 1 else 0) + (if writable then 4 else 0) + (if error then 8 else 0) + (if hangup then 16 else 0);
      && Has(mask, 1) == readable && Has(mask, 4) == writable && Has(mask, 8) == error && Has(mask, 16) == hangup
      && ToEventMask(mask) == mask
      && ToPollMask(mask) == (if readable then 1 else 0) + (if writable then 4 else 0)
  {
  }

  /** A source is asked and told about readiness in the same terms; errors and
      hangups are reported although nobody can ask for them. */
  lemma MasksAgree(mask: int, revents: int)
    ensures ToEventMask(ToPollMask(mask)) == ToPollMask(mask)
    ensures forall b :: b in {1, 4, 8, 16} ==> Has(ToEventMask(revents), b) == Has(revents, b)
    ensures forall b :: b in {1, 4} ==> Has(ToPollMask(mask), b) == Has(mask, b)
    ensures !Has(ToPollMask(mask), 8) && !Has(ToPollMask(mask), 16)
  {
  }

  datatype PollFd = PollFd(fd: int, events: int, revents: int)

  /** An event source as a value; idx is pollfd_idx, -1 until the array is rebuilt */
  datatype Rec = Rec(id: nat, fd: int, mask: int, killed: bool, idx: int)

  /** The number of sources that are not killed */
  function LiveCount(rs: seq<Rec>): nat {
    if rs == [] then 0 else (if rs[0].killed then 0 else 1) + LiveCount(rs[1..])
  }

  lemma {:induction false} LiveCountConcat(a: seq<Rec>, b: seq<Rec>)
    ensures LiveCount(a + b) == LiveCount(a) + LiveCount(b)
  {
    if a == [] {
      assert a + b == b;
    } else {
      assert (a + b)[1..] == a[1..] + b;
      LiveCountConcat(a[1..], b);
    }
  }

  lemma LiveCountUpdate(a: seq<Rec>, k: nat, r: Rec)
    requires k < |a|
    ensures LiveCount(a[k := r]) == LiveCount(a) - (if a[k].killed then 0 else 1) + (if r.killed then 0 else 1)
  {
    assert a == a[..k] + ([a[k]] + a[k + 1..]);
    assert a[k := r] == a[..k] + ([r] + a[k + 1..]);
    LiveCountConcat(a[..k], [a[k]] + a[k + 1..]);
    LiveCountConcat(a[..k], [r] + a[k + 1..]);
    LiveCountConcat([a[k]], a[k + 1..]);
    LiveCountConcat([r], a[k + 1..]);
  }

  /** The poller as a value: the read end of the signal pipe, the list head first,
      the allocated slots, and fd_event_sources */
  datatype State = State(signalFd: int, recs: seq<Rec>, slots: seq<PollFd>, count: int, dirty: bool, nextId: nat, log: History)

  ghost predicate DistinctIds(rs: seq<Rec>) {
    forall i, j :: 0 <= i < j < |rs| ==> rs[i].id != rs[j].id
  }

  /** A list without repetitions; identities are not reused. */
  ghost predicate Listed(p: State) {
    && DistinctIds(p.recs)
    && (forall i :: 0 <= i < |p.recs| ==> p.recs[i].id < p.nextId)
  }

  /** Every live source with a slot owns it alone. */
  ghost predicate SlotsOwned(p: State) {
    && (forall i :: 0 <= i < |p.recs| ==> p.recs[i].idx == -1 || 1 <= p.recs[i].idx < |p.slots|)
    && (forall i :: 0 <= i < |p.recs| && p.recs[i].idx != -1 ==> p.slots[p.recs[i].idx].fd == p.recs[i].fd)
    && (forall i, j :: 0 <= i < j < |p.recs| && p.recs[i].idx != -1 ==> p.recs[i].idx != p.recs[j].idx)
  }

  /** The log tells the same story as the list, and no source's life is ever broken. */
  ghost predicate LivesTold(p: State) {
    && (forall i :: 0 <= i < |p.recs| ==> PhaseOf(p.log, p.recs[i].id) == if p.recs[i].killed then Dying else Live)
    && (forall id :: PhaseOf(p.log, id) != Broken)
    && (forall id :: id >= p.nextId ==> PhaseOf(p.log, id) == Unseen)
  }

  const POLLIN := 1

  /** Slot 0 asks for the signal pipe, and the slots 1, 2, ... for what the listed
      sources want, each for its own descriptor and its current mask. */
  ghost predicate SlotsFilled(signalFd: int, rs: seq<Rec>, slots: seq<PollFd>) {
    && 1 + |rs| <= |slots|
    && slots[0].fd == signalFd && slots[0].events == POLLIN
    && forall i :: 0 <= i < |rs| ==> slots[i + 1].fd == rs[i].fd && slots[i + 1].events == ToPollMask(rs[i].mask)
  }

  /** The slots belong to the listed sources in order, none of them killed. */
  ghost predicate UpToDate(p: State) {
    && p.count == 1 + |p.recs| && SlotsFilled(p.signalFd, p.recs, p.slots)
    && forall i :: 0 <= i < |p.recs| ==> !p.recs[i].killed && p.recs[i].idx == i + 1
  }

  ghost predicate Inv(p: State) {
    && Listed(p) && SlotsOwned(p) && LivesTold(p)
    && p.count == 1 + LiveCount(p.recs)
    && (!p.dirty ==> UpToDate(p))
  }

  // ----- the operations callbacks may use -----

  /** poller_add_fd */
  function Add(p: State, fd: int, mask: int): State {
    p.(recs := [Rec(p.nextId, fd, mask, false, -1)] + p.recs, count := p.count + 1, dirty := true,
       nextId := p.nextId + 1, log := Then(p.log, Created(p.nextId)))
  }

  /** event_source_fd_destroy */
  function Kill(p: State, k: nat): State
    requires k < |p.recs|
  {
    p.(recs := p.recs[k := p.recs[k].(killed := true)], count := p.count - 1, dirty := true,
       log := Then(p.log, Killed(p.recs[k].id)))
  }

  /** event_source_fd_update */
  function SetMask(p: State, k: nat, mask: int): State
    requires k < |p.recs|
  {
    p.(recs := p.recs[k := p.recs[k].(mask := mask)], dirty := true)
  }

  lemma AddLists(p: State, r: Rec)
    requires Listed(p) && SlotsOwned(p) && r.id == p.nextId && r.idx == -1
    ensures var p1 := p.(recs := [r] + p.recs, nextId := p.nextId + 1); Listed(p1) && SlotsOwned(p1)
  {
  }

  lemma AddKeeps(p: State, fd: int, mask: int)
    requires Inv(p)
    ensures Inv(Add(p, fd, mask))
  {
    var r := Rec(p.nextId, fd, mask, false, -1);
    AddLists(p, r);
    LiveCountConcat([r], p.recs);
    OneLive(r);
    hide LiveCount, PhaseOf, SlotsOwned, Listed;
    CreatedIsLive(p.log, r.id);
    forall id | id != r.id ensures PhaseOf(Then(p.log, Created(r.id)), id) == PhaseOf(p.log, id) {
      OthersUntouched(p.log, Created(r.id), id);
    }
    var p1 := Add(p, fd, mask);
    assert Listed(p1) && SlotsOwned(p1) by { ListsIgnoreRest(p.(recs := p1.recs, nextId := p1.nextId), p1); }
    forall i | 0 <= i < |p.recs| ensures p.recs[i].id != r.id { IdsBelow(p, i); }
  }

  lemma IdsBelow(p: State, i: nat)
    requires Listed(p) && i < |p.recs|
    ensures p.recs[i].id < p.nextId
  {
  }

  lemma ListsIgnoreRest(p: State, q: State)
    requires Listed(p) && SlotsOwned(p) && q.recs == p.recs && q.slots == p.slots && q.nextId == p.nextId
    ensures Listed(q) && SlotsOwned(q)
  {
  }

  lemma OneLive(r: Rec)
    ensures LiveCount([r]) == if r.killed then 0 else 1
  {
    assert [r][1..] == [];
  }

  lemma CreatedIsLive(log: History, id: nat)
    requires PhaseOf(log, id) == Unseen
    ensures PhaseOf(Then(log, Created(id)), id) == Live
  {
  }

  lemma OthersUntouched(log: History, e: Event, id: nat)
    requires e.id != id
    ensures PhaseOf(Then(log, e), id) == PhaseOf(log, id)
  {
  }

  lemma KillKeeps(p: State, k: nat)
    requires Inv(p) && k < |p.recs| && !p.recs[k].killed
    ensures Inv(Kill(p, k))
  {
    LiveCountUpdate(p.recs, k, p.recs[k].(killed := true));
  }

  lemma SetMaskKeeps(p: State, k: nat, mask: int)
    requires Inv(p) && k < |p.recs|
    ensures Inv(SetMask(p, k, mask))
  {
    LiveCountUpdate(p.recs, k, p.recs[k].(mask := mask));
  }

  // ----- rebuilding the array -----

  /** The sources that stay, with their new slots from idx on */
  function Survivors(rs: seq<Rec>, idx: nat): (r: seq<Rec>)
    ensures |r| == LiveCount(rs)
  {
    if rs == [] then []
    else if rs[0].killed then Survivors(rs[1..], idx)
    else [rs[0].(idx := idx)] + Survivors(rs[1..], idx + 1)
  }

  /** The log after the killed sources of a list have been freed */
  function FreeKilled(rs: seq<Rec>, log: History): History {
    if rs == [] then log
    else FreeKilled(rs[1..], if rs[0].killed then Then(log, Freed(rs[0].id)) else log)
  }

  lemma {:induction false} SurvivorsAre(rs: seq<Rec>, idx: nat, i: nat) returns (k: nat)
    requires i < LiveCount(rs)
    ensures k < |rs| && !rs[k].killed && Survivors(rs, idx)[i] == rs[k].(idx := idx + i)
  {
    if rs[0].killed {
      k := SurvivorsAre(rs[1..], idx, i);
      k := k + 1;
    } else if i == 0 {
      k := 0;
    } else {
      k := SurvivorsAre(rs[1..], idx + 1, i - 1);
      k := k + 1;
    }
  }

  /** Freeing is the end of exactly the killed sources of the list. */
  lemma {:induction false} FreeKilledPhase(rs: seq<Rec>, log: History, id: nat)
    requires forall i, j :: 0 <= i < j < |rs| ==> rs[i].id != rs[j].id
    requires forall i :: 0 <= i < |rs| && rs[i].killed ==> PhaseOf(log, rs[i].id) == Dying
    ensures PhaseOf(FreeKilled(rs, log), id) ==
      if exists i :: 0 <= i < |rs| && rs[i].killed && rs[i].id == id then Gone else PhaseOf(log, id)
  {
    if rs != [] {
      var log1 := if rs[0].killed then Then(log, Freed(rs[0].id)) else log;
      assert forall i :: 1 <= i < |rs| ==> rs[i] == rs[1..][i - 1];
      FreeKilledPhase(rs[1..], log1, id);
    }
  }

  lemma {:induction false} SurvivorsDistinct(rs: seq<Rec>, idx: nat)
    requires DistinctIds(rs)
    ensures DistinctIds(Survivors(rs, idx))
  {
    if rs == [] {
    } else if rs[0].killed {
      SurvivorsDistinct(rs[1..], idx);
    } else {
      SurvivorsDistinct(rs[1..], idx + 1);
      var ss, rest := Survivors(rs, idx), Survivors(rs[1..], idx + 1);
      assert ss == [rs[0].(idx := idx)] + rest;
      forall i, j | 0 <= i < j < |ss| ensures ss[i].id != ss[j].id {
        if i == 0 {
          var k := SurvivorsAre(rs[1..], idx + 1, j - 1);
          assert rs[1..][k] == rs[k + 1];
        } else {
          assert rest[i - 1].id != rest[j - 1].id;
        }
      }
    }
  }

  lemma {:induction false} AllLive(rs: seq<Rec>)
    requires forall i :: 0 <= i < |rs| ==> !rs[i].killed
    ensures LiveCount(rs) == |rs|
  {
    if rs != [] { AllLive(rs[1..]); }
  }

  /** The poller after regenerate, with the slots it filled */
  function Rebuilt(p: State, slots: seq<PollFd>): State {
    p.(recs := Survivors(p.recs, 1), slots := slots, dirty := false, log := FreeKilled(p.recs, p.log))
  }

  lemma RebuiltLives(p: State, slots: seq<PollFd>)
    requires Listed(p) && LivesTold(p)
    ensures LivesTold(Rebuilt(p, slots))
  {
    var p1 := Rebuilt(p, slots);
    hide FreeKilled, Survivors, LiveCount, PhaseOf;
    forall i | 0 <= i < |p1.recs| ensures !p1.recs[i].killed && PhaseOf(p1.log, p1.recs[i].id) == Live {
      var k := SurvivorsAre(p.recs, 1, i);
      FreeKilledPhase(p.recs, p.log, p.recs[k].id);
    }
    forall id ensures PhaseOf(p1.log, id) != Broken {
      FreeKilledPhase(p.recs, p.log, id);
    }
    forall id | id >= p.nextId ensures PhaseOf(p1.log, id) == Unseen {
      FreeKilledPhase(p.recs, p.log, id);
    }
  }

  /** Rebuilding keeps the invariant, and the live sources own the used slots one to one. */
  lemma RebuildKeeps(p: State, slots: seq<PollFd>)
    requires Inv(p) && SlotsFilled(p.signalFd, Survivors(p.recs, 1), slots)
    ensures Inv(Rebuilt(p, slots)) && UpToDate(Rebuilt(p, slots))
  {
    hide LivesTold, FreeKilled, PhaseOf, Survivors, LiveCount, ToPollMask;
    var p1 := Rebuilt(p, slots);
    RebuiltLives(p, slots);
    SurvivorsDistinct(p.recs, 1);
    forall i | 0 <= i < |p1.recs|
      ensures !p1.recs[i].killed && p1.recs[i].idx == i + 1 && p1.recs[i].id < p.nextId
    {
      var k := SurvivorsAre(p.recs, 1, i);
    }
    AllLive(p1.recs);
  }

  /** Every source that was not killed is among those that stay. */
  lemma {:induction false} LiveSurvive(rs: seq<Rec>, idx: nat, k: nat) returns (i: nat)
    requires k < |rs| && !rs[k].killed
    ensures i < LiveCount(rs) && Survivors(rs, idx)[i] == rs[k].(idx := idx + i)
  {
    if k == 0 {
      i := 0;
    } else if rs[0].killed {
      i := LiveSurvive(rs[1..], idx, k - 1);
    } else {
      i := LiveSurvive(rs[1..], idx + 1, k - 1);
      i := i + 1;
    }
  }

  /** Those that stay keep their order. */
  lemma {:induction false} SurvivorsKeepOrder(rs: seq<Rec>, idx: nat, i: nat, j: nat) returns (k: nat, l: nat)
    requires i < j < LiveCount(rs)
    ensures k < l < |rs| && Survivors(rs, idx)[i] == rs[k].(idx := idx + i) && Survivors(rs, idx)[j] == rs[l].(idx := idx + j)
  {
    var first, rest := rs[0].(idx := idx), Survivors(rs[1..], if rs[0].killed then idx else idx + 1);
    assert Survivors(rs, idx) == if rs[0].killed then rest else [first] + rest;
    assert forall m :: 0 <= m < |rs| - 1 ==> rs[1..][m] == rs[m + 1];
    hide Survivors;
    if rs[0].killed {
      k, l := SurvivorsKeepOrder(rs[1..], idx, i, j);
      k, l := k + 1, l + 1;
    } else if i == 0 {
      l := SurvivorsAre(rs[1..], idx + 1, j - 1);
      k, l := 0, l + 1;
    } else {
      k, l := SurvivorsKeepOrder(rs[1..], idx + 1, i - 1, j - 1);
      k, l := k + 1, l + 1;
    }
  }

  /** The kernel is asked about a source: there is a slot for its identity, with its
      descriptor, that asks for reading and writing exactly as its mask does. */
  ghost predicate Asked(p: State, r: Rec) {
    exists i :: 0 <= i < |p.recs| && i + 1 < |p.slots| && p.recs[i].id == r.id && p.slots[i + 1].fd == r.fd
                && AsksFor(p.slots[i + 1].events, r.mask)
  }

  predicate AsksFor(events: int, mask: int) {
    Has(events, 1) == Has(mask, 1) && Has(events, 4) == Has(mask, 4) && !Has(events, 8) && !Has(events, 16)
  }

  /** After a rebuild, or without one if nothing changed, the kernel is asked about
      every live source, with the mask it had last. */
  lemma LiveIsAsked(p: State, p1: State, k: nat)
    requires Inv(p) && UpToDate(p1) && k < |p.recs| && !p.recs[k].killed
    requires p1.recs == if p.dirty then Survivors(p.recs, 1) else p.recs
    ensures Asked(p1, p.recs[k])
  {
    hide Inv, Survivors, LiveCount;
    MasksAgree(p.recs[k].mask, 0);
    hide ToPollMask, Has;
    var i := k;
    if p.dirty { i := LiveSurvive(p.recs, 1, k); }
    assert p1.slots[i + 1].fd == p.recs[k].fd;
  }

  lemma AllAreAsked(p: State, p1: State)
    requires Inv(p) && UpToDate(p1)
    requires p1.recs == if p.dirty then Survivors(p.recs, 1) else p.recs
    ensures forall k :: 0 <= k < |p.recs| && !p.recs[k].killed ==> Asked(p1, p.recs[k])
  {
    hide Inv, Survivors, UpToDate, Asked;
    forall k | 0 <= k < |p.recs| && !p.recs[k].killed ensures Asked(p1, p.recs[k]) { LiveIsAsked(p, p1, k); }
  }

  // ----- calls -----

  /** The calls recorded in a log, in order */
  function CallsOf(log: History): seq<Event> {
    match log
    case Start => []
    case Then(before, e) => CallsOf(before) + if e.Called? then [e] else []
  }

  lemma CallKeeps(p: State, k: nat, revents: int)
    requires Inv(p) && k < |p.recs| && !p.recs[k].killed
    ensures Inv(p.(log := Then(p.log, Called(p.recs[k].id, p.recs[k].fd, revents))))
  {
    var p1 := p.(log := Then(p.log, Called(p.recs[k].id, p.recs[k].fd, revents)));
    assert forall id :: PhaseOf(p1.log, id) == PhaseOf(p.log, id);
    hide LiveCount, PhaseOf;
    assert LivesTold(p1);
  }

  lemma {:induction false} PrefixTransitive(a: History, b: History, c: History)
    requires PrefixOf(a, b) && PrefixOf(b, c)
    ensures PrefixOf(a, c)
  {
    if b != c { PrefixTransitive(a, b, c.before); }
  }

  /** From p to q sources without slots were put in front, some were killed and
      masks changed, but no slot and no slot number did. */
  ghost predicate Kept(p: State, q: State) {
    && Inv(q) && q.slots == p.slots && PrefixOf(p.log, q.log)
    && |q.recs| >= |p.recs|
    && (forall i :: 0 <= i < |q.recs| - |p.recs| ==> q.recs[i].idx == -1)
    && forall i :: 0 <= i < |p.recs| ==>
         var r := q.recs[|q.recs| - |p.recs| + i];
         r.id == p.recs[i].id && r.fd == p.recs[i].fd && r.idx == p.recs[i].idx && (p.recs[i].killed ==> r.killed)
  }

  /** From p to q callbacks ran; they call nobody themselves. */
  ghost predicate Mutated(p: State, q: State) {
    Kept(p, q) && CallsOf(q.log) == CallsOf(p.log)
  }

  lemma OneMoreEvent(p: History, q: History, e: Event)
    requires PrefixOf(p, q)
    ensures PrefixOf(p, Then(q, e)) && (!e.Called? ==> CallsOf(Then(q, e)) == CallsOf(q))
  {
    PrefixTransitive(p, q, Then(q, e));
  }

  /** A source without a slot in front keeps what was kept. */
  lemma KeptInFront(p: State, q: State, q1: State)
    requires Kept(p, q) && Inv(q1) && q1.slots == q.slots && PrefixOf(p.log, q1.log)
    requires |q1.recs| == |q.recs| + 1 && q1.recs[0].idx == -1 && q1.recs[1..] == q.recs
    ensures Kept(p, q1)
  {
    hide Inv, PrefixOf;
    forall i | 1 <= i < |q1.recs| ensures q1.recs[i] == q.recs[i - 1] {}
    var d := |q.recs| - |p.recs|;
    forall i | 0 <= i < |q1.recs| - |p.recs| ensures q1.recs[i].idx == -1 {
      if i > 0 { assert q.recs[i - 1].idx == -1; }
    }
    forall i | 0 <= i < |p.recs|
      ensures var r := q1.recs[|q1.recs| - |p.recs| + i];
        r.id == p.recs[i].id && r.fd == p.recs[i].fd && r.idx == p.recs[i].idx && (p.recs[i].killed ==> r.killed)
    {
      assert q1.recs[1 + d + i] == q.recs[d + i];
    }
  }

  /** So does a change of a source that leaves its identity and its slot alone. */
  lemma KeptChanged(p: State, q: State, q1: State, k: nat)
    requires Kept(p, q) && Inv(q1) && q1.slots == q.slots && PrefixOf(p.log, q1.log)
    requires k < |q.recs| && |q1.recs| == |q.recs| && q1.recs == q.recs[k := q1.recs[k]]
    requires var r, r1 := q.recs[k], q1.recs[k]; r1.id == r.id && r1.fd == r.fd && r1.idx == r.idx && (r.killed ==> r1.killed)
    ensures Kept(p, q1)
  {
    hide Inv, PrefixOf;
  }

  lemma AddMutates(p: State, q: State, fd: int, mask: int)
    requires Mutated(p, q)
    ensures Mutated(p, Add(q, fd, mask))
  {
    assert Kept(p, q) && Inv(q) && PrefixOf(p.log, q.log);
    hide Inv, CallsOf, PrefixOf, Kept;
    AddKeeps(q, fd, mask);
    OneMoreEvent(p.log, q.log, Created(q.nextId));
    KeptInFront(p, q, Add(q, fd, mask));
  }

  lemma KillMutates(p: State, q: State, k: nat)
    requires Mutated(p, q) && k < |q.recs| && !q.recs[k].killed
    ensures Mutated(p, Kill(q, k))
  {
    assert Kept(p, q) && Inv(q) && PrefixOf(p.log, q.log);
    hide Inv, CallsOf, PrefixOf, Kept;
    KillKeeps(q, k);
    OneMoreEvent(p.log, q.log, Killed(q.recs[k].id));
    KeptChanged(p, q, Kill(q, k), k);
  }

  lemma SetMaskMutates(p: State, q: State, k: nat, mask: int)
    requires Mutated(p, q) && k < |q.recs|
    ensures Mutated(p, SetMask(q, k, mask))
  {
    assert Kept(p, q) && Inv(q) && PrefixOf(p.log, q.log);
    hide Inv, CallsOf, PrefixOf, Kept;
    SetMaskKeeps(q, k, mask);
    KeptChanged(p, q, SetMask(q, k, mask), k);
  }

  lemma MutatedSelf(p: State)
    requires Inv(p)
    ensures Mutated(p, p)
  {
    hide Inv;
  }

  lemma MutatedInv(p: State, q: State)
    requires Mutated(p, q)
    ensures Inv(q)
  {
  }

  lemma KeptTransitive(p: State, q: State, r: State)
    requires Kept(p, q) && Kept(q, r)
    ensures Kept(p, r)
  {
    hide Inv;
    PrefixTransitive(p.log, q.log, r.log);
    var d, e := |q.recs| - |p.recs|, |r.recs| - |q.recs|;
    forall i | e <= i < |r.recs| - |p.recs| ensures r.recs[i].idx == -1 {
      assert q.recs[i - e].idx == -1;
      assert r.recs[|r.recs| - |q.recs| + (i - e)] == r.recs[i];
    }
    forall i | 0 <= i < |p.recs|
      ensures var x := r.recs[|r.recs| - |p.recs| + i];
        x.id == p.recs[i].id && x.fd == p.recs[i].fd && x.idx == p.recs[i].idx && (p.recs[i].killed ==> x.killed)
    {
      assert r.recs[|r.recs| - |q.recs| + (d + i)] == r.recs[|r.recs| - |p.recs| + i];
    }
  }

  lemma MutatedTransitive(p: State, q: State, r: State)
    requires Mutated(p, q) && Mutated(q, r)
    ensures Mutated(p, r)
  {
    KeptTransitive(p, q, r);
  }

  /** The call due to the i-th source: its own descriptor and its own slot's events */
  function CallAt(p: State, i: nat): Event
    requires i < |p.recs| && i + 1 < |p.slots|
  {
    Called(p.recs[i].id, p.recs[i].fd, ToEventMask(p.slots[i + 1].revents))
  }

  /** The calls of the sources marked in `hit`, in list order, each once */
  function CallsFor(p: State, hit: seq<bool>): seq<Event>
    requires |hit| <= |p.recs| && |hit| < |p.slots|
  {
    if hit == [] then []
    else CallsFor(p, hit[..|hit| - 1]) + if hit[|hit| - 1] then [CallAt(p, |hit| - 1)] else []
  }

  /** The i-th source's call, if it is hit, stands behind those of the sources before
      it: its identity, its descriptor, and the events reported for its slot. */
  lemma {:induction false} CallAtItsPlace(p: State, hit: seq<bool>, i: nat)
    requires i < |hit| <= |p.recs| && |hit| < |p.slots|
    ensures var calls, n := CallsFor(p, hit), |CallsFor(p, hit[..i])|;
      && CallsFor(p, hit[..i]) <= calls
      && |CallsFor(p, hit[..i + 1])| == n + (if hit[i] then 1 else 0)
      && (hit[i] ==>
            && n < |calls| && calls[n].Called? && calls[n].id == p.recs[i].id && calls[n].fd == p.recs[i].fd
            && forall b :: b in {1, 4, 8, 16} ==> Has(calls[n].mask, b) == Has(p.slots[i + 1].revents, b))
  {
    var last := |hit| - 1;
    if i == last {
      MasksAgree(0, p.slots[i + 1].revents);
      assert hit[..i + 1] == hit;
    } else {
      CallAtItsPlace(p, hit[..last], i);
      assert hit[..last][..i] == hit[..i] && hit[..last][..i + 1] == hit[..i + 1];
    }
  }

  ghost predicate CallsMade(before: History, after: History, calls: seq<Event>) {
    CallsOf(after) == CallsOf(before) + calls
  }

  /** The source was killed at a point of the log with at most n calls before it. */
  predicate KilledWithin(log: History, n: nat, id: nat) {
    log.Then? && ((log.event == Killed(id) && |CallsOf(log)| <= n) || KilledWithin(log.before, n, id))
  }

  lemma {:induction false} KilledWithinMore(log: History, m: nat, n: nat, id: nat)
    requires KilledWithin(log, m, id) && m <= n
    ensures KilledWithin(log, n, id)
  {
    if !(log.event == Killed(id) && |CallsOf(log)| <= m) { KilledWithinMore(log.before, m, n, id); }
  }

  lemma {:induction false} KilledWithinLater(log: History, after: History, n: nat, id: nat)
    requires KilledWithin(log, n, id) && PrefixOf(log, after)
    ensures KilledWithin(after, n, id)
  {
    if log != after { KilledWithinLater(log, after.before, n, id); }
  }

  lemma {:induction false} DyingWasKilled(log: History, id: nat)
    requires PhaseOf(log, id) == Dying
    ensures KilledWithin(log, |CallsOf(log)|, id)
  {
    if log.event != Killed(id) {
      DyingWasKilled(log.before, id);
      KilledWithinMore(log.before, |CallsOf(log.before)|, |CallsOf(log)|, id);
    }
  }

  /** The last source of `hit` was called with events; or it had none, or it was
      killed before the first call that came after its turn. */
  ghost predicate HitRight(p: State, log: History, hit: seq<bool>)
    requires 0 < |hit| <= |p.recs| && |hit| < |p.slots|
  {
    var i := |hit| - 1;
    if hit[i] then p.slots[i + 1].revents != 0
    else p.slots[i + 1].revents == 0 || KilledWithin(log, |CallsOf(p.log)| + |CallsFor(p, hit[..i])|, p.recs[i].id)
  }

  /** Every source up to |hit| was treated right at its turn. */
  ghost predicate HitsRight(p: State, log: History, hit: seq<bool>)
    requires |hit| <= |p.recs| && |hit| < |p.slots|
  {
    hit != [] ==> HitRight(p, log, hit) && HitsRight(p, log, hit[..|hit| - 1])
  }

  lemma {:induction false} HitsRightLater(p: State, log: History, after: History, hit: seq<bool>)
    requires |hit| <= |p.recs| && |hit| < |p.slots|
    requires HitsRight(p, log, hit) && PrefixOf(log, after)
    ensures HitsRight(p, after, hit)
  {
    if hit != [] {
      var i := |hit| - 1;
      HitsRightLater(p, log, after, hit[..i]);
      if !hit[i] && p.slots[i + 1].revents != 0 {
        KilledWithinLater(log, after, |CallsOf(p.log)| + |CallsFor(p, hit[..i])|, p.recs[i].id);
      }
    }
  }

  /** What became of the i-th source of p at its turn, in state q */
  ghost predicate TurnRight(p: State, q: State, i: nat, hit: bool)
    requires i < |p.recs| && i + 1 < |p.slots|
  {
    if hit then p.slots[i + 1].revents != 0
    else p.slots[i + 1].revents == 0 || PhaseOf(q.log, p.recs[i].id) == Dying
  }

  lemma HitsRightMore(p: State, q: State, after: History, hit: seq<bool>, h: bool)
    requires |hit| < |p.recs| && |hit| + 1 < |p.slots|
    requires HitsRight(p, q.log, hit) && PrefixOf(q.log, after)
    requires CallsMade(p.log, q.log, CallsFor(p, hit)) && TurnRight(p, q, |hit|, h)
    ensures HitsRight(p, after, hit + [h])
  {
    hide HitsRight, CallsOf, CallsFor, CallsMade, KilledWithin, PhaseOf, PrefixOf;
    CallsAdd(p.log, q.log, CallsFor(p, hit));
    var more := hit + [h];
    assert more[..|hit|] == hit;
    HitsRightLater(p, q.log, after, hit);
    if !h && p.slots[|hit| + 1].revents != 0 {
      var id := p.recs[|hit|].id;
      DyingWasKilled(q.log, id);
      KilledWithinLater(q.log, after, |CallsOf(q.log)|, id);
    }
    HitsRightUnfold(p, after, more);
  }

  lemma CallsAdd(before: History, after: History, calls: seq<Event>)
    requires CallsMade(before, after, calls)
    ensures |CallsOf(after)| == |CallsOf(before)| + |calls|
  {
  }

  lemma HitsRightUnfold(p: State, log: History, hit: seq<bool>)
    requires 0 < |hit| <= |p.recs| && |hit| < |p.slots|
    requires HitRight(p, log, hit) && HitsRight(p, log, hit[..|hit| - 1])
    ensures HitsRight(p, log, hit)
  {
  }

  lemma CallsMadeMore(t0: History, t1: History, t2: History, p: State, hit: seq<bool>, h: bool)
    requires |hit| < |p.recs| && |hit| + 1 < |p.slots|
    requires CallsMade(t0, t1, CallsFor(p, hit)) && CallsMade(t1, t2, if h then [CallAt(p, |hit|)] else [])
    ensures CallsMade(t0, t2, CallsFor(p, hit + [h]))
  {
    assert (hit + [h])[..|hit|] == hit;
  }

  // ----- the objects -----

  class Source {
    const id: nat
    const fd: int
    var mask: int
    var killed: bool
    var idx: int

    constructor (id: nat, fd: int, mask: int)
      ensures ToRec() == Rec(id, fd, mask, false, -1)
    {
      this.id, this.fd, this.mask, this.killed, this.idx := id, fd, mask, false, -1;
    }

    function ToRec(): Rec
      reads this
    {
      Rec(id, fd, mask, killed, idx)
    }
  }

  ghost function Recs(fds: seq<Source>): (r: seq<Rec>)
    reads fds
    ensures |r| == |fds| && forall i :: 0 <= i < |fds| ==> r[i] == fds[i].ToRec()
  {
    seq(|fds|, i requires 0 <= i < |fds| reads fds => fds[i].ToRec())
  }

  class Poller {
    const signalFd: int
    var fds: seq<Source>       // head first
    var slots: seq<PollFd>     // pollfds, as far as allocated
    var count: int             // fd_event_sources
    var dirty: bool
    var nextId: nat
    ghost var log: History
    ghost var Repr: set<Source>

    ghost predicate Owned()
      reads `fds, `Repr
    {
      forall i :: 0 <= i < |fds| ==> fds[i] in Repr
    }

    ghost function Abs(): State
      reads this, fds
    {
      State(signalFd, Recs(fds), slots, count, dirty, nextId, log)
    }

    /** poller_init */
    constructor (signalFd: int)
      ensures Inv(Abs()) && Owned() && Repr == {} && fds == [] && log == Start
    {
      Repr := {};
      this.signalFd := signalFd;
      fds, slots, count, dirty, nextId, log := [], [], 1, true, 0, Start;
      EmptyInv(signalFd);
      hide Inv;
    }

    /** poller_add_fd */
    method AddFd(fd: int, mask: int) returns (s: Source)
      requires Inv(Abs()) && Owned()
      modifies `fds, `count, `dirty, `nextId, `log, `Repr
      ensures Inv(Abs()) && Abs() == Add(old(Abs()), fd, mask)
      ensures Owned() && Repr == old(Repr) + {s} && fresh(s) && fds == [s] + old(fds)
      ensures s.id == old(nextId) && s.fd == fd && s.mask == mask && !s.killed && s.idx == -1
      ensures count == old(count) + 1 && dirty && log == Then(old(log), Created(s.id))
    {
      hide Inv;
      AddKeeps(Abs(), fd, mask);
      s := new Source(nextId, fd, mask);
      count := count + 1;
      dirty := true;
      fds := [s] + fds;
      Repr := Repr + {s};
      log := Then(log, Created(nextId));
      nextId := nextId + 1;
      assert Recs(fds) == [s.ToRec()] + old(Recs(fds));
    }

    lemma Apart(i: nat, j: nat)
      requires Inv(Abs()) && i < |fds| && j < |fds| && i != j
      ensures fds[i] != fds[j]
    {
      assert Abs().recs[i].id == fds[i].id && Abs().recs[j].id == fds[j].id;
    }

    lemma AllApart(k: nat)
      requires Inv(Abs()) && k < |fds|
      ensures forall j :: 0 <= j < |fds| && j != k ==> fds[j] != fds[k]
    {
      hide Inv;
      forall j | 0 <= j < |fds| && j != k ensures fds[j] != fds[k] { Apart(j, k); }
    }

    /** event_source_fd_destroy: the source stays on the list until the next rebuild. */
    method Destroy(k: nat)
      requires Inv(Abs()) && k < |fds| && !fds[k].killed
      modifies fds[k], `count, `dirty, `log
      ensures Inv(Abs()) && Abs() == Kill(old(Abs()), k)
      ensures fds[k].killed && fds[k].mask == old(fds[k].mask) && fds[k].idx == old(fds[k].idx)
      ensures forall j :: 0 <= j < |fds| && j != k ==> fds[j].ToRec() == old(fds[j].ToRec())
      ensures count == old(count) - 1 && dirty && log == Then(old(log), Killed(fds[k].id))
    {
      hide Inv;
      KillKeeps(Abs(), k);
      AllApart(k);
      var s := fds[k];
      count := count - 1;
      dirty := true;
      s.killed := true;
      log := Then(log, Killed(s.id));
      assert Recs(fds) == old(Recs(fds))[k := s.ToRec()];
    }

    /** event_source_fd_update */
    method Update(k: nat, mask: int)
      requires Inv(Abs()) && k < |fds|
      modifies fds[k], `dirty
      ensures Inv(Abs()) && Abs() == SetMask(old(Abs()), k, mask)
      ensures fds[k].mask == mask && fds[k].killed == old(fds[k].killed) && fds[k].idx == old(fds[k].idx)
      ensures forall j :: 0 <= j < |fds| && j != k ==> fds[j].ToRec() == old(fds[j].ToRec())
      ensures dirty
    {
      hide Inv;
      SetMaskKeeps(Abs(), k, mask);
      AllApart(k);
      var s := fds[k];
      s.mask := mask;
      dirty := true;
      assert Recs(fds) == old(Recs(fds))[k := s.ToRec()];
    }

    /** One operation of a callback */
    method Mutate()
      requires Inv(Abs()) && Owned()
      modifies this, Repr
      ensures Mutated(old(Abs()), Abs()) && Owned() && fresh(Repr - old(Repr))
    {
      hide Inv, Mutated, Abs;
      ghost var p := Abs();
      MutatedSelf(p);
      var k: nat, mask: int, fd: int, kill: bool := *, *, *, *;
      if k >= |fds| {
        AddMutates(p, p, fd, mask);
        var _ := AddFd(fd, mask);
      } else {
        AbsAt(k);
        if kill && !fds[k].killed {
          KillMutates(p, p, k);
          Destroy(k);
        } else {
          SetMaskMutates(p, p, k, mask);
          Update(k, mask);
        }
      }
    }

    lemma AbsAt(k: nat)
      requires k < |fds|
      ensures |Abs().recs| == |fds| && Abs().recs[k] == fds[k].ToRec()
    {
    }

    /** Any callback: it adds, updates and destroys sources as often as it likes. */
    method Callback()
      requires Inv(Abs()) && Owned()
      modifies this, Repr
      ensures Mutated(old(Abs()), Abs()) && Owned() && fresh(Repr - old(Repr))
    {
      hide Inv, Mutated, Abs, Owned;
      var steps: nat := *;
      MutatedSelf(Abs());
      while steps > 0
        invariant Mutated(old(Abs()), Abs()) && Owned() && fresh(Repr - old(Repr))
      {
        ghost var p := Abs();
        MutatedInv(old(Abs()), p);
        Mutate();
        MutatedTransitive(old(Abs()), p, Abs());
        steps := steps - 1;
      }
    }

    /** Room for all counted sources; slot 0 is the signal pipe */
    method GrowSlots()
      requires count >= 1
      modifies `slots
      ensures |slots| >= count && slots[0] == PollFd(signalFd, POLLIN, 0)
    {
      if count > |slots| {
        slots := slots + seq(count - |slots|, _ => PollFd(0, 0, 0));
      }
      slots := slots[0 := PollFd(signalFd, POLLIN, 0)];
    }

    /** Unlink and free the i-th source */
    method FreeAt(i: nat)
      requires i < |fds|
      modifies `fds, `log
      ensures fds == old(fds)[..i] + old(fds)[i + 1..] && log == Then(old(log), Freed(old(fds)[i].id))
      ensures Recs(fds) == old(Recs(fds))[..i] + old(Recs(fds))[i + 1..]
    {
      log := Then(log, Freed(fds[i].id));
      fds := fds[..i] + fds[i + 1..];
    }

    /** Give the i-th source its slot */
    method NumberAt(i: nat)
      requires i < |fds| && i + 1 < |slots| && DistinctIds(Recs(fds))
      modifies fds[i], `slots
      ensures Recs(fds) == old(Recs(fds))[i := old(Recs(fds))[i].(idx := i + 1)]
      ensures slots == old(slots)[i + 1 := PollFd(fds[i].fd, ToPollMask(fds[i].mask), 0)]
    {
      var s := fds[i];
      forall j | 0 <= j < |fds| && j != i ensures fds[j] != s { assert Recs(fds)[j].id != Recs(fds)[i].id; }
      s.idx := i + 1;
      slots := slots[i + 1 := PollFd(s.fd, ToPollMask(s.mask), 0)];
    }

    /** The first i sources of the list have been dealt with. */
    ghost predicate Numbered(p: State, i: nat)
      reads `fds, `slots, `count, `log, fds
    {
      && i <= |fds| && |slots| >= count == p.count >= 1 + i && slots[0] == PollFd(signalFd, POLLIN, 0)
      && DistinctIds(Recs(fds))
      && Rebuilding(p, Recs(fds)[..i], Recs(fds)[i..], log)
      && forall j :: 0 <= j < i ==> slots[j + 1] == PollFd(fds[j].fd, ToPollMask(fds[j].mask), 0)
    }

    /** One round of regenerate */
    method RegenerateOne(i: nat, ghost p: State) returns (next: nat)
      requires Numbered(p, i) && i < |fds| && Owned()
      modifies `fds, `slots, `log, Repr
      ensures Numbered(p, next) && next <= |fds| && |fds| - next < |old(fds)| - i && Owned()
    {
      hide Rebuilding, ToPollMask;
      ghost var rs := Recs(fds);
      RebuildingStep(p, rs[..i], rs[i..], log);
      if fds[i].killed {
        FreeAt(i);
        assert Recs(fds)[..i] == rs[..i] && Recs(fds)[i..] == rs[i..][1..];
        next := i;
      } else {
        assert i + 1 < |slots|;
        NumberAt(i);
        assert Recs(fds)[..i + 1] == rs[..i] + [rs[i..][0].(idx := i + 1)] && Recs(fds)[i + 1..] == rs[i..][1..];
        next := i + 1;
      }
    }

    /** regenerate.  Killed sources are unlinked and freed, the others numbered. */
    method Regenerate()
      requires Inv(Abs()) && Owned()
      modifies `fds, `slots, `log, Repr
      ensures Abs() == Rebuilt(old(Abs()), slots).(dirty := dirty)
      ensures 1 + |fds| <= |slots| && Owned()
      ensures slots[0] == PollFd(signalFd, POLLIN, 0)
      ensures forall i :: 0 <= i < |fds| ==> slots[i + 1] == PollFd(fds[i].fd, ToPollMask(fds[i].mask), 0)
    {
      hide Inv, Numbered, ToPollMask, Abs, Survivors, FreeKilled, LiveCount, Rebuilding;
      ghost var p := Abs();
      AbsIs();
      CountFacts(p);
      GrowSlots();
      NumberedNone(p);
      var i: nat := 0;
      while i < |fds|
        invariant Numbered(p, i) && i <= |fds| && Owned()
        decreases |fds| - i
      {
        i := RegenerateOne(i, p);
      }
      NumberedAll(p, i);
      assert i + 1 == count;
      AbsIs();
    }

    lemma NumberedNone(p: State)
      requires Inv(p) && p.recs == Recs(fds) && p.log == log && p.count == count <= |slots| && count >= 1
      requires slots[0] == PollFd(signalFd, POLLIN, 0)
      ensures Numbered(p, 0)
    {
      hide Inv, Rebuilding;
      CountFacts(p);
      RebuildingStarts(p);
    }

    lemma NumberedAll(p: State, i: nat)
      requires Numbered(p, i) && i >= |fds|
      ensures i == |fds| && count == 1 + |fds| <= |slots| && count == p.count && slots[0] == PollFd(signalFd, POLLIN, 0)
      ensures Recs(fds) == Survivors(p.recs, 1) && log == FreeKilled(p.recs, p.log)
      ensures forall j :: 0 <= j < |fds| ==> slots[j + 1] == PollFd(fds[j].fd, ToPollMask(fds[j].mask), 0)
    {
      hide Rebuilding, ToPollMask, Survivors, FreeKilled;
      assert Recs(fds)[..i] == Recs(fds) && Recs(fds)[i..] == [];
      RebuildingEnds(p, Recs(fds), log);
    }

    /** What poll(2) does with the used slots */
    method KernelPoll(revents: seq<int>)
      requires Inv(Abs()) && !dirty
      modifies `slots
      ensures Inv(Abs()) && slots == WithRevents(old(slots), revents)
    {
      PollKeeps(Abs(), revents);
      hide Inv;
      slots := WithRevents(slots, revents);
    }

    /** dispatch.  A signal that was caught runs callbacks before the walk, and each
        call runs one.  `hit` marks the sources that were called: in list order and
        once each, only ones with events, and all of those except the ones killed
        before their turn.  New sources go to the head of the list, so the walk is
        told by its distance from the end. */
    method Dispatch() returns (ghost hit: seq<bool>)
      requires Inv(Abs()) && Owned() && !dirty
      modifies this, Repr
      ensures Inv(Abs()) && Owned() && fresh(Repr - old(Repr)) && slots == old(slots)
      ensures |hit| == |old(fds)| < |slots|
      ensures CallsMade(old(log), log, CallsFor(old(Abs()), hit)) && HitsRight(old(Abs()), log, hit)
    {
      hide Inv, Kept, CallsMade, CallsFor, UpToDate, HitsRight, Abs, Owned, CallsOf;
      ghost var p := Abs();
      AbsIs();
      CleanFacts(p);
      UpToDateSlots(p);
      KeptSelf(p);
      if Has(slots[0].revents, POLLIN) {
        RunCallback(p, p);
      }
      AbsIs();
      KeptSlots(p, Abs());
      hit := [];
      NothingCalled(p, log);
      NothingHit(p, log);
      ghost var n := |p.recs|;
      var total := |fds|;
      var i := 0;
      while i < total
        invariant 0 <= i <= total <= |fds| && |hit| == if i <= total - n then 0 else i - (total - n)
        invariant total >= n && Owned() && fresh(Repr - old(Repr))
        invariant Kept(p, Abs()) && CallsMade(p.log, log, CallsFor(p, hit)) && HitsRight(p, log, hit)
      {
        AbsIs();
        NewHaveNoSlot(p, Abs(), |fds| - total + i);
        AbsAt(|fds| - total + i);
        if fds[|fds| - total + i].idx != -1 {
          ghost var q := Abs();
          var called := DispatchOne(p, |fds| - total + i, |hit|);
          AbsIs();
          CallsMadeMore(p.log, q.log, log, p, hit, called);
          HitsRightMore(p, q, log, hit, called);
          hit := hit + [called];
          AbsIs();
          KeptSlots(q, Abs());
        }
        i := i + 1;
      }
      KeptInv(p, Abs());
      KeptSlots(p, Abs());
      AbsIs();
    }

    /** One round of dispatch at position k of the list, which holds the i-th of the sources it started with */
    method DispatchOne(ghost p: State, k: nat, ghost i: nat) returns (called: bool)
      requires i < |p.recs| < |p.slots| && Kept(p, Abs()) && UpToDate(p) && Owned()
      requires k == |fds| - |p.recs| + i
      modifies this, Repr
      ensures Owned() && fresh(Repr - old(Repr))
      ensures Kept(p, Abs()) && Kept(old(Abs()), Abs()) && PrefixOf(old(log), log)
      ensures CallsMade(old(log), log, if called then [CallAt(p, i)] else [])
      ensures TurnRight(p, old(Abs()), i, called)
    {
      hide Inv, Kept, CallsMade, UpToDate, Abs, Owned, TurnRight, CallAt, CallsOf;
      CallsMadeNone(log);
      ghost var q := Abs();
      AbsIs();
      KeptInv(p, q);
      KeptSelf(q);
      var call := Due(p, k, i);
      if call == None {
        return false;
      }
      AbsIs();
      LogCall(q, call.value, k);
      RunCallback(p, q);
      CallsMadeOne(old(log), call.value, log);
      AbsIs();
      KeptLog(q, Abs());
      called := true;
    }

    method LogCall(ghost q: State, call: Event, ghost k: nat)
      requires q == Abs() && Inv(q) && k < |q.recs| && !q.recs[k].killed
      requires call.Called? && call.id == q.recs[k].id && call.fd == q.recs[k].fd
      modifies `log
      ensures Kept(q, Abs()) && log == Then(old(log), call)
    {
      hide Inv, Kept, Abs, Recs;
      AbsIs();
      KeptSelf(q);
      KeptCall(q, q, k, call.mask);
      log := Then(log, call);
      AbsIs();
    }

    /** The checks of dispatch at position k: the call that is due, if any */
    method Due(ghost p: State, k: nat, ghost i: nat) returns (call: Option<Event>)
      requires i < |p.recs| < |p.slots| && Kept(p, Abs()) && UpToDate(p)
      requires k == |fds| - |p.recs| + i
      ensures k < |fds| && (call.Some? ==>
        && call.value.Called? && call.value == CallAt(p, i)
        && var r := Abs().recs[k]; !r.killed && call.value.id == r.id && call.value.fd == r.fd)
      ensures TurnRight(p, Abs(), i, call.Some?)
    {
      hide Inv, Kept, UpToDate, ToEventMask, PhaseOf;
      KeptAt(p, Abs(), i);
      KeptInv(p, Abs());
      var s := fds[k];
      assert Recs(fds)[k] == s.ToRec();
      if s.killed {
        KilledIsDying(Abs(), k);
        return None;
      }
      assert s.idx < |slots|;
      var revents := slots[s.idx].revents;
      if revents == 0 {
        return None;
      }
      call := Some(Called(s.id, slots[s.idx].fd, ToEventMask(revents)));
    }

    /** The callback of a dispatch that started in state p */
    method RunCallback(ghost p: State, ghost q: State)
      requires Kept(p, q) && Kept(q, Abs()) && Owned()
      modifies this, Repr
      ensures Owned() && fresh(Repr - old(Repr))
      ensures Kept(p, Abs()) && Kept(q, Abs()) && CallsOf(log) == CallsOf(old(log))
    {
      hide Inv, CallsOf, Kept, Owned, Abs;
      ghost var r := Abs();
      AbsIs();
      KeptInv(q, r);
      Callback();
      AbsIs();
      KeptTransitive(q, r, Abs());
      KeptTransitive(p, q, Abs());
    }

    /** poller_poll.  `answer` is what poll(2) reports for the slots, None if it
        fails.  `p` is the up to date state it was asked about. */
    method Poll(answer: Option<seq<int>>) returns (ok: bool, ghost p: State, ghost hit: seq<bool>)
      requires Inv(Abs()) && Owned()
      modifies this, Repr
      ensures Inv(Abs()) && Owned() && fresh(Repr - old(Repr))
      ensures !ok ==> CallsOf(log) == CallsOf(old(log))
      ensures Inv(p) && UpToDate(p) && p.signalFd == signalFd && ok == answer.Some?
      ensures p.recs == if old(dirty) then Survivors(old(Abs()).recs, 1) else old(Abs()).recs
      ensures forall k :: 0 <= k < |old(fds)| && !old(fds[k].killed) ==> Asked(p, old(fds[k].ToRec()))
      ensures ok ==>
        && |hit| == |p.recs| < |p.slots|
        && CallsMade(old(log), log, CallsFor(p, hit)) && HitsRight(p, log, hit)
        && forall i :: 0 <= i <= |p.recs| && i < |answer.value| ==> p.slots[i].revents == answer.value[i]
    {
      hide Inv, CallsMade, CallsFor, Survivors, UpToDate, Abs, CallsOf, HitsRight, Owned, Asked;
      hit := [];
      ghost var before := Abs();
      AbsIs();
      Refresh();
      p := Abs();
      AbsIs();
      AllAreAsked(before, p);
      if answer == None {
        return false, p, hit;
      }
      KernelPoll(answer.value);
      p := Abs();
      AbsIs();
      CleanFacts(p);
      AllAreAsked(before, p);
      UpToDateSlots(p);
      hit := Dispatch();
      CallsMadeLater(old(log), p.log, log, CallsFor(p, hit));
      ok := true;
    }

    /** The first half of poller_poll */
    method Refresh()
      requires Inv(Abs()) && Owned()
      modifies `fds, `slots, `log, `dirty, Repr
      ensures Owned() && Inv(Abs()) && !dirty && UpToDate(Abs()) && CallsOf(log) == CallsOf(old(log))
      ensures Recs(fds) == if old(dirty) then Survivors(old(Abs()).recs, 1) else old(Abs()).recs
    {
      hide Inv, Survivors, FreeKilled, UpToDate, CallsOf, ToPollMask;
      ghost var before := Abs();
      if dirty {
        Regenerate();
        dirty := false;
        assert SlotsFilled(signalFd, Recs(fds), slots);
        assert Abs() == Rebuilt(before, slots);
        RebuildKeeps(before, slots);
        CallsAfterFree(before.recs, before.log);
      } else {
        CleanFacts(Abs());
      }
    }

    lemma AbsIs()
      ensures Abs() == State(signalFd, Recs(fds), slots, count, dirty, nextId, log)
    {
    }
  }

  /** The slots with the results of a poll */
  function WithRevents(slots: seq<PollFd>, revents: seq<int>): (r: seq<PollFd>)
    ensures |r| == |slots|
    ensures forall i :: 0 <= i < |slots| ==> r[i] == if i < |revents| then slots[i].(revents := revents[i]) else slots[i]
  {
    seq(|slots|, i requires 0 <= i < |slots| => if i < |revents| then slots[i].(revents := revents[i]) else slots[i])
  }

  lemma PollKeeps(p: State, revents: seq<int>)
    requires Inv(p)
    ensures Inv(p.(slots := WithRevents(p.slots, revents)))
  {
    hide LiveCount, PhaseOf, ToPollMask;
  }

  lemma CleanFacts(p: State)
    requires Inv(p) && !p.dirty
    ensures UpToDate(p)
  {
  }

  lemma KeptSelf(p: State)
    requires Inv(p)
    ensures Kept(p, p)
  {
    hide Inv;
  }

  lemma KeptAt(p: State, q: State, i: nat)
    requires Kept(p, q) && UpToDate(p) && i < |p.recs|
    ensures q.slots == p.slots && |q.recs| >= |p.recs|
    ensures var r := q.recs[|q.recs| - |p.recs| + i];
      r.id == p.recs[i].id && r.fd == p.recs[i].fd && r.idx == i + 1 && i + 1 < |p.slots| && p.slots[i + 1].fd == r.fd
  {
    hide Inv;
  }

  lemma {:induction false} CallsAfterFree(rs: seq<Rec>, log: History)
    ensures CallsOf(FreeKilled(rs, log)) == CallsOf(log)
  {
    if rs != [] {
      CallsAfterFree(rs[1..], if rs[0].killed then Then(log, Freed(rs[0].id)) else log);
    }
  }

  lemma UpToDateSlots(p: State)
    requires UpToDate(p)
    ensures |p.recs| < |p.slots|
  {
  }

  lemma CallsMadeLater(t0: History, t1: History, t2: History, calls: seq<Event>)
    requires CallsOf(t1) == CallsOf(t0) && CallsMade(t1, t2, calls)
    ensures CallsMade(t0, t2, calls)
  {
  }

  // ----- what an unbroken life means -----

  /** How often a source was called */
  function CallsTo(log: History, id: nat): nat {
    match log
    case Start => 0
    case Then(before, e) => CallsTo(before, id) + if e.Called? && e.id == id then 1 else 0
  }

  /** How often a source was freed */
  function FreesOf(log: History, id: nat): nat {
    match log
    case Start => 0
    case Then(before, e) => FreesOf(before, id) + if e == Freed(id) then 1 else 0
  }

  /** A killed source is never called again; the invariant gives the last requirement for every log. */
  lemma {:induction false} KilledIsNeverCalled(p: History, log: History, id: nat)
    requires PrefixOf(p, log) && (PhaseOf(p, id) == Dying || PhaseOf(p, id) == Gone)
    requires PhaseOf(log, id) != Broken
    ensures CallsTo(log, id) == CallsTo(p, id) && (PhaseOf(log, id) == Dying || PhaseOf(log, id) == Gone)
  {
    if p != log { KilledIsNeverCalled(p, log.before, id); }
  }

  /** A source is freed at most once, and only after it was killed. */
  lemma {:induction false} FreedOnce(log: History, id: nat)
    requires PhaseOf(log, id) != Broken
    ensures FreesOf(log, id) == if PhaseOf(log, id) == Gone then 1 else 0
  {
    if log.Then? { FreedOnce(log.before, id); }
  }

  lemma CallsMadeNone(log: History)
    ensures CallsMade(log, log, [])
  {
  }

  lemma CallsMadeOne(log: History, e: Event, after: History)
    requires e.Called? && CallsOf(after) == CallsOf(Then(log, e))
    ensures CallsMade(log, after, [e])
  {
  }

  lemma NothingCalled(p: State, log: History)
    requires 0 < |p.slots| && CallsOf(log) == CallsOf(p.log)
    ensures CallsMade(p.log, log, CallsFor(p, []))
  {
  }

  lemma NothingHit(p: State, log: History)
    requires 0 < |p.slots|
    ensures HitsRight(p, log, [])
  {
  }

  /** Exactly the sources that came later are without a slot. */
  lemma NewHaveNoSlot(p: State, q: State, k: nat)
    requires Kept(p, q) && UpToDate(p) && k < |q.recs|
    ensures q.recs[k].idx == -1 <==> k < |q.recs| - |p.recs|
  {
    hide Inv, SlotsFilled;
    var d := |q.recs| - |p.recs|;
    if k >= d {
      assert p.recs[k - d].idx == k - d + 1;
      assert q.recs[|q.recs| - |p.recs| + (k - d)] == q.recs[k];
    }
  }

  lemma KilledIsDying(p: State, k: nat)
    requires Inv(p) && k < |p.recs| && p.recs[k].killed
    ensures PhaseOf(p.log, p.recs[k].id) == Dying
  {
  }

  lemma KeptLog(p: State, q: State)
    requires Kept(p, q)
    ensures PrefixOf(p.log, q.log)
  {
  }

  lemma KeptSlots(p: State, q: State)
    requires Kept(p, q)
    ensures q.slots == p.slots && |q.recs| >= |p.recs|
  {
  }

  lemma KeptInv(p: State, q: State)
    requires Kept(p, q)
    ensures Inv(q)
  {
  }

  lemma KeptCall(p: State, q: State, k: nat, mask: int)
    requires Kept(p, q) && k < |q.recs| && !q.recs[k].killed
    ensures Kept(p, q.(log := Then(q.log, Called(q.recs[k].id, q.recs[k].fd, mask))))
    ensures q.recs[k].idx != -1 ==> q.slots[q.recs[k].idx].fd == q.recs[k].fd
  {
    CallKeeps(q, k, mask);
  }

  /** Half-way through a rebuild: `done` is numbered, `rest` is still to come. */
  ghost predicate Rebuilding(p: State, done: seq<Rec>, rest: seq<Rec>, log: History) {
    && Survivors(p.recs, 1) == done + Survivors(rest, |done| + 1)
    && FreeKilled(p.recs, p.log) == FreeKilled(rest, log)
    && p.count == 1 + |done| + LiveCount(rest)
  }

  lemma RebuildingStarts(p: State)
    requires Inv(p)
    ensures Rebuilding(p, p.recs[..0], p.recs[0..], p.log)
  {
    assert p.recs[0..] == p.recs && p.recs[..0] == [];
  }

  /** Each source has room for its slot: the assertion in the loop of regenerate. */
  lemma RebuildingStep(p: State, done: seq<Rec>, rest: seq<Rec>, log: History)
    requires Rebuilding(p, done, rest, log) && rest != []
    ensures if rest[0].killed then Rebuilding(p, done, rest[1..], Then(log, Freed(rest[0].id)))
            else |done| + 1 < p.count && Rebuilding(p, done + [rest[0].(idx := |done| + 1)], rest[1..], log)
  {
  }

  /** At the end every counted source has a slot: the assertion after the loop of regenerate. */
  lemma RebuildingEnds(p: State, done: seq<Rec>, log: History)
    ensures Rebuilding(p, done, [], log) ==>
      done == Survivors(p.recs, 1) && log == FreeKilled(p.recs, p.log) && p.count == 1 + |done|
  {
  }

  lemma EmptyInv(signalFd: int)
    ensures Inv(State(signalFd, [], [], 1, true, 0, Start))
  {
  }

  lemma CountFacts(p: State)
    requires Inv(p)
    ensures p.count == 1 + LiveCount(p.recs) && DistinctIds(p.recs)
  {
  }
}
