/**
 What a log of the daemon says, read independently of the daemon's state:
 which devices are accessible, where each client is in its life cycle, how
 many references a client holds on a path, and whether the VT is given away.
 */
module SeatTrace {
  import opened Logs
  import opened Options
  import opened SeatModel

  /** A client's life as told by the log.  `Broken` records an event that the
      protocol does not allow at that point; it is absorbing. */
  datatype Phase = Unseen | In(state: ClientState) | Broken

  function PhaseNext(p: Phase, e: Event, c: ClientId): Phase {
    match e
    case Join(x, _) => if x != c then p else if p == Unseen then In(New) else Broken
    case Enable(x, _, _) => if x != c then p else if p == In(New) || p == In(Disabled) then In(Active) else Broken
    case Disable(x) => if x != c then p else if p == In(Active) then In(PendingDisable) else Broken
    case Ack(x) => if x != c then p else if p == In(PendingDisable) then In(Disabled) else Broken
    case Leave(x) => if x != c then p else if p.In? && p.state != Closed then In(Closed) else Broken
    case Ref(x, _) => if x != c || p == In(Active) then p else Broken
    case Grant(x, _, _, created) =>
      if x != c || p == In(if created then Active else Disabled) then p else Broken
    case _ => p
  }

  function PhaseOf(t: Trace, c: ClientId): Phase {
    match t
    case Start => Unseen
    case Then(before, e) => PhaseNext(PhaseOf(before, c), e, c)
  }

  /** How a client comes to have access to an open file: it is wanted, an attempt
      to revoke it failed, or its kind of device knows no revoke and it was kept. */
  datatype Standing = Wanted | Stuck | Kept

  /** The open files a client can still use, by its copies of the descriptors,
      which outlive the daemon's.  Dropping an entry closes the daemon's
      descriptor only, so it ends nothing. */
  type Access = map<(ClientId, nat), Standing>

  function AccessNext(g: Access, e: Event): Access {
    match e
    case Grant(c, f, _, _) => g[(c, f) := Wanted]
    case Revoke(c, f, ok) => if ok then g - {(c, f)} else g[(c, f) := Stuck]
    case Unmark(c, f) => g[(c, f) := Kept]
    case _ => g
  }

  function AccessOf(t: Trace): Access {
    match t
    case Start => map[]
    case Then(before, e) => AccessNext(AccessOf(before), e)
  }

  /** Who opened a file, and as what kind of device */
  datatype Opened = Opened(client: ClientId, kind: DeviceKind)

  function OpenedAs(t: Trace, f: nat): Option<Opened> {
    match t
    case Start => None
    case Then(before, e) =>
      if OpenedAs(before, f).Some? then OpenedAs(before, f)
      else if e.Grant? && e.created && e.file == f then Some(Opened(e.client, e.kind))
      else None
  }

  /** Opens minus closes of a path by a client */
  function Balance(t: Trace, c: ClientId, path: string): int {
    match t
    case Start => 0
    case Then(before, e) =>
      Balance(before, c, path) + if e == Ref(c, path) then 1 else if e == Unref(c, path) then -1 else 0
  }

  /** A VT release was acknowledged and no query has found a VT since. */
  predicate Released(t: Trace) {
    match t
    case Start => false
    case Then(before, VtRelease) => true
    case Then(before, VtQuery(vt)) => vt == -1 && Released(before)
    case Then(before, _) => Released(before)
  }

  /** Every session handed out lies below the bound. */
  predicate JoinedBelow(t: Trace, bound: int) {
    match t
    case Start => true
    case Then(before, e) => JoinedBelow(before, bound) && (e.Join? ==> 0 <= e.session < bound)
  }

  /** The open file an event is about lies below the bound, if it is about one. */
  predicate FileBelow(e: Event, bound: nat) {
    e.Grant? || e.Revoke? || e.Unmark? || e.Drop? ==> e.file < bound
  }

  /** Every file mentioned so far lies below the bound. */
  predicate FilesBelow(t: Trace, bound: nat) {
    t.Then? ==> FilesBelow(t.before, bound) && FileBelow(t.event, bound)
  }

  /** Access that is wanted belongs to at most the given client. */
  ghost predicate OnlyBy(g: Access, holder: Option<ClientId>) {
    forall c, f :: (c, f) in g && g[(c, f)] == Wanted ==> holder == Some(c)
  }

  ghost predicate Exclusive(g: Access) {
    forall c1, f1, c2, f2 :: (c1, f1) in g && (c2, f2) in g && g[(c1, f1)] == g[(c2, f2)] == Wanted ==> c1 == c2
  }

  ghost predicate NoneActive(t: Trace) {
    forall c :: PhaseOf(t, c) != In(Active)
  }

  /** None of client c's access is wanted any more. */
  ghost predicate GivenUp(g: Access, c: ClientId) {
    forall f :: (c, f) in g ==> g[(c, f)] != Wanted
  }

  /** Client c is active, or is just getting its devices back on its way to being enabled. */
  predicate HoldsOrTakes(t: Trace, c: ClientId) {
    || PhaseOf(t, c) == In(Active)
    || (PhaseOf(t, c) == In(Disabled) && t.Then? && t.event.Grant? && t.event.client == c && !t.event.created)
  }

  /** Whoever's access is wanted holds the seat or takes it. */
  ghost predicate WantedByHolder(t: Trace) {
    forall c, f :: (c, f) in AccessOf(t) && AccessOf(t)[(c, f)] == Wanted ==> HoldsOrTakes(t, c)
  }

  /** A revoke is tried on a file the client opened, of a kind that can be revoked;
      one that cannot is only unmarked. */
  predicate KindRight(t: Trace, e: Event) {
    && (e.Revoke? ==> OpenedAs(t, e.file).Some? && OpenedAs(t, e.file).value.client == e.client
                      && OpenedAs(t, e.file).value.kind != Wscons)
    && (e.Unmark? ==> OpenedAs(t, e.file) == Some(Opened(e.client, Wscons)))
  }

  /** What must hold right after an event. */
  ghost predicate PointOk(t: Trace, vtBound: bool)
    requires t.Then?
  {
    && (t.event.Disable? || t.event.Leave? ==> GivenUp(AccessOf(t), t.event.client))
    && (t.event.Drop? && (t.event.client, t.event.file) in AccessOf(t) ==> AccessOf(t)[(t.event.client, t.event.file)] != Wanted)
    && Exclusive(AccessOf(t))
    && WantedByHolder(t)
    && (Released(t) ==> NoneActive(t))
    && (t.event.Enable? && vtBound ==> t.event.session == t.event.vt)
    && KindRight(t.before, t.event)
    && (t.event.Grant? && !t.event.created ==> t.event.kind == Drm)
    && (t.event.Grant? && t.event.created ==> FilesBelow(t.before, t.event.file))
    && (t.event.Join? && !vtBound ==> JoinedBelow(t.before, t.event.session))
  }

  /** PointOk after every event of the log. */
  ghost predicate Sound(t: Trace, vtBound: bool) {
    t.Then? ==> PointOk(t, vtBound) && Sound(t.before, vtBound)
  }

  lemma {:induction false} SoundPrefix(p: Trace, t: Trace, vtBound: bool)
    requires Sound(t, vtBound) && PrefixOf(p, t)
    ensures Sound(p, vtBound)
  {
    if p != t { SoundPrefix(p, t.before, vtBound); }
  }

  /** The events sent to and accepted from one client, in order. */
  datatype Signal = EnableSent | DisableSent | AckTaken

  function SignalOf(e: Event, c: ClientId): seq<Signal> {
    match e
    case Enable(x, _, _) => if x == c then [EnableSent] else []
    case Disable(x) => if x == c then [DisableSent] else []
    case Ack(x) => if x == c then [AckTaken] else []
    case _ => []
  }

  function Signals(t: Trace, c: ClientId): seq<Signal> {
    match t
    case Start => []
    case Then(before, e) => Signals(before, c) + SignalOf(e, c)
  }

  function Cycle(i: nat): Signal {
    if i % 3 == 0 then EnableSent else if i % 3 == 1 then DisableSent else AckTaken
  }

  /** After n signals a client's phase tells where in the cycle it is. */
  predicate Aligned(p: Phase, n: nat) {
    && (p == In(Active) ==> n % 3 == 1)
    && (p == In(PendingDisable) ==> n % 3 == 2)
    && (p == In(Disabled) ==> n % 3 == 0)
    && (p == In(New) || p == Unseen ==> n == 0)
  }

  lemma NextAligned(p: Phase, e: Event, c: ClientId, n: nat)
    requires Aligned(p, n) && PhaseNext(p, e, c) != Broken
    ensures p != Broken && Aligned(PhaseNext(p, e, c), n + |SignalOf(e, c)|)
    ensures SignalOf(e, c) == [] || SignalOf(e, c) == [Cycle(n)]
  {
  }

  /** An unbroken life is a walk around the cycle enable, disable, ack. */
  lemma {:induction false} UnbrokenLifeCycles(t: Trace, c: ClientId)
    requires PhaseOf(t, c) != Broken
    ensures forall i :: 0 <= i < |Signals(t, c)| ==> Signals(t, c)[i] == Cycle(i)
    ensures PhaseOf(t, c) == In(Active) ==> |Signals(t, c)| % 3 == 1
    ensures PhaseOf(t, c) == In(PendingDisable) ==> |Signals(t, c)| % 3 == 2
    ensures PhaseOf(t, c) == In(Disabled) ==> |Signals(t, c)| % 3 == 0
    ensures PhaseOf(t, c) == In(New) || PhaseOf(t, c) == Unseen ==> Signals(t, c) == []
  {
    if t.Then? {
      hide PhaseNext, SignalOf, Cycle;
      assert PhaseOf(t.before, c) != Broken by { BrokenStays(PhaseOf(t.before, c), t.event, c); }
      UnbrokenLifeCycles(t.before, c);
      NextAligned(PhaseOf(t.before, c), t.event, c, |Signals(t.before, c)|);
    }
  }

  lemma BrokenStays(p: Phase, e: Event, c: ClientId)
    ensures p == Broken ==> PhaseNext(p, e, c) == Broken
  {
  }

  /** Nothing more is ever sent to or accepted from a client that left, and it never joins again. */
  lemma {:induction false} ClosedIsAbsorbing(p: Trace, t: Trace, c: ClientId)
    requires PrefixOf(p, t) && PhaseOf(p, c) == In(Closed)
    requires PhaseOf(t, c) != Broken
    ensures PhaseOf(t, c) == In(Closed) && Signals(t, c) == Signals(p, c)
  {
    if p != t { ClosedIsAbsorbing(p, t.before, c); }
  }
}
