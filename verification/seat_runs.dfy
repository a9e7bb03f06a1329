/**
 Runs that reach the cases in which the daemon does less than one might hope.
 */
module SeatRuns {
  import opened Logs
  import opened Options
  import opened SeatModel
  import opened SeatTrace
  import opened SeatSafety
  import opened SeatTheorems

  lemma RunStep(w: World, inputs: seq<Input>, input: Input)
    ensures Run(w, inputs + [input]) == Step(Run(w, inputs), input)
  {
    assert (inputs + [input])[..|inputs|] == inputs;
  }

  /** Everything works, and paths name an input device. */
  const FINE := Env(None, true, true, {}, Some(Resolved("/dev/input/event0", Evdev)), true, true, true, true, true, true)

  function Asks(c: ClientId, request: Request, env: Env): Input {
    Message(c, request, env, FINE)
  }

  /** A client that never joined */
  const NEWCOMER := Client(New, -1, false, [])

  function Two(a: Client, b: Client): map<ClientId, Client> {
    map[0 := a, 1 := b]
  }

  lemma TwoUpdates(a: Client, b: Client, c: Client)
    ensures Two(a, b)[0 := c] == Two(c, b) && Two(a, b)[1 := c] == Two(a, c)
  {
  }

  lemma TwoConnect(vtBound: bool)
    ensures Run(Init(vtBound), [Connect, Connect]) ==
      World(Two(NEWCOMER, NEWCOMER), [], [1, 0], None, None, vtBound, 0, 0, 2, 0, Start)
  {
    assert Run(Init(vtBound), []) == Init(vtBound);
    RunStep(Init(vtBound), [], Connect);
    RunStep(Init(vtBound), [Connect], Connect);
    assert [Connect] + [Connect] == [Connect, Connect] && [] + [Connect] == [Connect];
  }

  // ----- two clients on one VT -----

  /** The kernel answers VT 1, but the terminals cannot be opened. */
  const NO_TERMINAL := FINE.(vtQuery := Some(1), vtOpens := false)

  /** The first client joins but its terminal cannot be opened, so the seat stays
      free and the second one is let in. */
  lemma TwoClientsOnOneVt()
    ensures var w := Run(Init(true), [Connect, Connect] + [Asks(0, OpenSeat, NO_TERMINAL)] + [Asks(1, OpenSeat, NO_TERMINAL)]);
      w.members == [1, 0] && !OneClientPerVt(w)
  {
    TwoConnect(true);
    var w2 := Run(Init(true), [Connect, Connect]);
    RunStep(Init(true), [Connect, Connect], Asks(0, OpenSeat, NO_TERMINAL));
    var w3 := Step(w2, Asks(0, OpenSeat, NO_TERMINAL));
    assert Without([1, 0], 0) == [1];
    assert w3.members == [0] && Get(w3, 0).session == 1 && w3.active == None && Get(w3, 1) == NEWCOMER;
    RunStep(Init(true), [Connect, Connect] + [Asks(0, OpenSeat, NO_TERMINAL)], Asks(1, OpenSeat, NO_TERMINAL));
    var w4 := Step(w3, Asks(1, OpenSeat, NO_TERMINAL));
    assert w4.members == [1, 0] && Get(w4, 1).session == Get(w4, 0).session == 1;
  }

  // ----- access that outlives its device -----

  /** After both connected, client 0 opened the seat. */
  const ONE_SEATED := World(Two(Client(Active, 0, true, []), NEWCOMER), [0], [1], Some(0), None, false, 0, 1, 2, 0,
                            Then(Then(Start, Join(0, 0)), Enable(0, 0, 0)))

  lemma OneSeated()
    ensures Run(Init(false), [Connect, Connect] + [Asks(0, OpenSeat, FINE)]) == ONE_SEATED
  {
    TwoConnect(false);
    RunStep(Init(false), [Connect, Connect], Asks(0, OpenSeat, FINE));
    var w := Run(Init(false), [Connect, Connect]);
    assert Without([1, 0], 0) == [1];
    assert AddClient(w, 0, FINE).0 ==
      World(Two(Client(New, 0, true, []), NEWCOMER), [0], [1], None, None, false, 0, 1, 2, 0, Then(Start, Join(0, 0)));
  }

  const EVENT0 := Device(1, "/dev/input/event0", Evdev, 1, true, 0)

  /** Then client 0 opened a device. */
  const ONE_OPEN := ONE_SEATED.(clients := Two(Client(Active, 0, true, [EVENT0]), NEWCOMER), nextFile := 1,
                                log := Then(Then(ONE_SEATED.log, Ref(0, EVENT0.path)), Grant(0, 0, Evdev, true)))

  lemma OneOpen()
    ensures Run(Init(false), [Connect, Connect] + [Asks(0, OpenSeat, FINE)] + [Asks(0, OpenDevice([]), FINE)]) == ONE_OPEN
  {
    OneSeated();
    RunStep(Init(false), [Connect, Connect] + [Asks(0, OpenSeat, FINE)], Asks(0, OpenDevice([]), FINE));
    TwoUpdates(Client(Active, 0, true, []), NEWCOMER, Client(Active, 0, true, [EVENT0]));
    assert [EVENT0] + [] == [EVENT0];
    assert OpenDeviceOn(ONE_SEATED, 0, FINE) == (ONE_OPEN, Some(1));
  }

  /** Then it closed the seat, and the revoke of the device failed. */
  const STUCK := FINE.(revokeFails := {1})

  const ONE_LEFT := ONE_OPEN.(clients := Two(Client(Closed, 0, false, []), NEWCOMER), members := [], idle := [0, 1], active := None,
                              log := Then(Then(Then(Then(ONE_OPEN.log, Unref(0, EVENT0.path)), Revoke(0, 0, false)), Drop(0, 0)), Leave(0)))

  lemma OneLeft()
    ensures Run(Init(false), [Connect, Connect] + [Asks(0, OpenSeat, FINE)] + [Asks(0, OpenDevice([]), FINE)] + [Asks(0, CloseSeat, STUCK)]) == ONE_LEFT
  {
    OneOpen();
    RunStep(Init(false), [Connect, Connect] + [Asks(0, OpenSeat, FINE)] + [Asks(0, OpenDevice([]), FINE)], Asks(0, CloseSeat, STUCK));
    StuckDetach();
    hide Detach;
    TwoUpdates(Client(Active, 0, true, []), NEWCOMER, Client(Closed, 0, false, []));
    assert RemoveClient(ONE_OPEN, 0, STUCK) == MarkClosed(CLOSED_STUCK.(active := None), 0);
  }

  /** The table is empty, the seat still taken, and the file not given back. */
  const CLOSED_STUCK := ONE_OPEN.(clients := Two(Client(Active, 0, true, []), NEWCOMER), members := [],
                                  log := Then(Then(Then(ONE_OPEN.log, Unref(0, EVENT0.path)), Revoke(0, 0, false)), Drop(0, 0)))

  lemma StuckDetach()
    ensures Detach(ONE_OPEN, 0, STUCK) == CLOSED_STUCK
  {
    var w0 := ONE_OPEN.(members := []);
    assert Without([0], 0) == [];
    StuckClose();
    hide CloseNth;
    assert Teardown(CLOSED_STUCK, 0, {1}) == CLOSED_STUCK;
    assert Teardown(w0, 0, {1}) == Teardown(CloseNth(w0, 0, 0, {1}), 0, {1});
  }

  lemma StuckClose()
    ensures CloseNth(ONE_OPEN.(members := []), 0, 0, {1}) == CLOSED_STUCK
  {
    var d := EVENT0.(refCount := 0);
    TwoUpdates(Client(Active, 0, true, [EVENT0]), NEWCOMER, Client(Active, 0, true, [d]));
    TwoUpdates(Client(Active, 0, true, [d]), NEWCOMER, Client(Active, 0, true, []));
    assert [EVENT0][0 := d] == [d] && [d][..0] + [d][1..] == [];
  }

  /** A client that closed the seat, and is still connected, keeps the file whose
      revoke failed, and another client opens the same device beside it. */
  lemma ClosingRevokeMayFail()
    ensures var w := Run(Init(false), [Connect, Connect] + [Asks(0, OpenSeat, FINE)] + [Asks(0, OpenDevice([]), FINE)]
                                      + [Asks(0, CloseSeat, STUCK)] + [Asks(1, OpenSeat, FINE)] + [Asks(1, OpenDevice([]), FINE)]);
      && 0 in w.clients && 0 !in w.members && Get(w, 0).devices == [] && PhaseOf(w.log, 0) == In(Closed)
      && AccessOf(w.log) == map[(0, 0) := Stuck, (1, 1) := Wanted]
      && Get(w, 1).devices == [EVENT0.(file := 1)] && Holder(w) == Some(1)
  {
    var inputs := [Connect, Connect] + [Asks(0, OpenSeat, FINE)] + [Asks(0, OpenDevice([]), FINE)] + [Asks(0, CloseSeat, STUCK)];
    OneLeft();
    RunStep(Init(false), inputs, Asks(1, OpenSeat, FINE));
    RunStep(Init(false), inputs + [Asks(1, OpenSeat, FINE)], Asks(1, OpenDevice([]), FINE));
    SecondSeated();
    hide Step;
    SecondOpens();
    TwoOpenLog();
  }

  const TWO_SEATED := ONE_LEFT.(clients := Two(Client(Closed, 0, false, []), Client(Active, 1, true, [])), members := [1], idle := [0],
                                active := Some(1), sessionCnt := 2, log := Then(Then(ONE_LEFT.log, Join(1, 1)), Enable(1, 1, 0)))

  lemma SecondSeated()
    ensures Step(ONE_LEFT, Asks(1, OpenSeat, FINE)) == TWO_SEATED
  {
    TwoUpdates(Client(Closed, 0, false, []), NEWCOMER, Client(New, 1, true, []));
    TwoUpdates(Client(Closed, 0, false, []), Client(New, 1, true, []), Client(Active, 1, true, []));
    assert Without([0, 1], 1) == [0] && [1] + [] == [1];
    var w1 := TWO_SEATED.(clients := Two(Client(Closed, 0, false, []), Client(New, 1, true, [])), active := None,
                          log := Then(ONE_LEFT.log, Join(1, 1)));
    assert AddClient(ONE_LEFT, 1, FINE) == (w1, true);
  }

  const TWO_OPEN := TWO_SEATED.(clients := Two(Client(Closed, 0, false, []), Client(Active, 1, true, [EVENT0.(file := 1)])), nextFile := 2,
                                log := Then(Then(TWO_SEATED.log, Ref(1, EVENT0.path)), Grant(1, 1, Evdev, true)))

  lemma SecondOpens()
    ensures Step(TWO_SEATED, Asks(1, OpenDevice([]), FINE)) == TWO_OPEN
  {
    TwoUpdates(Client(Closed, 0, false, []), Client(Active, 1, true, []), Client(Active, 1, true, [EVENT0.(file := 1)]));
    assert [EVENT0.(file := 1)] + [] == [EVENT0.(file := 1)];
    assert OpenDeviceOn(TWO_SEATED, 1, FINE) == (TWO_OPEN, Some(1));
  }

  lemma OneLeftLog()
    ensures AccessOf(ONE_LEFT.log) == map[(0, 0) := Stuck] && PhaseOf(ONE_LEFT.log, 0) == In(Closed)
  {
    var t1, t2 := ONE_SEATED.log, ONE_OPEN.log;
    assert AccessOf(t1) == map[] && PhaseOf(t1, 0) == In(Active);
    assert AccessOf(t2) == map[(0, 0) := Wanted] && PhaseOf(t2, 0) == In(Active);
    var t3 := Then(Then(t2, Unref(0, EVENT0.path)), Revoke(0, 0, false));
    assert AccessOf(t3) == map[(0, 0) := Stuck] && PhaseOf(t3, 0) == In(Active);
  }

  lemma TwoOpenLog()
    ensures AccessOf(TWO_OPEN.log) == map[(0, 0) := Stuck, (1, 1) := Wanted] && PhaseOf(TWO_OPEN.log, 0) == In(Closed)
  {
    OneLeftLog();
    var t := ONE_LEFT.log;
    AfterLeave(t);
  }

  lemma AfterLeave(t: Trace)
    requires AccessOf(t) == map[(0, 0) := Stuck] && PhaseOf(t, 0) == In(Closed)
    ensures var t1 := Then(Then(Then(Then(t, Join(1, 1)), Enable(1, 1, 0)), Ref(1, EVENT0.path)), Grant(1, 1, Evdev, true));
      AccessOf(t1) == map[(0, 0) := Stuck, (1, 1) := Wanted] && PhaseOf(t1, 0) == In(Closed)
  {
    var t1 := Then(Then(t, Join(1, 1)), Enable(1, 1, 0));
    assert AccessOf(t1) == AccessOf(t) && PhaseOf(t1, 0) == In(Closed);
  }

  // ----- opening a path again -----

  /** The second open of a path is counted and returns nothing. */
  lemma SecondOpenIsRefused()
    ensures var w := Run(Init(false), [Connect, Connect] + [Asks(0, OpenSeat, FINE)] + [Asks(0, OpenDevice([]), FINE)]);
      && OpenDeviceOn(w, 0, FINE).1 == None
      && Get(Step(w, Asks(0, OpenDevice([]), FINE)), 0).devices == [EVENT0.(refCount := 2)]
  {
    OneOpen();
    assert FindPath([EVENT0], EVENT0.path) == Some(0);
  }

  // ----- session 0 -----

  /** Both have joined; client 0 has session 0 and the seat. */
  const BOTH_SEATED := ONE_SEATED.(clients := Two(Client(Active, 0, true, []), Client(New, 1, true, [])), members := [1, 0], idle := [],
                                   sessionCnt := 2, log := Then(ONE_SEATED.log, Join(1, 1)))

  const SWITCHING := BOTH_SEATED.(clients := Two(Client(PendingDisable, 0, true, []), Client(New, 1, true, [])), next := Some(1),
                                  log := Then(BOTH_SEATED.log, Disable(0)))

  const SWITCHED := BOTH_SEATED.(clients := Two(Client(Disabled, 0, true, []), Client(Active, 1, true, [])), active := Some(1),
                                 log := Then(Then(SWITCHING.log, Ack(0)), Enable(1, 1, 0)))

  lemma BothSeated()
    ensures Step(ONE_SEATED, Asks(1, OpenSeat, FINE)) == BOTH_SEATED
  {
    TwoUpdates(Client(Active, 0, true, []), NEWCOMER, Client(New, 1, true, []));
    assert Without([1], 1) == [] && [1] + [0] == [1, 0];
    assert AddClient(ONE_SEATED, 1, FINE) == (BOTH_SEATED, true);
  }

  lemma Switching()
    ensures Step(BOTH_SEATED, Asks(0, SwitchSession(1), FINE)) == SWITCHING
  {
    TwoUpdates(Client(Active, 0, true, []), Client(New, 1, true, []), Client(PendingDisable, 0, true, []));
    assert FindSession(BOTH_SEATED, [1, 0], 1) == Some(1);
    var w := BOTH_SEATED.(next := Some(1));
    assert DeactivateFrom(w, 0, 0, {}) == w;
    assert DisableClient(w, 0, FINE).0 == SWITCHING;
  }

  lemma Switched()
    ensures Step(SWITCHING, Asks(0, DisableSeat, FINE)) == SWITCHED
  {
    TwoUpdates(Client(PendingDisable, 0, true, []), Client(New, 1, true, []), Client(Disabled, 0, true, []));
    TwoUpdates(Client(Disabled, 0, true, []), Client(New, 1, true, []), Client(Active, 1, true, []));
    var w := SWITCHING.(clients := Two(Client(Disabled, 0, true, []), Client(New, 1, true, [])), active := None, next := None,
                        log := Then(SWITCHING.log, Ack(0)));
    assert ActivateFrom(w, 1, 0) == w;
    assert OpenClient(w, 1, FINE).0 == SWITCHED;
    assert ActivateSeat(w.(next := Some(1)), FINE).0 == SWITCHED;
  }

  /** Client 0 has session 0 and hands the seat on; nobody can hand it back by number. */
  lemma NoSwitchToSessionZero()
    ensures var w := Run(Init(false), [Connect, Connect] + [Asks(0, OpenSeat, FINE)] + [Asks(1, OpenSeat, FINE)]
                                      + [Asks(0, SwitchSession(1), FINE)] + [Asks(0, DisableSeat, FINE)]);
      && w.members == [1, 0] && Get(w, 0).session == 0 && Get(w, 0).state == Disabled && Holder(w) == Some(1)
      && SetNextSession(w, 1, 0, FINE) == (w, false)
  {
    hide Step;
    var inputs := [Connect, Connect] + [Asks(0, OpenSeat, FINE)];
    OneSeated();
    RunStep(Init(false), inputs, Asks(1, OpenSeat, FINE));
    BothSeated();
    RunStep(Init(false), inputs + [Asks(1, OpenSeat, FINE)], Asks(0, SwitchSession(1), FINE));
    Switching();
    RunStep(Init(false), inputs + [Asks(1, OpenSeat, FINE)] + [Asks(0, SwitchSession(1), FINE)], Asks(0, DisableSeat, FINE));
    Switched();
  }

  // ----- a device that cannot be revoked -----

  /** Paths name a keyboard that knows no revoke. */
  const KEYBOARD := FINE.(resolved := Some(Resolved("/dev/wskbd0", Wscons)))

  const WSKBD0 := Device(1, "/dev/wskbd0", Wscons, 1, true, 0)

  /** Client 0 opened the keyboard. */
  const KEYS_OPEN := BOTH_SEATED.(clients := Two(Client(Active, 0, true, [WSKBD0]), Client(New, 1, true, [])), nextFile := 1,
                                  log := Then(Then(BOTH_SEATED.log, Ref(0, WSKBD0.path)), Grant(0, 0, Wscons, true)))

  lemma KeysOpen()
    ensures Step(BOTH_SEATED, Asks(0, OpenDevice([]), KEYBOARD)) == KEYS_OPEN
  {
    TwoUpdates(Client(Active, 0, true, []), Client(New, 1, true, []), Client(Active, 0, true, [WSKBD0]));
    assert [WSKBD0] + [] == [WSKBD0];
    assert OpenDeviceOn(BOTH_SEATED, 0, KEYBOARD) == (KEYS_OPEN, Some(1));
  }

  const OFF := WSKBD0.(active := false)

  /** It asked for a switch, and the entry was marked inactive. */
  const KEYS_SWITCHING := KEYS_OPEN.(clients := Two(Client(PendingDisable, 0, true, [OFF]), Client(New, 1, true, [])), next := Some(1),
                                     log := Then(Then(KEYS_OPEN.log, Unmark(0, 0)), Disable(0)))

  lemma KeysSwitching()
    ensures Step(KEYS_OPEN, Asks(0, SwitchSession(1), FINE)) == KEYS_SWITCHING
  {
    TwoUpdates(Client(Active, 0, true, [WSKBD0]), Client(New, 1, true, []), Client(Active, 0, true, [OFF]));
    TwoUpdates(Client(Active, 0, true, [OFF]), Client(New, 1, true, []), Client(PendingDisable, 0, true, [OFF]));
    assert FindSession(KEYS_OPEN, [1, 0], 1) == Some(1);
    var w := KEYS_OPEN.(next := Some(1));
    var w1 := w.(clients := Two(Client(Active, 0, true, [OFF]), Client(New, 1, true, [])), log := Then(w.log, Unmark(0, 0)));
    assert [WSKBD0][0 := OFF] == [OFF];
    assert DeactivateDevice(w, 0, 0, {}) == w1;
    assert DeactivateFrom(w1, 0, 1, {}) == w1;
    assert DeactivateFrom(w, 0, 0, {}) == w1;
    assert DisableClient(w, 0, FINE).0 == KEYS_SWITCHING;
  }

  /** Client 1 took the seat over. */
  const KEYS_SWITCHED := KEYS_OPEN.(clients := Two(Client(Disabled, 0, true, [OFF]), Client(Active, 1, true, [])), active := Some(1),
                                    log := Then(Then(KEYS_SWITCHING.log, Ack(0)), Enable(1, 1, 0)))

  lemma KeysSwitched()
    ensures Step(KEYS_SWITCHING, Asks(0, DisableSeat, FINE)) == KEYS_SWITCHED
  {
    TwoUpdates(Client(PendingDisable, 0, true, [OFF]), Client(New, 1, true, []), Client(Disabled, 0, true, [OFF]));
    TwoUpdates(Client(Disabled, 0, true, [OFF]), Client(New, 1, true, []), Client(Active, 1, true, []));
    var w := KEYS_SWITCHING.(clients := Two(Client(Disabled, 0, true, [OFF]), Client(New, 1, true, [])), active := None, next := None,
                             log := Then(KEYS_SWITCHING.log, Ack(0)));
    assert ActivateFrom(w, 1, 0) == w;
    assert OpenClient(w, 1, FINE).0 == KEYS_SWITCHED;
    assert ActivateSeat(w.(next := Some(1)), FINE).0 == KEYS_SWITCHED;
  }

  /** And it opened the keyboard, too. */
  const KEYS_SHARED := KEYS_SWITCHED.(clients := Two(Client(Disabled, 0, true, [OFF]), Client(Active, 1, true, [WSKBD0.(file := 1)])), nextFile := 2,
                                      log := Then(Then(KEYS_SWITCHED.log, Ref(1, WSKBD0.path)), Grant(1, 1, Wscons, true)))

  lemma KeysShared()
    ensures Step(KEYS_SWITCHED, Asks(1, OpenDevice([]), KEYBOARD)) == KEYS_SHARED
  {
    TwoUpdates(Client(Disabled, 0, true, [OFF]), Client(Active, 1, true, []), Client(Active, 1, true, [WSKBD0.(file := 1)]));
    assert [WSKBD0.(file := 1)] + [] == [WSKBD0.(file := 1)];
    assert OpenDeviceOn(KEYS_SWITCHED, 1, KEYBOARD) == (KEYS_SHARED, Some(1));
  }

  lemma KeysLog()
    ensures AccessOf(KEYS_SHARED.log) == map[(0, 0) := Kept, (1, 1) := Wanted] && NoRevokeFails(KEYS_SHARED.log)
  {
    var t := BOTH_SEATED.log;
    assert AccessOf(ONE_SEATED.log) == map[] && NoRevokeFails(ONE_SEATED.log);
    assert AccessOf(t) == map[] && NoRevokeFails(t);
    KeysLogFrom(t);
  }

  lemma KeysLogFrom(t: Trace)
    requires AccessOf(t) == map[] && NoRevokeFails(t)
    ensures var t1 := Then(Then(Then(Then(t, Ref(0, WSKBD0.path)), Grant(0, 0, Wscons, true)), Unmark(0, 0)), Disable(0));
      var t2 := Then(Then(Then(Then(t1, Ack(0)), Enable(1, 1, 0)), Ref(1, WSKBD0.path)), Grant(1, 1, Wscons, true));
      AccessOf(t2) == map[(0, 0) := Kept, (1, 1) := Wanted] && NoRevokeFails(t2)
  {
    var t1 := Then(Then(t, Ref(0, WSKBD0.path)), Grant(0, 0, Wscons, true));
    assert AccessOf(t1) == map[(0, 0) := Wanted] && NoRevokeFails(t1);
    var t2 := Then(Then(t1, Unmark(0, 0)), Disable(0));
    assert AccessOf(t2) == map[(0, 0) := Kept] && NoRevokeFails(t2);
    var t3 := Then(Then(t2, Ack(0)), Enable(1, 1, 0));
    assert AccessOf(t3) == map[(0, 0) := Kept] && NoRevokeFails(t3);
    var t4 := Then(Then(t3, Ref(1, WSKBD0.path)), Grant(1, 1, Wscons, true));
    assert AccessOf(t4) == map[(0, 0) := Kept][(1, 1) := Wanted];
  }

  /** A client that was disabled keeps its keyboard, which nothing takes away, and
      the next client opens the same one beside it.  No revoke failed. */
  lemma WsconsIsShared()
    ensures var w := Run(Init(false), [Connect, Connect] + [Asks(0, OpenSeat, FINE)] + [Asks(1, OpenSeat, FINE)]
                                      + [Asks(0, OpenDevice([]), KEYBOARD)] + [Asks(0, SwitchSession(1), FINE)]
                                      + [Asks(0, DisableSeat, FINE)] + [Asks(1, OpenDevice([]), KEYBOARD)]);
      && Holder(w) == Some(1) && Get(w, 0).state == Disabled
      && AccessOf(w.log) == map[(0, 0) := Kept, (1, 1) := Wanted] && NoRevokeFails(w.log)
  {
    hide Step;
    var inputs := [Connect, Connect] + [Asks(0, OpenSeat, FINE)];
    OneSeated();
    RunStep(Init(false), inputs, Asks(1, OpenSeat, FINE));
    BothSeated();
    var inputs1 := inputs + [Asks(1, OpenSeat, FINE)];
    RunStep(Init(false), inputs1, Asks(0, OpenDevice([]), KEYBOARD));
    KeysOpen();
    var inputs2 := inputs1 + [Asks(0, OpenDevice([]), KEYBOARD)];
    RunStep(Init(false), inputs2, Asks(0, SwitchSession(1), FINE));
    KeysSwitching();
    var inputs3 := inputs2 + [Asks(0, SwitchSession(1), FINE)];
    RunStep(Init(false), inputs3, Asks(0, DisableSeat, FINE));
    KeysSwitched();
    RunStep(Init(false), inputs3 + [Asks(0, DisableSeat, FINE)], Asks(1, OpenDevice([]), KEYBOARD));
    KeysShared();
    KeysLog();
  }
}
