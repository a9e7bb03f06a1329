/**
 seatd/seat.c and seatd/client.c in their own form: clients are objects whose
 fields the seat's operations update, the lists are fields, and loops walk them.
 Every method is proved to change the abstract value `Abs()` exactly as its
 function in SeatModel says, so the theorems about runs apply to the objects.
 */
module SeatObjects {
  import opened Logs
  import opened Options
  import M = SeatModel
  import opened SeatTrace
  import Inv = SeatInvariant
  import Safety = SeatSafety

  class Client {
    const id: M.ClientId
    var state: M.ClientState
    var session: int
    var seated: bool            // client->seat is not NULL
    var devices: seq<M.Device>  // client->devices, head first

    constructor (id: M.ClientId)
      ensures this.id == id && Record() == M.Client(M.New, -1, false, [])
    {
      this.id := id;
      state, session, seated, devices := M.New, -1, false, [];
    }

    function Record(): M.Client
      reads this
    {
      M.Client(state, session, seated, devices)
    }
  }

  function Ids(cs: seq<Client>): (r: seq<M.ClientId>)
    ensures |r| == |cs| && forall i :: 0 <= i < |cs| ==> r[i] == cs[i].id
  {
    seq(|cs|, i requires 0 <= i < |cs| => cs[i].id)
  }

  function IdOf(c: Client?): Option<M.ClientId> {
    if c == null then None else Some(c.id)
  }

  /** linked_list_remove */
  function Unlink(cs: seq<Client>, c: Client): seq<Client> {
    if cs == [] then []
    else if cs[0] == c then cs[1..]
    else [cs[0]] + Unlink(cs[1..], c)
  }

  /** The seat together with the server's list of idle clients. */
  class Seat {
    var members: seq<Client>
    var idle: seq<Client>
    var active: Client?
    var next: Client?
    const vtBound: bool
    var curVt: int
    var sessionCnt: int
    var nextId: M.ClientId
    var nextFile: nat           // names the next open file
    ghost var all: map<M.ClientId, Client>  // every connected client
    ghost var log: M.Trace

    ghost predicate Known(c: Client)
      reads this
    {
      c.id in all && all[c.id] == c
    }

    ghost predicate Valid()
      reads this
    {
      && (forall i :: i in all ==> all[i].id == i)
      && (forall c :: c in members ==> Known(c))
      && (forall c :: c in idle ==> Known(c))
      && (active != null ==> Known(active))
      && (next != null ==> Known(next))
    }

    ghost function Abs(): M.World
      reads this, all.Values
    {
      M.World(map i | i in all :: all[i].Record(), Ids(members), Ids(idle), IdOf(active), IdOf(next),
              vtBound, curVt, sessionCnt, nextId, nextFile, log)
    }

    constructor (vtBound: bool)
      ensures Valid() && Abs() == M.Init(vtBound)
    {
      members, idle, active, next := [], [], null, null;
      this.vtBound := vtBound;
      curVt, sessionCnt, nextId, nextFile, all, log := 0, 0, 0, 0, map[], Start;
    }

    /** If only c's record changed, only c's entry of the abstract clients changed. */
    twostate lemma Touched(c: Client)
      requires old(Valid()) && old(Known(c)) && all == old(all)
      requires forall i :: i in all && i != c.id ==> all[i].Record() == old(all[i].Record())
      ensures Abs() == M.World(old(Abs()).clients[c.id := c.Record()], Ids(members), Ids(idle), IdOf(active), IdOf(next),
                               vtBound, curVt, sessionCnt, nextId, nextFile, log)
    {
      assert Abs().clients == old(Abs()).clients[c.id := c.Record()];
    }

    // ----- devices -----

    /** seat_deactivate_device */
    method DeactivateDevice(c: Client, k: nat, fails: set<int>) returns (ok: bool)
      requires Valid() && Known(c) && k < |c.devices|
      modifies c`devices, `log
      ensures Valid()
      ensures Abs() == M.DeactivateDevice(old(Abs()), c.id, k, fails)
      ensures ok == !c.devices[k].active
      ensures |c.devices| == old(|c.devices|)
    {
      var d := c.devices[k];
      if !d.active {
        return true;
      }
      log := Then(log, M.Withdraw(c.id, d, fails));
      if d.kind != M.Wscons && d.id in fails {
        return false;
      }
      c.devices := c.devices[k := d.(active := false)];
      ok := true;
      Touched(c);
    }

    /** The loop of seat_disable_client */
    method DeactivateDevices(c: Client, fails: set<int>)
      requires Valid() && Known(c)
      modifies c`devices, `log
      ensures Valid()
      ensures Abs() == M.DeactivateFrom(old(Abs()), c.id, 0, fails)
    {
      var k := 0;
      while k < |c.devices|
        invariant Valid() && Known(c)
        invariant k <= |c.devices|
        invariant M.DeactivateFrom(Abs(), c.id, k, fails) == M.DeactivateFrom(old(Abs()), c.id, 0, fails)
      {
        var _ := DeactivateDevice(c, k, fails);
        k := k + 1;
      }
    }

    /** seat_activate_device */
    method ActivateDevice(c: Client, k: nat) returns (ok: bool)
      requires Valid() && Known(c) && k < |c.devices|
      modifies c`devices, `log
      ensures Valid()
      ensures Abs() == M.ActivateDevice(old(Abs()), c.id, k)
      ensures ok == (c.devices[k].active || c.devices[k].kind == M.Wscons)
      ensures |c.devices| == old(|c.devices|)
    {
      var d := c.devices[k];
      if d.active {
        return true;
      }
      match d.kind {
        case Drm =>
          c.devices := c.devices[k := d.(active := true)];
          log := Then(log, M.Grant(c.id, d.file, d.kind, false));
          Touched(c);
          return true;
        case Evdev => return false;
        case Hidraw => return false;
        case Wscons => return true;
      }
    }

    /** The loop of seat_open_client */
    method ActivateDevices(c: Client)
      requires Valid() && Known(c)
      modifies c`devices, `log
      ensures Valid()
      ensures Abs() == M.ActivateFrom(old(Abs()), c.id, 0)
    {
      var k := 0;
      while k < |c.devices|
        invariant Valid() && Known(c)
        invariant k <= |c.devices|
        invariant M.ActivateFrom(Abs(), c.id, k) == M.ActivateFrom(old(Abs()), c.id, 0)
      {
        var _ := ActivateDevice(c, k);
        k := k + 1;
      }
    }

    /** seat_close_device */
    method CloseDevice(c: Client, k: nat, fails: set<int>)
      requires Valid() && Known(c) && k < |c.devices|
      modifies c`devices, `log
      ensures Valid()
      ensures Abs() == M.CloseNth(old(Abs()), c.id, k, fails)
    {
      var d := c.devices[k];
      c.devices := c.devices[k := d.(refCount := d.refCount - 1)];
      log := Then(log, M.Unref(c.id, d.path));
      Touched(c);
      hide M.DropDevice, Abs, Ids;
      if d.refCount - 1 > 0 {
        return;
      }
      DropDevice(c, k, fails);
    }

    /** The tail of seat_close_device */
    method DropDevice(c: Client, k: nat, fails: set<int>)
      requires Valid() && Known(c) && k < |c.devices|
      modifies c`devices, `log
      ensures Valid()
      ensures Abs() == M.DropDevice(old(Abs()), c.id, k, fails)
    {
      var d := c.devices[k];
      c.devices := c.devices[..k] + c.devices[k + 1..];
      if d.active {
        log := Then(log, M.Withdraw(c.id, d, fails));
      }
      log := Then(log, M.Drop(c.id, d.file));
      Touched(c);
    }

    /** The loop of seat_remove_client; the sum of the reference counts bounds it. */
    method CloseDevices(c: Client, fails: set<int>)
      requires Valid() && Known(c)
      modifies c`devices, `log
      ensures Valid()
      ensures Abs() == M.Teardown(old(Abs()), c.id, fails)
      ensures c.devices == []
    {
      while c.devices != []
        invariant Valid() && Known(c)
        invariant M.Teardown(Abs(), c.id, fails) == M.Teardown(old(Abs()), c.id, fails)
        decreases M.TotalRefs(c.devices)
      {
        M.CloseShrinks(Abs(), c.id, fails);
        CloseDevice(c, 0, fails);
        assert c.devices == M.Get(Abs(), c.id).devices;
      }
    }

    /** seat_find_device */
    method FindDevice(c: Client, id: int) returns (r: Option<nat>)
      ensures r == M.FindDevice(c.devices, id)
    {
      if id == 0 {
        return None;
      }
      var k := 0;
      while k < |c.devices|
        invariant k <= |c.devices|
        invariant match M.FindId(c.devices[k..], id)
          case None => M.FindId(c.devices, id) == None
          case Some(j) => M.FindId(c.devices, id) == Some(k + j)
      {
        assert c.devices[k..][0] == c.devices[k] && c.devices[k..][1..] == c.devices[k + 1..];
        if c.devices[k].id == id {
          return Some(k);
        }
        k := k + 1;
      }
      r := None;
    }

    /** Another open of the k-th device */
    method CountOpen(c: Client, k: nat)
      requires Valid() && Known(c) && k < |c.devices|
      modifies c`devices, `log
      ensures Valid()
      ensures Abs() == M.Emit(M.SetDevices(old(Abs()), c.id, old(c.devices)[k := old(c.devices[k]).(refCount := old(c.devices[k]).refCount + 1)]),
                              M.Ref(c.id, old(c.devices[k]).path))
    {
      var d := c.devices[k];
      c.devices := c.devices[k := d.(refCount := d.refCount + 1)];
      log := Then(log, M.Ref(c.id, d.path));
      Touched(c);
    }

    /** The end of seat_open_device: a new entry at the head of the list */
    method InsertDevice(c: Client, d: M.Device)
      requires Valid() && Known(c)
      modifies c`devices, `nextFile, `log
      ensures Valid()
      ensures Abs() == M.Emit(M.Emit(M.SetDevices(old(Abs()).(nextFile := old(nextFile) + 1), c.id, [d] + old(c.devices)),
                                     M.Ref(c.id, d.path)),
                              M.Grant(c.id, d.file, d.kind, true))
    {
      nextFile := nextFile + 1;
      c.devices := [d] + c.devices;
      log := Then(Then(log, M.Ref(c.id, d.path)), M.Grant(c.id, d.file, d.kind, true));
      Touched(c);
    }

    /** seat_open_device */
    method OpenDevice(c: Client, env: M.Env) returns (device: Option<int>)
      requires Valid() && Known(c) && (c.state == M.Active ==> active == c)
      modifies c`devices, `nextFile, `log
      ensures Valid()
      ensures (Abs(), device) == M.OpenDeviceOn(old(Abs()), c.id, env)
    {
      if c.state != M.Active {
        return None;
      }
      assert active == c;
      if env.resolved == None {
        return None;
      }
      var path := env.resolved.value.path;
      AbsFacts(c);
      OpenDeviceCases(Abs(), c.id, env);
      hide M.OpenDeviceOn, M.FindPath, M.FreshId, M.Emit, M.SetDevices, Abs, Ids;
      var found, id, count := ScanDevices(c, path);
      if found.Some? {
        CountOpen(c, found.value);
        return None;
      }
      if count >= M.MAX_SEAT_DEVICES || !env.opens {
        return None;
      }
      InsertDevice(c, M.Device(id, path, env.resolved.value.kind, 1, true, nextFile));
      device := Some(id);
    }

    /** The loop of seat_open_device: the entry with the path, or else the next free id and the number of entries */
    method ScanDevices(c: Client, path: string) returns (found: Option<nat>, id: int, count: nat)
      ensures found == M.FindPath(c.devices, path) && (found.Some? ==> c.devices[found.value].path == path)
      ensures found == None ==> id == M.FreshId(c.devices, 1) && count == |c.devices|
    {
      id, count := 1, 0;
      Inv.FindPathIsFirst(c.devices, path);
      while count < |c.devices|
        invariant count <= |c.devices|
        invariant forall j :: 0 <= j < count ==> c.devices[j].path != path
        invariant M.FreshId(c.devices[count..], id) == M.FreshId(c.devices, 1)
      {
        var d := c.devices[count];
        assert c.devices[count..][0] == d && c.devices[count..][1..] == c.devices[count + 1..];
        if d.path == path {
          return Some(count), id, count;
        }
        if d.id >= id {
          id := d.id + 1;
        }
        count := count + 1;
      }
      found := None;
    }

    // ----- the seat -----

    /** seat_update_vt */
    method UpdateVt(env: M.Env)
      requires Valid()
      modifies `curVt, `log
      ensures Valid()
      ensures Abs() == M.UpdateVt(old(Abs()), env)
    {
      if env.vtQuery.Some? {
        curVt := env.vtQuery.value;
        log := Then(log, M.VtQuery(curVt));
      }
    }

    lemma AbsFacts(c: Client)
      requires Valid() && Known(c)
      ensures c.Record() == M.Get(Abs(), c.id) && IdOf(active) == Abs().active && IdOf(next) == Abs().next
      ensures Ids(members) == Abs().members && Ids(idle) == Abs().idle
      ensures vtBound == Abs().vtBound && curVt == Abs().curVt && sessionCnt == Abs().sessionCnt && nextFile == Abs().nextFile
    {
    }

    /** The client becomes active and is told so */
    method MarkActive(c: Client)
      requires Valid() && Known(c)
      modifies c`state, `active, `log
      ensures Valid()
      ensures Abs() == M.Emit(M.SetState(old(Abs()), c.id, M.Active).(active := Some(c.id)),
                              M.Enable(c.id, c.session, curVt))
    {
      c.state := M.Active;
      active := c;
      log := Then(log, M.Enable(c.id, c.session, curVt));
      Touched(c);
    }

    /** seat_open_client */
    method OpenClient(c: Client, env: M.Env) returns (ok: bool)
      requires Valid() && Known(c) && c.seated
      modifies c, `active, `log
      ensures Valid() && c.seated
      ensures (Abs(), ok) == M.OpenClient(old(Abs()), c.id, env)
    {
      if c.state != M.New && c.state != M.Disabled {
        return false;
      }
      if active != null {
        return false;
      }
      if vtBound && !env.vtOpens {
        return false;
      }
      hide M.ActivateFrom, Abs;
      assert c.Record() == M.Get(Abs(), c.id) && IdOf(active) == Abs().active by { AbsFacts(c); }
      ActivateDevices(c);
      MarkActive(c);
      ok := env.sends;
    }

    /** seat_disable_client */
    method DisableClient(c: Client, env: M.Env) returns (ok: bool)
      requires Valid() && Known(c) && (c.state == M.Active ==> active == c && c.seated)
      modifies c, `log
      ensures Valid() && c.seated == old(c.seated)
      ensures (Abs(), ok) == M.DisableClient(old(Abs()), c.id, env)
    {
      if c.state != M.Active {
        return false;
      }
      assert c.seated && active == c;
      hide M.DeactivateFrom;
      DeactivateDevices(c, env.revokeFails);
      label Deactivated:
      c.state := M.PendingDisable;
      log := Then(log, M.Disable(c.id));
      Touched@Deactivated(c);
      ok := env.sends;
    }
  
    /** The first member that holds the given session */
    method FindMember(session: int) returns (r: Client?)
      requires Valid()
      ensures IdOf(r) == M.FindSession(Abs(), Ids(members), session)
      ensures r != null ==> r in members
    {
      var i := 0;
      while i < |members|
        invariant i <= |members|
        invariant M.FindSession(Abs(), Ids(members)[i..], session) == M.FindSession(Abs(), Ids(members), session)
      {
        var rest := Ids(members)[i..];
        assert rest[0] == members[i].id && rest[1..] == Ids(members)[i + 1..];
        assert members[i] in members && Known(members[i]);
        assert M.Get(Abs(), members[i].id) == members[i].Record();
        if members[i].session == session {
          return members[i];
        }
        i := i + 1;
      }
      r := null;
    }

    /** Every client that seat_activate may choose belongs to the seat. */
    ghost predicate CandidatesSeated()
      reads this, members, next
    {
      && (forall i :: 0 <= i < |members| ==> members[i].seated)
      && (next != null ==> next.seated)
    }

    /** seat_activate */
    method ActivateSeat(env: M.Env) returns (ok: bool)
      requires Valid() && CandidatesSeated()
      modifies all.Values, `active, `next, `log
      ensures Valid()
      ensures (Abs(), ok) == M.ActivateSeat(old(Abs()), env)
    {
      if active != null {
        return true;
      }
      var c: Client;
      if next != null {
        c := next;
        next := null;
      } else if members == [] {
        return false;
      } else if vtBound && curVt == -1 {
        return false;
      } else if vtBound {
        var found := FindMember(curVt);
        if found == null {
          return false;
        }
        c := found;
      } else {
        c := members[0];
        assert c in members;
      }
      assert Known(c) && c in all.Values;
      assert Abs() == old(Abs()).(next := None);
      hide M.OpenClient, Abs;
      ok := OpenClient(c, env);
    }
  
    lemma {:induction false} UnlinkIds(cs: seq<Client>, c: Client)
      requires Known(c) && forall x :: x in cs ==> Known(x)
      ensures Ids(Unlink(cs, c)) == M.Without(Ids(cs), c.id)
      ensures forall x :: x in Unlink(cs, c) ==> x in cs
    {
      hide Known;
      if cs != [] {
        var rest := cs[1..];
        assert Ids(cs)[0] == cs[0].id && Ids(cs)[1..] == Ids(rest);
        if cs[0] != c {
          assert cs[0].id != c.id by { KnownApart(cs[0], c); }
          UnlinkIds(rest, c);
          assert Ids([cs[0]] + Unlink(rest, c)) == [cs[0].id] + Ids(Unlink(rest, c));
        }
      }
    }

    lemma KnownApart(a: Client, b: Client)
      requires Known(a) && Known(b) && a != b
      ensures a.id != b.id
    {
    }

    /** seat_add_client */
    method AddClient(c: Client, env: M.Env) returns (ok: bool)
      requires Valid() && Known(c)
      modifies c, `members, `idle, `curVt, `sessionCnt, `log
      ensures Valid()
      ensures (Abs(), ok) == M.AddClient(old(Abs()), c.id, env)
      ensures ok ==> c.seated
    {
      hide M.FindSession, M.Seat, M.UpdateVt;
      if active != null { AbsFacts(active); }
      if c.seated {
        return false;
      }
      if vtBound && active != null && active.state != M.PendingDisable {
        return false;
      }
      if c.session != -1 {
        return false;
      }
      var session := sessionCnt;
      if vtBound {
        UpdateVt(env);
        if curVt == -1 {
          return false;
        }
        if active != null {
          var other := FindMember(curVt);
          if other != null {
            return false;
          }
        }
        session := curVt;
      } else {
        sessionCnt := sessionCnt + 1;
        assert Abs() == old(Abs()).(sessionCnt := old(sessionCnt) + 1);
      }
      Join(c, session);
      ok := true;
    }

    /** The end of seat_add_client: from the idle list to the seat */
    method Join(c: Client, session: int)
      requires Valid() && Known(c)
      modifies c`session, c`seated, `idle, `members, `log
      ensures Valid() && c.seated
      ensures Abs() == M.Seat(old(Abs()), c.id, session)
    {
      hide M.Without, Unlink;
      c.session := session;
      c.seated := true;
      UnlinkIds(idle, c);
      idle := Unlink(idle, c);
      members := [c] + members;
      log := Then(log, M.Join(c.id, session));
      Touched(c);
    }

    lemma CandidatesAreSeated(out: set<M.ClientId>)
      requires Valid() && Safety.Free(Abs(), out)
      ensures CandidatesSeated()
    {
      hide Inv.History, OnlyBy, Safety.Roles;
      forall i | 0 <= i < |members| ensures members[i].seated {
        assert Abs().members[i] == members[i].id;
        assert members[i] in members && Known(members[i]);
        assert Abs().clients[members[i].id] == members[i].Record();
      }
    }

    /** The first half of seat_remove_client */
    method Detach(c: Client, env: M.Env)
      requires Valid() && Known(c)
      modifies c`devices, `next, `members, `log
      ensures Valid()
      ensures Abs() == M.Detach(old(Abs()), c.id, env)
      ensures c.devices == []
    {
      if next == c {
        next := null;
      }
      UnlinkIds(members, c);
      members := Unlink(members, c);
      assert Abs() == old(Abs()).(next := IdOf(next), members := M.Without(old(Abs()).members, c.id));
      hide M.Teardown, Abs;
      CloseDevices(c, env.revokeFails);
    }

    /** The last lines of seat_remove_client */
    method MarkClosed(c: Client)
      requires Valid() && Known(c)
      modifies c`state, c`seated, `log
      ensures Valid()
      ensures Abs() == M.MarkClosed(old(Abs()), c.id)
    {
      c.state := M.Closed;
      c.seated := false;
      log := Then(log, M.Leave(c.id));
      Touched(c);
    }

    /** seat_remove_client */
    method RemoveClient(c: Client, env: M.Env)
      requires Valid() && Known(c) && c.seated && Safety.Inv(Abs())
      modifies all.Values, `next, `members, `active, `log
      ensures Valid()
      ensures Abs() == M.RemoveClient(old(Abs()), c.id, env)
    {
      hide Safety.Mid, Safety.Free, M.Detach, M.ActivateSeat, M.MarkClosed;
      Safety.ClientFacts(Abs(), c.id);
      Safety.DetachKeeps(Abs(), c.id, env);
      Detach(c, env);
      if active == c {
        active := null;
        assert Abs() == M.Detach(old(Abs()), c.id, env).(active := None);
        CandidatesAreSeated({c.id});
        var _ := ActivateSeat(env);
      }
      MarkClosed(c);
    }

    /** seat_ack_disable_client */
    method AckDisable(c: Client, env: M.Env) returns (ok: bool)
      requires Valid() && Known(c) && c.seated && Safety.Inv(Abs())
      modifies all.Values, `active, `next, `log
      ensures Valid()
      ensures (Abs(), ok) == M.AckDisable(old(Abs()), c.id, env)
    {
      hide Safety.Mid, Safety.Free, M.ActivateSeat;
      if c.state != M.PendingDisable {
        return false;
      }
      Safety.ClientFacts(Abs(), c.id);
      Safety.AckFrees(Abs(), c.id);
      c.state := M.Disabled;
      log := Then(log, M.Ack(c.id));
      Touched(c);
      if active != c {
        return true;
      }
      active := null;
      assert Abs() == M.Emit(M.SetState(old(Abs()), c.id, M.Disabled), M.Ack(c.id)).(active := None);
      CandidatesAreSeated({});
      var _ := ActivateSeat(env);
      ok := true;
    }

    /** seat_set_next_session */
    method SetNextSession(c: Client, session: int, env: M.Env) returns (ok: bool)
      requires Valid() && Known(c) && (c.state == M.Active ==> active == c && c.seated)
      modifies c, `next, `log
      ensures Valid()
      ensures (Abs(), ok) == M.SetNextSession(old(Abs()), c.id, session, env)
    {
      if c.state != M.Active {
        return false;
      }
      assert active == c;
      if session <= 0 {
        return false;
      }
      if session == c.session {
        return true;
      }
      if next != null {
        return true;
      }
      if vtBound {
        return env.vtSwitches;
      }
      var target := FindMember(session);
      if target == null {
        return false;
      }
      next := target;
      assert Abs() == old(Abs()).(next := Some(target.id));
      hide M.DisableClient, Abs;
      var _ := DisableClient(active, env);
      ok := true;
    }
  
    lemma SettledFacts()
      requires Safety.Settled(Abs())
      ensures Safety.Inv(Abs()) && vtBound == Abs().vtBound
    {
    }

    lemma LinkFacts()
      ensures IdOf(active) == Abs().active && IdOf(next) == Abs().next
    {
    }

    lemma SeatIsFree()
      requires Valid() && Safety.Inv(Abs()) && active == null
      ensures CandidatesSeated()
    {
      hide Inv.History, OnlyBy, Safety.Roles;
      assert next == null;
      forall i | 0 <= i < |members| ensures members[i].seated {
        assert Abs().members[i] == members[i].id;
        assert members[i] in members && Known(members[i]);
        assert Abs().clients[members[i].id] == members[i].Record();
      }
    }

    /** seat_vt_activate */
    method VtActivate(env: M.Env) returns (ok: bool)
      requires Valid() && Safety.Settled(Abs())
      modifies all.Values, `active, `next, `curVt, `log
      ensures Valid() && Safety.Settled(Abs())
      ensures Abs() == M.VtActivate(old(Abs()), env) && ok == vtBound
    {
      hide Safety.Mid, M.UpdateVt, M.ActivateSeat;
      Safety.VtActivateKeeps(Abs(), env);
      if !vtBound {
        return false;
      }
      Safety.UpdateVtKeeps(Abs(), env);
      UpdateVt(env);
      if active == null {
        SeatIsFree();
        var _ := ActivateSeat(env);
      }
      ok := true;
    }

    /** seat_vt_release */
    method VtRelease(env: M.Env) returns (ok: bool)
      requires Valid() && Safety.Settled(Abs())
      modifies all.Values, `curVt, `log
      ensures Valid() && Safety.Settled(Abs())
      ensures Abs() == M.VtReleaseSeat(old(Abs()), env) && ok == vtBound
    {
      hide Safety.Settled, Safety.Inv, M.UpdateVt, M.DisableClient, Abs;
      assert Safety.Inv(Abs()) && vtBound == Abs().vtBound by { SettledFacts(); }
      Safety.VtReleaseKeeps(Abs(), env);
      if !vtBound {
        return false;
      }
      Safety.UpdateVtKeeps(Abs(), env);
      UpdateVt(env);
      assert IdOf(active) == Abs().active by { LinkFacts(); }
      if active != null {
        ActiveIsSeated();
        var _ := DisableClient(active, env);
      }
      MarkReleased();
      ok := true;
    }

    lemma ActiveIsSeated()
      requires Valid() && Safety.Inv(Abs()) && active != null
      ensures active.seated && Known(active) && active in all.Values
    {
      hide Inv.History, OnlyBy;
      assert Abs().clients[active.id] == active.Record();
    }

    /** The last lines of seat_vt_release */
    method MarkReleased()
      requires Valid()
      modifies `curVt, `log
      ensures Valid()
      ensures Abs() == M.Emit(old(Abs()).(curVt := -1), M.VtRelease)
    {
      curVt := -1;
      log := Then(log, M.VtRelease);
    }

    // ----- clients -----

    /** client_create */
    method Connect() returns (c: Client)
      requires Valid() && Safety.Settled(Abs())
      modifies `idle, `nextId, `all, `log
      ensures Valid() && Safety.Settled(Abs())
      ensures Abs() == M.ConnectClient(old(Abs())) && fresh(c) && Known(c)
    {
      hide Safety.Mid, Abs;
      Safety.ConnectKeeps(Abs());
      assert nextId !in all by { FreshIdentity(Abs()); assert Abs().nextId == nextId && Abs().clients.Keys == all.Keys by { KeysFacts(); } }
      c := new Client(nextId);
      Register(c);
    }

    lemma KeysFacts()
      ensures Abs().nextId == nextId && Abs().clients.Keys == all.Keys
    {
    }

    /** Put a new client on the idle list */
    method Register(c: Client)
      requires Valid() && nextId !in all && c.id == nextId && c.Record() == M.Client(M.New, -1, false, [])
      modifies `idle, `nextId, `all
      ensures Valid() && Known(c) && Abs() == M.ConnectClient(old(Abs()))
    {
      hide Abs, Ids;
      all := all[nextId := c];
      idle := [c] + idle;
      nextId := nextId + 1;
      Registered(c);
    }

    twostate lemma Registered(c: Client)
      requires old(nextId !in all && c.id == nextId) && c.Record() == M.Client(M.New, -1, false, [])
      requires all == old(all)[c.id := c] && idle == [c] + old(idle) && nextId == old(nextId) + 1
      requires unchanged(`members, `active, `next, `curVt, `sessionCnt, `nextFile, `log)
      requires forall i :: i in old(all) ==> old(all)[i].Record() == old(all[i].Record())
      ensures Abs() == M.ConnectClient(old(Abs()))
    {
      assert Abs().clients == old(Abs()).clients[c.id := c.Record()];
      assert Ids(idle) == [c.id] + old(Ids(idle));
    }

    ghost predicate KnownIfConnected(c: Client)
      reads this
    {
      c.id in all ==> all[c.id] == c
    }

    /** The invariant on the abstract lists rules out references to freed clients. */
    lemma ListsAreConnected()
      requires Safety.Inv(Abs())
      requires forall i :: i in all ==> all[i].id == i
      requires forall c :: c in members || c in idle ==> KnownIfConnected(c)
      requires active != null ==> KnownIfConnected(active)
      requires next != null ==> KnownIfConnected(next)
      ensures Valid()
    {
      hide Inv.History, OnlyBy, Safety.Roles;
      forall c | c in members ensures Known(c) {
        var i :| 0 <= i < |members| && members[i] == c;
        assert Abs().members[i] == c.id && c.id in Abs().members;
      }
      forall c | c in idle ensures Known(c) {
        var i :| 0 <= i < |idle| && idle[i] == c;
        assert Abs().idle[i] == c.id && c.id in Abs().idle;
      }
    }

    /** client_destroy.  The client's memory is gone afterwards. */
    method Destroy(c: Client, env: M.Env)
      requires Valid() && Known(c) && Safety.SettledBut(Abs(), c.id)
      modifies all.Values, `members, `idle, `active, `next, `all, `log
      ensures Valid() && Safety.Settled(Abs())
      ensures Abs() == M.Destroy(old(Abs()), c.id, env)
      ensures all == old(all) - {c.id}
    {
      hide Safety.Mid, M.RemoveClient, Abs;
      AbsFacts(c);
      Safety.DestroyKeeps(Abs(), c.id, env);
      if c.seated {
        RemoveClient(c, env);
      }
      assert c.devices == [] by { RemovedHasNoDevices(old(Abs()), c.id, env); AbsFacts(c); }
      Forget(c);
    }

    /** The end of client_destroy: off the list, and freed */
    method Forget(c: Client)
      requires Valid() && Known(c)
      requires Safety.Inv(Abs().(clients := Abs().clients - {c.id}, idle := M.Without(Abs().idle, c.id)))
      modifies `idle, `all
      ensures Valid()
      ensures Abs() == old(Abs()).(clients := old(Abs()).clients - {c.id}, idle := M.Without(old(Abs()).idle, c.id))
      ensures all == old(all) - {c.id}
    {
      hide Safety.Mid;
      UnlinkIds(idle, c);
      idle := Unlink(idle, c);
      all := all - {c.id};
      assert Abs().clients == old(Abs()).clients - {c.id};
      ListsAreConnected();
    }

    // ----- requests -----

    lemma ClientIsWell(c: Client)
      requires Valid() && Known(c) && Safety.Inv(Abs())
      ensures c.state == M.Active ==> active == c && c.seated
      ensures c.seated ==> c.id in Abs().members
      ensures c.id in Abs().clients && Abs().clients[c.id] == c.Record()
    {
      hide Inv.History, OnlyBy;
      Safety.ClientFacts(Abs(), c.id);
    }

    /** handle_open_seat */
    method HandleOpenSeat(c: Client, env: M.Env) returns (ok: bool)
      requires Valid() && Known(c)
      modifies c, `members, `idle, `active, `curVt, `sessionCnt, `log
      ensures Valid()
      ensures (Abs(), ok) == M.HandleOpenSeat(old(Abs()), c.id, env)
    {
      hide M.AddClient, M.OpenClient, Abs;
      ok := AddClient(c, env);
      if !ok || !env.replies {
        return false;
      }
      var _ := OpenClient(c, env);
    }

    /** handle_close_seat */
    method HandleCloseSeat(c: Client, env: M.Env) returns (ok: bool)
      requires Valid() && Known(c) && Safety.Settled(Abs())
      modifies all.Values, `members, `idle, `active, `next, `log
      ensures Valid()
      ensures (Abs(), ok) == M.HandleCloseSeat(old(Abs()), c.id, env)
    {
      hide Safety.Mid, M.RemoveClient;
      if !c.seated {
        return false;
      }
      RemoveClient(c, env);
      label Removed:
      idle := [c] + idle;
      assert Ids(idle) == [c.id] + old@Removed(Ids(idle));
      assert Abs() == old@Removed(Abs()).(idle := [c.id] + old@Removed(Abs()).idle);
      ok := env.replies;
    }

    /** handle_open_device */
    method HandleOpenDevice(c: Client, env: M.Env) returns (ok: bool)
      requires Valid() && Known(c) && Safety.Settled(Abs())
      modifies c`devices, `nextFile, `log
      ensures Valid()
      ensures (Abs(), ok) == M.HandleOpenDevice(old(Abs()), c.id, env)
    {
      hide Safety.Mid, M.OpenDeviceOn, M.CloseNth, Abs;
      ClientIsWell(c);
      AbsFacts(c);
      if !c.seated {
        return false;
      }
      Safety.OpenDeviceOnKeeps(Abs(), c.id, env);
      var device := OpenDevice(c, env);
      AbsFacts(c);
      if device == None {
        return env.replies;
      }
      if !env.dups {
        CloseDevice(c, 0, env.revokeFails);
        return env.replies;
      }
      if !env.queuesFd {
        return false;
      }
      ok := env.replies;
    }

    /** handle_close_device */
    method HandleCloseDevice(c: Client, id: int, env: M.Env) returns (ok: bool)
      requires Valid() && Known(c)
      modifies c`devices, `log
      ensures Valid()
      ensures (Abs(), ok) == M.HandleCloseDevice(old(Abs()), c.id, id, env)
    {
      hide M.CloseNth, M.FindDevice, Abs;
      AbsFacts(c);
      if !c.seated {
        return false;
      }
      var k := FindDevice(c, id);
      if k.Some? {
        CloseDevice(c, k.value, env.revokeFails);
      }
      ok := env.replies;
    }

    /** handle_switch_session */
    method HandleSwitchSession(c: Client, session: int, env: M.Env) returns (ok: bool)
      requires Valid() && Known(c) && Safety.Settled(Abs())
      modifies c, `next, `log
      ensures Valid()
      ensures (Abs(), ok) == M.HandleSwitchSession(old(Abs()), c.id, session, env)
    {
      hide Safety.Mid, M.SetNextSession, Abs;
      ClientIsWell(c);
      AbsFacts(c);
      if !c.seated {
        return false;
      }
      var _ := SetNextSession(c, session, env);
      ok := env.replies;
    }

    /** handle_disable_seat */
    method HandleDisableSeat(c: Client, env: M.Env) returns (ok: bool)
      requires Valid() && Known(c) && Safety.Settled(Abs())
      modifies all.Values, `active, `next, `log
      ensures Valid()
      ensures (Abs(), ok) == M.HandleDisableSeat(old(Abs()), c.id, env)
    {
      hide Safety.Mid, M.AckDisable, Abs;
      AbsFacts(c);
      if !c.seated {
        return false;
      }
      var _ := AckDisable(c, env);
      ok := env.replies;
    }

    /** client_handle_opcode, up to the flush */
    method HandleOpcode(c: Client, request: M.Request, env: M.Env) returns (ok: bool)
      requires Valid() && Known(c) && Safety.Settled(Abs())
      modifies all.Values, `members, `idle, `active, `next, `curVt, `sessionCnt, `nextFile, `log
      ensures Valid()
      ensures (Abs(), ok) == M.Handle(old(Abs()), c.id, request, env)
    {
      hide Safety.Settled, M.HandleOpenSeat, M.HandleCloseSeat, M.HandleOpenDevice, M.HandleCloseDevice,
           M.HandleSwitchSession, M.HandleDisableSeat, Abs;
      match request {
        case OpenSeat => ok := HandleOpenSeat(c, env);
        case CloseSeat => ok := HandleCloseSeat(c, env);
        case OpenDevice(_) => ok := HandleOpenDevice(c, env);
        case CloseDevice(id) => ok := HandleCloseDevice(c, id, env);
        case SwitchSession(session) => ok := HandleSwitchSession(c, session, env);
        case DisableSeat => ok := HandleDisableSeat(c, env);
        case Ping => ok := env.replies;
      }
    }

    /** One complete request of a connected client: handled, flushed, and the
        client destroyed if either fails. */
    method HandleMessage(c: Client, request: M.Request, env: M.Env, fin: M.Env)
      requires Valid() && Known(c) && Safety.Settled(Abs())
      modifies all.Values, this
      ensures Valid() && Safety.Settled(Abs())
      ensures Abs() == M.Step(old(Abs()), M.Message(c.id, request, env, fin))
    {
      hide Safety.Settled, Safety.SettledBut, M.Handle, M.Destroy, Abs;
      assert c.id in Abs().clients by { IsConnected(c); }
      Safety.HandleKeeps(Abs(), c.id, request, env);
      var ok := HandleOpcode(c, request, env);
      if !(ok && env.flushes) {
        Destroy(c, fin);
      }
    }

    lemma IsConnected(c: Client)
      requires Known(c)
      ensures c.id in Abs().clients
    {
    }

    /** The peer is gone. */
    method Disconnect(c: Client, env: M.Env)
      requires Valid() && Known(c) && Safety.Settled(Abs())
      modifies all.Values, this
      ensures Valid() && Safety.Settled(Abs())
      ensures Abs() == M.Step(old(Abs()), M.Disconnect(c.id, env))
    {
      hide Safety.Settled, Safety.SettledBut, M.Destroy, Abs;
      assert c.id in Abs().clients by { IsConnected(c); }
      Safety.SettledIsSettledBut(Abs(), c.id);
      Destroy(c, env);
    }
  }

  lemma FreshIdentity(w: M.World)
    requires Safety.Inv(w)
    ensures w.nextId !in w.clients
  {
  }

  lemma RemovedHasNoDevices(w: M.World, c: M.ClientId, env: M.Env)
    requires Safety.SettledBut(w, c)
    ensures var w1 := if M.Get(w, c).seated then M.RemoveClient(w, c, env) else w;
      M.Get(w1, c).devices == []
  {
    Safety.ClientFacts(w, c);
    hide Inv.History, OnlyBy, M.RemoveClient, Safety.Roles, Safety.Lists;
    if M.Get(w, c).seated { Safety.RemoveClientKeeps(w, c, env); }
  }

  /** What seat_open_device does for an active client and a known kind of device */
  lemma OpenDeviceCases(w: M.World, c: M.ClientId, env: M.Env)
    requires M.Get(w, c).state == M.Active && env.resolved.Some?
    ensures var ds, path := M.Get(w, c).devices, env.resolved.value.path;
      var found := M.FindPath(ds, path);
      M.OpenDeviceOn(w, c, env) ==
        if found.Some? then
          (M.Emit(M.SetDevices(w, c, ds[found.value := ds[found.value].(refCount := ds[found.value].refCount + 1)]), M.Ref(c, path)), None)
        else if |ds| >= M.MAX_SEAT_DEVICES || !env.opens then (w, None)
        else
          var d := M.Device(M.FreshId(ds, 1), path, env.resolved.value.kind, 1, true, w.nextFile);
          (M.Emit(M.Emit(M.SetDevices(w.(nextFile := w.nextFile + 1), c, [d] + ds), M.Ref(c, path)), M.Grant(c, d.file, d.kind, true)),
           Some(d.id))
  {
    hide M.FindPath, M.FreshId, M.Emit, M.SetDevices;
  }
}
