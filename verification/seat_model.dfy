/**
 The seat, its clients and their devices as a transition system on values.

 `World` is the daemon's single seat together with the server's list of idle
 clients.  Every function below mirrors one C function of seatd/seat.c or
 seatd/client.c; what the kernel or the peer decides is read from an `Env`.
 Each externally visible effect appends one `Event` to `World.log`, so a
 property of a log and of all its prefixes is a property of every point of a
 run, including the points inside a handover.

 Functions are total: a client id that is not connected reads as `GONE`, a
 closed client without devices.  The invariant shows that this never happens.
 */
module SeatModel {
  import opened Bytes
  import opened Logs
  import opened Options

  type ClientId = nat

  const MAX_SEAT_DEVICES := 128

  datatype ClientState = New | Active | PendingDisable | Disabled | Closed

  datatype DeviceKind = Evdev | Hidraw | Drm | Wscons

  /** A device entry.  `file` names the open file description behind its
      descriptor; ids are used again after a close, these names never. */
  datatype Device = Device(id: int, path: string, kind: DeviceKind, refCount: int, active: bool, file: nat)

  datatype Client = Client(state: ClientState, session: int, seated: bool, devices: seq<Device>)

  /** What the daemon did, in order.
      - Enable and Disable are the attempts to send these events to a client
      - Grant and Revoke are changes of a client's access to an open file; a revoke may fail
      - Unmark is all that happens to a device of a kind that cannot be revoked: its
        entry is marked inactive, and the client's access is left alone
      - Ref and Unref count the opens and closes of a path
      - Drop is the removal of a device entry, which closes the daemon's own descriptor */
  datatype Event =
    | Join(client: ClientId, session: int)
    | Leave(client: ClientId)
    | Enable(client: ClientId, session: int, vt: int)
    | Disable(client: ClientId)
    | Ack(client: ClientId)
    | Grant(client: ClientId, file: nat, kind: DeviceKind, created: bool)
    | Revoke(client: ClientId, file: nat, ok: bool)
    | Unmark(client: ClientId, file: nat)
    | Ref(client: ClientId, path: string)
    | Unref(client: ClientId, path: string)
    | Drop(client: ClientId, file: nat)
    | VtQuery(vt: int)
    | VtRelease

  type Trace = Log<Event>

  datatype World = World(
    clients: map<ClientId, Client>,  // every connected client
    members: seq<ClientId>,          // seat.clients, head first
    idle: seq<ClientId>,             // server.idle_clients, head first
    active: Option<ClientId>,
    next: Option<ClientId>,
    vtBound: bool,
    curVt: int,
    sessionCnt: int,
    nextId: ClientId,                // identities are never reused
    nextFile: nat,                   // open files neither
    log: Trace)

  /** A canonical path and the class of device it names. */
  datatype Resolved = Resolved(path: string, kind: DeviceKind)

  /** The answers of the kernel and of the peer during one step. */
  datatype Env = Env(
    vtQuery: Option<int>,         // None: tty0 could not be opened
    vtOpens: bool,                // the client's terminal could be opened
    vtSwitches: bool,
    revokeFails: set<int>,        // device ids whose revoke ioctl fails
    resolved: Option<Resolved>,   // None: no such path, or not a supported device
    opens: bool,                  // open(2)
    dups: bool,                   // dup(2)
    queuesFd: bool,               // connection_put_fd
    sends: bool,                  // client_send_enable_seat, client_send_disable_seat
    replies: bool,                // connection_put of the reply
    flushes: bool)                // client_flush after the handler

  datatype Request =
    | OpenSeat
    | CloseSeat
    | OpenDevice(path: seq<byte>)
    | CloseDevice(id: int)
    | DisableSeat
    | SwitchSession(session: int)
    | Ping

  /** What can happen to the daemon.  `fin` answers the calls made by the
      client's destruction when its request fails. */
  datatype Input =
    | Connect
    | Message(client: ClientId, request: Request, env: Env, fin: Env)
    | Disconnect(client: ClientId, env: Env)
    | VtAcquired(env: Env)
    | VtReleased(env: Env)

  const GONE := Client(Closed, -1, false, [])

  function Init(vtBound: bool): World {
    World(map[], [], [], None, None, vtBound, 0, 0, 0, 0, Start)
  }

  function Get(w: World, c: ClientId): Client {
    if c in w.clients then w.clients[c] else GONE
  }

  function Put(w: World, c: ClientId, r: Client): World {
    w.(clients := w.clients[c := r])
  }

  function Emit(w: World, e: Event): World {
    w.(log := Then(w.log, e))
  }

  function SetDevices(w: World, c: ClientId, ds: seq<Device>): World {
    Put(w, c, Get(w, c).(devices := ds))
  }

  function SetState(w: World, c: ClientId, state: ClientState): World {
    Put(w, c, Get(w, c).(state := state))
  }

  /** linked_list_remove of a client from a list. */
  function Without(cs: seq<ClientId>, c: ClientId): seq<ClientId> {
    if cs == [] then []
    else if cs[0] == c then cs[1..]
    else [cs[0]] + Without(cs[1..], c)
  }

  /** The first client on a list that holds the given session. */
  function FindSession(w: World, cs: seq<ClientId>, session: int): Option<ClientId> {
    if cs == [] then None
    else if Get(w, cs[0]).session == session then Some(cs[0])
    else FindSession(w, cs[1..], session)
  }

  // ----- devices -----

  /** What seat_deactivate_device does about the access to an active device */
  function Withdraw(c: ClientId, d: Device, fails: set<int>): Event {
    if d.kind == Wscons then Unmark(c, d.file) else Revoke(c, d.file, d.id !in fails)
  }

  /** seat_deactivate_device on the k-th device of client c */
  function DeactivateDevice(w: World, c: ClientId, k: nat, fails: set<int>): World
    requires k < |Get(w, c).devices|
  {
    var ds := Get(w, c).devices;
    var d := ds[k];
    if !d.active then w
    else if d.kind != Wscons && d.id in fails then Emit(w, Withdraw(c, d, fails))
    else Emit(SetDevices(w, c, ds[k := d.(active := false)]), Withdraw(c, d, fails))
  }

  /** The loop of seat_disable_client from the k-th device on */
  function DeactivateFrom(w: World, c: ClientId, k: nat, fails: set<int>): World
    decreases |Get(w, c).devices| - k
  {
    if k >= |Get(w, c).devices| then w
    else DeactivateFrom(DeactivateDevice(w, c, k, fails), c, k + 1, fails)
  }

  /** seat_activate_device on the k-th device of client c */
  function ActivateDevice(w: World, c: ClientId, k: nat): World
    requires k < |Get(w, c).devices|
  {
    var ds := Get(w, c).devices;
    var d := ds[k];
    if d.active || d.kind != Drm then w
    else Emit(SetDevices(w, c, ds[k := d.(active := true)]), Grant(c, d.file, d.kind, false))
  }

  /** The loop of seat_open_client from the k-th device on */
  function ActivateFrom(w: World, c: ClientId, k: nat): World
    decreases |Get(w, c).devices| - k
  {
    if k >= |Get(w, c).devices| then w
    else ActivateFrom(ActivateDevice(w, c, k), c, k + 1)
  }

  /** The tail of seat_close_device, once the reference count reached zero */
  function DropDevice(w: World, c: ClientId, k: nat, fails: set<int>): World
    requires k < |Get(w, c).devices|
  {
    var ds := Get(w, c).devices;
    var d := ds[k];
    var unlinked := SetDevices(w, c, ds[..k] + ds[k + 1..]);
    var withdrawn := if d.active then Emit(unlinked, Withdraw(c, d, fails)) else unlinked;
    Emit(withdrawn, Drop(c, d.file))
  }

  /** seat_close_device */
  function CloseNth(w: World, c: ClientId, k: nat, fails: set<int>): World
    requires k < |Get(w, c).devices|
  {
    var ds := Get(w, c).devices;
    var d := ds[k];
    var w1 := Emit(SetDevices(w, c, ds[k := d.(refCount := d.refCount - 1)]), Unref(c, d.path));
    if d.refCount - 1 > 0 then w1 else DropDevice(w1, c, k, fails)
  }

  /** Total of the positive reference counts: how many closes empty the table. */
  function TotalRefs(ds: seq<Device>): nat {
    if ds == [] then 0
    else (if ds[0].refCount > 0 then ds[0].refCount else 1) + TotalRefs(ds[1..])
  }

  /** Closing the first device always makes progress towards an empty table. */
  lemma CloseShrinks(w: World, c: ClientId, fails: set<int>)
    requires Get(w, c).devices != []
    ensures TotalRefs(Get(CloseNth(w, c, 0, fails), c).devices) < TotalRefs(Get(w, c).devices)
  {
    var ds := Get(w, c).devices;
    var ds1 := Get(CloseNth(w, c, 0, fails), c).devices;
    if ds[0].refCount - 1 > 0 {
      assert ds1[1..] == ds[1..];
    } else {
      assert ds1 == ds[1..];
    }
  }

  /** The loop of seat_remove_client: close the first device until none is left */
  function Teardown(w: World, c: ClientId, fails: set<int>): World
    decreases TotalRefs(Get(w, c).devices)
  {
    if Get(w, c).devices == [] then w
    else
      CloseShrinks(w, c, fails);
      Teardown(CloseNth(w, c, 0, fails), c, fails)
  }

  /** seat_find_device: the position of the device with the given id */
  function FindDevice(ds: seq<Device>, id: int): (r: Option<nat>)
    ensures r.Some? ==> r.value < |ds|
  {
    if id == 0 then None else FindId(ds, id)
  }

  function FindId(ds: seq<Device>, id: int): (r: Option<nat>)
    ensures r.Some? ==> r.value < |ds|
  {
    if ds == [] then None
    else if ds[0].id == id then Some(0)
    else
      match FindId(ds[1..], id)
      case None => None
      case Some(k) => Some(k + 1)
  }

  /** The position of the device with the given path */
  function FindPath(ds: seq<Device>, path: string): (r: Option<nat>)
    ensures r.Some? ==> r.value < |ds|
  {
    if ds == [] then None
    else if ds[0].path == path then Some(0)
    else
      match FindPath(ds[1..], path)
      case None => None
      case Some(k) => Some(k + 1)
  }

  /** The id chosen by the loop of seat_open_device, given the id so far */
  function FreshId(ds: seq<Device>, id: int): int {
    if ds == [] then id
    else FreshId(ds[1..], if ds[0].id >= id then ds[0].id + 1 else id)
  }

  /** seat_open_device.  The second result is the id of the device returned, or
      None for NULL; NULL is also what the C code returns for a path that is
      already open, after counting the open. */
  function OpenDeviceOn(w: World, c: ClientId, env: Env): (World, Option<int>) {
    var r := Get(w, c);
    if r.state != Active || env.resolved.None? then (w, None)
    else
      var path, kind := env.resolved.value.path, env.resolved.value.kind;
      match FindPath(r.devices, path)
      case Some(k) =>
        var d := r.devices[k];
        (Emit(SetDevices(w, c, r.devices[k := d.(refCount := d.refCount + 1)]), Ref(c, path)), None)
      case None =>
        if |r.devices| >= MAX_SEAT_DEVICES || !env.opens then (w, None)
        else
          var id := FreshId(r.devices, 1);
          var w1 := SetDevices(w.(nextFile := w.nextFile + 1), c, [Device(id, path, kind, 1, true, w.nextFile)] + r.devices);
          (Emit(Emit(w1, Ref(c, path)), Grant(c, w.nextFile, kind, true)), Some(id))
  }

  // ----- seat -----

  /** seat_update_vt */
  function UpdateVt(w: World, env: Env): World {
    match env.vtQuery
    case None => w
    case Some(vt) => Emit(w.(curVt := vt), VtQuery(vt))
  }

  /** seat_open_client */
  function OpenClient(w: World, c: ClientId, env: Env): (World, bool) {
    var r := Get(w, c);
    if r.state != New && r.state != Disabled then (w, false)
    else if w.active.Some? then (w, false)
    else if w.vtBound && !env.vtOpens then (w, false)
    else
      var w1 := ActivateFrom(w, c, 0);
      var w2 := SetState(w1, c, Active).(active := Some(c));
      (Emit(w2, Enable(c, r.session, w.curVt)), env.sends)
  }

  /** The client seat_activate chooses, once the seat is free */
  function Candidate(w: World): Option<ClientId> {
    if w.next.Some? then w.next
    else if w.members == [] then None
    else if w.vtBound then
      if w.curVt == -1 then None else FindSession(w, w.members, w.curVt)
    else Some(w.members[0])
  }

  /** seat_activate */
  function ActivateSeat(w: World, env: Env): (World, bool) {
    if w.active.Some? then (w, true)
    else
      match Candidate(w)
      case None => (w, false)
      case Some(c) => OpenClient(w.(next := None), c, env)
  }

  /** seat_add_client */
  function AddClient(w: World, c: ClientId, env: Env): (World, bool) {
    var r := Get(w, c);
    if r.seated then (w, false)
    else if w.vtBound && w.active.Some? && Get(w, w.active.value).state != PendingDisable then (w, false)
    else if r.session != -1 then (w, false)
    else if w.vtBound then
      var w1 := UpdateVt(w, env);
      if w1.curVt == -1 then (w1, false)
      else if w1.active.Some? && FindSession(w1, w1.members, w1.curVt).Some? then (w1, false)
      else (Seat(w1, c, w1.curVt), true)
    else (Seat(w.(sessionCnt := w.sessionCnt + 1), c, w.sessionCnt), true)
  }

  /** The end of seat_add_client: move the client from the idle list to the seat */
  function Seat(w: World, c: ClientId, session: int): World {
    var r := Get(w, c).(session := session, seated := true);
    Emit(Put(w, c, r).(idle := Without(w.idle, c), members := [c] + w.members), Join(c, session))
  }

  /** The first half of seat_remove_client: off the queue, off the list, devices closed */
  function Detach(w: World, c: ClientId, env: Env): World {
    var next := if w.next == Some(c) then None else w.next;
    Teardown(w.(next := next, members := Without(w.members, c)), c, env.revokeFails)
  }

  /** The last lines of seat_remove_client */
  function MarkClosed(w: World, c: ClientId): World {
    Emit(Put(w, c, Get(w, c).(state := Closed, seated := false)), Leave(c))
  }

  /** seat_remove_client */
  function RemoveClient(w: World, c: ClientId, env: Env): World {
    var w1 := Detach(w, c, env);
    var w2 := if w1.active == Some(c) then ActivateSeat(w1.(active := None), env).0 else w1;
    MarkClosed(w2, c)
  }

  /** seat_disable_client */
  function DisableClient(w: World, c: ClientId, env: Env): (World, bool) {
    if Get(w, c).state != Active then (w, false)
    else
      var w1 := DeactivateFrom(w, c, 0, env.revokeFails);
      (Emit(SetState(w1, c, PendingDisable), Disable(c)), env.sends)
  }

  /** seat_ack_disable_client */
  function AckDisable(w: World, c: ClientId, env: Env): (World, bool) {
    if Get(w, c).state != PendingDisable then (w, false)
    else
      var w1 := Emit(SetState(w, c, Disabled), Ack(c));
      if w1.active != Some(c) then (w1, true)
      else (ActivateSeat(w1.(active := None), env).0, true)
  }

  /** seat_set_next_session */
  function SetNextSession(w: World, c: ClientId, session: int, env: Env): (World, bool) {
    var r := Get(w, c);
    if r.state != Active then (w, false)
    else if session <= 0 then (w, false)
    else if session == r.session then (w, true)
    else if w.next.Some? then (w, true)
    else if w.vtBound then (w, env.vtSwitches)
    else
      match FindSession(w, w.members, session)
      case None => (w, false)
      case Some(target) => (DisableClient(w.(next := Some(target)), c, env).0, true)
  }

  /** seat_vt_activate */
  function VtActivate(w: World, env: Env): World {
    if !w.vtBound then w
    else
      var w1 := UpdateVt(w, env);
      if w1.active.None? then ActivateSeat(w1, env).0 else w1
  }

  /** seat_vt_release */
  function VtReleaseSeat(w: World, env: Env): World {
    if !w.vtBound then w
    else
      var w1 := UpdateVt(w, env);
      var w2 := if w1.active.Some? then DisableClient(w1, w1.active.value, env).0 else w1;
      Emit(w2.(curVt := -1), VtRelease)
  }

  // ----- clients -----

  /** client_create */
  function ConnectClient(w: World): World {
    Put(w, w.nextId, Client(New, -1, false, [])).(idle := [w.nextId] + w.idle, nextId := w.nextId + 1)
  }

  /** client_destroy */
  function Destroy(w: World, c: ClientId, env: Env): World {
    var w1 := if Get(w, c).seated then RemoveClient(w, c, env) else w;
    w1.(clients := w1.clients - {c}, idle := Without(w1.idle, c))
  }

  /** handle_open_seat */
  function HandleOpenSeat(w: World, c: ClientId, env: Env): (World, bool) {
    var (w1, ok) := AddClient(w, c, env);
    if !ok || !env.replies then (w1, false)
    else (OpenClient(w1, c, env).0, true)
  }

  /** handle_close_seat */
  function HandleCloseSeat(w: World, c: ClientId, env: Env): (World, bool) {
    if !Get(w, c).seated then (w, false)
    else
      var w1 := RemoveClient(w, c, env);
      (w1.(idle := [c] + w1.idle), env.replies)
  }

  /** handle_open_device */
  function HandleOpenDevice(w: World, c: ClientId, env: Env): (World, bool) {
    if !Get(w, c).seated then (w, false)
    else
      var (w1, device) := OpenDeviceOn(w, c, env);
      if device.None? then (w1, env.replies)
      else if !env.dups then (CloseNth(w1, c, 0, env.revokeFails), env.replies)
      else if !env.queuesFd then (w1, false)
      else (w1, env.replies)
  }

  /** handle_close_device */
  function HandleCloseDevice(w: World, c: ClientId, id: int, env: Env): (World, bool) {
    if !Get(w, c).seated then (w, false)
    else
      match FindDevice(Get(w, c).devices, id)
      case None => (w, env.replies)
      case Some(k) => (CloseNth(w, c, k, env.revokeFails), env.replies)
  }

  /** handle_switch_session: a refusal is reported to the client, not fatal */
  function HandleSwitchSession(w: World, c: ClientId, session: int, env: Env): (World, bool) {
    if !Get(w, c).seated then (w, false)
    else (SetNextSession(w, c, session, env).0, env.replies)
  }

  /** handle_disable_seat */
  function HandleDisableSeat(w: World, c: ClientId, env: Env): (World, bool) {
    if !Get(w, c).seated then (w, false)
    else (AckDisable(w, c, env).0, env.replies)
  }

  /** client_handle_opcode, up to the flush */
  function Handle(w: World, c: ClientId, request: Request, env: Env): (World, bool) {
    match request
    case OpenSeat => HandleOpenSeat(w, c, env)
    case CloseSeat => HandleCloseSeat(w, c, env)
    case OpenDevice(_) => HandleOpenDevice(w, c, env)
    case CloseDevice(id) => HandleCloseDevice(w, c, id, env)
    case DisableSeat => HandleDisableSeat(w, c, env)
    case SwitchSession(session) => HandleSwitchSession(w, c, session, env)
    case Ping => (w, env.replies)
  }

  /** One event of the daemon's main loop.  A client whose request fails, or
      whose replies cannot be sent, is destroyed. */
  function Step(w: World, input: Input): World {
    match input
    case Connect => ConnectClient(w)
    case Message(c, request, env, fin) =>
      if c !in w.clients then w
      else
        var (w1, ok) := Handle(w, c, request, env);
        if ok && env.flushes then w1 else Destroy(w1, c, fin)
    case Disconnect(c, env) => if c !in w.clients then w else Destroy(w, c, env)
    case VtAcquired(env) => VtActivate(w, env)
    case VtReleased(env) => VtReleaseSeat(w, env)
  }

  /** The world after a sequence of inputs */
  function Run(w: World, inputs: seq<Input>): World {
    if inputs == [] then w
    else Step(Run(w, inputs[..|inputs| - 1]), inputs[|inputs| - 1])
  }
}
