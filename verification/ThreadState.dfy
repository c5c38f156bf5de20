/**
The state one proxy thread owns, and every transition the event loop makes on it.

A thread runs one event loop, so each callback (`on_events`, `after_events`, the end of a
turn) is one atomic step.  Objects of the program are records kept in tables and named by
their identity: a reference to a command, `util::sref<DataCommand>`, is a `Ref`.  Sockets and
nodes are the environment; what they do arrives as the arguments of an `Event`.
*/
module ThreadState {
  import opened Options

  type ClientId = nat
  type GroupId = nat
  type ServerId = nat
  type Slot = nat
  type Addr = nat

  const SLOT_COUNT: nat := 16384
  const MAX_PIPE: nat := 64
  const MAX_RESPONSES: nat := 256
  const POOL_GROWTH: nat := 8

  // ----- commands -----

  /** A reference to one command: the client and group that own it, and its place in the group. */
  datatype Ref = Ref(client: ClientId, group: GroupId, index: nat)

  /** What a command does: one request to one slot, or the GET, SET, DEL sequence of a cross-slot RENAME. */
  datatype Plan = OneSlot(slot: Slot) | Rename(src: Slot, dst: Slot)

  datatype Cmd = Cmd(plan: Plan, stage: nat, answered: bool) {
    function CurrentSlot(): Slot {
      match plan
      case OneSlot(slot) => slot
      case Rename(src, dst) => if stage == 1 then dst else src
    }
  }

  /** What the splitter made of a node's reply: a redirection, or a normal reply of some kind. */
  datatype Body = Redirect | Failure | Nil | Value

  /** The stage a multi-step command goes on to after a normal reply; None when the reply completes it. */
  function NextStage(c: Cmd, body: Body): Option<nat> {
    match c.plan
    case OneSlot(_) => None
    case Rename(_, _) =>
      if c.stage == 0 then (if body == Failure || body == Nil then None else Some(1))
      else if c.stage == 1 then (if body == Failure then None else Some(2))
      else None
  }

  /** A command group; `counter` is its own count of unanswered commands.  No commands: answered directly. */
  datatype Group = Group(client: ClientId, cmds: seq<Cmd>, counter: int, issued: bool)

  function Fresh(plans: seq<Plan>): seq<Cmd> {
    seq(|plans|, i requires 0 <= i < |plans| => Cmd(plans[i], 0, false))
  }

  // ----- clients -----

  /** A client connection.  `pending` says the output buffer set is not empty; `interest` is the
      registration asked for during this turn (true for writing too), and `watched` says the poller
      watches the connection for writing.  `arrived` and `written` are histories: every group ever
      parsed, and every group whose bytes have left. */
  datatype Client = Client(
    closed: bool,
    parsed: seq<GroupId>, awaiting: seq<GroupId>, ready: seq<GroupId>,
    awaitingCount: int, pending: bool, interest: Option<bool>, watched: bool,
    arrived: seq<GroupId>, written: seq<GroupId>)

  const NEW_CLIENT := Client(false, [], [], [], 0, false, None, false, [], [])

  // ----- servers -----

  /** A request put on a connection: the READONLY greeting, or one stage of a command. */
  datatype Request = Greeting(sid: ServerId, conn: nat) | Asked(sid: ServerId, conn: nat, ref: Ref, stage: nat)

  /** A server object.  `queue` and `sent` are `_commands` and `_sent_commands`; `wire` is what the
      node of this connection has been asked and has not answered yet, `conn` numbers the connections. */
  datatype Server = Server(
    open: bool, addr: Addr, queue: seq<Ref>, sent: seq<Option<Ref>>, wire: seq<Request>, conn: nat)

  const IDLE_SERVER := Server(false, 0, [], [], [], 0)

  /** A reply handed over: the command and stage that received it, and the request it answers. */
  datatype Delivery = Delivery(sid: ServerId, conn: nat, ref: Ref, stage: nat, answers: Request)

  // ----- slot map updates -----

  /** A node's share of a slot map: the address chosen for it and the slots it covers.  `refused` says
      that connecting to the address fails, should it come to that. */
  datatype Target = Target(addr: Addr, slots: set<Slot>, refused: bool)

  datatype Updater = Updater(open: bool, targets: seq<Target>)

  function Covered(targets: seq<Target>): set<Slot> {
    if targets == [] then {} else targets[0].slots + Covered(targets[1..])
  }

  // ----- the thread -----

  /** `peers` holds the `_peers` of each client, and `closing` the clients closed during this turn.
      `refused` is a history: some connection has been refused. */
  datatype State = State(
    clients: map<ClientId, Client>, groups: map<GroupId, Group>, nextClient: ClientId, nextGroup: GroupId,
    peers: map<ClientId, set<ServerId>>, closing: seq<ClientId>,
    servers: seq<Server>, addrMap: map<Addr, ServerId>, pool: seq<ServerId>, active: set<ServerId>,
    table: map<Slot, ServerId>, retry: seq<Ref>, updaters: seq<Updater>, expired: bool,
    log: seq<Delivery>, refused: bool, readonly: bool, fullCoverage: bool)

  function Init(readonly: bool, fullCoverage: bool): State {
    State(map[], map[], 0, 0, map[], [], [], map[], [], {}, map[], [], [], true, [], false, readonly, fullCoverage)
  }

  function Cli(s: State, c: ClientId): Client {
    if c in s.clients then s.clients[c] else NEW_CLIENT
  }

  function Srv(s: State, id: ServerId): Server {
    if id < |s.servers| then s.servers[id] else IDLE_SERVER
  }

  function WithCli(s: State, c: ClientId, v: Client): State {
    if c in s.clients then s.(clients := s.clients[c := v]) else s
  }

  function WithSrv(s: State, id: ServerId, v: Server): State {
    if id < |s.servers| then s.(servers := s.servers[id := v]) else s
  }

  function PeersOf(s: State, c: ClientId): set<ServerId> {
    if c in s.peers then s.peers[c] else {}
  }

  type Groups = map<GroupId, Group>

  /** The command a reference points to is alive. */
  predicate Alive(gs: Groups, r: Ref) {
    r.group in gs && gs[r.group].client == r.client && r.index < |gs[r.group].cmds|
  }

  function CmdAt(gs: Groups, r: Ref): Cmd
    requires Alive(gs, r)
  {
    gs[r.group].cmds[r.index]
  }

  function WithCmd(gs: Groups, r: Ref, c: Cmd): Groups
    requires Alive(gs, r)
  {
    gs[r.group := gs[r.group].(cmds := gs[r.group].cmds[r.index := c])]
  }

  // ----- client.cpp -----

  /** `Client::_push_awaitings_to_ready`.  Every group appends at least one buffer to the output. */
  function PushAwaitingsToReady(c: Client): Client {
    if c.awaitingCount != 0 || (c.ready != [] && |c.awaiting| + |c.ready| > MAX_RESPONSES) then c
    else
      var pending := c.pending || c.awaiting != [];
      c.(ready := c.ready + c.awaiting, awaiting := [], pending := pending, interest := if pending then Some(true) else c.interest)
  }

  /** `Client::group_responsed` */
  function GroupResponsed(c: Client): Client {
    PushAwaitingsToReady(c.(awaitingCount := c.awaitingCount - 1))
  }

  /** The references to the commands of group `g`, from index `i` on. */
  function RefsFrom(c: ClientId, g: GroupId, i: nat, n: nat): seq<Ref>
    requires i <= n
    decreases n - i
  {
    if i == n then [] else [Ref(c, g, i)] + RefsFrom(c, g, i + 1, n)
  }

  /** One round of the loop of `Client::_process`: the first parsed group is issued. */
  function IssueFirst(s: State, c: ClientId): State
    requires c in s.clients && s.clients[c].parsed != []
  {
    var cl := s.clients[c];
    var g := cl.parsed[0];
    if g !in s.groups then s
    else
      var grp := s.groups[g];
      var cl' := cl.(parsed := cl.parsed[1..], awaiting := cl.awaiting + [g],
                     awaitingCount := cl.awaitingCount + if grp.cmds == [] then 0 else 1);
      var s1 := s.(clients := s.clients[c := cl'], groups := s.groups[g := grp.(issued := true)]);
      SelectAll(s1, RefsFrom(c, g, 0, |grp.cmds|))
  }

  function IssueMany(s: State, c: ClientId, n: nat): State
    decreases n
  {
    if n == 0 || c !in s.clients || s.clients[c].parsed == [] then s
    else IssueMany(IssueFirst(s, c), c, n - 1)
  }

  /** `Client::_process` */
  function Process(s: State, c: ClientId): State {
    var n := if |Cli(s, c).parsed| < MAX_PIPE then |Cli(s, c).parsed| else MAX_PIPE;
    var s1 := IssueMany(s, c, n);
    if 0 < Cli(s1, c).awaitingCount then s1 else WithCli(s1, c, PushAwaitingsToReady(Cli(s1, c)))
  }

  /** The bytes of the ready groups have left: the groups, and the commands they own, are freed. */
  function DropReady(s: State, c: ClientId): State {
    var cl := Cli(s, c);
    WithCli(s.(groups := s.groups - (set g | g in cl.ready),
               peers := if cl.awaiting == [] then s.peers[c := {}] else s.peers), c,
            cl.(written := cl.written + cl.ready, ready := [], pending := false))
  }

  /** `Client::_send_buffer_set`; `done` is what `writev` returns, which is true of an empty set. */
  function SendBufferSet(s: State, c: ClientId, done: bool): State {
    if Cli(s, c).pending && !done then s
    else
      var s1 := DropReady(s, c);
      if Cli(s1, c).parsed == [] then s1 else Process(s1, c)
  }

  /** `Client::_write_response` */
  function WriteResponse(s: State, c: ClientId, done1: bool, done2: bool): State {
    var s1 := if Cli(s, c).pending then SendBufferSet(s, c, done1) else s;
    if Cli(s1, c).awaiting == [] || Cli(s1, c).awaitingCount != 0 then s1
    else SendBufferSet(WithCli(s1, c, PushAwaitingsToReady(Cli(s1, c))), c, done2)
  }

  /** `Client::push_command` for one request that needs the commands `plans` */
  function PushGroup(s: State, c: ClientId, plans: seq<Plan>): State {
    var cl := Cli(s, c);
    var g := s.nextGroup;
    WithCli(s.(groups := s.groups[g := Group(c, Fresh(plans), |plans|, false)], nextGroup := g + 1), c,
            cl.(parsed := cl.parsed + [g], arrived := cl.arrived + [g]))
  }

  function PushGroups(s: State, c: ClientId, requests: seq<seq<Plan>>): State
    decreases |requests|
  {
    if requests == [] then s else PushGroups(PushGroup(s, c, requests[0]), c, requests[1..])
  }

  /** `Client::_read_request` once the buffer has been split into requests */
  function ReadRequest(s: State, c: ClientId, requests: seq<seq<Plan>>): State {
    var s1 := PushGroups(s, c, requests);
    if Cli(s1, c).awaiting == [] then Process(s1, c) else s1
  }

  /** The registration asked for at the end of a callback: one for writing, once asked for, stays. */
  function Settle(cl: Client): Client {
    cl.(interest := Some(cl.pending || cl.interest == Some(true)))
  }

  /** `Client::on_events`: requests that were read, if the poller said so, then the two writes, if it did */
  function OnEvents(s: State, c: ClientId, read: Option<seq<seq<Plan>>>, write: Option<(bool, bool)>): State {
    var s1 := if read.Some? then ReadRequest(s, c, read.value) else s;
    var s2 := if write.Some? then WriteResponse(s1, c, write.value.0, write.value.1) else s1;
    WithCli(s2, c, Settle(Cli(s2, c)))
  }

  /** `Client::close` */
  function CloseClient(s: State, c: ClientId): State {
    WithCli(s, c, Cli(s, c).(closed := true)).(closing := s.closing + [c])
  }

  // ----- command.cpp -----

  /** `Proxy::retry_move_ask_command_later` */
  function RetryLater(s: State, r: Ref): State {
    s.(retry := s.retry + [r])
  }

  /** `Server::push_client_command`: the server queues the command and becomes a peer of its client. */
  function PushClientCommand(s: State, id: ServerId, r: Ref): State {
    s.(servers := Queued(s.servers, id, r), peers := s.peers[r.client := PeersOf(s, r.client) + {id}])
  }

  function Queued(servers: seq<Server>, id: ServerId, r: Ref): seq<Server> {
    if id < |servers| then servers[id := servers[id].(queue := servers[id].queue + [r])] else servers
  }

  /** `Proxy::get_server_by_slot` */
  function ServerBySlot(s: State, slot: Slot): Option<ServerId> {
    if slot in s.table && Srv(s, s.table[slot]).open then Some(s.table[slot]) else None
  }

  /** `select_server_for` on the current slot of the command */
  function SelectServer(s: State, r: Ref): State {
    if !Alive(s.groups, r) then s
    else
      match ServerBySlot(s, CmdAt(s.groups, r).CurrentSlot())
      case None => RetryLater(s, r)
      case Some(id) => PushClientCommand(s, id, r)
  }

  /** `select_remote` of a group: its commands select their servers in order. */
  function SelectAll(s: State, refs: seq<Ref>): State
    decreases |refs|
  {
    if refs == [] then s else SelectAll(SelectServer(s, refs[0]), refs[1..])
  }

  /** The group counts one command less. */
  function CountDown(gs: Groups, g: GroupId): Groups
    requires g in gs
  {
    gs[g := gs[g].(counter := gs[g].counter - 1)]
  }

  /** `Command::responsed`: the command is answered, and its group and client learn of it. */
  function Responsed(s: State, r: Ref): State {
    if !Alive(s.groups, r) then s
    else
      var s1 := s.(groups := CountDown(WithCmd(s.groups, r, CmdAt(s.groups, r).(answered := true)), r.group));
      if s1.groups[r.group].counter == 0 then WithCli(s1, r.client, GroupResponsed(Cli(s1, r.client))) else s1
  }

  /** `on_remote_responsed` with a normal reply: complete the command or re-issue its next stage. */
  function OnRemoteResponsed(s: State, r: Ref, body: Body): State {
    if !Alive(s.groups, r) then s
    else
      match NextStage(CmdAt(s.groups, r), body)
      case None => Responsed(s, r)
      case Some(stage) => SelectServer(s.(groups := WithCmd(s.groups, r, CmdAt(s.groups, r).(stage := stage))), r)
  }

  // ----- server.cpp -----

  /** The references of a sent queue whose entry has not been nulled. */
  function Live(sent: seq<Option<Ref>>): seq<Ref> {
    if sent == [] then []
    else (if sent[0].Some? then [sent[0].value] else []) + Live(sent[1..])
  }

  function Sending(queue: seq<Ref>): seq<Option<Ref>> {
    seq(|queue|, i requires 0 <= i < |queue| => Some(queue[i]))
  }

  function Asking(s: State, id: ServerId, queue: seq<Ref>): seq<Request> {
    seq(|queue|, i requires 0 <= i < |queue| =>
      Asked(id, Srv(s, id).conn, queue[i], if Alive(s.groups, queue[i]) then CmdAt(s.groups, queue[i]).stage else 0))
  }

  /** `Server::_push_to_buffer_set` */
  function PushToBufferSet(s: State, id: ServerId): State {
    var v := Srv(s, id);
    WithSrv(s, id, v.(queue := [], sent := v.sent + Sending(v.queue), wire := v.wire + Asking(s, id, v.queue)))
  }

  /** `Server::close_conn` */
  function CloseConn(s: State, id: ServerId): State {
    var v := Srv(s, id);
    if !v.open then s
    else
      s.(retry := s.retry + v.queue + Live(v.sent), servers := s.servers[id := Emptied(v)],
         addrMap := s.addrMap - {v.addr}, pool := s.pool + [id])
  }

  function Emptied(v: Server): Server {
    v.(open := false, queue := [], sent := [], wire := [])
  }

  /** Close the servers of `ids` in the order of their identities, from `k` on. */
  function CloseFrom(s: State, ids: set<ServerId>, k: nat): State
    decreases |s.servers| - k
  {
    if k >= |s.servers| then s
    else CloseFrom(if k in ids then CloseConn(s, k) else s, ids, k + 1)
  }

  /** One reply, which answers `req`, meets the entry `slot` of the sent queue. */
  function Deliver(s: State, slot: Option<Ref>, req: Request, id: ServerId, body: Body): State {
    match slot
    case None => s
    case Some(r) =>
      if !Alive(s.groups, r) then s
      else
        var s1 := s.(log := s.log + [Delivery(id, Srv(s, id).conn, r, CmdAt(s.groups, r).stage, req)]);
        if body == Redirect then RetryLater(s1, r) else OnRemoteResponsed(s1, r, body)
  }

  function DeliverAll(s: State, taken: seq<Option<Ref>>, reqs: seq<Request>, id: ServerId, bodies: seq<Body>): State
    requires |taken| == |reqs| == |bodies|
    decreases |taken|
  {
    if taken == [] then s
    else DeliverAll(Deliver(s, taken[0], reqs[0], id, bodies[0]), taken[1..], reqs[1..], id, bodies[1..])
  }

  /** `Server::_recv_from`: the node answers the first requests on the wire, in order.  More
      replies than sent commands close the connection. */
  function RecvFrom(s: State, id: ServerId, bodies: seq<Body>): State {
    var v := Srv(s, id);
    var n := |bodies|;
    if n > |v.sent| || n > |v.wire| then CloseConn(s, id)
    else
      DeliverAll(WithSrv(s, id, v.(sent := v.sent[n..], wire := v.wire[n..])), v.sent[..n], v.wire[..n], id, bodies)
  }

  predicate Mine(c: ClientId, r: Ref) {
    r.client == c
  }

  /** `util::erase_if` on the commands of client `c` */
  function Without(refs: seq<Ref>, c: ClientId): seq<Ref> {
    if refs == [] then []
    else (if Mine(c, refs[0]) then [] else [refs[0]]) + Without(refs[1..], c)
  }

  function Nulled(sent: seq<Option<Ref>>, c: ClientId): seq<Option<Ref>> {
    seq(|sent|, i requires 0 <= i < |sent| => if sent[i].Some? && Mine(c, sent[i].value) then None else sent[i])
  }

  /** `Server::pop_client` on every server of `peers` */
  function PopFromServers(servers: seq<Server>, peers: set<ServerId>, c: ClientId): seq<Server> {
    seq(|servers|, i requires 0 <= i < |servers| =>
      if i in peers then servers[i].(queue := Without(servers[i].queue, c), sent := Nulled(servers[i].sent, c))
      else servers[i])
  }

  /** `Client::~Client` and `Proxy::pop_client`: the client, its groups and their commands are freed. */
  function Depart(s: State, c: ClientId): State {
    if c !in s.clients then s
    else
      s.(servers := PopFromServers(s.servers, PeersOf(s, c), c),
         retry := Without(s.retry, c),
         clients := s.clients - {c},
         peers := s.peers - {c},
         groups := map g | g in s.groups && s.groups[g].client != c :: s.groups[g])
  }

  function DepartAll(s: State, cs: seq<ClientId>): State
    decreases |cs|
  {
    if cs == [] then s else DepartAll(Depart(s, cs[0]), cs[1..])
  }

  /** The pool is refilled when it is empty. */
  function Refill(s: State): State {
    if s.pool != [] then s
    else
      var n := |s.servers|;
      s.(servers := s.servers + seq(POOL_GROWTH, _ => IDLE_SERVER), pool := seq(POOL_GROWTH, i => n + i))
  }

  /** `Server::_reconnect` of server `id`, with the READONLY greeting in read-slave mode */
  function Reconnect(s: State, id: ServerId, addr: Addr): State {
    var v := Srv(s, id);
    WithSrv(s, id, v.(open := true, addr := addr, conn := v.conn + 1,
                      sent := v.sent + if s.readonly then [None] else [],
                      wire := v.wire + if s.readonly then [Greeting(id, v.conn + 1)] else []))
  }

  /** `Server::_alloc_server`, and the registration of the address.  A server that is refused is left
      where it was, closed and at the end of the pool, and yet registered; a registration that is there
      already is not replaced when connecting succeeds. */
  function AllocServer(s: State, addr: Addr, refused: bool): (State, ServerId) {
    var s1 := Refill(s);
    var id := s1.pool[|s1.pool| - 1];
    if refused then
      (WithSrv(s1, id, Srv(s1, id).(addr := addr)).(addrMap := s1.addrMap[addr := id], refused := true), id)
    else
      var s2 := Reconnect(s1, id, addr);
      (s2.(pool := s2.pool[..|s2.pool| - 1], addrMap := if addr in s2.addrMap then s2.addrMap else s2.addrMap[addr := id]), id)
  }

  /** `Server::get_server` */
  function GetServer(s: State, addr: Addr, refused: bool): (State, ServerId) {
    if addr in s.addrMap && Srv(s, s.addrMap[addr]).open then (s, s.addrMap[addr]) else AllocServer(s, addr, refused)
  }

  // ----- slot_map.cpp -----

  /** A table replacement under way: the servers that lost a slot and those that got one. */
  datatype Swap = Swap(st: State, removed: set<ServerId>, mapped: set<ServerId>)

  function AssignOne(w: Swap, t: Target): Swap {
    if t.slots == {} then w
    else
      var (s1, id) := GetServer(w.st, t.addr, t.refused);
      Swap(s1.(table := map x | x in s1.table.Keys + t.slots :: if x in t.slots then id else s1.table[x]),
           w.removed + (set x | x in t.slots && x in s1.table :: s1.table[x]),
           w.mapped + {id})
  }

  function AssignAll(w: Swap, targets: seq<Target>): Swap
    decreases |targets|
  {
    if targets == [] then w else AssignAll(AssignOne(w, targets[0]), targets[1..])
  }

  /** `SlotMap::replace_map` */
  function ReplaceMap(s: State, targets: seq<Target>): State {
    var w := AssignAll(Swap(s, {}, {}), targets);
    CloseFrom(w.st, w.removed - w.mapped, 0)
  }

  /** `SlotMap::clear` */
  function ClearMap(s: State): State {
    CloseFrom(s, s.table.Values, 0).(table := map[])
  }

  // ----- proxy.cpp -----

  /** The loop of `Proxy::_set_slot_map` over the commands to retry. */
  function RetryAll(s: State, refs: seq<Ref>): State
    decreases |refs|
  {
    if refs == [] then s
    else
      var s1 := SelectServer(s, refs[0]);
      var missed := Alive(s.groups, refs[0]) && ServerBySlot(s, CmdAt(s.groups, refs[0]).CurrentSlot()).None?;
      RetryAll(if missed then s1.(expired := true) else s1, refs[1..])
  }

  /** `Proxy::_set_slot_map` */
  function SetSlotMap(s: State, targets: seq<Target>): State {
    var s1 := ReplaceMap(s, targets).(expired := false);
    RetryAll(s1.(retry := []), s1.retry)
  }

  function AnswerAll(s: State, refs: seq<Ref>): State
    decreases |refs|
  {
    if refs == [] then s else AnswerAll(OnRemoteResponsed(s, refs[0], Failure), refs[1..])
  }

  /** The cluster is down: every mapped server is closed and every outstanding command is
      answered with the CLUSTERDOWN error. */
  function DiscardAll(s: State): State {
    var s1 := ClearMap(s.(updaters := []));
    AnswerAll(s1.(retry := []), s1.retry).(expired := false)
  }

  predicate SomeOpen(us: seq<Updater>) {
    exists i :: 0 <= i < |us| && us[i].open
  }

  /** `SlotsMapUpdater::covered_slots` */
  function CoveredSlots(u: Updater): nat {
    |Covered(u.targets)|
  }

  /** The first of the updaters that cover the most slots. */
  function Best(us: seq<Updater>): (k: nat)
    requires us != []
    ensures k < |us|
    ensures forall i :: 0 <= i < |us| ==> CoveredSlots(us[i]) <= CoveredSlots(us[k])
    ensures forall i :: 0 <= i < k ==> CoveredSlots(us[i]) < CoveredSlots(us[k])
  {
    if |us| == 1 then 0
    else
      var n := |us| - 1;
      var k := Best(us[..n]);
      if CoveredSlots(us[k]) < CoveredSlots(us[n]) then n else k
  }

  /** `Proxy::_update_slot_map_failed` */
  function UpdateFailed(s: State): State {
    if SomeOpen(s.updaters) then s
    else if !s.fullCoverage && s.updaters != [] && Covered(s.updaters[Best(s.updaters)].targets) != {} then
      SetSlotMap(s, s.updaters[Best(s.updaters)].targets).(updaters := [])
    else DiscardAll(s)
  }

  /** `SlotsMapUpdater::_notify_updated` of updater `u`, which learnt `targets` (nothing if it failed) */
  function NotifyUpdated(s: State, u: nat, targets: seq<Target>): State {
    if u >= |s.updaters| || !s.updaters[u].open then s
    else
      var s1 := s.(updaters := s.updaters[u := Updater(false, targets)]);
      if |Covered(targets)| < SLOT_COUNT then UpdateFailed(s1)
      else SetSlotMap(s1, targets).(updaters := [])
  }

  /** `Proxy::_retrieve_slot_map`; `connected` updaters could be created. */
  function RetrieveSlotMap(s: State, connected: nat): State {
    if connected == 0 then UpdateFailed(s)
    else s.(updaters := seq(connected, _ => Updater(true, [])))
  }

  /** The loop over `after_events`: closed clients are destroyed, and a server that had events and
      is closed expires the slot map. */
  function AfterEvents(s: State): State {
    var s1 := DepartAll(s.(closing := []), s.closing);
    s1.(expired := s1.expired || (exists id :: id in s1.active && !Srv(s1, id).open), active := {})
  }

  /** `Proxy::_should_update_slot_map`, and the new round when one is due */
  function NewRound(s: State, connected: nat): State {
    if s.updaters == [] && (s.retry != [] || s.expired) then RetrieveSlotMap(s, connected) else s
  }

  /** The registration a connection has once those asked for are carried out */
  function Polled(cl: Client): Client {
    if cl.closed then cl
    else cl.(watched := if cl.interest.Some? then cl.interest.value else cl.watched, interest := None)
  }

  /** `poll_ctl` on the clients */
  function PollControl(s: State): State {
    s.(clients := map c | c in s.clients :: Polled(s.clients[c]))
  }

  /** The end of `Proxy::handle_events` */
  function TurnEnd(s: State, connected: nat): State {
    PollControl(NewRound(AfterEvents(PollControl(s)), connected))
  }

  // ----- events -----

  /** What the poller, the nodes and the clients may do.  `Ready` is a callback of a client, with the
      requests read and how the two writes went; `Garble` one in which a bad byte follows some
      requests; `Serve` a callback of a server, with the replies that came. */
  datatype Event =
    | Accept
    | Ready(client: ClientId, read: Option<seq<seq<Plan>>>, write: Option<(bool, bool)>)
    | Garble(client: ClientId, requests: seq<seq<Plan>>)
    | HangUp(client: ClientId)
    | Serve(sid: ServerId, received: Option<seq<Body>>)
    | Reset(sid: ServerId)
    | SlotMapReply(updater: nat, targets: seq<Target>)
    | Expire
    | EndTurn(connected: nat)

  predicate Listening(s: State, c: ClientId) {
    c in s.clients && !s.clients[c].closed
  }

  /** The writes of a callback: the poller reports them only of a connection it watches for writing. */
  function Writable(s: State, c: ClientId, write: Option<(bool, bool)>): Option<(bool, bool)> {
    if Cli(s, c).watched then write else None
  }

  /** `Server::on_events`: replies are matched, and what is queued is sent */
  function ServeServer(s: State, id: ServerId, received: Option<seq<Body>>): State {
    PushToBufferSet(if received.Some? then RecvFrom(s, id, received.value) else s, id)
  }

  /** One step of the thread.  The poller never reports an event on a closed connection. */
  function Apply(s: State, e: Event): State {
    match e
    case Accept =>
      s.(clients := s.clients[s.nextClient := NEW_CLIENT], peers := s.peers[s.nextClient := {}], nextClient := s.nextClient + 1)
    case Ready(c, read, write) => if Listening(s, c) then OnEvents(s, c, read, Writable(s, c, write)) else s
    case Garble(c, requests) => if Listening(s, c) then CloseClient(PushGroups(s, c, requests), c) else s
    case HangUp(c) => if Listening(s, c) then CloseClient(s, c) else s
    case Serve(id, received) => if Srv(s, id).open then ServeServer(s, id, received).(active := s.active + {id}) else s
    case Reset(id) => if Srv(s, id).open then CloseConn(s, id).(active := s.active + {id}) else s
    case SlotMapReply(u, targets) => NotifyUpdated(s, u, targets)
    case Expire => s.(expired := true)
    case EndTurn(connected) => TurnEnd(s, connected)
  }

  function Run(s: State, events: seq<Event>): State
    decreases |events|
  {
    if events == [] then s else Run(Apply(s, events[0]), events[1..])
  }
}
