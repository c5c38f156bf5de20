/** What every reachable state of a proxy thread satisfies. */
module ThreadInvariants {
  import opened Options
  import opened ThreadState

  // ----- where commands are held -----

  function HeldBy(v: Server): multiset<Ref> {
    multiset(v.queue) + multiset(Live(v.sent))
  }

  function HeldIn(servers: seq<Server>): multiset<Ref> {
    if servers == [] then multiset{} else HeldBy(servers[0]) + HeldIn(servers[1..])
  }

  /** Every reference the thread keeps to a command: in a server's two queues, or in the retry list. */
  function Held(s: State): multiset<Ref> {
    HeldIn(s.servers) + multiset(s.retry)
  }

  /** The command belongs to a group that has been issued, and is not answered. */
  predicate Outstanding(gs: Groups, r: Ref) {
    Alive(gs, r) && gs[r.group].issued && !CmdAt(gs, r).answered
  }

  /** Every outstanding command is in exactly one place, once, and no other command is in any.
      `hand` are the references the step under way has taken out of a queue. */
  ghost predicate Conserved(held: multiset<Ref>, hand: multiset<Ref>, gs: Groups) {
    forall r :: held[r] + hand[r] == if Outstanding(gs, r) then 1 else 0
  }

  // ----- groups and their clients -----

  ghost predicate NoDup<T>(q: seq<T>) {
    forall i, j :: 0 <= i < j < |q| ==> q[i] != q[j]
  }

  function Unanswered(cmds: seq<Cmd>): nat {
    if cmds == [] then 0 else (if cmds[0].answered then 0 else 1) + Unanswered(cmds[1..])
  }

  /** A group's counter is the number of its unanswered commands; before it is issued none is answered. */
  ghost predicate Counted(gs: Groups) {
    forall g :: g in gs ==>
      && gs[g].counter == Unanswered(gs[g].cmds)
      && (!gs[g].issued ==> gs[g].counter == |gs[g].cmds|)
  }

  predicate Owns(gs: Groups, c: ClientId, g: GroupId, issued: bool) {
    g in gs && gs[g].client == c && gs[g].issued == issued
  }

  /** The number of groups of `q` that have an unanswered command. */
  function Waiting(gs: Groups, q: seq<GroupId>): nat {
    if q == [] then 0
    else (if q[0] in gs && gs[q[0]].counter != 0 then 1 else 0) + Waiting(gs, q[1..])
  }

  /** The client's groups are, in the order they arrived, those written, ready, awaiting and
      parsed; ready groups are all answered, and the client's counter counts the awaiting groups
      that are not. */
  ghost predicate ClientOwns(gs: Groups, c: ClientId, cl: Client, nextGroup: GroupId) {
    && cl.arrived == cl.written + cl.ready + cl.awaiting + cl.parsed
    && NoDup(cl.arrived)
    && (forall g :: g in cl.arrived ==> g < nextGroup)
    && (forall g :: g in cl.ready ==> Owns(gs, c, g, true) && gs[g].counter == 0)
    && (forall g :: g in cl.awaiting ==> Owns(gs, c, g, true))
    && (forall g :: g in cl.parsed ==> Owns(gs, c, g, false))
    && cl.awaitingCount == Waiting(gs, cl.awaiting)
  }

  predicate Listed(clients: map<ClientId, Client>, c: ClientId, g: GroupId) {
    c in clients && (g in clients[c].ready || g in clients[c].awaiting || g in clients[c].parsed)
  }

  /** Each group is in one list of one client. */
  ghost predicate Owned(clients: map<ClientId, Client>, gs: Groups, nextClient: ClientId, nextGroup: GroupId) {
    && (forall c :: c in clients ==> c < nextClient && ClientOwns(gs, c, clients[c], nextGroup))
    && (forall g :: g in gs ==> g < nextGroup && Listed(clients, gs[g].client, g))
  }

  // ----- connections -----

  ghost predicate Aligned(gs: Groups, id: ServerId, v: Server) {
    && |v.sent| == |v.wire|
    && (forall i :: 0 <= i < |v.sent| && v.sent[i].Some? && Alive(gs, v.sent[i].value) ==>
          v.wire[i] == Asked(id, v.conn, v.sent[i].value, CmdAt(gs, v.sent[i].value).stage))
    && (!v.open ==> v.queue == [] && v.sent == [])
  }

  /** The sent queue of a connection stands entry by entry against what its node has been asked. */
  ghost predicate Wired(servers: seq<Server>, gs: Groups) {
    forall id :: 0 <= id < |servers| ==> Aligned(gs, id, servers[id])
  }

  /** Every reply was handed to the command and stage it answers, on the connection it came from. */
  ghost predicate Logged(log: seq<Delivery>) {
    forall i :: 0 <= i < |log| ==> log[i].answers == Asked(log[i].sid, log[i].conn, log[i].ref, log[i].stage)
  }

  /** A server that holds a command of a client is a peer of that client. */
  ghost predicate Peered(servers: seq<Server>, peers: map<ClientId, set<ServerId>>) {
    forall id, r :: 0 <= id < |servers| && r in HeldBy(servers[id]) ==> r.client in peers && id in peers[r.client]
  }

  /** The address map names the open servers, each under its own address. */
  ghost predicate Addressed(servers: seq<Server>, addrMap: map<Addr, ServerId>) {
    && (forall a :: a in addrMap ==>
          addrMap[a] < |servers| && servers[addrMap[a]].open && servers[addrMap[a]].addr == a)
    && (forall id :: 0 <= id < |servers| && servers[id].open ==>
          servers[id].addr in addrMap && addrMap[servers[id].addr] == id)
  }

  /** The pool lists the closed servers, each once; and the address map is right, unless a connection
      has been refused. */
  ghost predicate Pooled(servers: seq<Server>, addrMap: map<Addr, ServerId>, pool: seq<ServerId>, refused: bool) {
    && NoDup(pool)
    && (forall id :: id in pool ==> id < |servers| && !servers[id].open)
    && (forall id :: 0 <= id < |servers| && !servers[id].open ==> id in pool)
    && (forall a :: a in addrMap ==> addrMap[a] < |servers|)
    && (!refused ==> Addressed(servers, addrMap))
  }

  ghost predicate Tabled(table: map<Slot, ServerId>, n: nat) {
    forall x :: x in table ==> table[x] < n
  }

  /** What holds of the state at every point of every step. */
  ghost predicate Core(s: State, hand: multiset<Ref>) {
    && Conserved(Held(s), hand, s.groups)
    && Counted(s.groups)
    && Owned(s.clients, s.groups, s.nextClient, s.nextGroup)
    && Wired(s.servers, s.groups)
    && Logged(s.log)
    && Peered(s.servers, s.peers)
    && Pooled(s.servers, s.addrMap, s.pool, s.refused)
    && Tabled(s.table, |s.servers|)
  }

  // ----- between events -----

  /** Only servers of the slot table hold commands. */
  ghost predicate Mapped(servers: seq<Server>, table: map<Slot, ServerId>) {
    forall id :: 0 <= id < |servers| && HeldBy(servers[id]) != multiset{} ==> id in table.Values
  }

  /** An update round in progress has an updater that will report. */
  predicate InRound(updaters: seq<Updater>) {
    updaters == [] || SomeOpen(updaters)
  }

  /** Output to be written is watched for, or will be when the turn ends. */
  predicate Heard(cl: Client) {
    cl.pending ==> cl.interest == Some(true) || (cl.interest.None? && cl.watched)
  }

  /** The bounds on a client's lists; output is pending exactly while ready groups are kept, and is
      watched for; and a parsed request of an open connection waits only behind a group under way or
      behind output. */
  predicate Bounded(cl: Client) {
    && (cl.pending <==> cl.ready != [])
    && |cl.ready| <= MAX_RESPONSES
    && |cl.awaiting| <= 2 * MAX_PIPE
    && (cl.pending ==> |cl.awaiting| <= MAX_PIPE)
    && (cl.parsed != [] && !cl.closed ==> cl.awaiting != [] || cl.pending)
    && Heard(cl)
  }

  ghost predicate Quiet(clients: map<ClientId, Client>) {
    forall c :: c in clients ==> Bounded(clients[c])
  }

  /** Every awaited group is answered, yet nothing is left to write: no reply to come and no
      output to flush will move the client on. */
  predicate Stalled(cl: Client) {
    cl.awaiting != [] && cl.awaitingCount == 0 && !cl.pending
  }

  ghost predicate Flowing(clients: map<ClientId, Client>) {
    forall c :: c in clients ==> !Stalled(clients[c])
  }

  /** The clients to be destroyed at the end of the turn are those that have closed. */
  ghost predicate Leaving(clients: map<ClientId, Client>, closing: seq<ClientId>) {
    && (forall c :: c in clients && clients[c].closed ==> c in closing)
    && (forall c :: c in closing ==> c in clients && clients[c].closed)
  }

  /** What holds of the state between events. */
  ghost predicate Inv(s: State) {
    && Core(s, multiset{})
    && Mapped(s.servers, s.table)
    && InRound(s.updaters)
    && Quiet(s.clients)
    && Leaving(s.clients, s.closing)
  }
}
