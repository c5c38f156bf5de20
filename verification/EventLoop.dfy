/** The event loop of a proxy thread as it runs: fields updated in place, loops over queues that
    callbacks may touch.  Every method is proved to make the transition `ThreadState` gives it. */
module EventLoop {
  import opened Options
  import opened ThreadState
  import opened ThreadInvariants
  import opened CommandSteps
  import opened ServerSteps
  import opened ClientSteps
  import opened RoundSteps
  import opened Selecting
  import opened ThreadSafety
  import Spec = ThreadState
  import opened LoopSteps

  class ProxyThread {
    var clients: map<ClientId, Client>
    var groups: Groups
    var nextClient: ClientId
    var nextGroup: GroupId
    var peers: map<ClientId, set<ServerId>>
    var closing: seq<ClientId>
    var servers: seq<Server>
    var addrMap: map<Addr, ServerId>
    var pool: seq<ServerId>
    var active: set<ServerId>
    var table: map<Slot, ServerId>
    var retry: seq<Ref>
    var updaters: seq<Updater>
    var expired: bool
    var log: seq<Delivery>
    var refused: bool
    const readonly: bool
    const fullCoverage: bool

    ghost function View(): State
      reads this
    {
      State(clients, groups, nextClient, nextGroup, peers, closing, servers, addrMap, pool, active,
            table, retry, updaters, expired, log, refused, readonly, fullCoverage)
    }

    ghost predicate Valid()
      reads this
    {
      Safe(View())
    }

    constructor (readonly: bool, fullCoverage: bool)
      ensures Valid() && View() == Init(readonly, fullCoverage)
    {
      clients, groups, nextClient, nextGroup := map[], map[], 0, 0;
      peers, closing, servers, addrMap, pool := map[], [], [], map[], [];
      active, table, retry, updaters, expired, log, refused := {}, map[], [], [], true, [], false;
      this.readonly, this.fullCoverage := readonly, fullCoverage;
      new;
      InitSafe(readonly, fullCoverage);
    }

    // ----- core/command.cpp, and the queues it pushes to -----

    /** `Proxy::retry_move_ask_command_later` */
    method RetryLater(r: Ref)
      modifies `retry
      ensures View() == Spec.RetryLater(old(View()), r)
    {
      retry := retry + [r];
    }

    /** `Server::push_client_command` */
    method PushClientCommand(id: ServerId, r: Ref)
      requires id < |servers|
      modifies `servers, `peers
      ensures View() == Spec.PushClientCommand(old(View()), id, r)
    {
      servers := servers[id := servers[id].(queue := servers[id].queue + [r])];
      peers := peers[r.client := (if r.client in peers then peers[r.client] else {}) + {id}];
    }

    /** `select_server_for`; says whether a server was found. */
    method SelectServer(r: Ref) returns (found: bool)
      requires Alive(groups, r)
      modifies `servers, `peers, `retry
      ensures View() == Spec.SelectServer(old(View()), r)
      ensures found <==> Spec.ServerBySlot(old(View()), CmdAt(old(groups), r).CurrentSlot()).Some?
    {
      var slot := groups[r.group].cmds[r.index].CurrentSlot();
      if slot in table && table[slot] < |servers| && servers[table[slot]].open {
        PushClientCommand(table[slot], r);
        found := true;
      } else {
        RetryLater(r);
        found := false;
      }
    }

    /** `select_remote` of a group */
    method SelectRemote(c: ClientId, g: GroupId)
      requires g in groups && groups[g].client == c
      modifies `servers, `peers, `retry
      ensures View() == Spec.SelectAll(old(View()), RefsFrom(c, g, 0, |old(groups)[g].cmds|))
    {
      ghost var all := Spec.SelectAll(View(), RefsFrom(c, g, 0, |groups[g].cmds|));
      var i := 0;
      while i < |groups[g].cmds|
        invariant groups == old(groups) && 0 <= i <= |groups[g].cmds|
        invariant Spec.SelectAll(View(), RefsFrom(c, g, i, |groups[g].cmds|)) == all
      {
        ghost var before := View();
        assert RefsFrom(c, g, i, |groups[g].cmds|)[1..] == RefsFrom(c, g, i + 1, |groups[g].cmds|);
        SelectServerFrame(before, Ref(c, g, i));
        var _ := SelectServer(Ref(c, g, i));
        i := i + 1;
      }
    }

    /** `Client::_push_awaitings_to_ready` */
    method PushAwaitingsToReady(c: ClientId)
      requires c in clients
      modifies `clients
      ensures View() == WithCli(old(View()), c, Spec.PushAwaitingsToReady(old(clients)[c]))
    {
      var cl := clients[c];
      if cl.awaitingCount != 0 || (cl.ready != [] && |cl.awaiting| + |cl.ready| > MAX_RESPONSES) {
        assert clients == clients[c := cl];
        return;
      }
      var ready, pending := cl.ready, cl.pending;
      for i := 0 to |cl.awaiting|
        invariant ready == cl.ready + cl.awaiting[..i] && pending == (cl.pending || i > 0)
      {
        ready := ready + [cl.awaiting[i]];
        pending := true;
      }
      assert cl.awaiting[..|cl.awaiting|] == cl.awaiting;
      var interest := if pending then Some(true) else cl.interest;
      clients := clients[c := cl.(ready := ready, awaiting := [], pending := pending, interest := interest)];
    }

    /** `Client::group_responsed` */
    method GroupResponsed(c: ClientId)
      requires c in clients
      modifies `clients
      ensures View() == WithCli(old(View()), c, Spec.GroupResponsed(old(clients)[c]))
    {
      clients := clients[c := clients[c].(awaitingCount := clients[c].awaitingCount - 1)];
      PushAwaitingsToReady(c);
    }

    /** `Command::responsed` and the group's `command_responsed` */
    method Responsed(r: Ref)
      requires Alive(groups, r) && r.client in clients
      modifies `groups, `clients
      ensures View() == Spec.Responsed(old(View()), r)
    {
      var g := groups[r.group];
      groups := groups[r.group := g.(cmds := g.cmds[r.index := g.cmds[r.index].(answered := true)])];
      groups := groups[r.group := groups[r.group].(counter := groups[r.group].counter - 1)];
      if groups[r.group].counter == 0 {
        GroupResponsed(r.client);
      }
    }

    /** `on_remote_responsed`: of a plain command, or of one stage of a RENAME */
    method OnRemoteResponsed(r: Ref, body: Body)
      requires Alive(groups, r) && r.client in clients
      modifies `groups, `clients, `servers, `peers, `retry
      ensures View() == Spec.OnRemoteResponsed(old(View()), r, body)
    {
      var g := groups[r.group];
      var next := NextStage(g.cmds[r.index], body);
      if next.None? {
        Responsed(r);
      } else {
        groups := groups[r.group := g.(cmds := g.cmds[r.index := g.cmds[r.index].(stage := next.value)])];
        var _ := SelectServer(r);
      }
    }

    // ----- core/server.cpp -----

    /** `Server::_push_to_buffer_set` */
    method PushToBufferSet(id: ServerId)
      requires id < |servers| && forall r :: r in servers[id].queue ==> Alive(groups, r)
      modifies `servers
      ensures View() == Spec.PushToBufferSet(old(View()), id)
    {
      var v := servers[id];
      var sent, wire := v.sent, v.wire;
      for i := 0 to |v.queue|
        invariant sent == v.sent + Sending(v.queue[..i])
        invariant wire == v.wire + Asking(View(), id, v.queue[..i])
      {
        var r := v.queue[i];
        assert v.queue[..i + 1] == v.queue[..i] + [r];
        assert Sending(v.queue[..i + 1]) == Sending(v.queue[..i]) + [Some(r)];
        assert Asking(View(), id, v.queue[..i + 1])
            == Asking(View(), id, v.queue[..i]) + [Asked(id, v.conn, r, CmdAt(groups, r).stage)];
        sent := sent + [Some(r)];
        wire := wire + [Asked(id, v.conn, r, groups[r.group].cmds[r.index].stage)];
      }
      assert v.queue[..|v.queue|] == v.queue;
      servers := servers[id := v.(queue := [], sent := sent, wire := wire)];
    }

    /** What a closing server held goes back to the thread, in order. */
    method Requeue(v: Server)
      modifies `retry
      ensures retry == old(retry) + v.queue + Live(v.sent)
    {
      hide Live;
      for i := 0 to |v.queue|
        invariant retry == old(retry) + v.queue[..i]
      {
        assert v.queue[..i + 1] == v.queue[..i] + [v.queue[i]];
        RetryLater(v.queue[i]);
      }
      assert v.queue[..|v.queue|] == v.queue;
      LiveNone(v.sent);
      for i := 0 to |v.sent|
        invariant retry == old(retry) + v.queue + Live(v.sent[..i])
      {
        LiveSnoc(v.sent, i);
        if v.sent[i].Some? {
          RetryLater(v.sent[i].value);
        }
      }
      assert v.sent[..|v.sent|] == v.sent;
    }

    /** `Server::close_conn` */
    method CloseConn(id: ServerId)
      requires id < |servers|
      modifies `servers, `retry, `addrMap, `pool
      ensures View() == Spec.CloseConn(old(View()), id)
    {
      hide Live;
      var v := servers[id];
      if !v.open {
        return;
      }
      Requeue(v);
      servers := servers[id := Emptied(v)];
      addrMap := addrMap - {v.addr};
      pool := pool + [id];
    }

    /** A reply meets its entry of the sent queue. */
    method Deliver(slot: Option<Ref>, req: Request, id: ServerId, body: Body)
      requires id < |servers| && (slot.Some? ==> Present(View(), slot.value))
      modifies `groups, `clients, `servers, `peers, `retry, `log
      ensures View() == Spec.Deliver(old(View()), slot, req, id, body)
    {
      if slot.Some? {
        var r := slot.value;
        log := log + [Delivery(id, servers[id].conn, r, groups[r.group].cmds[r.index].stage, req)];
        if body == Redirect {
          RetryLater(r);
        } else {
          OnRemoteResponsed(r, body);
        }
      }
    }

    /** `Server::_recv_from`: the queue is walked while callbacks run, and shortened only afterwards. */
    method RecvFrom(id: ServerId, bodies: seq<Body>)
      requires Core(View(), multiset{}) && id < |servers| && servers[id].open
      modifies `groups, `clients, `servers, `peers, `retry, `log, `addrMap, `pool
      ensures View() == Spec.RecvFrom(old(View()), id, bodies)
    {
      hide Core, Taken, Steady, Live, Aligned, DeliverAll, Spec.Deliver, Spec.CloseConn;
      TakeAligned(View(), id, 0);
      var v, n := servers[id], |bodies|;
      if n > |v.sent| {
        CloseConn(id);
        return;
      }
      TakeReplies(View(), id, n);
      ghost var all := Spec.RecvFrom(View(), id, bodies);
      RecvShape(View(), id, bodies);
      assert v.sent[..n][0..] == v.sent[..n] && v.wire[..n][0..] == v.wire[..n] && bodies[0..] == bodies;
      for k := 0 to n
        modifies `groups, `clients, `servers, `peers, `retry, `log
        invariant SameSent(old(servers), servers, id)
        invariant Replying(View(), id, n, v.sent[..n][k..], v.wire[..n][k..], bodies[k..], all)
      {
        ghost var s := View();
        ReplyStep(s, id, n, v.sent[..n][k..], v.wire[..n][k..], bodies[k..], all);
        Deliver(v.sent[k], v.wire[k], id, bodies[k]);
        assert v.sent[..n][k..][1..] == v.sent[..n][k + 1..];
        assert v.wire[..n][k..][1..] == v.wire[..n][k + 1..];
        assert bodies[k..][1..] == bodies[k + 1..];
      }
      DeliverNone(Strip(View(), id, n), id, v.sent[..n][n..], v.wire[..n][n..], bodies[n..]);
      servers := servers[id := servers[id].(sent := servers[id].sent[n..], wire := servers[id].wire[n..])];
    }

    // ----- core/client.cpp -----

    /** A group that waits for nodes is counted, and its commands select their servers. */
    method CountAndSelect(c: ClientId, g: GroupId)
      requires c in clients && g in groups && groups[g].client == c
      modifies `clients, `servers, `peers, `retry
      ensures View() == With(SelectAll(old(View()), RefsFrom(c, g, 0, |old(groups)[g].cmds|)),
                             Counting(old(clients), c, old(groups)[g].cmds != []), old(groups))
    {
      hide SelectAll, SameCmd;
      ghost var s := View();
      ghost var refs := RefsFrom(c, g, 0, |groups[g].cmds|);
      if groups[g].cmds != [] {
        clients := clients[c := clients[c].(awaitingCount := clients[c].awaitingCount + 1)];
        AllSame(groups);
        assert View() == With(s, clients, groups);
        SelectAllApart(s, refs, clients, groups);
        SelectRemote(c, g);
      } else {
        SelectNone(s, refs);
        assert clients == Counting(clients, c, false);
      }
    }

    /** One round of the loop of `Client::_process` */
    method IssueGroup(c: ClientId, i: nat)
      requires c in clients && i < |clients[c].parsed|
      requires clients[c].parsed[i] in groups && groups[clients[c].parsed[i]].client == c
      modifies `clients, `groups, `servers, `peers, `retry
      ensures View() == IssueAt(old(View()), c, i)
    {
      hide SelectAll, With, Issued, IssueAt, Counting;
      var g := clients[c].parsed[i];
      IssueAtSteps(View(), c, i);
      CountAndSelect(c, g);
      FinishIssue(c, g);
    }

    /** The issued group joins the awaiting ones. */
    method FinishIssue(c: ClientId, g: GroupId)
      requires c in clients && g in groups
      modifies `clients, `groups
      ensures View() == With(old(View()), old(clients)[c := old(clients)[c].(awaiting := old(clients)[c].awaiting + [g])],
                             Issued(old(groups), g))
    {
      groups := groups[g := groups[g].(issued := true)];
      clients := clients[c := clients[c].(awaiting := clients[c].awaiting + [g])];
    }

    method IssueNext(c: ClientId, i: nat)
      requires c in clients && i < |clients[c].parsed| && OwnsAll(groups, c, clients[c].parsed)
      modifies `clients, `groups, `servers, `peers, `retry
      ensures c in clients && clients[c].parsed == old(clients[c].parsed) && OwnsAll(groups, c, clients[c].parsed)
      ensures Popped(View(), c, i + 1) == IssueFirst(Popped(old(View()), c, i), c)
    {
      hide SelectAll, IssueFirst, IssueAt, Popped, PoppedIn, Issued, With, OwnsAll;
      IssuedKeeps(groups, c, clients[c].parsed, i);
      IssueStep(View(), c, i);
      IssueGroup(c, i);
    }

    /** The loop of `Client::_process`: groups are issued while the parsed list is still whole. */
    method IssueGroups(c: ClientId, pipe: nat)
      requires c in clients && pipe <= |clients[c].parsed| && OwnsAll(groups, c, clients[c].parsed)
      modifies `clients, `groups, `servers, `peers, `retry
      ensures c in clients && clients[c].parsed == old(clients[c].parsed)
      ensures Popped(View(), c, pipe) == IssueMany(old(View()), c, pipe)
    {
      hide SelectAll, IssueFirst, IssueMany, IssueAt, Popped, PoppedIn, Issued, With, OwnsAll;
      ghost var all := IssueMany(View(), c, pipe);
      PoppedNone(View(), c);
      for i := 0 to pipe
        invariant c in clients && clients[c].parsed == old(clients[c].parsed)
        invariant OwnsAll(groups, c, clients[c].parsed)
        invariant IssueMany(Popped(View(), c, i), c, pipe - i) == all
      {
        PoppedMany(View(), c, i, pipe);
        IssueNext(c, i);
      }
      IssueManyNone(Popped(View(), c, pipe), c);
    }

    /** `Client::_process` */
    method Process(c: ClientId)
      requires Core(View(), multiset{}) && c in clients
      modifies `clients, `groups, `servers, `peers, `retry
      ensures View() == Spec.Process(old(View()), c)
    {
      hide Core, IssueMany;
      ParsedOwned(View(), c);
      var pipe := if |clients[c].parsed| < MAX_PIPE then |clients[c].parsed| else MAX_PIPE;
      IssueGroups(c, pipe);
      clients := clients[c := clients[c].(parsed := clients[c].parsed[pipe..])];
      if 0 >= clients[c].awaitingCount {
        PushAwaitingsToReady(c);
      }
    }

    /** `Client::_send_buffer_set` */
    method SendBufferSet(c: ClientId, done: bool)
      requires Core(View(), multiset{}) && c in clients
      modifies `clients, `groups, `servers, `peers, `retry
      ensures View() == Spec.SendBufferSet(old(View()), c, done)
    {
      hide Core, Spec.Process;
      if clients[c].pending && !done {
        return;
      }
      DropReadyCore(View(), c);
      var cl := clients[c];
      groups := groups - (set g | g in cl.ready);
      if cl.awaiting == [] {
        peers := peers[c := {}];
      }
      clients := clients[c := cl.(written := cl.written + cl.ready, ready := [], pending := false)];
      if clients[c].parsed != [] {
        Process(c);
      }
    }

    /** `Client::_write_response` */
    method WriteResponse(c: ClientId, done1: bool, done2: bool)
      requires Valid() && c in clients
      modifies `clients, `groups, `servers, `peers, `retry
      ensures View() == Spec.WriteResponse(old(View()), c, done1, done2) && Valid()
    {
      hide Safe, Core, Spec.SendBufferSet, Mapped, Bounded, Stalled, Crowded, Spec.PushAwaitingsToReady;
      WriteSafe(View(), c, done1, done2);
      FirstWrite(View(), c, done1);
      if clients[c].pending {
        SendBufferSet(c, done1);
      }
      if clients[c].awaiting == [] || clients[c].awaitingCount != 0 {
        return;
      }
      PushCore(View(), c);
      PushAwaitingsToReady(c);
      SendBufferSet(c, done2);
    }

    /** `Client::push_command` for each request the splitter found */
    method PushCommands(c: ClientId, requests: seq<seq<Plan>>)
      requires c in clients
      modifies `clients, `groups, `nextGroup
      ensures View() == PushGroups(old(View()), c, requests)
    {
      hide PushGroup;
      ghost var all := PushGroups(View(), c, requests);
      assert requests[0..] == requests;
      for i := 0 to |requests|
        invariant c in clients && PushGroups(View(), c, requests[i..]) == all
      {
        ghost var s := View();
        assert requests[i..][1..] == requests[i + 1..];
        var cl := clients[c];
        groups := groups[nextGroup := Group(c, Fresh(requests[i]), |requests[i]|, false)];
        clients := clients[c := cl.(parsed := cl.parsed + [nextGroup], arrived := cl.arrived + [nextGroup])];
        nextGroup := nextGroup + 1;
        PushGroupShape(s, c, requests[i]);
      }
    }

    /** `Client::_read_request` */
    method ReadRequest(c: ClientId, requests: seq<seq<Plan>>)
      requires Valid() && c in clients
      modifies `clients, `groups, `nextGroup, `servers, `peers, `retry
      ensures View() == Spec.ReadRequest(old(View()), c, requests) && Valid()
    {
      hide Safe, Core, PushGroups, Spec.Process, Mapped;
      ReadSafe(View(), c, requests);
      SafeCore(View());
      PushGroupsCore(View(), c, requests);
      PushCommands(c, requests);
      if clients[c].awaiting == [] {
        Process(c);
      }
    }

    /** `Client::on_events`, unless it closes the client */
    method OnEvents(c: ClientId, read: Option<seq<seq<Plan>>>, write: Option<(bool, bool)>)
      requires Valid() && c in clients
      modifies `clients, `groups, `nextGroup, `servers, `peers, `retry
      ensures View() == Spec.OnEvents(old(View()), c, read, write) && Valid()
    {
      hide Safe, Spec.ReadRequest, Spec.WriteResponse, Settle;
      ReadySafe(View(), c, read, write);
      if read.Some? {
        StillThere(View(), c, read.value);
        ReadRequest(c, read.value);
      }
      if write.Some? {
        ThereAfterWrite(View(), c, write.value.0, write.value.1);
        WriteResponse(c, write.value.0, write.value.1);
      }
      SettlePoll(c);
    }

    /** `set_conn_poll_ro`, which does not withdraw a registration for writing, or `set_conn_poll_rw` */
    method SettlePoll(c: ClientId)
      requires c in clients
      modifies `clients
      ensures View() == WithCli(old(View()), c, Settle(old(clients)[c]))
    {
      var asked := clients[c].pending || clients[c].interest == Some(true);
      clients := clients[c := clients[c].(interest := Some(asked))];
    }

    /** `Client::close` */
    method CloseClient(c: ClientId)
      requires c in clients
      modifies `clients, `closing
      ensures View() == Spec.CloseClient(old(View()), c)
    {
      clients := clients[c := clients[c].(closed := true)];
      closing := closing + [c];
    }

    /** `Client::on_events` when the splitter throws: the requests before the bad byte have been pushed,
        and none of them is processed. */
    method Garble(c: ClientId, requests: seq<seq<Plan>>)
      requires Valid() && c in clients
      modifies `clients, `groups, `nextGroup, `closing
      ensures View() == Spec.CloseClient(PushGroups(old(View()), c, requests), c) && Valid()
    {
      hide Safe, Core, PushGroups, Spec.CloseClient, Mapped;
      GarbleSafe(View(), c, requests);
      SafeCore(View());
      PushGroupsCore(View(), c, requests);
      PushCommands(c, requests);
      CloseClient(c);
    }

    // ----- clients leaving -----

    /** `Server::pop_client`: queued commands are erased, sent ones nulled where they stand. */
    method PopClient(id: ServerId, c: ClientId)
      requires id < |servers|
      modifies `servers
      ensures servers == old(servers)[id := Popping(old(servers)[id], c)]
    {
      hide Without;
      var v := servers[id];
      var queue := [];
      WithoutNone(c);
      for i := 0 to |v.queue|
        modifies {}
        invariant queue == Without(v.queue[..i], c)
      {
        WithoutSnoc(v.queue, i, c);
        if v.queue[i].client != c {
          queue := queue + [v.queue[i]];
        }
      }
      assert v.queue[..|v.queue|] == v.queue;
      var sent := v.sent;
      for i := 0 to |v.sent|
        modifies {}
        invariant |sent| == |v.sent|
        invariant forall k :: 0 <= k < |v.sent| ==> sent[k] == if k < i then Nulled(v.sent, c)[k] else v.sent[k]
      {
        if sent[i].Some? && sent[i].value.client == c {
          sent := sent[i := None];
        }
      }
      assert sent == Nulled(v.sent, c);
      servers := servers[id := v.(queue := queue, sent := sent)];
    }

    /** The client's peers forget its commands. */
    method PopFromPeers(c: ClientId)
      modifies `servers
      ensures servers == PopFromServers(old(servers), PeersOf(old(View()), c), c)
    {
      hide PopFromServers, Popping;
      var mine := if c in peers then peers[c] else {};
      var todo := mine;
      PopNone(servers, c);
      assert mine - todo == {};
      while todo != {}
        invariant todo <= mine
        invariant servers == PopFromServers(old(servers), mine - todo, c)
        decreases todo
      {
        var id :| id in todo;
        PopOne(old(servers), mine - todo, id, c);
        assert mine - todo + {id} == mine - (todo - {id});
        if id < |servers| {
          PopClient(id, c);
        }
        todo := todo - {id};
      }
      assert mine - todo == mine;
    }

    /** `Proxy::pop_client` */
    method ForgetRetries(c: ClientId)
      modifies `retry
      ensures retry == Without(old(retry), c)
    {
      hide Without;
      var left := [];
      WithoutNone(c);
      for i := 0 to |retry|
        modifies {}
        invariant left == Without(retry[..i], c)
      {
        WithoutSnoc(retry, i, c);
        if retry[i].client != c {
          left := left + [retry[i]];
        }
      }
      assert retry[..|retry|] == retry;
      retry := left;
    }

    /** `Client::~Client` */
    method Depart(c: ClientId)
      requires c in clients
      modifies `servers, `retry, `clients, `peers, `groups
      ensures View() == Spec.Depart(old(View()), c)
    {
      hide PopFromServers, Without, GroupsWithout, Spec.Depart;
      DepartShape(View(), c);
      PopFromPeers(c);
      ForgetRetries(c);
      FreeClient(c);
    }

    /** The client's groups, and the commands they own, go with it. */
    method FreeClient(c: ClientId)
      modifies `groups, `clients, `peers
      ensures groups == GroupsWithout(old(groups), c) && clients == old(clients) - {c} && peers == old(peers) - {c}
    {
      groups := map g | g in groups && groups[g].client != c :: groups[g];
      clients := clients - {c};
      peers := peers - {c};
    }

    // ----- the pool -----

    method RefillPool()
      modifies `servers, `pool
      ensures View() == Refill(old(View()))
    {
      if pool == [] {
        var n := |servers|;
        for i := 0 to POOL_GROWTH
          invariant servers == old(servers) + seq(i, _ => IDLE_SERVER) && pool == seq(i, j => n + j)
        {
          servers := servers + [IDLE_SERVER];
          pool := pool + [n + i];
        }
      }
    }

    /** The end of `Server::_reconnect`, when connecting succeeds */
    method Open(id: ServerId, addr: Addr)
      requires id < |servers|
      modifies `servers
      ensures servers == old(servers)[id := Reopened(old(servers)[id], id, addr, readonly)]
    {
      var v := servers[id].(open := true, addr := addr, conn := servers[id].conn + 1);
      if readonly {
        v := v.(sent := v.sent + [None], wire := v.wire + [Greeting(id, v.conn)]);
      }
      assert v == Reopened(servers[id], id, addr, readonly);
      servers := servers[id := v];
    }

    /** A server that is refused closes, which erases the registration of its address and puts it at the
        end of the pool once more. */
    method Refuse(id: ServerId, addr: Addr)
      requires id < |servers|
      modifies `servers, `pool, `addrMap, `refused
      ensures servers == old(servers)[id := old(servers)[id].(addr := addr)]
      ensures pool == old(pool) + [id] && pool[..|pool| - 1] == old(pool) && refused
      ensures addr !in addrMap && addrMap[addr := id] == old(addrMap)[addr := id]
    {
      servers := servers[id := servers[id].(addr := addr)];
      addrMap := addrMap - {addr};
      pool := pool + [id];
      refused := true;
    }

    /** `Server::_alloc_server` on a pool that is not empty, and the registration of `addr` */
    method Connect(addr: Addr, refusing: bool) returns (id: ServerId)
      requires pool != [] && pool[|pool| - 1] < |servers|
      modifies `servers, `pool, `addrMap, `refused
      ensures (View(), id) == AllocServer(old(View()), addr, refusing)
    {
      hide AllocServer, Reopened, Tried;
      AllocShape(View(), addr, refusing);
      id := pool[|pool| - 1];
      TryConnect(id, addr, refusing);
      Register(id, addr);
    }

    /** `Server::_reconnect`, and the closing of a server that is refused */
    method TryConnect(id: ServerId, addr: Addr, refusing: bool)
      requires pool != [] && id == pool[|pool| - 1] && id < |servers|
      modifies `servers, `pool, `addrMap, `refused
      ensures servers == old(servers)[id := Tried(old(servers)[id], id, addr, readonly, refusing)]
      ensures pool != [] && pool[..|pool| - 1] == if refusing then old(pool) else old(pool)[..|old(pool)| - 1]
      ensures refused == (old(refused) || refusing)
      ensures !refusing ==> addrMap == old(addrMap)
      ensures refusing ==> addr !in addrMap && addrMap[addr := id] == old(addrMap)[addr := id]
    {
      hide Reopened;
      if refusing {
        Refuse(id, addr);
      } else {
        Open(id, addr);
      }
    }

    /** The server leaves the end of the pool; an address that is registered stays so. */
    method Register(id: ServerId, addr: Addr)
      requires pool != []
      modifies `pool, `addrMap
      ensures pool == old(pool)[..|old(pool)| - 1]
      ensures addrMap == if addr in old(addrMap) then old(addrMap) else old(addrMap)[addr := id]
    {
      pool := pool[..|pool| - 1];
      if addr !in addrMap {
        addrMap := addrMap[addr := id];
      }
    }

    /** `Server::get_server`, and `_alloc_server` */
    method GetServer(addr: Addr, refusing: bool) returns (id: ServerId)
      requires Core(View(), multiset{})
      modifies `servers, `pool, `addrMap, `refused
      ensures (View(), id) == Spec.GetServer(old(View()), addr, refusing)
    {
      hide Core, Refill, AllocServer;
      if addr in addrMap && addrMap[addr] < |servers| && servers[addrMap[addr]].open {
        return addrMap[addr];
      }
      RefillCore(View());
      RefillOpened(View());
      AllocRefilled(View(), addr, refusing);
      RefillPool();
      LastPooled(View());
      id := Connect(addr, refusing);
    }

    // ----- core/slot_map.cpp -----

    /** The slots of one node are pointed at its server; `lost` are the servers they pointed at. */
    method AssignSlots(slots: set<Slot>, id: ServerId) returns (lost: set<ServerId>)
      modifies `table
      ensures table == Assigned(old(table), slots, id)
      ensures lost == set x | x in slots && x in old(table) :: old(table)[x]
    {
      lost := {};
      var todo := slots;
      while todo != {}
        invariant todo <= slots
        invariant table == Assigned(old(table), slots - todo, id)
        invariant lost == set x | x in slots - todo && x in old(table) :: old(table)[x]
        decreases todo
      {
        var x :| x in todo;
        assert slots - (todo - {x}) == slots - todo + {x};
        if x in table {
          assert table[x] == old(table)[x];
          lost := lost + {table[x]};
        }
        table := table[x := id];
        todo := todo - {x};
      }
      assert slots - todo == slots;
    }

    /** The loop of `replace_map` over the nodes */
    method AssignTargets(targets: seq<Target>) returns (removed: set<ServerId>, mapped: set<ServerId>)
      requires Core(View(), multiset{}) && Mapped(servers, table) && Apart(targets)
      modifies `servers, `pool, `addrMap, `refused, `table
      ensures Swap(View(), removed, mapped) == AssignAll(Swap(old(View()), {}, {}), targets)
    {
      hide Core, Swapping, AssignOne, Mapped;
      removed, mapped := {}, {};
      ghost var all := AssignAll(Swap(View(), {}, {}), targets);
      SwapStarts(View(), targets);
      assert targets[0..] == targets;
      for i := 0 to |targets|
        invariant Swapping(Swap(View(), removed, mapped), Covered(targets[i..])) && Apart(targets[i..])
        invariant AssignAll(Swap(View(), removed, mapped), targets[i..]) == all
      {
        assert targets[i..][1..] == targets[i + 1..];
        SwappingCore(Swap(View(), removed, mapped), Covered(targets[i..]));
        AssignOneSwapping(Swap(View(), removed, mapped), targets[i], Covered(targets[i + 1..]));
        removed, mapped := AssignTarget(targets[i], removed, mapped);
      }
    }

    method AssignTarget(t: Target, removed: set<ServerId>, mapped: set<ServerId>)
      returns (removed': set<ServerId>, mapped': set<ServerId>)
      requires Core(View(), multiset{})
      modifies `servers, `pool, `addrMap, `refused, `table
      ensures Swap(View(), removed', mapped') == AssignOne(Swap(old(View()), removed, mapped), t)
    {
      hide Core, Spec.GetServer;
      removed', mapped' := removed, mapped;
      if t.slots != {} {
        GetServerCore(View(), t.addr, t.refused);
        var id := GetServer(t.addr, t.refused);
        var lost := AssignSlots(t.slots, id);
        removed', mapped' := removed + lost, mapped + {id};
      }
    }

    /** Closes the servers of `ids`, in order. */
    method CloseServers(ids: set<ServerId>)
      modifies `servers, `retry, `addrMap, `pool
      ensures View() == CloseFrom(old(View()), ids, 0)
    {
      hide Spec.CloseConn;
      ghost var all := CloseFrom(View(), ids, 0);
      var n := |servers|;
      for k := 0 to n
        invariant |servers| == n && CloseFrom(View(), ids, k) == all
      {
        CloseKeepsLength(View(), k);
        if k in ids {
          CloseConn(k);
        }
      }
    }

    /** `SlotMap::replace_map` */
    method ReplaceMap(targets: seq<Target>)
      requires Core(View(), multiset{}) && Mapped(servers, table) && Apart(targets)
      modifies `servers, `pool, `addrMap, `refused, `table, `retry
      ensures View() == Spec.ReplaceMap(old(View()), targets)
    {
      hide Core, Mapped, Apart, AssignAll, CloseFrom;
      var removed, mapped := AssignTargets(targets);
      CloseServers(removed - mapped);
    }

    /** `SlotMap::clear` */
    method ClearMap()
      modifies `servers, `pool, `addrMap, `table, `retry
      ensures View() == Spec.ClearMap(old(View()))
    {
      hide CloseFrom;
      CloseServers(table.Values);
      table := map[];
    }

    // ----- core/proxy.cpp -----

    /** The commands to retry select their servers again. */
    method RetryCommands(retrying: seq<Ref>)
      requires Core(View(), multiset(retrying))
      modifies `servers, `peers, `retry, `expired
      ensures View() == RetryAll(old(View()), retrying)
    {
      hide Core, RetryAll, Spec.SelectServer, Spec.ServerBySlot;
      ghost var all := RetryAll(View(), retrying);
      assert retrying[0..] == retrying;
      for k := 0 to |retrying|
        invariant Core(View(), multiset(retrying[k..])) && RetryAll(View(), retrying[k..]) == all
      {
        RetryStep(View(), retrying[k..]);
        assert retrying[k..][1..] == retrying[k + 1..];
        var found := SelectServer(retrying[k]);
        if !found {
          expired := true;
        }
      }
      RetryNone(View(), retrying[|retrying|..]);
    }

    /** `Proxy::_set_slot_map` */
    method SetSlotMap(targets: seq<Target>)
      requires Core(View(), multiset{}) && Mapped(servers, table) && Apart(targets)
      modifies `servers, `pool, `addrMap, `refused, `table, `retry, `peers, `expired
      ensures View() == Spec.SetSlotMap(old(View()), targets)
    {
      hide Core, Mapped, Apart, RetryAll, Spec.ReplaceMap, Steady;
      ReplaceMapCore(View(), targets);
      ReplaceMap(targets);
      ExpireCore(View(), multiset{});
      expired := false;
      TakeRetry(View());
      var retrying := retry;
      retry := [];
      RetryCommands(retrying);
    }

    /** Every command given up is answered with the CLUSTERDOWN error. */
    method AnswerCommands(cmds: seq<Ref>)
      requires Core(View(), multiset(cmds))
      modifies `groups, `clients, `servers, `peers, `retry
      ensures View() == AnswerAll(old(View()), cmds)
    {
      hide Core, AnswerAll, Spec.OnRemoteResponsed;
      ghost var all := AnswerAll(View(), cmds);
      assert cmds[0..] == cmds;
      for k := 0 to |cmds|
        invariant Core(View(), multiset(cmds[k..])) && AnswerAll(View(), cmds[k..]) == all
      {
        AnswerStep(View(), cmds[k..]);
        assert cmds[k..][1..] == cmds[k + 1..];
        OnRemoteResponsed(cmds[k], Failure);
      }
      AnswerNone(View(), cmds[|cmds|..]);
    }

    method DiscardAll()
      requires Core(View(), multiset{}) && Mapped(servers, table)
      modifies `groups, `clients, `servers, `peers, `retry, `updaters, `pool, `addrMap, `table, `expired
      ensures View() == Spec.DiscardAll(old(View()))
    {
      hide Core, Mapped, AnswerAll, Spec.ClearMap, Steady, HeldBy;
      DropUpdaters(View());
      updaters := [];
      ClearMapCore(View());
      ClearMap();
      AnswerRetries();
      expired := false;
    }

    method AnswerRetries()
      requires Core(View(), multiset{})
      modifies `groups, `clients, `servers, `peers, `retry
      ensures View() == AnswerAll(old(View()).(retry := []), old(retry))
    {
      hide Core, AnswerAll;
      TakeRetry(View());
      var cmds := retry;
      retry := [];
      AnswerCommands(cmds);
    }

    method AllClosed() returns (closed: bool)
      ensures closed <==> !SomeOpen(updaters)
    {
      for i := 0 to |updaters|
        invariant forall k :: 0 <= k < i ==> !updaters[k].open
      {
        if updaters[i].open {
          return false;
        }
      }
      return true;
    }

    /** `util::max_element` over the updaters, by the slots they cover */
    method Candidate() returns (best: nat)
      requires updaters != []
      ensures best == Best(updaters)
    {
      hide CoveredSlots;
      best := 0;
      for i := 1 to |updaters|
        invariant best < i && best == Best(updaters[..i])
      {
        assert updaters[..i + 1][..i] == updaters[..i];
        if CoveredSlots(updaters[best]) < CoveredSlots(updaters[i]) {
          best := i;
        }
      }
      assert updaters[..|updaters|] == updaters;
    }

    /** `Proxy::_update_slot_map_failed` */
    method UpdateFailed()
      requires Core(View(), multiset{}) && Mapped(servers, table) && Reported(updaters)
      modifies `groups, `clients, `servers, `peers, `retry, `updaters, `pool, `addrMap, `refused, `table, `expired
      ensures View() == Spec.UpdateFailed(old(View()))
    {
      hide Core, Mapped, Apart, Spec.SetSlotMap, Spec.DiscardAll, SomeOpen, Best, Covered;
      var closed := AllClosed();
      if !closed {
        return;
      }
      if !fullCoverage && updaters != [] {
        var best := Candidate();
        if Covered(updaters[best].targets) != {} {
          SetSlotMap(updaters[best].targets);
          updaters := [];
          return;
        }
      }
      DiscardAll();
    }

    /** `Proxy::notify_slot_map_updated` */
    method MapUpdated(targets: seq<Target>)
      requires Core(View(), multiset{}) && Mapped(servers, table) && Reported(updaters) && Apart(targets)
      modifies `groups, `clients, `servers, `peers, `retry, `updaters, `pool, `addrMap, `refused, `table, `expired
      ensures View() == Learnt(old(View()), targets)
    {
      hide Core, Mapped, Apart, Spec.SetSlotMap, Spec.UpdateFailed, Covered, Reported;
      if |Covered(targets)| < SLOT_COUNT {
        UpdateFailed();
      } else {
        SetSlotMap(targets);
        updaters := [];
      }
    }

    /** `SlotsMapUpdater::_notify_updated` */
    method NotifyUpdated(u: nat, targets: seq<Target>)
      requires Valid() && Apart(targets)
      modifies `groups, `clients, `servers, `peers, `retry, `updaters, `pool, `addrMap, `refused, `table, `expired
      ensures View() == Spec.NotifyUpdated(old(View()), u, targets) && Valid()
    {
      hide Safe, Core, Mapped, Apart, Learnt, Reported, Spec.NotifyUpdated;
      SlotMapReplySafe(View(), u, targets);
      NotifyShape(View(), u, targets);
      SafeParts(View());
      if u < |updaters| && updaters[u].open {
        WithUpdaters(View(), updaters[u := Updater(false, targets)]);
        ReportedUpdate(updaters, u, targets);
        updaters := updaters[u := Updater(false, targets)];
        MapUpdated(targets);
      }
    }

    /** `Proxy::_retrieve_slot_map`, of which `connected` updaters could be created */
    method RetrieveSlotMap(connected: nat)
      requires Core(View(), multiset{}) && Mapped(servers, table) && updaters == []
      modifies `groups, `clients, `servers, `peers, `retry, `updaters, `pool, `addrMap, `refused, `table, `expired
      ensures View() == Spec.RetrieveSlotMap(old(View()), connected)
    {
      hide Core, Mapped, Spec.UpdateFailed;
      for i := 0 to connected
        modifies `updaters
        invariant updaters == seq(i, _ => Updater(true, []))
      {
        updaters := updaters + [Updater(true, [])];
      }
      if updaters == [] {
        UpdateFailed();
      }
    }

    /** The loop over `after_events` */
    method AfterEvents()
      requires Valid()
      modifies `servers, `retry, `clients, `peers, `groups, `closing, `active, `expired
      ensures View() == Spec.AfterEvents(old(View()))
    {
      hide Safe, DepartAll;
      var leaving := closing;
      closing := [];
      DestroyClosed(leaving);
      ExpireIfClosed();
    }

    /** Clients that closed are deleted. */
    method DestroyClosed(leaving: seq<ClientId>)
      modifies `servers, `retry, `clients, `peers, `groups
      ensures View() == DepartAll(old(View()), leaving)
    {
      hide Spec.Depart;
      ghost var all := DepartAll(View(), leaving);
      assert leaving[0..] == leaving;
      for i := 0 to |leaving|
        modifies `servers, `retry, `clients, `peers, `groups
        invariant DepartAll(View(), leaving[i..]) == all
      {
        assert leaving[i..][1..] == leaving[i + 1..];
        DepartUnknown(View(), leaving[i]);
        if leaving[i] in clients {
          Depart(leaving[i]);
        }
      }
    }

    /** `Server::after_events`: a closed server that had events expires the slot map. */
    method ExpireIfClosed()
      modifies `active, `expired
      ensures active == {} && expired == (old(expired) || (exists id :: id in old(active) && !Srv(old(View()), id).open))
    {
      var todo := active;
      while todo != {}
        modifies `expired
        invariant todo <= active
        invariant expired == (old(expired) || (exists id :: id in active - todo && !Srv(old(View()), id).open))
        decreases todo
      {
        var id :| id in todo;
        assert active - (todo - {id}) == active - todo + {id};
        if id >= |servers| || !servers[id].open {
          expired := true;
        }
        todo := todo - {id};
      }
      assert active - todo == active;
      active := {};
    }

    /** `Proxy::_should_update_slot_map`, and the new round when one is due */
    method NewRound(connected: nat)
      requires Core(View(), multiset{}) && Mapped(servers, table)
      modifies `groups, `clients, `servers, `peers, `retry, `updaters, `pool, `addrMap, `refused, `table, `expired
      ensures View() == Spec.NewRound(old(View()), connected)
    {
      hide Core, Mapped, Spec.RetrieveSlotMap;
      if updaters == [] && (retry != [] || expired) {
        RetrieveSlotMap(connected);
      }
    }

    /** `poll_ctl` on the clients: the registrations asked for are carried out, in any order. */
    method PollControl()
      modifies `clients
      ensures View() == Spec.PollControl(old(View()))
    {
      hide Polled;
      var todo := clients.Keys;
      assert clients == PolledIn(old(clients), clients.Keys - todo);
      while todo != {}
        invariant todo <= old(clients).Keys
        invariant clients == PolledIn(old(clients), old(clients).Keys - todo)
        decreases todo
      {
        var c :| c in todo;
        PolledOne(old(clients), old(clients).Keys - todo, c);
        assert old(clients).Keys - (todo - {c}) == old(clients).Keys - todo + {c};
        clients := clients[c := Polled(clients[c])];
        todo := todo - {c};
      }
    }

    /** The end of `Proxy::handle_events` */
    method EndTurn(connected: nat)
      requires Valid()
      modifies this
      ensures View() == Spec.TurnEnd(old(View()), connected) && Valid() && Awake(View()) && Watched(clients)
    {
      hide Safe, Core, Mapped, Spec.AfterEvents, Spec.NewRound, Awake, Watched, Spec.PollControl, SameLists;
      TurnEndSafe(View(), connected);
      PollSafe(View());
      DepartedSafe(Spec.PollControl(View()));
      PollControl();
      AfterEvents();
      SafeParts(View());
      NewRound(connected);
      PollControl();
    }

    /** `Acceptor::on_events`, for one connection accepted */
    method AcceptClient()
      modifies `clients, `peers, `nextClient
      ensures View() == Apply(old(View()), Accept)
    {
      clients := clients[nextClient := NEW_CLIENT];
      peers := peers[nextClient := {}];
      nextClient := nextClient + 1;
    }

    /** `Server::on_events`, unless it closes the server: replies are matched, then what is queued is sent. */
    method ServeServer(id: ServerId, received: Option<seq<Body>>)
      requires Core(View(), multiset{}) && id < |servers| && servers[id].open
      modifies this
      ensures View() == Spec.ServeServer(old(View()), id, received).(active := old(active) + {id})
    {
      hide Core, Spec.RecvFrom, Spec.PushToBufferSet;
      if received.Some? {
        ReceivedQueue(View(), id, received.value);
        RecvFrom(id, received.value);
      } else {
        QueueAlive(View(), id);
      }
      PushToBufferSet(id);
      active := active + {id};
    }

    /** The connection of a server is lost. */
    method ResetServer(id: ServerId)
      requires id < |servers| && servers[id].open
      modifies this
      ensures View() == Spec.CloseConn(old(View()), id).(active := old(active) + {id})
    {
      hide Spec.CloseConn;
      CloseConn(id);
      active := active + {id};
    }

    /** One callback: `on_events` of the connection the poller reports */
    method Dispatch(e: Event)
      requires Valid() && Sound(e)
      modifies this
      ensures View() == Apply(old(View()), e) && Valid()
      ensures e.EndTurn? ==> Awake(View()) && Watched(clients)
    {
      hide Safe, Core, Mapped, Apply, Spec.OnEvents, Spec.CloseClient, PushGroups, Spec.ServeServer, Spec.CloseConn,
           Spec.NotifyUpdated, Spec.TurnEnd, Awake, Watched, Sound;
      ApplySafe(View(), e);
      SafeParts(View());
      ApplyShape(View(), e);
      match e
      case Accept => AcceptClient();
      case Ready(c, read, write) =>
        if c in clients && !clients[c].closed { OnEvents(c, read, if clients[c].watched then write else None); }
      case Garble(c, requests) => if c in clients && !clients[c].closed { Garble(c, requests); }
      case HangUp(c) => if c in clients && !clients[c].closed { CloseClient(c); }
      case Serve(id, received) => if id < |servers| && servers[id].open { ServeServer(id, received); }
      case Reset(id) => if id < |servers| && servers[id].open { ResetServer(id); }
      case SlotMapReply(u, targets) => SoundReply(e); NotifyUpdated(u, targets);
      case Expire => expired := true;
      case EndTurn(connected) => EndTurn(connected);
    }

    /** `Proxy::handle_events`: whatever the poller reports, the thread stays well formed, and when
        the turn ends nothing sleeps, no closed client is left, and output is watched. */
    method HandleEvents(events: seq<Event>, connected: nat)
      requires Valid() && forall i :: 0 <= i < |events| ==> Sound(events[i])
      modifies this
      ensures View() == Spec.TurnEnd(Run(old(View()), events), connected) && Valid() && Awake(View()) && Watched(clients)
    {
      hide Safe, Apply, Sound, Spec.TurnEnd, Awake, Watched;
      ghost var all := Run(View(), events);
      assert events[0..] == events;
      for i := 0 to |events|
        invariant Valid() && Run(View(), events[i..]) == all
      {
        assert events[i..][1..] == events[i + 1..];
        Dispatch(events[i]);
      }
      EndTurn(connected);
    }
  }
}
