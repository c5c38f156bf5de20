/** The steps of a server connection: sending, receiving, closing, and forgetting a client. */
module ServerSteps {
  import opened Options
  import opened ThreadState
  import opened ThreadInvariants
  import opened CommandSteps

  // ----- what commands do to the rest of the state -----

  /** No client came or went, and one that awaits no command is as it was. */
  ghost predicate Untouched(cs: map<ClientId, Client>, ds: map<ClientId, Client>) {
    cs.Keys == ds.Keys && forall c :: c in cs && cs[c].awaitingCount == 0 ==> ds[c] == cs[c]
  }

  /** The step kept the connections, the tables and the identities of clients. */
  ghost predicate Steady(s: State, t: State) {
    && t.nextClient == s.nextClient && t.nextGroup == s.nextGroup
    && t.closing == s.closing && t.active == s.active && t.table == s.table && t.updaters == s.updaters
    && t.readonly == s.readonly && t.fullCoverage == s.fullCoverage
    && |t.servers| == |s.servers|
    && (forall id :: 0 <= id < |s.servers| ==> t.servers[id].conn == s.servers[id].conn)
    && (Leaving(s.clients, s.closing) ==> Leaving(t.clients, t.closing))
    && (Quiet(s.clients) ==> Quiet(t.clients))
    && (Quiet(s.clients) && Flowing(s.clients) ==> Flowing(t.clients))
    && Untouched(s.clients, t.clients)
    && (Mapped(s.servers, s.table) ==> Mapped(t.servers, t.table))
  }

  lemma SteadyTrans(s: State, t: State, u: State)
    requires Steady(s, t) && Steady(t, u)
    ensures Steady(s, u)
  {
    hide Leaving, Quiet, Flowing, Mapped;
  }

  /** Only command `r` may have changed. */
  ghost predicate OthersKept(gs: Groups, hs: Groups, r: Ref) {
    forall x :: x != r ==> Alive(hs, x) == Alive(gs, x) && (Alive(gs, x) ==> CmdAt(hs, x) == CmdAt(gs, x))
  }

  lemma SelectServerSteady(s: State, r: Ref)
    ensures Steady(s, SelectServer(s, r))
  {
    SelectServerFrame(s, r);
    hide OnlyQueues;
    hide Leaving, Quiet, Flowing;
    if Alive(s.groups, r) {
      match ServerBySlot(s, CmdAt(s.groups, r).CurrentSlot())
      case None =>
        assert SelectServer(s, r) == RetryLater(s, r);
      case Some(id) =>
        var t := SelectServer(s, r);
        assert t == PushClientCommand(s, id, r);
        assert id in s.table.Values;
    }
  }

  lemma GroupResponsedBounded(cl: Client)
    requires Bounded(cl) && cl.awaiting != []
    ensures Bounded(GroupResponsed(cl))
    ensures !Stalled(GroupResponsed(cl)) || cl.awaitingCount - 1 != 0
  {
  }

  lemma ResponsedQuiet(clients: map<ClientId, Client>, c: ClientId, closing: seq<ClientId>, answered: bool)
    requires c in clients && clients[c].awaiting != [] && clients[c].awaitingCount >= 1
    ensures var cs := clients[c := if answered then GroupResponsed(clients[c]) else clients[c]];
            && (Quiet(clients) ==> Quiet(cs)) && (Leaving(clients, closing) ==> Leaving(cs, closing))
            && (Quiet(clients) && Flowing(clients) ==> Flowing(cs)) && Untouched(clients, cs)
  {
    if Quiet(clients) {
      GroupResponsedBounded(clients[c]);
    }
    hide Bounded;
  }

  lemma AnsweredKeepsOthers(gs: Groups, r: Ref)
    requires Alive(gs, r)
    ensures OthersKept(gs, Answered(gs, r), r)
  {
  }

  lemma ResponsedSteady(s: State, r: Ref, hand: multiset<Ref>)
    requires Core(s, hand) && r in hand
    ensures Steady(s, Responsed(s, r)) && OthersKept(s.groups, Responsed(s, r).groups, r)
  {
    hide Conserved, Counted, Owned, Wired, Logged, Peered, Pooled, Tabled;
    HandAlive(s, r, hand);
    ResponsedShape(s, r);
    AwaitingOf(s.clients, s.groups, r, s.nextClient, s.nextGroup);
    hide ClientOwns, Mapped, Quiet, Flowing, Untouched, Leaving, Answered, GroupResponsed, OthersKept;
    ResponsedQuiet(s.clients, r.client, s.closing, s.groups[r.group].counter == 1);
    AnsweredKeepsOthers(s.groups, r);
  }

  lemma OnRemoteResponsedSteady(s: State, r: Ref, body: Body, hand: multiset<Ref>)
    requires Core(s, hand) && r in hand
    ensures var t := OnRemoteResponsed(s, r, body); Steady(s, t) && OthersKept(s.groups, t.groups, r)
  {
    hide Core, Steady, Responsed, SelectServer, OthersKept;
    HandAlive(s, r, hand);
    match NextStage(CmdAt(s.groups, r), body)
    case None =>
      ResponsedSteady(s, r, hand);
    case Some(stage) =>
      var s1 := s.(groups := WithCmd(s.groups, r, CmdAt(s.groups, r).(stage := stage)));
      SelectServerSteady(s1, r);
      SelectServerFrame(s1, r);
      StageSteady(s, r, stage);
      SteadyTrans(s, s1, SelectServer(s1, r));
  }

  lemma StageSteady(s: State, r: Ref, stage: nat)
    requires Alive(s.groups, r)
    ensures var s1 := s.(groups := WithCmd(s.groups, r, CmdAt(s.groups, r).(stage := stage)));
            Steady(s, s1) && OthersKept(s.groups, s1.groups, r)
  {
    hide Leaving, Quiet, Flowing, Mapped;
  }

  // ----- receiving -----

  /** The entries taken from the sent queue stand against the requests their replies answer. */
  ghost predicate Taken(gs: Groups, taken: seq<Option<Ref>>, reqs: seq<Request>, id: ServerId, conn: nat) {
    && |taken| == |reqs|
    && forall i :: 0 <= i < |taken| && taken[i].Some? && Alive(gs, taken[i].value) ==>
         reqs[i] == Asked(id, conn, taken[i].value, CmdAt(gs, taken[i].value).stage)
  }

  lemma TakenTail(gs: Groups, hs: Groups, taken: seq<Option<Ref>>, reqs: seq<Request>, id: ServerId, conn: nat, r: Ref)
    requires taken != [] && Taken(gs, taken, reqs, id, conn) && OthersKept(gs, hs, r) && r !in Live(taken[1..])
    ensures Taken(hs, taken[1..], reqs[1..], id, conn)
  {
    forall i | 0 <= i < |taken[1..]| && taken[1..][i].Some? && Alive(hs, taken[1..][i].value)
      ensures reqs[1..][i] == Asked(id, conn, taken[1..][i].value, CmdAt(hs, taken[1..][i].value).stage)
    {
      LiveMember(taken[1..], i);
      assert taken[i + 1] == taken[1..][i];
    }
  }

  lemma LogCore(s: State, d: Delivery, hand: multiset<Ref>)
    requires Core(s, hand) && d.answers == Asked(d.sid, d.conn, d.ref, d.stage)
    ensures Core(s.(log := s.log + [d]), hand) && Steady(s, s.(log := s.log + [d]))
  {
    hide Conserved, Counted, Owned, Wired, Peered, Pooled, Tabled, Mapped, Quiet, Flowing, Leaving;
  }

  lemma RetryLaterSteady(s: State, r: Ref)
    ensures Steady(s, RetryLater(s, r))
  {
    hide Mapped, Quiet, Flowing, Leaving;
  }

  /** One reply reaches its command: the delivery is logged rightly and the command leaves the hand. */
  lemma DeliverCore(s: State, r: Ref, req: Request, id: ServerId, body: Body, hand: multiset<Ref>)
    requires Core(s, hand) && r in hand && Alive(s.groups, r)
    requires req == Asked(id, Srv(s, id).conn, r, CmdAt(s.groups, r).stage)
    ensures var t := Deliver(s, Some(r), req, id, body);
            Core(t, hand - multiset{r}) && Steady(s, t) && OthersKept(s.groups, t.groups, r)
  {
    hide Core, Steady;
    var d := Delivery(id, Srv(s, id).conn, r, CmdAt(s.groups, r).stage, req);
    var s1 := s.(log := s.log + [d]);
    LogCore(s, d, hand);
    if body == Redirect {
      RetryLaterCore(s1, r, hand);
      RetryLaterSteady(s1, r);
    } else {
      hide OthersKept;
      OnRemoteResponsedCore(s1, r, body, hand);
      OnRemoteResponsedSteady(s1, r, body, hand);
    }
    SteadyTrans(s, s1, Deliver(s, Some(r), req, id, body));
  }

  lemma {:induction false} DeliverAllCore(s: State, taken: seq<Option<Ref>>, reqs: seq<Request>, id: ServerId, bodies: seq<Body>)
    requires |taken| == |reqs| == |bodies| && id < |s.servers|
    requires Core(s, multiset(Live(taken))) && Taken(s.groups, taken, reqs, id, s.servers[id].conn)
    ensures var t := DeliverAll(s, taken, reqs, id, bodies); Core(t, multiset{}) && Steady(s, t)
    decreases |taken|
  {
    hide Core, Steady, Taken, Deliver;
    if taken == [] {
      assert multiset(Live(taken)) == multiset{};
      SteadySame(s);
    } else {
      var t := Deliver(s, taken[0], reqs[0], id, bodies[0]);
      DeliverFirst(s, taken, reqs, id, bodies[0]);
      DeliverAllCore(t, taken[1..], reqs[1..], id, bodies[1..]);
      SteadyTrans(s, t, DeliverAll(t, taken[1..], reqs[1..], id, bodies[1..]));
    }
  }

  lemma SteadySame(s: State)
    ensures Steady(s, s)
  {
  }

  lemma DeliverFirst(s: State, taken: seq<Option<Ref>>, reqs: seq<Request>, id: ServerId, body: Body)
    requires taken != [] && |taken| == |reqs| && id < |s.servers|
    requires Core(s, multiset(Live(taken))) && Taken(s.groups, taken, reqs, id, s.servers[id].conn)
    ensures var t := Deliver(s, taken[0], reqs[0], id, body);
            && Core(t, multiset(Live(taken[1..]))) && Steady(s, t) && id < |t.servers|
            && Taken(t.groups, taken[1..], reqs[1..], id, t.servers[id].conn)
  {
    hide Core, Steady, OthersKept, OnRemoteResponsed;
    match taken[0]
    case None =>
      assert Live(taken) == Live(taken[1..]);
      SteadySame(s);
    case Some(r) =>
      DeliverSome(s, taken, reqs, id, body);
  }

  lemma LiveFirst(taken: seq<Option<Ref>>, r: Ref)
    requires taken != [] && taken[0] == Some(r)
    ensures multiset(Live(taken)) == multiset{r} + multiset(Live(taken[1..]))
    ensures multiset(Live(taken)) - multiset{r} == multiset(Live(taken[1..]))
  {
    assert Live(taken) == [r] + Live(taken[1..]);
    assert multiset([r] + Live(taken[1..])) == multiset{r} + multiset(Live(taken[1..]));
  }

  lemma ConnKept(s: State, t: State, id: ServerId)
    requires Steady(s, t) && id < |s.servers|
    ensures id < |t.servers| && t.servers[id].conn == s.servers[id].conn
  {
    hide Leaving, Quiet, Flowing, Mapped, Untouched;
  }

  lemma DeliverSome(s: State, taken: seq<Option<Ref>>, reqs: seq<Request>, id: ServerId, body: Body)
    requires taken != [] && taken[0].Some? && |taken| == |reqs| && id < |s.servers|
    requires Core(s, multiset(Live(taken))) && Taken(s.groups, taken, reqs, id, s.servers[id].conn)
    ensures var t := Deliver(s, taken[0], reqs[0], id, body);
            && Core(t, multiset(Live(taken[1..]))) && Steady(s, t) && id < |t.servers|
            && Taken(t.groups, taken[1..], reqs[1..], id, t.servers[id].conn)
  {
    hide Core, Steady, OthersKept, Deliver, Live;
    var r, hand := taken[0].value, multiset(Live(taken));
    LiveFirst(taken, r);
    TakeOne(s, r, hand);
    assert multiset(Live(taken[1..]))[r] == 0;
    DeliverCore(s, r, reqs[0], id, body, hand);
    var t := Deliver(s, taken[0], reqs[0], id, body);
    ConnKept(s, t, id);
    TakenTail(s.groups, t.groups, taken, reqs, id, s.servers[id].conn, r);
  }

  lemma TakeOne(s: State, r: Ref, hand: multiset<Ref>)
    requires Core(s, hand) && r in hand
    ensures Alive(s.groups, r) && hand[r] == 1
  {
    InHand(s, r, hand);
  }

  // ----- replacing one server record -----

  lemma HeldReplace(s: State, id: ServerId, v: Server, lost: multiset<Ref>)
    requires id < |s.servers| && HeldBy(v) + lost == HeldBy(s.servers[id])
    ensures HeldIn(s.servers[id := v]) + lost == HeldIn(s.servers)
  {
    HeldInUpdate(s.servers, id, v);
    var a, b := HeldIn(s.servers[id := v]), HeldIn(s.servers);
    forall x ensures (a + lost)[x] == b[x] {
      assert (a + (HeldBy(v) + lost))[x] == (b + HeldBy(v))[x];
    }
  }

  lemma PeeredShrink(servers: seq<Server>, peers: map<ClientId, set<ServerId>>, id: ServerId, v: Server)
    requires Peered(servers, peers) && id < |servers| && HeldBy(v) <= HeldBy(servers[id])
    ensures Peered(servers[id := v], peers)
  {
    hide HeldBy;
    var us := servers[id := v];
    forall k, x | 0 <= k < |us| && x in HeldBy(us[k]) ensures x.client in peers && k in peers[x.client] {
      assert x in HeldBy(servers[k]);
    }
  }

  lemma MappedShrink(servers: seq<Server>, table: map<Slot, ServerId>, id: ServerId, v: Server)
    requires Mapped(servers, table) && id < |servers| && HeldBy(v) <= HeldBy(servers[id])
    ensures Mapped(servers[id := v], table)
  {
    hide HeldBy;
    if HeldBy(servers[id]) == multiset{} {
      assert HeldBy(v) == multiset{};
    }
  }

  /** A server record is replaced by one that holds all but `lost`, which is now in hand. */
  lemma ReplaceCore(s: State, id: ServerId, v: Server, lost: multiset<Ref>)
    requires Core(s, multiset{}) && id < |s.servers| && HeldBy(v) + lost == HeldBy(s.servers[id])
    requires Aligned(s.groups, id, v)
    requires v.open == s.servers[id].open && v.addr == s.servers[id].addr && v.conn == s.servers[id].conn
    ensures Core(WithSrv(s, id, v), lost) && Steady(s, WithSrv(s, id, v))
  {
    hide Conserved, Counted, Owned, Wired, Aligned, Logged, Peered, Pooled, Tabled, HeldBy, HeldIn, Steady;
    HeldReplace(s, id, v, lost);
    Moved(Held(s), multiset{}, Held(WithSrv(s, id, v)), lost, s.groups);
    AlignedUpdate(s.servers, s.groups, id, v);
    PeeredShrink(s.servers, s.peers, id, v);
    PooledUpdate(s.servers, s.addrMap, s.pool, s.refused, id, v);
    ReplaceSteady(s, id, v);
  }

  lemma ReplaceSteady(s: State, id: ServerId, v: Server)
    requires id < |s.servers| && HeldBy(v) <= HeldBy(s.servers[id]) && v.conn == s.servers[id].conn
    ensures Steady(s, WithSrv(s, id, v))
  {
    hide Mapped, Quiet, Flowing, Leaving, HeldBy;
    if Mapped(s.servers, s.table) {
      MappedShrink(s.servers, s.table, id, v);
    }
  }

  // ----- sending -----

  lemma PushToBufferSetCore(s: State, id: ServerId)
    requires Core(s, multiset{}) && id < |s.servers|
    ensures var t := PushToBufferSet(s, id); Core(t, multiset{}) && Steady(s, t)
  {
    SentAligned(s, id);
    hide Core, Steady, Aligned;
    var v := s.servers[id];
    LiveConcat(v.sent, Sending(v.queue));
    LiveSending(v.queue);
    var v' := v.(queue := [], sent := v.sent + Sending(v.queue), wire := v.wire + Asking(s, id, v.queue));
    assert HeldBy(v') + multiset{} == HeldBy(v);
    ReplaceCore(s, id, v', multiset{});
  }

  lemma SentAligned(s: State, id: ServerId)
    requires Core(s, multiset{}) && id < |s.servers|
    ensures var v := s.servers[id];
            Aligned(s.groups, id, v.(queue := [], sent := v.sent + Sending(v.queue), wire := v.wire + Asking(s, id, v.queue)))
  {
    hide Conserved, Counted, Owned, Peered, Pooled, Tabled;
    assert Aligned(s.groups, id, s.servers[id]);
  }

  // ----- receiving a batch -----

  lemma TakeAligned(s: State, id: ServerId, n: nat)
    requires Core(s, multiset{}) && Srv(s, id).open && n <= |s.servers[id].sent|
    ensures var v := s.servers[id];
            && |v.wire| == |v.sent|
            && Aligned(s.groups, id, v.(sent := v.sent[n..], wire := v.wire[n..]))
            && Taken(s.groups, v.sent[..n], v.wire[..n], id, v.conn)
  {
    hide Conserved, Counted, Owned, Peered, Pooled, Tabled;
    assert Aligned(s.groups, id, s.servers[id]);
  }

  lemma RecvShape(s: State, id: ServerId, bodies: seq<Body>)
    requires id < |s.servers| && |bodies| <= |s.servers[id].sent| && |s.servers[id].wire| == |s.servers[id].sent|
    ensures var v, n := s.servers[id], |bodies|;
            RecvFrom(s, id, bodies) ==
              DeliverAll(WithSrv(s, id, v.(sent := v.sent[n..], wire := v.wire[n..])), v.sent[..n], v.wire[..n], id, bodies)
  {
    hide DeliverAll, CloseConn;
  }

  lemma TakeReplies(s: State, id: ServerId, n: nat)
    requires Core(s, multiset{}) && Srv(s, id).open && n <= |s.servers[id].sent|
    ensures var v := s.servers[id];
            && |v.wire| == |v.sent|
            && var s1 := WithSrv(s, id, v.(sent := v.sent[n..], wire := v.wire[n..]));
            && Core(s1, multiset(Live(v.sent[..n]))) && Steady(s, s1)
            && Taken(s1.groups, v.sent[..n], v.wire[..n], id, s1.servers[id].conn)
  {
    hide Core, Steady, Aligned, Taken;
    TakeAligned(s, id, n);
    var v := s.servers[id];
    var v' := v.(sent := v.sent[n..], wire := v.wire[n..]);
    assert v.sent == v.sent[..n] + v.sent[n..];
    LiveConcat(v.sent[..n], v.sent[n..]);
    assert HeldBy(v') + multiset(Live(v.sent[..n])) == HeldBy(v);
    ReplaceCore(s, id, v', multiset(Live(v.sent[..n])));
  }

  /** However many replies arrive, the thread stays well formed and every reply reaches its command. */
  lemma RecvFromCore(s: State, id: ServerId, bodies: seq<Body>)
    requires Core(s, multiset{}) && Srv(s, id).open
    ensures var t := RecvFrom(s, id, bodies); Core(t, multiset{}) && Steady(s, t)
  {
    hide Core, Steady, Taken, Live, DeliverAll;
    var v, n := s.servers[id], |bodies|;
    if n > |v.sent| {
      CloseConnCore(s, id, multiset{});
    } else {
      TakeReplies(s, id, n);
      RecvShape(s, id, bodies);
      hide RecvFrom;
      var s1 := WithSrv(s, id, v.(sent := v.sent[n..], wire := v.wire[n..]));
      DeliverAllCore(s1, v.sent[..n], v.wire[..n], id, bodies);
      SteadyTrans(s, s1, RecvFrom(s, id, bodies));
    }
  }

  // ----- closing -----

  lemma PooledClose(servers: seq<Server>, addrMap: map<Addr, ServerId>, pool: seq<ServerId>, refused: bool, id: ServerId, v: Server)
    requires Pooled(servers, addrMap, pool, refused) && id < |servers| && servers[id].open && !v.open && v.addr == servers[id].addr
    ensures Pooled(servers[id := v], addrMap - {v.addr}, pool + [id], refused)
  {
  }

  function Closed(v: Server): Server {
    v.(open := false, queue := [], sent := [], wire := [])
  }

  lemma CloseConnShape(s: State, id: ServerId)
    requires id < |s.servers| && s.servers[id].open
    ensures var v := s.servers[id];
            CloseConn(s, id) == s.(servers := s.servers[id := Closed(v)], retry := s.retry + v.queue + Live(v.sent),
                                   addrMap := s.addrMap - {v.addr}, pool := s.pool + [id])
  {
  }

  lemma CloseOpenCore(s: State, id: ServerId, hand: multiset<Ref>)
    requires Core(s, hand) && id < |s.servers| && s.servers[id].open
    ensures Core(CloseConn(s, id), hand)
  {
    hide Conserved, Counted, Owned, Wired, Logged, Peered, Pooled, Tabled, CloseConn, HeldIn;
    CloseConnShape(s, id);
    var v := s.servers[id];
    assert HeldBy(Closed(v)) + HeldBy(v) == HeldBy(v);
    HeldReplace(s, id, Closed(v), HeldBy(v));
    assert Held(CloseConn(s, id)) == Held(s) by {
      assert multiset(s.retry + v.queue + Live(v.sent)) == multiset(s.retry) + HeldBy(v);
    }
    AlignedUpdate(s.servers, s.groups, id, Closed(v));
    PeeredShrink(s.servers, s.peers, id, Closed(v));
    PooledClose(s.servers, s.addrMap, s.pool, s.refused, id, Closed(v));
  }

  lemma CloseOpenSteady(s: State, id: ServerId)
    requires id < |s.servers| && s.servers[id].open
    ensures Steady(s, CloseConn(s, id)) && CloseConn(s, id).groups == s.groups && CloseConn(s, id).clients == s.clients
  {
    hide Mapped, Quiet, Flowing, Leaving, CloseConn;
    CloseConnShape(s, id);
    if Mapped(s.servers, s.table) {
      MappedShrink(s.servers, s.table, id, Closed(s.servers[id]));
    }
  }

  lemma ClosedEmpty(s: State, id: ServerId, hand: multiset<Ref>)
    requires Core(s, hand) && id < |s.servers| && !s.servers[id].open
    ensures HeldBy(s.servers[id]) == multiset{}
  {
    hide Conserved, Counted, Owned, Peered, Pooled, Tabled;
    assert Aligned(s.groups, id, s.servers[id]);
  }

  /** `close_conn` moves what the server holds to the retry list, and leaves it closed with empty queues. */
  lemma CloseConnCore(s: State, id: ServerId, hand: multiset<Ref>)
    requires Core(s, hand) && id < |s.servers|
    ensures var t := CloseConn(s, id);
            && Core(t, hand) && Steady(s, t) && t.groups == s.groups && t.clients == s.clients
            && !t.servers[id].open && HeldBy(t.servers[id]) == multiset{}
            && (forall k :: 0 <= k < |s.servers| && k != id ==> t.servers[k] == s.servers[k])
  {
    hide Core;
    if s.servers[id].open {
      CloseOpenCore(s, id, hand);
      CloseOpenSteady(s, id);
    } else {
      ClosedEmpty(s, id, hand);
    }
  }

  lemma {:induction false} CloseFromCore(s: State, ids: set<ServerId>, k: nat, hand: multiset<Ref>)
    requires Core(s, hand) && k <= |s.servers|
    ensures var t := CloseFrom(s, ids, k);
            && Core(t, hand) && Steady(s, t) && t.groups == s.groups && t.clients == s.clients
            && (forall id :: k <= id < |s.servers| ==>
                  if id in ids then !t.servers[id].open && HeldBy(t.servers[id]) == multiset{} else t.servers[id] == s.servers[id])
            && (forall id :: 0 <= id < k ==> t.servers[id] == s.servers[id])
    decreases |s.servers| - k
  {
    hide Core, HeldBy;
    hide Leaving, Quiet, Flowing, Mapped;
    if k < |s.servers| {
      var s1 := if k in ids then CloseConn(s, k) else s;
      if k in ids {
        CloseConnCore(s, k, hand);
      }
      CloseFromCore(s1, ids, k + 1, hand);
      SteadyTrans(s, s1, CloseFrom(s1, ids, k + 1));
    }
  }
}
