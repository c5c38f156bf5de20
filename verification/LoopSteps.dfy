/** How the loops of the event loop compute the folds of the model, step by step. */
module LoopSteps {
  import opened Options
  import opened ThreadState
  import opened ThreadInvariants
  import opened CommandSteps
  import opened ServerSteps
  import opened ClientSteps
  import opened RoundSteps
  import opened Selecting
  import opened ThreadSafety

  // ----- what loops over live queues rely on -----

  /** Server `id` without the first `n` entries of its sent queue and wire. */
  function Stripped(servers: seq<Server>, id: ServerId, n: nat): seq<Server>
    requires Long(servers, id, n)
  {
    servers[id := servers[id].(sent := servers[id].sent[n..], wire := servers[id].wire[n..])]
  }

  predicate Long(servers: seq<Server>, id: ServerId, n: nat) {
    id < |servers| && n <= |servers[id].sent| && n <= |servers[id].wire|
  }

  function Strip(s: State, id: ServerId, n: nat): State
    requires Long(s.servers, id, n)
  {
    s.(servers := Stripped(s.servers, id, n))
  }

  /** The sent queue of a server is untouched. */
  predicate SameSent(a: seq<Server>, b: seq<Server>, id: ServerId) {
    && id < |a| && id < |b| && b[id].sent == a[id].sent && b[id].wire == a[id].wire
  }

  lemma QueuedStripped(servers: seq<Server>, id: ServerId, n: nat, k: ServerId, r: Ref)
    requires Long(servers, id, n)
    ensures SameSent(servers, Queued(servers, k, r), id)
    ensures Queued(Stripped(servers, id, n), k, r) == Stripped(Queued(servers, k, r), id, n)
  {
    var a, b := Queued(Stripped(servers, id, n), k, r), Stripped(Queued(servers, k, r), id, n);
    assert forall i :: 0 <= i < |servers| ==> a[i] == b[i];
  }

  lemma PushShape(s: State, k: ServerId, r: Ref)
    ensures PushClientCommand(s, k, r) == s.(servers := Queued(s.servers, k, r), peers := s.peers[r.client := PeersOf(s, r.client) + {k}])
  {
  }

  lemma PushStrip(s: State, id: ServerId, n: nat, k: ServerId, r: Ref)
    requires Long(s.servers, id, n)
    ensures SameSent(s.servers, PushClientCommand(s, k, r).servers, id)
    ensures PushClientCommand(Strip(s, id, n), k, r) == Strip(PushClientCommand(s, k, r), id, n)
  {
    hide PushClientCommand, Queued, Stripped;
    PushShape(s, k, r);
    PushShape(Strip(s, id, n), k, r);
    QueuedStripped(s.servers, id, n, k, r);
  }

  lemma BySlotStrip(s: State, id: ServerId, n: nat, slot: Slot)
    requires Long(s.servers, id, n)
    ensures ServerBySlot(Strip(s, id, n), slot) == ServerBySlot(s, slot)
  {
  }

  /** Selecting a server may append to the queue of the very server whose replies are being handed
      out, but leaves the sent queue under iteration alone. */
  lemma SelectStrip(s: State, id: ServerId, n: nat, r: Ref)
    requires Long(s.servers, id, n)
    ensures SameSent(s.servers, SelectServer(s, r).servers, id)
    ensures SelectServer(Strip(s, id, n), r) == Strip(SelectServer(s, r), id, n)
  {
    hide PushClientCommand, ServerBySlot, Stripped;
    if Alive(s.groups, r) {
      var slot := CmdAt(s.groups, r).CurrentSlot();
      BySlotStrip(s, id, n, slot);
      match ServerBySlot(s, slot)
      case None =>
      case Some(k) => PushStrip(s, id, n, k, r);
    }
  }

  /** The command is alive and so is its client. */
  predicate Present(s: State, r: Ref) {
    Alive(s.groups, r) && r.client in s.clients
  }

  /** Answering a command touches no server. */
  lemma ResponsedServers(s: State, r: Ref, servers: seq<Server>)
    requires Present(s, r)
    ensures Responsed(s, r).servers == s.servers
    ensures Responsed(s.(servers := servers), r) == Responsed(s, r).(servers := servers)
  {
    hide Responsed, Answered, GroupResponsed;
    ResponsedShape(s, r);
    ResponsedShape(s.(servers := servers), r);
  }

  function Staged(s: State, r: Ref, stage: nat): State
    requires Alive(s.groups, r)
  {
    s.(groups := WithCmd(s.groups, r, CmdAt(s.groups, r).(stage := stage)))
  }

  lemma RespondShape(s: State, r: Ref, body: Body)
    requires Alive(s.groups, r)
    ensures OnRemoteResponsed(s, r, body) ==
              match NextStage(CmdAt(s.groups, r), body) { case None => Responsed(s, r) case Some(stage) => SelectServer(Staged(s, r, stage), r) }
  {
    hide SelectServer, Responsed;
  }

  lemma StagedStrip(s: State, id: ServerId, n: nat, r: Ref, stage: nat)
    requires Alive(s.groups, r) && Long(s.servers, id, n)
    ensures Staged(Strip(s, id, n), r, stage) == Strip(Staged(s, r, stage), id, n) && Staged(s, r, stage).servers == s.servers
  {
    hide Stripped, WithCmd;
  }

  lemma RespondStrip(s: State, id: ServerId, n: nat, r: Ref, body: Body)
    requires Long(s.servers, id, n) && Present(s, r)
    ensures SameSent(s.servers, OnRemoteResponsed(s, r, body).servers, id)
    ensures OnRemoteResponsed(Strip(s, id, n), r, body) == Strip(OnRemoteResponsed(s, r, body), id, n)
  {
    hide SelectServer, Responsed, Stripped, OnRemoteResponsed, Staged;
    RespondShape(s, r, body);
    RespondShape(Strip(s, id, n), r, body);
    match NextStage(CmdAt(s.groups, r), body)
    case None =>
      ResponsedServers(s, r, Stripped(s.servers, id, n));
    case Some(stage) =>
      StagedStrip(s, id, n, r, stage);
      SelectStrip(Staged(s, r, stage), id, n, r);
  }

  lemma ConnStrip(s: State, id: ServerId, n: nat)
    requires Long(s.servers, id, n)
    ensures Srv(Strip(s, id, n), id).conn == Srv(s, id).conn
  {
  }

  /** The reply is recorded. */
  function Noted(s: State, r: Ref, req: Request, id: ServerId): State
    requires Alive(s.groups, r)
  {
    s.(log := s.log + [Delivery(id, Srv(s, id).conn, r, CmdAt(s.groups, r).stage, req)])
  }

  lemma DeliverShape(s: State, r: Ref, req: Request, id: ServerId, body: Body)
    requires Alive(s.groups, r)
    ensures Deliver(s, Some(r), req, id, body) ==
              if body == Redirect then RetryLater(Noted(s, r, req, id), r) else OnRemoteResponsed(Noted(s, r, req, id), r, body)
  {
    hide OnRemoteResponsed, RetryLater;
  }

  lemma NothingDelivered(s: State, slot: Option<Ref>, req: Request, id: ServerId, body: Body)
    requires slot.Some? ==> !Alive(s.groups, slot.value)
    ensures Deliver(s, slot, req, id, body) == s
  {
  }

  lemma NotedStrip(s: State, id: ServerId, n: nat, r: Ref, req: Request)
    requires Long(s.servers, id, n) && Alive(s.groups, r)
    ensures Noted(Strip(s, id, n), r, req, id) == Strip(Noted(s, r, req, id), id, n)
    ensures var t := Noted(s, r, req, id); t.servers == s.servers && t.groups == s.groups && t.clients == s.clients
  {
    hide Srv, Stripped;
    ConnStrip(s, id, n);
  }

  lemma DeliverStrip(s: State, id: ServerId, n: nat, slot: Option<Ref>, req: Request, body: Body)
    requires Long(s.servers, id, n) && (slot.Some? ==> Present(s, slot.value))
    ensures SameSent(s.servers, Deliver(s, slot, req, id, body).servers, id)
    ensures Deliver(Strip(s, id, n), slot, req, id, body) == Strip(Deliver(s, slot, req, id, body), id, n)
  {
    hide OnRemoteResponsed, Stripped, Deliver, Noted;
    if slot.Some? && Alive(s.groups, slot.value) {
      var r := slot.value;
      DeliverShape(s, r, req, id, body);
      DeliverShape(Strip(s, id, n), r, req, id, body);
      NotedStrip(s, id, n, r, req);
      RespondStrip(Noted(s, r, req, id), id, n, r, body);
    } else {
      NothingDelivered(s, slot, req, id, body);
      NothingDelivered(Strip(s, id, n), slot, req, id, body);
    }
  }

  lemma {:induction false} LiveSnoc(sent: seq<Option<Ref>>, i: nat)
    requires i < |sent|
    ensures Live(sent[..i + 1]) == Live(sent[..i]) + if sent[i].Some? then [sent[i].value] else []
  {
    assert sent[..i + 1] == sent[..i] + [sent[i]];
    assert [sent[i]][1..] == [];
    LiveConcat(sent[..i], [sent[i]]);
  }

  /** Replies still to be delivered, seen past the entries still to be erased: delivering them all
      leads to `all`. */
  ghost predicate Replying(s: State, id: ServerId, n: nat, taken: seq<Option<Ref>>, reqs: seq<Request>, bodies: seq<Body>, all: State) {
    && Long(s.servers, id, n) && |taken| == |reqs| == |bodies|
    && Taken(s.groups, taken, reqs, id, s.servers[id].conn)
    && DeliverAll(Strip(s, id, n), taken, reqs, id, bodies) == all
    && Core(Strip(s, id, n), multiset(Live(taken)))
  }

  /** One round of the loop over replies */
  lemma ReplyStep(s: State, id: ServerId, n: nat, taken: seq<Option<Ref>>, reqs: seq<Request>, bodies: seq<Body>, all: State)
    requires Replying(s, id, n, taken, reqs, bodies, all) && taken != [] && |taken| == |reqs| == |bodies|
    ensures taken[0].Some? ==> Present(s, taken[0].value)
    ensures var t := Deliver(s, taken[0], reqs[0], id, bodies[0]);
            SameSent(s.servers, t.servers, id) && Replying(t, id, n, taken[1..], reqs[1..], bodies[1..], all)
  {
    hide Core, Taken, Steady;
    var s1 := Strip(s, id, n);
    if taken[0].Some? {
      LiveFirst(taken, taken[0].value);
      HandAlive(s1, taken[0].value, multiset(Live(taken)));
    }
    hide Live, Deliver, Stripped;
    StripConn(s, id, n);
    DeliverFirst(s1, taken, reqs, id, bodies[0]);
    DeliverStrip(s, id, n, taken[0], reqs[0], bodies[0]);
    StripConn(Deliver(s, taken[0], reqs[0], id, bodies[0]), id, n);
  }

  lemma DeliverNone(s: State, id: ServerId, taken: seq<Option<Ref>>, reqs: seq<Request>, bodies: seq<Body>)
    requires taken == [] && reqs == [] && bodies == []
    ensures DeliverAll(s, taken, reqs, id, bodies) == s
  {
  }

  lemma LiveNone(sent: seq<Option<Ref>>)
    ensures Live(sent[..0]) == []
  {
  }

  lemma StripConn(s: State, id: ServerId, n: nat)
    requires Long(s.servers, id, n)
    ensures var t := Strip(s, id, n);
            |t.servers| == |s.servers| && t.servers[id].conn == s.servers[id].conn && t.groups == s.groups && t.clients == s.clients
  {
  }

  // ----- issuing groups while the parsed list is still whole -----

  /** The state with other client lists and groups. */
  function With(s: State, cs: map<ClientId, Client>, gs: Groups): State {
    s.(clients := cs, groups := gs)
  }

  lemma WithTwice(s: State, cs: map<ClientId, Client>, gs: Groups, ds: map<ClientId, Client>, hs: Groups)
    ensures With(With(s, cs, gs), ds, hs) == With(s, ds, hs)
    ensures With(s, cs, gs).clients == cs && With(s, cs, gs).groups == gs
    ensures With(s, s.clients, s.groups) == s
  {
  }

  function PoppedIn(cs: map<ClientId, Client>, c: ClientId, i: nat): map<ClientId, Client>
    requires c in cs && i <= |cs[c].parsed|
  {
    cs[c := cs[c].(parsed := cs[c].parsed[i..])]
  }

  function Popped(s: State, c: ClientId, i: nat): State
    requires c in s.clients && i <= |s.clients[c].parsed|
  {
    With(s, PoppedIn(s.clients, c, i), s.groups)
  }

  lemma BySlotApart(s: State, cs: map<ClientId, Client>, gs: Groups, slot: Slot)
    ensures ServerBySlot(With(s, cs, gs), slot) == ServerBySlot(s, slot)
  {
  }

  lemma PushApart(s: State, cs: map<ClientId, Client>, gs: Groups, k: ServerId, r: Ref)
    ensures PushClientCommand(With(s, cs, gs), k, r) == With(PushClientCommand(s, k, r), cs, gs)
    ensures PushClientCommand(s, k, r).groups == s.groups && PushClientCommand(s, k, r).clients == s.clients
  {
    hide PushClientCommand, Queued;
    PushShape(s, k, r);
    PushShape(With(s, cs, gs), k, r);
  }

  /** The command is the same in both, but for its group's flag. */
  predicate SameCmd(gs: Groups, hs: Groups, r: Ref) {
    Alive(gs, r) == Alive(hs, r) && (Alive(gs, r) ==> CmdAt(gs, r) == CmdAt(hs, r))
  }

  /** Selecting servers reads neither the client lists nor the issued flags. */
  lemma SelectApart(s: State, r: Ref, cs: map<ClientId, Client>, gs: Groups)
    requires SameCmd(s.groups, gs, r)
    ensures SelectServer(With(s, cs, gs), r) == With(SelectServer(s, r), cs, gs)
    ensures SelectServer(s, r).groups == s.groups
  {
    hide PushClientCommand, ServerBySlot;
    if Alive(s.groups, r) {
      var slot := CmdAt(s.groups, r).CurrentSlot();
      BySlotApart(s, cs, gs, slot);
      match ServerBySlot(s, slot)
      case None =>
      case Some(k) => PushApart(s, cs, gs, k, r);
    }
  }

  lemma {:induction false} SelectAllApart(s: State, refs: seq<Ref>, cs: map<ClientId, Client>, gs: Groups)
    requires forall r :: r in refs ==> SameCmd(s.groups, gs, r)
    ensures SelectAll(With(s, cs, gs), refs) == With(SelectAll(s, refs), cs, gs)
    ensures SelectAll(s, refs).groups == s.groups
    decreases |refs|
  {
    hide SelectServer, With, SameCmd;
    if refs != [] {
      SelectApart(s, refs[0], cs, gs);
      SelectAllApart(SelectServer(s, refs[0]), refs[1..], cs, gs);
    }
  }

  lemma SelectNone(s: State, refs: seq<Ref>)
    requires refs == []
    ensures SelectAll(s, refs) == s
  {
  }

  lemma PoppedNone(s: State, c: ClientId)
    requires c in s.clients
    ensures Popped(s, c, 0) == s
  {
    assert s.clients[c].parsed[0..] == s.clients[c].parsed;
    assert PoppedIn(s.clients, c, 0) == s.clients;
  }

  lemma IssuedKeeps(gs: Groups, c: ClientId, q: seq<GroupId>, i: nat)
    requires OwnsAll(gs, c, q) && i < |q|
    ensures q[i] in gs && gs[q[i]].client == c && OwnsAll(Issued(gs, q[i]), c, q)
  {
    assert q[i] in q;
  }

  lemma SafeCore(s: State)
    requires Safe(s)
    ensures Core(s, multiset{}) && Mapped(s.servers, s.table)
  {
    InvParts(s);
  }

  /** After the first `writev` of a write notification the thread is well formed again. */
  lemma FirstWrite(s: State, c: ClientId, done: bool)
    requires Safe(s) && c in s.clients
    ensures Core(s, multiset{})
    ensures s.clients[c].pending ==> var t := SendBufferSet(s, c, done); Core(t, multiset{}) && c in t.clients
  {
    InvParts(s);
    assert Bounded(s.clients[c]);
    if s.clients[c].pending {
      SendBufferSetCore(s, c, done);
    }
  }

  /** The client after group `parsed[i]` has joined the awaiting ones, the parsed list still whole. */
  function JoinedAt(cs: map<ClientId, Client>, c: ClientId, i: nat, remote: bool): map<ClientId, Client>
    requires c in cs && i < |cs[c].parsed|
  {
    cs[c := cs[c].(awaiting := cs[c].awaiting + [cs[c].parsed[i]], awaitingCount := cs[c].awaitingCount + if remote then 1 else 0)]
  }

  /** One round of the loop of `_process`, which leaves the parsed list whole. */
  function IssueAt(s: State, c: ClientId, i: nat): State
    requires c in s.clients && i < |s.clients[c].parsed| && s.clients[c].parsed[i] in s.groups
  {
    var g := s.clients[c].parsed[i];
    With(SelectAll(s, RefsFrom(c, g, 0, |s.groups[g].cmds|)), JoinedAt(s.clients, c, i, s.groups[g].cmds != []), Issued(s.groups, g))
  }

  lemma JoinedPopped(cs: map<ClientId, Client>, c: ClientId, i: nat, remote: bool)
    requires c in cs && i < |cs[c].parsed|
    ensures PoppedIn(cs, c, i)[c].parsed != [] && PoppedIn(cs, c, i)[c].parsed[0] == cs[c].parsed[i]
    ensures var ds := JoinedAt(cs, c, i, remote);
            && c in ds && ds[c].parsed == cs[c].parsed
            && PoppedIn(ds, c, i + 1) == PoppedIn(cs, c, i)[c := MoveFirst(PoppedIn(cs, c, i)[c], remote)]
  {
    assert cs[c].parsed[i..][1..] == cs[c].parsed[i + 1..];
  }

  function Counting(cs: map<ClientId, Client>, c: ClientId, remote: bool): map<ClientId, Client>
    requires c in cs
  {
    cs[c := cs[c].(awaitingCount := cs[c].awaitingCount + if remote then 1 else 0)]
  }

  /** Counting, selecting and joining, in that order, are one round of the loop. */
  lemma IssueAtSteps(s: State, c: ClientId, i: nat)
    requires c in s.clients && i < |s.clients[c].parsed| && s.clients[c].parsed[i] in s.groups
    ensures var g := s.clients[c].parsed[i];
            var refs := RefsFrom(c, g, 0, |s.groups[g].cmds|);
            var s1 := With(SelectAll(s, refs), Counting(s.clients, c, s.groups[g].cmds != []), s.groups);
            && c in s1.clients && g in s1.groups
            && With(s1, s1.clients[c := s1.clients[c].(awaiting := s1.clients[c].awaiting + [g])], Issued(s1.groups, g)) == IssueAt(s, c, i)
  {
    hide SelectAll, Issued;
  }

  lemma AllSame(gs: Groups)
    ensures forall r :: SameCmd(gs, gs, r)
  {
  }

  lemma IssuedSame(gs: Groups, g: GroupId)
    requires g in gs
    ensures forall r :: SameCmd(gs, Issued(gs, g), r)
  {
  }

  lemma FirstShape(s: State, c: ClientId, g: GroupId)
    requires c in s.clients && s.clients[c].parsed != [] && s.clients[c].parsed[0] == g && g in s.groups
    ensures IssueFirst(s, c) ==
              SelectAll(With(s, s.clients[c := MoveFirst(s.clients[c], s.groups[g].cmds != [])], Issued(s.groups, g)),
                        RefsFrom(c, g, 0, |s.groups[g].cmds|))
  {
    IssueFirstShape(s, c);
  }

  lemma IssueStep(s: State, c: ClientId, i: nat)
    requires c in s.clients && i < |s.clients[c].parsed| && s.clients[c].parsed[i] in s.groups
    ensures var t := IssueAt(s, c, i);
            && c in t.clients && t.clients[c].parsed == s.clients[c].parsed
            && t.groups == Issued(s.groups, s.clients[c].parsed[i])
            && Popped(t, c, i + 1) == IssueFirst(Popped(s, c, i), c)
    ensures Popped(s, c, i).clients == PoppedIn(s.clients, c, i)
    ensures c in Popped(s, c, i).clients && Popped(s, c, i).clients[c].parsed != []
  {
    hide SelectAll, IssueFirst, Issued, MoveFirst, With, PoppedIn, JoinedAt, SameCmd;
    var g := s.clients[c].parsed[i];
    var remote, refs, gs := s.groups[g].cmds != [], RefsFrom(c, g, 0, |s.groups[g].cmds|), Issued(s.groups, g);
    var ps, js := PoppedIn(s.clients, c, i), JoinedAt(s.clients, c, i, remote);
    JoinedPopped(s.clients, c, i, remote);
    PoppedHas(s.clients, c, i);
    var cs := ps[c := MoveFirst(ps[c], remote)];
    WithTwice(s, ps, s.groups, cs, gs);
    FirstShape(With(s, ps, s.groups), c, g);
    IssuedSame(s.groups, g);
    SelectAllApart(s, refs, cs, gs);
    WithTwice(SelectAll(s, refs), js, gs, cs, gs);
  }

  lemma PoppedMany(s: State, c: ClientId, i: nat, n: nat)
    requires c in s.clients && i < n <= |s.clients[c].parsed|
    ensures IssueMany(Popped(s, c, i), c, n - i) == IssueMany(IssueFirst(Popped(s, c, i), c), c, n - i - 1)
  {
    hide IssueFirst, IssueMany;
    IssueManyStep(Popped(s, c, i), c, n - i);
  }

  lemma PoppedHas(cs: map<ClientId, Client>, c: ClientId, i: nat)
    requires c in cs && i <= |cs[c].parsed|
    ensures c in PoppedIn(cs, c, i)
  {
  }

  // ----- forgetting a client, server by server -----

  function Popping(v: Server, c: ClientId): Server {
    v.(queue := Without(v.queue, c), sent := Nulled(v.sent, c))
  }

  lemma PopNone(servers: seq<Server>, c: ClientId)
    ensures PopFromServers(servers, {}, c) == servers
  {
  }

  lemma PopOne(servers: seq<Server>, done: set<ServerId>, id: ServerId, c: ClientId)
    requires id !in done
    ensures |PopFromServers(servers, done, c)| == |servers|
    ensures PopFromServers(servers, done + {id}, c) ==
              if id < |servers| then PopFromServers(servers, done, c)[id := Popping(PopFromServers(servers, done, c)[id], c)]
              else PopFromServers(servers, done, c)
  {
  }

  lemma {:induction false} WithoutConcat(a: seq<Ref>, b: seq<Ref>, c: ClientId)
    ensures Without(a + b, c) == Without(a, c) + Without(b, c)
  {
    if a == [] {
      assert a + b == b;
    } else {
      assert (a + b)[1..] == a[1..] + b;
      WithoutConcat(a[1..], b, c);
    }
  }

  lemma WithoutSnoc(q: seq<Ref>, i: nat, c: ClientId)
    requires i < |q|
    ensures Without(q[..i + 1], c) == Without(q[..i], c) + if Mine(c, q[i]) then [] else [q[i]]
  {
    assert q[..i + 1] == q[..i] + [q[i]];
    assert [q[i]][1..] == [];
    WithoutConcat(q[..i], [q[i]], c);
  }

  lemma WithoutNone(c: ClientId)
    ensures forall q: seq<Ref> :: q == [] ==> Without(q, c) == []
  {
  }

  // ----- slot map rounds -----

  lemma SwapStarts(s: State, targets: seq<Target>)
    requires Core(s, multiset{}) && Mapped(s.servers, s.table)
    ensures Swapping(Swap(s, {}, {}), Covered(targets))
  {
    hide Core, HeldBy;
  }

  lemma SwappingCore(w: Swap, rest: set<Slot>)
    requires Swapping(w, rest)
    ensures Core(w.st, multiset{})
  {
  }

  function Learnt(s: State, targets: seq<Target>): State {
    if |Covered(targets)| < SLOT_COUNT then UpdateFailed(s) else SetSlotMap(s, targets).(updaters := [])
  }

  lemma NotifyShape(s: State, u: nat, targets: seq<Target>)
    ensures NotifyUpdated(s, u, targets) ==
              if u < |s.updaters| && s.updaters[u].open then Learnt(s.(updaters := s.updaters[u := Updater(false, targets)]), targets) else s
  {
    hide UpdateFailed, SetSlotMap;
  }

  lemma ReportedUpdate(us: seq<Updater>, u: nat, targets: seq<Target>)
    requires Reported(us) && u < |us| && Apart(targets)
    ensures Reported(us[u := Updater(false, targets)])
  {
    hide Apart;
  }

  lemma CloseKeepsLength(s: State, k: ServerId)
    ensures |CloseConn(s, k).servers| == |s.servers|
  {
  }

  lemma RetryStep(s: State, refs: seq<Ref>)
    requires Core(s, multiset(refs)) && refs != []
    ensures Alive(s.groups, refs[0])
    ensures var s1 := SelectServer(s, refs[0]);
            var s2 := if ServerBySlot(s, CmdAt(s.groups, refs[0]).CurrentSlot()).None? then s1.(expired := true) else s1;
            RetryAll(s, refs) == RetryAll(s2, refs[1..]) && Core(s2, multiset(refs[1..]))
  {
    hide Core, SelectServer, ServerBySlot, Steady;
    var r, hand := refs[0], multiset(refs);
    assert refs == [r] + refs[1..];
    assert hand == multiset{r} + multiset(refs[1..]);
    assert hand - multiset{r} == multiset(refs[1..]);
    HandAlive(s, r, hand);
    SelectServerCore(s, r, hand);
    ExpireCore(SelectServer(s, r), multiset(refs[1..]));
  }

  lemma RetryNone(s: State, refs: seq<Ref>)
    requires refs == []
    ensures RetryAll(s, refs) == s
  {
  }

  lemma AnswerStep(s: State, refs: seq<Ref>)
    requires Core(s, multiset(refs)) && refs != []
    ensures Alive(s.groups, refs[0]) && refs[0].client in s.clients
    ensures var s1 := OnRemoteResponsed(s, refs[0], Failure);
            AnswerAll(s, refs) == AnswerAll(s1, refs[1..]) && Core(s1, multiset(refs[1..]))
  {
    hide Core, OnRemoteResponsed, Steady;
    var r, hand := refs[0], multiset(refs);
    assert refs == [r] + refs[1..];
    assert hand == multiset{r} + multiset(refs[1..]);
    assert hand - multiset{r} == multiset(refs[1..]);
    HandAlive(s, r, hand);
    AnswerOne(s, r, hand);
  }

  lemma AnswerNone(s: State, refs: seq<Ref>)
    requires refs == []
    ensures AnswerAll(s, refs) == s
  {
  }

  lemma SafeParts(s: State)
    requires Safe(s)
    ensures Core(s, multiset{}) && Mapped(s.servers, s.table) && Reported(s.updaters)
  {
    InvParts(s);
  }

  lemma DepartShape(s: State, c: ClientId)
    requires c in s.clients
    ensures Depart(s, c) ==
              s.(servers := PopFromServers(s.servers, PeersOf(s, c), c), retry := Without(s.retry, c),
                 groups := GroupsWithout(s.groups, c), clients := s.clients - {c}, peers := s.peers - {c})
  {
    hide PopFromServers, Without;
  }

  lemma DepartUnknown(s: State, c: ClientId)
    ensures c !in s.clients ==> Depart(s, c) == s
  {
  }

  // ----- events -----

  lemma QueueAlive(s: State, id: ServerId)
    requires Core(s, multiset{}) && id < |s.servers|
    ensures forall r :: r in s.servers[id].queue ==> Alive(s.groups, r)
  {
    hide Counted, Owned, Logged, Peered, Pooled, Tabled, Wired;
    HeldInContains(s.servers, id);
    forall r | r in s.servers[id].queue ensures Alive(s.groups, r) {
      assert r in HeldBy(s.servers[id]);
      assert r in Held(s);
    }
  }

  /** The event is of a connection that is open. */
  predicate Noticed(s: State, e: Event) {
    match e
    case Ready(c, _, _) => Listening(s, c)
    case Garble(c, _) => Listening(s, c)
    case HangUp(c) => Listening(s, c)
    case Serve(id, _) => Srv(s, id).open
    case Reset(id) => Srv(s, id).open
    case _ => true
  }

  /** What the callback of an event does */
  function Handled(s: State, e: Event): State {
    match e
    case Accept => Apply(s, e)
    case Ready(c, read, write) => OnEvents(s, c, read, Writable(s, c, write))
    case Garble(c, requests) => CloseClient(PushGroups(s, c, requests), c)
    case HangUp(c) => CloseClient(s, c)
    case Serve(id, received) => ServeServer(s, id, received).(active := s.active + {id})
    case Reset(id) => CloseConn(s, id).(active := s.active + {id})
    case SlotMapReply(u, targets) => NotifyUpdated(s, u, targets)
    case Expire => s.(expired := true)
    case EndTurn(connected) => TurnEnd(s, connected)
  }

  lemma ApplyShape(s: State, e: Event)
    ensures Apply(s, e) == if Noticed(s, e) then Handled(s, e) else s
  {
    hide OnEvents, Writable, CloseClient, PushGroups, NotifyUpdated, TurnEnd, ServeServer, CloseConn;
  }

  /** After the replies have been handed out the server is still there, and what it queues is alive. */
  lemma ReceivedQueue(s: State, id: ServerId, bodies: seq<Body>)
    requires Core(s, multiset{}) && Srv(s, id).open
    ensures var t := RecvFrom(s, id, bodies); id < |t.servers| && forall r :: r in t.servers[id].queue ==> Alive(t.groups, r)
  {
    hide Core, Steady, RecvFrom, Alive;
    RecvFromCore(s, id, bodies);
    var t := RecvFrom(s, id, bodies);
    SteadyLength(s, t);
    QueueAlive(t, id);
  }

  lemma SoundReply(e: Event)
    requires Sound(e)
    ensures e.SlotMapReply? ==> Apart(e.targets)
  {
  }

  lemma StillThere(s: State, c: ClientId, requests: seq<seq<Plan>>)
    requires Safe(s) && c in s.clients
    ensures c in ReadRequest(s, c, requests).clients
  {
    hide Core, Mapped, Bounded, Stalled, ReadRequest;
    SafeClientParts(s, c);
    ReadRequestCore(s, c, requests);
  }

  lemma ThereAfterWrite(s: State, c: ClientId, done1: bool, done2: bool)
    requires Safe(s) && c in s.clients
    ensures c in WriteResponse(s, c, done1, done2).clients
  {
    hide Core, Mapped, Bounded, Stalled, Crowded, WriteResponse;
    SafeClientParts(s, c);
    WriteResponseCore(s, c, done1, done2);
  }

  // ----- registrations -----

  lemma PolledOne(cs: map<ClientId, Client>, done: set<ClientId>, c: ClientId)
    requires c in cs && c !in done
    ensures PolledIn(cs, done + {c}) == PolledIn(cs, done)[c := Polled(PolledIn(cs, done)[c])]
  {
  }

  /** The clients once the registrations of those of `done` have been carried out */
  function PolledIn(cs: map<ClientId, Client>, done: set<ClientId>): map<ClientId, Client> {
    map c | c in cs :: if c in done then Polled(cs[c]) else cs[c]
  }
}
