/** Every small step on commands keeps the core invariant. */
module CommandSteps {
  import opened Options
  import opened ThreadState
  import opened ThreadInvariants

  // ----- what servers hold -----

  lemma {:induction false} HeldInUpdate(servers: seq<Server>, id: nat, v: Server)
    requires id < |servers|
    ensures HeldIn(servers[id := v]) + HeldBy(servers[id]) == HeldIn(servers) + HeldBy(v)
  {
    var us := servers[id := v];
    if id == 0 {
      assert us[1..] == servers[1..];
    } else {
      assert us[1..] == servers[1..][id - 1 := v] && us[0] == servers[0];
      HeldInUpdate(servers[1..], id - 1, v);
      var a, b := HeldIn(us[1..]), HeldIn(servers[1..]);
      assert a + HeldBy(servers[id]) == b + HeldBy(v);
      assert HeldBy(servers[0]) + a + HeldBy(servers[id]) == HeldBy(servers[0]) + (a + HeldBy(servers[id]));
    }
  }

  lemma {:induction false} HeldInContains(servers: seq<Server>, id: nat)
    requires id < |servers|
    ensures HeldBy(servers[id]) <= HeldIn(servers)
  {
    if id != 0 {
      HeldInContains(servers[1..], id - 1);
    }
  }

  lemma {:induction false} LiveConcat(a: seq<Option<Ref>>, b: seq<Option<Ref>>)
    ensures Live(a + b) == Live(a) + Live(b)
  {
    if a == [] {
      assert a + b == b;
    } else {
      assert (a + b)[1..] == a[1..] + b;
      LiveConcat(a[1..], b);
    }
  }

  lemma {:induction false} LiveSending(q: seq<Ref>)
    ensures Live(Sending(q)) == q
  {
    if q != [] {
      assert Sending(q)[1..] == Sending(q[1..]);
      LiveSending(q[1..]);
    }
  }

  lemma {:induction false} LiveMember(sent: seq<Option<Ref>>, i: nat)
    requires i < |sent| && sent[i].Some?
    ensures sent[i].value in Live(sent)
  {
    if i != 0 {
      LiveMember(sent[1..], i - 1);
    }
  }

  /** A command in hand is outstanding, and in no queue. */
  lemma InHand(s: State, r: Ref, hand: multiset<Ref>)
    requires Conserved(Held(s), hand, s.groups) && r in hand
    ensures Outstanding(s.groups, r) && hand[r] == 1 && Held(s)[r] == 0
    ensures forall id :: 0 <= id < |s.servers| ==> r !in HeldBy(s.servers[id])
  {
    assert Held(s)[r] + hand[r] == if Outstanding(s.groups, r) then 1 else 0;
    forall id | 0 <= id < |s.servers|
      ensures r !in HeldBy(s.servers[id])
    {
      HeldInContains(s.servers, id);
    }
  }

  lemma NotSent(v: Server, r: Ref)
    requires r !in HeldBy(v)
    ensures forall i :: 0 <= i < |v.sent| ==> v.sent[i] != Some(r)
  {
    forall i | 0 <= i < |v.sent| ensures v.sent[i] != Some(r) {
      if v.sent[i].Some? {
        LiveMember(v.sent, i);
      }
    }
  }

  lemma HandAlive(s: State, r: Ref, hand: multiset<Ref>)
    requires Core(s, hand) && r in hand
    ensures Outstanding(s.groups, r) && r.client in s.clients
  {
    InHand(s, r, hand);
    assert Listed(s.clients, s.groups[r.group].client, r.group);
  }

  // ----- queueing and retrying -----

  /** A reference moves between the queues and the hand. */
  lemma Moved(held: multiset<Ref>, hand: multiset<Ref>, held': multiset<Ref>, hand': multiset<Ref>, gs: Groups)
    requires Conserved(held, hand, gs) && held + hand == held' + hand'
    ensures Conserved(held', hand', gs)
  {
    forall r ensures held'[r] + hand'[r] == if Outstanding(gs, r) then 1 else 0 {
      assert (held + hand)[r] == held[r] + hand[r];
      assert (held' + hand')[r] == held'[r] + hand'[r];
      assert held[r] + hand[r] == if Outstanding(gs, r) then 1 else 0;
    }
  }

  lemma RetryLaterCore(s: State, r: Ref, hand: multiset<Ref>)
    requires Core(s, hand) && r in hand
    ensures Core(RetryLater(s, r), hand - multiset{r})
  {
    hide Conserved, Counted, Owned, Wired, Logged, Peered, Pooled, Tabled;
    Moved(Held(s), hand, Held(RetryLater(s, r)), hand - multiset{r}, s.groups);
  }

  lemma AlignedUpdate(servers: seq<Server>, gs: Groups, id: ServerId, v: Server)
    requires Wired(servers, gs) && id < |servers| && Aligned(gs, id, v)
    ensures Wired(servers[id := v], gs)
  {
    hide Aligned;
  }

  lemma MultisetCancel(a: multiset<Ref>, b: multiset<Ref>, c: multiset<Ref>, d: multiset<Ref>)
    requires a + c == b + (c + d)
    ensures a == b + d
  {
    forall x ensures a[x] == (b + d)[x] {
      assert (a + c)[x] == (b + (c + d))[x];
    }
  }

  lemma PooledUpdate(servers: seq<Server>, addrMap: map<Addr, ServerId>, pool: seq<ServerId>, refused: bool, id: ServerId, v: Server)
    requires Pooled(servers, addrMap, pool, refused) && id < |servers| && v.open == servers[id].open && v.addr == servers[id].addr
    ensures Pooled(servers[id := v], addrMap, pool, refused)
  {
  }

  lemma PeeredPush(servers: seq<Server>, peers: map<ClientId, set<ServerId>>, id: ServerId, v: Server, r: Ref, now: set<ServerId>)
    requires Peered(servers, peers) && id < |servers| && HeldBy(v) == HeldBy(servers[id]) + multiset{r}
    requires id in now && (r.client in peers ==> peers[r.client] <= now)
    ensures Peered(servers[id := v], peers[r.client := now])
  {
    hide HeldBy;
    var us := servers[id := v];
    forall k, x | 0 <= k < |us| && x in HeldBy(us[k])
      ensures x.client in peers[r.client := now] && k in peers[r.client := now][x.client]
    {
      if k == id && x == r {
      } else {
        assert x in HeldBy(servers[k]);
      }
    }
  }

  lemma PushClientCommandCore(s: State, id: ServerId, r: Ref, hand: multiset<Ref>)
    requires Core(s, hand) && r in hand
    requires Srv(s, id).open
    ensures Core(PushClientCommand(s, id, r), hand - multiset{r})
  {
    hide Conserved, Counted, Owned, Logged, Tabled, Wired, Aligned, Peered, Pooled, HeldIn;
    var t := PushClientCommand(s, id, r);
    var v := s.servers[id].(queue := s.servers[id].queue + [r]);
    assert t.servers == s.servers[id := v];
    HeldInUpdate(s.servers, id, v);
    assert HeldBy(v) == HeldBy(s.servers[id]) + multiset{r};
    assert HeldIn(t.servers) == HeldIn(s.servers) + multiset{r} by {
      MultisetCancel(HeldIn(t.servers), HeldIn(s.servers), HeldBy(s.servers[id]), multiset{r});
    }
    Moved(Held(s), hand, Held(t), hand - multiset{r}, s.groups);
    AlignedPush(s.servers, s.groups, id, r);
    AlignedUpdate(s.servers, s.groups, id, v);
    PooledUpdate(s.servers, s.addrMap, s.pool, s.refused, id, v);
    PeeredPush(s.servers, s.peers, id, v, r, PeersOf(s, r.client) + {id});
  }

  lemma AlignedPush(servers: seq<Server>, gs: Groups, id: ServerId, r: Ref)
    requires Wired(servers, gs) && id < |servers| && servers[id].open
    ensures Aligned(gs, id, servers[id].(queue := servers[id].queue + [r]))
  {
    assert Aligned(gs, id, servers[id]);
  }

  lemma SelectServerCore(s: State, r: Ref, hand: multiset<Ref>)
    requires Core(s, hand) && r in hand
    ensures Core(SelectServer(s, r), hand - multiset{r})
  {
    hide Core;
    HandAlive(s, r, hand);
    match ServerBySlot(s, CmdAt(s.groups, r).CurrentSlot())
    case None => RetryLaterCore(s, r, hand);
    case Some(id) => PushClientCommandCore(s, id, r, hand);
  }

  /** The step touched no client list, no group and no table. */
  predicate OnlyQueues(s: State, t: State) {
    && t.clients == s.clients && t.groups == s.groups && t.nextClient == s.nextClient && t.nextGroup == s.nextGroup
    && t.closing == s.closing && t.active == s.active && t.table == s.table && t.updaters == s.updaters
    && t.log == s.log && t.readonly == s.readonly && t.fullCoverage == s.fullCoverage
    && |t.servers| == |s.servers|
  }

  lemma SelectServerFrame(s: State, r: Ref)
    ensures OnlyQueues(s, SelectServer(s, r))
  {
    if Alive(s.groups, r) {
      match ServerBySlot(s, CmdAt(s.groups, r).CurrentSlot())
      case None => assert SelectServer(s, r) == RetryLater(s, r);
      case Some(id) => assert SelectServer(s, r) == PushClientCommand(s, id, r);
    }
  }

  lemma {:induction false} SelectAllCore(s: State, refs: seq<Ref>, hand: multiset<Ref>)
    requires Core(s, hand) && multiset(refs) <= hand
    ensures Core(SelectAll(s, refs), hand - multiset(refs))
    ensures OnlyQueues(s, SelectAll(s, refs))
    decreases |refs|
  {
    hide Core, SelectServer;
    if refs != [] {
      assert refs == [refs[0]] + refs[1..];
      assert multiset(refs) == multiset{refs[0]} + multiset(refs[1..]);
      SelectServerCore(s, refs[0], hand);
      SelectServerFrame(s, refs[0]);
      SelectAllCore(SelectServer(s, refs[0]), refs[1..], hand - multiset{refs[0]});
      assert hand - multiset{refs[0]} - multiset(refs[1..]) == hand - multiset(refs);
    } else {
      assert hand - multiset(refs) == hand;
    }
  }

  // ----- counting -----

  lemma {:induction false} UnansweredUpdate(cmds: seq<Cmd>, i: nat, c: Cmd)
    requires i < |cmds|
    ensures Unanswered(cmds[i := c]) + (if cmds[i].answered then 0 else 1) == Unanswered(cmds) + (if c.answered then 0 else 1)
  {
    if i == 0 {
      assert cmds[i := c][1..] == cmds[1..];
    } else {
      assert cmds[i := c][1..] == cmds[1..][i - 1 := c];
      UnansweredUpdate(cmds[1..], i - 1, c);
    }
  }

  lemma {:induction false} UnansweredBound(cmds: seq<Cmd>)
    ensures Unanswered(cmds) <= |cmds|
    ensures Unanswered(cmds) == 0 <==> forall i :: 0 <= i < |cmds| ==> cmds[i].answered
    ensures Unanswered(cmds) == |cmds| <==> forall i :: 0 <= i < |cmds| ==> !cmds[i].answered
  {
    if cmds != [] {
      UnansweredBound(cmds[1..]);
      assert forall i :: 0 < i < |cmds| ==> cmds[i] == cmds[1..][i - 1];
    }
  }

  lemma {:induction false} WaitingFrame(gs: Groups, hs: Groups, q: seq<GroupId>)
    requires forall g :: g in q ==> (g in gs && gs[g].counter != 0 <==> g in hs && hs[g].counter != 0)
    ensures Waiting(gs, q) == Waiting(hs, q)
  {
    if q != [] {
      assert q[0] in q;
      WaitingFrame(gs, hs, q[1..]);
    }
  }

  lemma {:induction false} WaitingUpdate(gs: Groups, q: seq<GroupId>, g: GroupId, grp: Group)
    requires NoDup(q) && g in q && g in gs
    ensures Waiting(gs[g := grp], q) + (if gs[g].counter != 0 then 1 else 0) == Waiting(gs, q) + (if grp.counter != 0 then 1 else 0)
  {
    if q[0] == g {
      assert g !in q[1..];
      WaitingFrame(gs, gs[g := grp], q[1..]);
    } else {
      assert g in q[1..];
      WaitingUpdate(gs, q[1..], g, grp);
    }
  }

  lemma {:induction false} WaitingBound(gs: Groups, q: seq<GroupId>)
    ensures Waiting(gs, q) <= |q|
    ensures Waiting(gs, q) == 0 <==> forall g :: g in q ==> g !in gs || gs[g].counter == 0
  {
    if q != [] {
      WaitingBound(gs, q[1..]);
      assert forall g :: g in q <==> g == q[0] || g in q[1..];
    }
  }

  lemma {:induction false} WaitingConcat(gs: Groups, a: seq<GroupId>, b: seq<GroupId>)
    ensures Waiting(gs, a + b) == Waiting(gs, a) + Waiting(gs, b)
  {
    if a == [] {
      assert a + b == b;
    } else {
      assert (a + b)[1..] == a[1..] + b;
      WaitingConcat(gs, a[1..], b);
    }
  }

  // ----- answering -----

  /** `_push_awaitings_to_ready` keeps the groups in order and moves only groups that are all answered. */
  lemma PushAwaitingsOwns(gs: Groups, c: ClientId, cl: Client, n: GroupId)
    requires ClientOwns(gs, c, cl, n)
    ensures ClientOwns(gs, c, PushAwaitingsToReady(cl), n)
  {
    var cl' := PushAwaitingsToReady(cl);
    if cl' != cl {
      WaitingBound(gs, cl.awaiting);
      assert cl.written + cl.ready + cl.awaiting + cl.parsed == cl.written + (cl.ready + cl.awaiting) + [] + cl.parsed;
    }
  }

  lemma NoDupParts(k: Client)
    requires k.arrived == k.written + k.ready + k.awaiting + k.parsed && NoDup(k.arrived)
    ensures NoDup(k.awaiting) && NoDup(k.parsed) && NoDup(k.ready)
    ensures forall g :: g in k.awaiting ==> g !in k.ready && g !in k.parsed
    ensures forall g :: g in k.ready ==> g !in k.parsed
  {
    var a, b := |k.written|, |k.written| + |k.ready|;
    var d := b + |k.awaiting|;
    assert k.ready == k.arrived[a..b];
    assert k.awaiting == k.arrived[b..d];
    assert k.parsed == k.arrived[d..];
  }

  /** Changing a group but for its owner and flag touches nothing of other clients. */
  lemma OtherClient(gs: Groups, g: GroupId, grp: Group, c: ClientId, cl: Client, n: GroupId)
    requires ClientOwns(gs, c, cl, n) && g in gs && gs[g].client != c && grp.client == gs[g].client
    ensures ClientOwns(gs[g := grp], c, cl, n)
  {
    assert g !in cl.ready && g !in cl.awaiting && g !in cl.parsed;
    WaitingFrame(gs, gs[g := grp], cl.awaiting);
  }

  /** The group of the client whose command is answered or changed is an awaiting one. */
  lemma ThisClient(gs: Groups, g: GroupId, grp: Group, c: ClientId, cl: Client, n: GroupId)
    requires ClientOwns(gs, c, cl, n) && g in gs && g in cl.awaiting && gs[g].counter != 0
    requires grp.client == gs[g].client && grp.issued == gs[g].issued
    ensures ClientOwns(gs[g := grp], c, cl.(awaitingCount := cl.awaitingCount - if grp.counter == 0 then 1 else 0), n)
  {
    NoDupParts(cl);
    WaitingUpdate(gs, cl.awaiting, g, grp);
  }

  function Answered(gs: Groups, r: Ref): Groups
    requires Alive(gs, r)
  {
    CountDown(WithCmd(gs, r, CmdAt(gs, r).(answered := true)), r.group)
  }

  lemma AnsweredOutstanding(gs: Groups, r: Ref)
    requires Alive(gs, r)
    ensures forall x :: Outstanding(Answered(gs, r), x) == (Outstanding(gs, x) && x != r)
  {
    var hs := Answered(gs, r);
    forall x ensures Outstanding(hs, x) == (Outstanding(gs, x) && x != r) {
      if x.group == r.group && Alive(gs, x) && x != r {
        assert x.index != r.index;
      }
    }
  }

  lemma AnsweredConserved(held: multiset<Ref>, hand: multiset<Ref>, gs: Groups, r: Ref)
    requires Conserved(held, hand, gs) && r in hand && Alive(gs, r)
    ensures Conserved(held, hand - multiset{r}, Answered(gs, r))
  {
    AnsweredOutstanding(gs, r);
    hide Answered;
    var hs := Answered(gs, r);
    forall x ensures held[x] + (hand - multiset{r})[x] == if Outstanding(hs, x) then 1 else 0 {
      assert held[x] + hand[x] == if Outstanding(gs, x) then 1 else 0;
    }
  }

  lemma AnsweredCounted(gs: Groups, r: Ref)
    requires Counted(gs) && Outstanding(gs, r)
    ensures Counted(Answered(gs, r)) && gs[r.group].counter >= 1
  {
    var grp := gs[r.group];
    UnansweredUpdate(grp.cmds, r.index, grp.cmds[r.index].(answered := true));
  }

  lemma OwnedUpdate(clients: map<ClientId, Client>, gs: Groups, g: GroupId, grp: Group, cl: Client, nc: ClientId, n: GroupId)
    requires Owned(clients, gs, nc, n) && g in gs && grp.client == gs[g].client && gs[g].client in clients
    requires ClientOwns(gs[g := grp], gs[g].client, cl, n)
    requires forall x :: x in cl.ready || x in cl.awaiting || x in cl.parsed <==>
                         Listed(clients, gs[g].client, x)
    ensures Owned(clients[gs[g].client := cl], gs[g := grp], nc, n)
  {
    hide ClientOwns;
    var c := gs[g].client;
    forall k | k in clients && k != c ensures ClientOwns(gs[g := grp], k, clients[k], n) {
      OtherClient(gs, g, grp, k, clients[k], n);
    }
    forall x | x in gs ensures Listed(clients[c := cl], gs[x].client, x) {
      assert Listed(clients, gs[x].client, x);
    }
  }

  lemma OwnsOf(clients: map<ClientId, Client>, gs: Groups, c: ClientId, nc: ClientId, n: GroupId)
    requires Owned(clients, gs, nc, n) && c in clients
    ensures ClientOwns(gs, c, clients[c], n)
  {
    hide ClientOwns;
  }

  lemma AwaitingOf(clients: map<ClientId, Client>, gs: Groups, r: Ref, nc: ClientId, n: GroupId)
    requires Owned(clients, gs, nc, n) && Counted(gs) && Outstanding(gs, r)
    ensures r.client in clients && r.group in clients[r.client].awaiting && gs[r.group].counter >= 1
    ensures clients[r.client].awaitingCount >= 1
    ensures ClientOwns(gs, r.client, clients[r.client], n)
  {
    AnsweredCounted(gs, r);
    assert Listed(clients, gs[r.group].client, r.group);
    assert ClientOwns(gs, r.client, clients[r.client], n);
    WaitingBound(gs, clients[r.client].awaiting);
  }

  lemma ResponsedOwned(clients: map<ClientId, Client>, gs: Groups, r: Ref, nc: ClientId, n: GroupId)
    requires Owned(clients, gs, nc, n) && Counted(gs) && Outstanding(gs, r) && r.client in clients
    ensures var cl := clients[r.client];
            Owned(clients[r.client := if gs[r.group].counter == 1 then GroupResponsed(cl) else cl], Answered(gs, r), nc, n)
  {
    hide Owned, ClientOwns, Counted;
    AwaitingOf(clients, gs, r, nc, n);
    var cl := clients[r.client];
    var hs := Answered(gs, r);
    var grp := hs[r.group];
    assert hs == gs[r.group := grp];
    ThisClient(gs, r.group, grp, r.client, cl, n);
    if grp.counter == 0 {
      var k := cl.(awaitingCount := cl.awaitingCount - 1);
      PushAwaitingsOwns(hs, r.client, k, n);
      OwnedUpdate(clients, gs, r.group, grp, PushAwaitingsToReady(k), nc, n);
    } else {
      assert cl == cl.(awaitingCount := cl.awaitingCount - 0);
      OwnedUpdate(clients, gs, r.group, grp, cl, nc, n);
    }
  }

  lemma ResponsedShape(s: State, r: Ref)
    requires Alive(s.groups, r) && r.client in s.clients
    ensures var cl := s.clients[r.client];
            Responsed(s, r) == s.(groups := Answered(s.groups, r),
                                  clients := s.clients[r.client := if s.groups[r.group].counter == 1 then GroupResponsed(cl) else cl])
  {
    assert s.clients == s.clients[r.client := s.clients[r.client]];
  }

  lemma WiredFrame(servers: seq<Server>, gs: Groups, hs: Groups)
    requires Wired(servers, gs)
    requires forall x :: Alive(hs, x) ==> Alive(gs, x) && CmdAt(hs, x).stage == CmdAt(gs, x).stage
    ensures Wired(servers, hs)
  {
    forall id | 0 <= id < |servers| ensures Aligned(hs, id, servers[id]) {
      assert Aligned(gs, id, servers[id]);
    }
  }

  lemma ResponsedCore(s: State, r: Ref, hand: multiset<Ref>)
    requires Core(s, hand) && r in hand
    ensures Core(Responsed(s, r), hand - multiset{r})
  {
    hide Conserved, Counted, Owned, Wired, Logged, Peered, Pooled, Tabled;
    HandAlive(s, r, hand);
    ResponsedShape(s, r);
    AnsweredConserved(Held(s), hand, s.groups, r);
    AnsweredCounted(s.groups, r);
    ResponsedOwned(s.clients, s.groups, r, s.nextClient, s.nextGroup);
    WiredFrame(s.servers, s.groups, Answered(s.groups, r));
  }

  lemma AdvanceOwned(clients: map<ClientId, Client>, gs: Groups, r: Ref, c: Cmd, nc: ClientId, n: GroupId)
    requires Owned(clients, gs, nc, n) && Counted(gs) && Outstanding(gs, r) && c.answered == CmdAt(gs, r).answered
    ensures Owned(clients, WithCmd(gs, r, c), nc, n) && Counted(WithCmd(gs, r, c))
  {
    var hs := WithCmd(gs, r, c);
    UnansweredUpdate(gs[r.group].cmds, r.index, c);
    assert Counted(hs);
    AwaitingOf(clients, gs, r, nc, n);
    hide Owned, ClientOwns, Counted, Unanswered;
    var cl := clients[r.client];
    ThisClient(gs, r.group, hs[r.group], r.client, cl, n);
    assert cl == cl.(awaitingCount := cl.awaitingCount - 0);
    OwnedUpdate(clients, gs, r.group, hs[r.group], cl, nc, n);
    assert clients[r.client := cl] == clients;
  }

  /** A command in hand goes on to its next stage. */
  lemma AdvanceCore(s: State, r: Ref, stage: nat, hand: multiset<Ref>)
    requires Core(s, hand) && r in hand && Alive(s.groups, r)
    ensures Core(s.(groups := WithCmd(s.groups, r, CmdAt(s.groups, r).(stage := stage))), hand)
  {
    hide Conserved, Owned, Wired, Logged, Peered, Pooled, Tabled, Counted, HeldIn, WithCmd;
    HandAlive(s, r, hand);
    var c := CmdAt(s.groups, r).(stage := stage);
    AdvanceConserved(Held(s), hand, s.groups, r, c);
    AdvanceOwned(s.clients, s.groups, r, c, s.nextClient, s.nextGroup);
    AdvanceWired(s, r, c, hand);
  }

  lemma AdvanceConserved(held: multiset<Ref>, hand: multiset<Ref>, gs: Groups, r: Ref, c: Cmd)
    requires Conserved(held, hand, gs) && Alive(gs, r) && c.answered == CmdAt(gs, r).answered
    ensures Conserved(held, hand, WithCmd(gs, r, c))
  {
    var hs := WithCmd(gs, r, c);
    forall x ensures held[x] + hand[x] == if Outstanding(hs, x) then 1 else 0 {
      assert held[x] + hand[x] == if Outstanding(gs, x) then 1 else 0;
      assert Outstanding(hs, x) == Outstanding(gs, x);
    }
  }

  lemma AdvanceWired(s: State, r: Ref, c: Cmd, hand: multiset<Ref>)
    requires Conserved(Held(s), hand, s.groups) && r in hand && Alive(s.groups, r) && Wired(s.servers, s.groups)
    ensures Wired(s.servers, WithCmd(s.groups, r, c))
  {
    InHand(s, r, hand);
    hide Conserved;
    var hs := WithCmd(s.groups, r, c);
    forall id | 0 <= id < |s.servers| ensures Aligned(hs, id, s.servers[id]) {
      var v := s.servers[id];
      NotSent(v, r);
      assert Aligned(s.groups, id, v);
      forall i | 0 <= i < |v.sent| && v.sent[i].Some? && Alive(hs, v.sent[i].value)
        ensures v.wire[i] == Asked(id, v.conn, v.sent[i].value, CmdAt(hs, v.sent[i].value).stage)
      {
        assert v.sent[i].value != r;
        assert Alive(s.groups, v.sent[i].value);
      }
    }
  }

  lemma OnRemoteResponsedCore(s: State, r: Ref, body: Body, hand: multiset<Ref>)
    requires Core(s, hand) && r in hand
    ensures Core(OnRemoteResponsed(s, r, body), hand - multiset{r})
  {
    hide Core;
    HandAlive(s, r, hand);
    match NextStage(CmdAt(s.groups, r), body)
    case None => ResponsedCore(s, r, hand);
    case Some(stage) =>
      AdvanceCore(s, r, stage, hand);
      SelectServerCore(s.(groups := WithCmd(s.groups, r, CmdAt(s.groups, r).(stage := stage))), r, hand);
  }
}
