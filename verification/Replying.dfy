/** What a callback of a server does with the replies it receives and the commands it has queued. */
module Replying {
  import opened Options
  import opened ThreadState
  import opened ThreadInvariants
  import opened CommandSteps
  import opened ServerSteps
  import opened ThreadSafety
  import opened Selecting
  import LoopSteps

  // ----- one reply -----

  /** What a reply makes of a command: redirected, it is as it was; else a command of one slot is answered,
      and a RENAME goes on to its next stage or is answered. */
  predicate Reacts(c: Cmd, body: Body, d: Cmd) {
    if body == Redirect then d == c
    else
      match c.plan
      case OneSlot(_) => d == c.(answered := true)
      case Rename(_, _) =>
        match NextStage(c, body)
        case None => d == c.(answered := true)
        case Some(stage) => d == c.(stage := stage)
  }

  lemma RespondedReacts(s: State, r: Ref, body: Body)
    requires Alive(s.groups, r) && body != Redirect
    ensures var t := OnRemoteResponsed(s, r, body); Alive(t.groups, r) && Reacts(CmdAt(s.groups, r), body, CmdAt(t.groups, r))
  {
    var c := CmdAt(s.groups, r);
    match NextStage(c, body)
    case None => ResponsedAnswers(s, r);
    case Some(stage) =>
      var s1 := s.(groups := WithCmd(s.groups, r, c.(stage := stage)));
      SelectServerFrame(s1, r);
  }

  lemma ResponsedAnswers(s: State, r: Ref)
    requires Alive(s.groups, r)
    ensures var t := Responsed(s, r); Alive(t.groups, r) && CmdAt(t.groups, r) == CmdAt(s.groups, r).(answered := true) && t.retry == s.retry
  {
  }

  lemma DeliverReacts(s: State, r: Ref, req: Request, id: ServerId, body: Body)
    requires Alive(s.groups, r)
    ensures var t := Deliver(s, Some(r), req, id, body);
            && Alive(t.groups, r) && Reacts(CmdAt(s.groups, r), body, CmdAt(t.groups, r))
            && (body == Redirect ==> r in t.retry)
  {
    hide OnRemoteResponsed;
    var s1 := s.(log := s.log + [Delivery(id, Srv(s, id).conn, r, CmdAt(s.groups, r).stage, req)]);
    if body == Redirect {
      assert RetryLater(s1, r).retry[|s.retry|] == r;
    } else {
      RespondedReacts(s1, r, body);
    }
  }

  // ----- a batch of replies -----

  /** Nothing but the entry that is taken changes a command that is not in hand. */
  lemma {:induction false} DeliverAllKeeps(s: State, taken: seq<Option<Ref>>, reqs: seq<Request>, id: ServerId, bodies: seq<Body>, r: Ref)
    requires |taken| == |reqs| == |bodies| && id < |s.servers|
    requires Core(s, multiset(Live(taken))) && ServerSteps.Taken(s.groups, taken, reqs, id, s.servers[id].conn)
    requires Alive(s.groups, r) && r !in Live(taken)
    ensures var t := DeliverAll(s, taken, reqs, id, bodies); Alive(t.groups, r) && CmdAt(t.groups, r) == CmdAt(s.groups, r)
    decreases |taken|
  {
    hide Core, ServerSteps.Taken, Deliver, Steady, OthersKept;
    if taken != [] {
      var t := Deliver(s, taken[0], reqs[0], id, bodies[0]);
      DeliverFirst(s, taken, reqs, id, bodies[0]);
      FirstKeeps(s, taken, reqs, id, bodies[0], r);
      DeliverAllKeeps(t, taken[1..], reqs[1..], id, bodies[1..], r);
    }
  }

  lemma FirstKeeps(s: State, taken: seq<Option<Ref>>, reqs: seq<Request>, id: ServerId, body: Body, r: Ref)
    requires taken != [] && |taken| == |reqs| && id < |s.servers|
    requires Core(s, multiset(Live(taken))) && ServerSteps.Taken(s.groups, taken, reqs, id, s.servers[id].conn)
    requires Alive(s.groups, r) && taken[0] != Some(r)
    ensures var t := Deliver(s, taken[0], reqs[0], id, body); Alive(t.groups, r) && CmdAt(t.groups, r) == CmdAt(s.groups, r)
  {
    hide Core, Steady, OnRemoteResponsed;
    match taken[0]
    case None =>
    case Some(q) =>
      LiveFirst(taken, q);
      TakeOne(s, q, multiset(Live(taken)));
      hide Deliver;
      DeliverCore(s, q, reqs[0], id, body, multiset(Live(taken)));
  }

  /** Each reply reaches the command whose entry stands at its place, and no other. */
  lemma {:induction false} DeliverAllReacts(s: State, taken: seq<Option<Ref>>, reqs: seq<Request>, id: ServerId, bodies: seq<Body>, i: nat)
    requires |taken| == |reqs| == |bodies| && id < |s.servers| && i < |taken| && taken[i].Some?
    requires Core(s, multiset(Live(taken))) && ServerSteps.Taken(s.groups, taken, reqs, id, s.servers[id].conn)
    ensures Alive(s.groups, taken[i].value)
    ensures var t, r := DeliverAll(s, taken, reqs, id, bodies), taken[i].value;
            && Alive(t.groups, r) && Reacts(CmdAt(s.groups, r), bodies[i], CmdAt(t.groups, r))
            && (bodies[i] == Redirect ==> r in t.retry)
    decreases |taken|
  {
    hide Core, ServerSteps.Taken, Deliver, Steady, Reacts, Live, Grown;
    var r := taken[i].value;
    LiveMember(taken, i);
    TakeOne(s, r, multiset(Live(taken)));
    var t := Deliver(s, taken[0], reqs[0], id, bodies[0]);
    DeliverFirst(s, taken, reqs, id, bodies[0]);
    if i == 0 {
      LiveFirst(taken, r);
      assert multiset(Live(taken[1..]))[r] == 0;
      DeliverReacts(s, r, reqs[0], id, bodies[0]);
      DeliverAllKeeps(t, taken[1..], reqs[1..], id, bodies[1..], r);
      DeliverAllGrows(t, taken[1..], reqs[1..], id, bodies[1..]);
      GrownRetry(t, DeliverAll(t, taken[1..], reqs[1..], id, bodies[1..]), r);
    } else {
      assert taken[1..][i - 1] == taken[i];
      if taken[0].Some? {
        LiveMember(taken[1..], i - 1);
        LiveFirst(taken, taken[0].value);
      }
      FirstKeeps(s, taken, reqs, id, bodies[0], r);
      DeliverAllReacts(t, taken[1..], reqs[1..], id, bodies[1..], i - 1);
    }
  }

  lemma {:induction false} DroppedAll(s: State, taken: seq<Option<Ref>>, reqs: seq<Request>, id: ServerId, bodies: seq<Body>)
    requires |taken| == |reqs| == |bodies| && forall i :: 0 <= i < |taken| ==> taken[i] == None
    ensures DeliverAll(s, taken, reqs, id, bodies) == s
    decreases |taken|
  {
    if taken != [] {
      DroppedAll(s, taken[1..], reqs[1..], id, bodies[1..]);
    }
  }

  // ----- what stays of the sent queue -----

  /** Delivering replies takes nothing from any queue. */
  lemma {:induction false} DeliverAllGrows(s: State, taken: seq<Option<Ref>>, reqs: seq<Request>, id: ServerId, bodies: seq<Body>)
    requires |taken| == |reqs| == |bodies|
    ensures Grown(s, DeliverAll(s, taken, reqs, id, bodies))
    decreases |taken|
  {
    hide Deliver, Grown;
    if taken == [] {
      GrownSame(s);
    } else {
      var t := Deliver(s, taken[0], reqs[0], id, bodies[0]);
      DeliverGrows(s, taken[0], reqs[0], id, bodies[0]);
      DeliverAllGrows(t, taken[1..], reqs[1..], id, bodies[1..]);
      GrownTrans(s, t, DeliverAll(t, taken[1..], reqs[1..], id, bodies[1..]));
    }
  }

  lemma GrownRetry(s: State, t: State, r: Ref)
    requires Grown(s, t)
    ensures r in s.retry ==> r in t.retry
  {
  }

  lemma DeliverGrows(s: State, slot: Option<Ref>, req: Request, id: ServerId, body: Body)
    ensures Grown(s, Deliver(s, slot, req, id, body))
  {
    hide OnRemoteResponsed, Deliver, Grown;
    if slot.Some? && Alive(s.groups, slot.value) {
      var s1 := LoopSteps.Noted(s, slot.value, req, id);
      LoopSteps.DeliverShape(s, slot.value, req, id, body);
      NotedGrows(s, slot.value, req, id);
      RespondedGrows(s1, slot.value, body);
      GrownTrans(s, s1, Deliver(s, slot, req, id, body));
    } else {
      LoopSteps.NothingDelivered(s, slot, req, id, body);
      GrownSame(s);
    }
  }

  lemma NotedGrows(s: State, r: Ref, req: Request, id: ServerId)
    requires Alive(s.groups, r)
    ensures var s1 := LoopSteps.Noted(s, r, req, id); Grown(s, s1) && Grown(s1, RetryLater(s1, r))
  {
  }

  lemma RespondedGrows(s: State, r: Ref, body: Body)
    ensures Grown(s, OnRemoteResponsed(s, r, body))
  {
    hide SelectServer, Grown;
    if !Alive(s.groups, r) {
      GrownSame(s);
    } else {
      match NextStage(CmdAt(s.groups, r), body)
      case None => ResponsedGrows(s, r);
      case Some(stage) =>
        var s1 := s.(groups := WithCmd(s.groups, r, CmdAt(s.groups, r).(stage := stage)));
        GrownLists(s, s1);
        SelectGrows(s1, r);
        GrownTrans(s, s1, SelectServer(s1, r));
    }
  }

  lemma ResponsedGrows(s: State, r: Ref)
    ensures Grown(s, Responsed(s, r))
  {
  }

  // ----- the event -----

  lemma SafeCoreOf(s: State)
    requires Safe(s)
    ensures Core(s, multiset{})
  {
    InvParts(s);
  }

  lemma ServeShape(s: State, id: ServerId, received: Option<seq<Body>>)
    requires Srv(s, id).open
    ensures Apply(s, Serve(id, received)) ==
              PushToBufferSet(if received.Some? then RecvFrom(s, id, received.value) else s, id).(active := s.active + {id})
  {
    hide PushToBufferSet, RecvFrom;
  }

  /** Each reply of a batch reaches the command sent at its place: redirected, the command is retried as it
      was; else it is answered, or goes on to its next stage. */
  lemma ReplyReaches(s: State, id: ServerId, bodies: seq<Body>, i: nat)
    requires Safe(s) && id < |s.servers| && s.servers[id].open && i < |bodies| <= |s.servers[id].sent| && s.servers[id].sent[i].Some?
    ensures Alive(s.groups, s.servers[id].sent[i].value)
    ensures var t, r := Apply(s, Serve(id, Some(bodies))), s.servers[id].sent[i].value;
            && Alive(t.groups, r) && Reacts(CmdAt(s.groups, r), bodies[i], CmdAt(t.groups, r))
            && (bodies[i] == Redirect ==> r in t.retry)
  {
    hide Safe, Core, Steady, ServerSteps.Taken, DeliverAll, Reacts, Live, RecvFrom, Apply;
    SafeCoreOf(s);
    var v, n := s.servers[id], |bodies|;
    TakeReplies(s, id, n);
    RecvShape(s, id, bodies);
    ServeShape(s, id, Some(bodies));
    var s1 := WithSrv(s, id, v.(sent := v.sent[n..], wire := v.wire[n..]));
    assert v.sent[..n][i] == v.sent[i];
    DeliverAllReacts(s1, v.sent[..n], v.wire[..n], id, bodies, i);
  }

  /** Replies to entries that have been nulled change no command, no client and no list. */
  lemma NulledDropped(s: State, id: ServerId, bodies: seq<Body>)
    requires Safe(s) && id < |s.servers| && s.servers[id].open && |bodies| <= |s.servers[id].sent|
    requires forall i :: 0 <= i < |bodies| ==> s.servers[id].sent[i] == None
    ensures var t := Apply(s, Serve(id, Some(bodies))); t.groups == s.groups && t.clients == s.clients && t.retry == s.retry
  {
    hide Safe, Core, Steady, ServerSteps.Taken, DeliverAll, Live, RecvFrom, Apply;
    SafeCoreOf(s);
    var v, n := s.servers[id], |bodies|;
    TakeReplies(s, id, n);
    RecvShape(s, id, bodies);
    ServeShape(s, id, Some(bodies));
    var s1 := WithSrv(s, id, v.(sent := v.sent[n..], wire := v.wire[n..]));
    DroppedAll(s1, v.sent[..n], v.wire[..n], id, bodies);
  }

  /** The queue is sent: entry by entry it joins the sent queue, and the node is asked for the stage each
      command is in. */
  ghost predicate Sent(s: State, t: State, id: ServerId)
    requires id < |s.servers| && id < |t.servers|
  {
    var v, u := s.servers[id], t.servers[id];
    && u.queue == [] && v.sent <= u.sent && v.wire <= u.wire && |u.sent| == |v.sent| + |v.queue| && |u.wire| == |v.wire| + |v.queue|
    && forall k :: 0 <= k < |v.queue| ==>
         && u.sent[|v.sent| + k] == Some(v.queue[k])
         && (Alive(s.groups, v.queue[k]) ==>
               u.wire[|v.wire| + k] == Asked(id, v.conn, v.queue[k], CmdAt(s.groups, v.queue[k]).stage))
  }

  lemma FlushSends(s: State, id: ServerId)
    requires id < |s.servers|
    ensures var t := PushToBufferSet(s, id); |t.servers| == |s.servers| && Sent(s, t, id)
  {
  }

  /** A callback without replies sends what is queued. */
  lemma ServeSends(s: State, id: ServerId)
    requires id < |s.servers| && s.servers[id].open
    ensures var t := Apply(s, Serve(id, None)); |t.servers| == |s.servers| && Sent(s, t, id)
  {
    hide PushToBufferSet, Sent;
    ServeShape(s, id, None);
    FlushSends(s, id);
    SentSame(s, PushToBufferSet(s, id), Apply(s, Serve(id, None)), id);
  }

  lemma SentSame(s: State, t: State, u: State, id: ServerId)
    requires id < |s.servers| && id < |t.servers| && Sent(s, t, id) && u.servers == t.servers
    ensures Sent(s, u, id)
  {
  }

  /** After any batch of replies nothing is left queued: what was queued, and what the replies led to, has
      been sent, behind what is still to be answered. */
  lemma ServeDrains(s: State, id: ServerId, bodies: seq<Body>)
    requires Safe(s) && id < |s.servers| && s.servers[id].open && |bodies| <= |s.servers[id].sent|
    ensures var t, v := Apply(s, Serve(id, Some(bodies))), s.servers[id];
            && |t.servers| == |s.servers| && t.servers[id].open && t.servers[id].queue == []
            && v.sent[|bodies|..] <= t.servers[id].sent
            && (forall k :: 0 <= k < |v.queue| ==>
                  |v.sent| - |bodies| + k < |t.servers[id].sent| && t.servers[id].sent[|v.sent| - |bodies| + k] == Some(v.queue[k]))
  {
    hide Safe, Core, Steady, ServerSteps.Taken, DeliverAll, Live, RecvFrom, PushToBufferSet, Apply;
    SafeCoreOf(s);
    var v, n := s.servers[id], |bodies|;
    TakeReplies(s, id, n);
    RecvShape(s, id, bodies);
    ServeShape(s, id, Some(bodies));
    var s1 := WithSrv(s, id, v.(sent := v.sent[n..], wire := v.wire[n..]));
    DeliverAllGrows(s1, v.sent[..n], v.wire[..n], id, bodies);
    var s2 := RecvFrom(s, id, bodies);
    FlushSends(s2, id);
    FlushOpen(s2, id);
    assert s2.servers[id].sent == v.sent[n..] && v.queue <= s2.servers[id].queue;
  }

  lemma FlushOpen(s: State, id: ServerId)
    requires id < |s.servers|
    ensures PushToBufferSet(s, id).servers[id].open == s.servers[id].open
  {
  }

  // ----- a connection that ends -----

  lemma {:induction false} LiveAll(sent: seq<Option<Ref>>)
    requires forall i :: 0 <= i < |sent| ==> sent[i].Some?
    ensures |Live(sent)| == |sent| && forall i :: 0 <= i < |sent| ==> Live(sent)[i] == sent[i].value
  {
    if sent != [] {
      LiveAll(sent[1..]);
      assert forall i :: 0 < i < |sent| ==> sent[i] == sent[1..][i - 1];
    }
  }

  /** A connection that is lost: the server is closed, out of the address map and in the pool, and its
      commands are retried, the queued ones before the sent ones. */
  ghost predicate Ended(s: State, t: State, id: ServerId)
    requires id < |s.servers|
  {
    var v := s.servers[id];
    && |t.servers| == |s.servers| && !t.servers[id].open && t.servers[id].queue == [] && t.servers[id].sent == []
    && v.addr !in t.addrMap && id in t.pool && id in t.active
    && t.retry == s.retry + v.queue + Live(v.sent) && t.groups == s.groups && t.clients == s.clients
    && (forall k :: 0 <= k < |s.servers| && k != id ==> t.servers[k] == s.servers[k])
  }

  lemma ResetEnds(s: State, id: ServerId)
    requires id < |s.servers| && s.servers[id].open
    ensures Ended(s, Apply(s, Reset(id)), id)
  {
    hide Live;
    var t := Apply(s, Reset(id));
    assert t.pool[|s.pool|] == id;
  }

  /** Commands that were sent and not nulled are retried in the order they were sent. */
  lemma ResetKeepsOrder(s: State, id: ServerId)
    requires id < |s.servers| && s.servers[id].open && forall i :: 0 <= i < |s.servers[id].sent| ==> s.servers[id].sent[i].Some?
    ensures var t, v := Apply(s, Reset(id)), s.servers[id];
            && |t.retry| == |s.retry| + |v.queue| + |v.sent| && s.retry + v.queue <= t.retry
            && forall i :: 0 <= i < |v.sent| ==> t.retry[|s.retry| + |v.queue| + i] == v.sent[i].value
  {
    hide Live, Apply;
    ResetEnds(s, id);
    LiveAll(s.servers[id].sent);
  }

  lemma FlushNothing(s: State, id: ServerId)
    requires id < |s.servers| && s.servers[id].queue == []
    ensures PushToBufferSet(s, id) == s
  {
    var v := s.servers[id];
    assert v.sent + Sending(v.queue) == v.sent && v.wire + Asking(s, id, v.queue) == v.wire;
    assert s.servers[id := v] == s.servers;
  }

  /** So does a node that sends more replies than it was asked for. */
  lemma ExcessEnds(s: State, id: ServerId, bodies: seq<Body>)
    requires id < |s.servers| && s.servers[id].open && |bodies| > |s.servers[id].sent|
    ensures Ended(s, Apply(s, Serve(id, Some(bodies))), id)
  {
    hide Live;
    var t := Apply(s, Serve(id, Some(bodies)));
    var s1 := CloseConn(s, id);
    assert RecvFrom(s, id, bodies) == s1;
    FlushNothing(s1, id);
    assert t.pool[|s.pool|] == id;
  }
}
