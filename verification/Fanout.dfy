/** MGET, MSET and DEL split into commands for single keys, which the nodes run each at its own pace. */
module Fanout {
  import opened Options
  import opened Bytes

  type Store = map<Text, Text>

  /** A command for one key; `Refuse` is one its node fails, which changes nothing. */
  datatype Op = Get(key: Text) | Set(key: Text, value: Text) | Del(key: Text) | Refuse(key: Text, error: Text)

  /** What a node answers: a value or nil, OK, a count, or an error */
  datatype Reply = Value(value: Option<Text>) | Ok | Count(n: nat) | Fault(error: Text)

  function Lookup(s: Store, k: Text): Option<Text> {
    if k in s then Some(s[k]) else None
  }

  function Update(s: Store, k: Text, v: Option<Text>): Store {
    match v
    case None => s - {k}
    case Some(x) => s[k := x]
  }

  /** What a command makes of the value of its key */
  function Effect(v: Option<Text>, op: Op): Option<Text> {
    match op
    case Get(_) => v
    case Set(_, value) => Some(value)
    case Del(_) => None
    case Refuse(_, _) => v
  }

  function Answer(v: Option<Text>, op: Op): Reply {
    match op
    case Get(_) => Value(v)
    case Set(_, _) => Ok
    case Del(_) => Count(if v.Some? then 1 else 0)
    case Refuse(_, error) => Fault(error)
  }

  // ----- one store, in order -----

  function SeqStore(s: Store, ops: seq<Op>, n: nat): Store
    requires n <= |ops|
  {
    if n == 0 then s
    else
      var t := SeqStore(s, ops, n - 1);
      Update(t, ops[n - 1].key, Effect(Lookup(t, ops[n - 1].key), ops[n - 1]))
  }

  lemma SeqNone(s: Store, ops: seq<Op>)
    ensures SeqStore(s, ops, 0) == s
  {
  }

  function SeqReply(s: Store, ops: seq<Op>, i: nat): Reply
    requires i < |ops|
  {
    Answer(Lookup(SeqStore(s, ops, i), ops[i].key), ops[i])
  }

  // ----- many nodes -----

  /** The commands done, the union of the nodes' stores, and the replies that came back. */
  datatype State = State(done: set<nat>, store: Store, replies: map<nat, Reply>)

  function Start(s: Store): State {
    State({}, s, map[])
  }

  /** The first command still to be done by a node: its connection is a queue. */
  function NextOf(ops: seq<Op>, node: Text -> nat, done: set<nat>, x: nat, from: nat): (i: nat)
    requires from <= |ops|
    ensures from <= i <= |ops|
    ensures i < |ops| ==> i !in done && node(ops[i].key) == x
    ensures forall j :: from <= j < i && node(ops[j].key) == x ==> j in done
    decreases |ops| - from
  {
    if from == |ops| then from
    else if from !in done && node(ops[from].key) == x then from
    else NextOf(ops, node, done, x, from + 1)
  }

  /** Node `x` runs the next command of its queue, if there is one. */
  function Step(ops: seq<Op>, node: Text -> nat, st: State, x: nat): State {
    var i := NextOf(ops, node, st.done, x, 0);
    if i == |ops| then st
    else
      var k := ops[i].key;
      var v := Lookup(st.store, k);
      State(st.done + {i}, Update(st.store, k, Effect(v, ops[i])), st.replies[i := Answer(v, ops[i])])
  }

  function Run(ops: seq<Op>, node: Text -> nat, st: State, xs: seq<nat>): State
    decreases |xs|
  {
    if xs == [] then st else Run(ops, node, Step(ops, node, st, xs[0]), xs[1..])
  }

  // ----- key by key -----

  /** The value of `k` after those of the first `n` commands that are in `done` */
  function ValueAfter(v: Option<Text>, ops: seq<Op>, k: Text, done: set<nat>, n: nat): Option<Text>
    requires n <= |ops|
  {
    if n == 0 then v
    else
      var w := ValueAfter(v, ops, k, done, n - 1);
      if n - 1 in done && ops[n - 1].key == k then Effect(w, ops[n - 1]) else w
  }

  lemma {:induction false} SameValue(v: Option<Text>, ops: seq<Op>, k: Text, a: set<nat>, b: set<nat>, n: nat)
    requires n <= |ops| && forall j :: 0 <= j < n && ops[j].key == k ==> (j in a <==> j in b)
    ensures ValueAfter(v, ops, k, a, n) == ValueAfter(v, ops, k, b, n)
  {
    if n > 0 {
      SameValue(v, ops, k, a, b, n - 1);
    }
  }

  lemma {:induction false} NothingAfter(v: Option<Text>, ops: seq<Op>, k: Text, done: set<nat>, m: nat, n: nat)
    requires m <= n <= |ops| && forall j :: m <= j < n && ops[j].key == k ==> j !in done
    ensures ValueAfter(v, ops, k, done, n) == ValueAfter(v, ops, k, done, m)
    decreases n
  {
    if m < n {
      NothingAfter(v, ops, k, done, m, n - 1);
    }
  }

  lemma {:induction false} SeqValue(s: Store, ops: seq<Op>, k: Text, all: set<nat>, n: nat)
    requires n <= |ops| && forall j :: 0 <= j < n && ops[j].key == k ==> j in all
    ensures Lookup(SeqStore(s, ops, n), k) == ValueAfter(Lookup(s, k), ops, k, all, n)
  {
    if n > 0 {
      SeqValue(s, ops, k, all, n - 1);
    }
  }

  /** Each node has done a prefix of its queue; every key has the value, and every command done the
      reply, that the commands in order would give it. */
  ghost predicate Consistent(s: Store, ops: seq<Op>, node: Text -> nat, st: State) {
    && (forall i :: i in st.done ==> i < |ops|)
    && (forall i, j :: i in st.done && 0 <= j < i && node(ops[j].key) == node(ops[i].key) ==> j in st.done)
    && (forall k :: Lookup(st.store, k) == ValueAfter(Lookup(s, k), ops, k, st.done, |ops|))
    && st.replies.Keys == st.done
    && (forall i :: i in st.done ==> st.replies[i] == SeqReply(s, ops, i))
  }

  lemma StartConsistent(s: Store, ops: seq<Op>, node: Text -> nat)
    ensures Consistent(s, ops, node, Start(s))
  {
    forall k ensures Lookup(s, k) == ValueAfter(Lookup(s, k), ops, k, {}, |ops|) {
      NothingAfter(Lookup(s, k), ops, k, {}, 0, |ops|);
    }
  }

  lemma NoneLater(s: Store, ops: seq<Op>, node: Text -> nat, st: State, i: nat)
    requires Consistent(s, ops, node, st) && i < |ops| && i !in st.done
    ensures forall j :: i <= j < |ops| && ops[j].key == ops[i].key ==> j !in st.done
  {
    hide ValueAfter, SeqReply, Lookup;
  }

  /** The command a node runs next sees the value it would see in order. */
  lemma SeesInOrder(s: Store, ops: seq<Op>, node: Text -> nat, st: State, i: nat)
    requires Consistent(s, ops, node, st) && i < |ops| && i !in st.done
    requires forall j :: 0 <= j < i && node(ops[j].key) == node(ops[i].key) ==> j in st.done
    ensures Lookup(st.store, ops[i].key) == Lookup(SeqStore(s, ops, i), ops[i].key)
    ensures Lookup(st.store, ops[i].key) == ValueAfter(Lookup(s, ops[i].key), ops, ops[i].key, st.done, i)
  {
    hide ValueAfter, SeqStore, SeqReply, Lookup;
    var k := ops[i].key;
    NoneLater(s, ops, node, st, i);
    NothingAfter(Lookup(s, k), ops, k, st.done, i, |ops|);
    SeqValue(s, ops, k, st.done, i);
  }

  lemma ValueStep(v: Option<Text>, ops: seq<Op>, k: Text, done: set<nat>, i: nat)
    requires i < |ops| && i !in done && forall j :: i < j < |ops| && ops[j].key == ops[i].key ==> j !in done
    ensures ValueAfter(v, ops, k, done + {i}, |ops|) ==
              if ops[i].key == k then Effect(ValueAfter(v, ops, k, done, i), ops[i]) else ValueAfter(v, ops, k, done, |ops|)
  {
    if ops[i].key == k {
      NothingAfter(v, ops, k, done + {i}, i + 1, |ops|);
      SameValue(v, ops, k, done, done + {i}, i);
    } else {
      SameValue(v, ops, k, done, done + {i}, |ops|);
    }
  }

  lemma StepConsistent(s: Store, ops: seq<Op>, node: Text -> nat, st: State, x: nat)
    requires Consistent(s, ops, node, st)
    ensures Consistent(s, ops, node, Step(ops, node, st, x))
  {
    hide ValueAfter, SeqStore, Effect, Answer;
    var i := NextOf(ops, node, st.done, x, 0);
    if i < |ops| {
      NoneLater(s, ops, node, st, i);
      SeesInOrder(s, ops, node, st, i);
      var t := Step(ops, node, st, x);
      forall k ensures Lookup(t.store, k) == ValueAfter(Lookup(s, k), ops, k, t.done, |ops|) {
        ValueStep(Lookup(s, k), ops, k, st.done, i);
      }
    }
  }

  lemma {:induction false} RunConsistent(s: Store, ops: seq<Op>, node: Text -> nat, st: State, xs: seq<nat>)
    requires Consistent(s, ops, node, st)
    ensures Consistent(s, ops, node, Run(ops, node, st, xs))
    decreases |xs|
  {
    hide Consistent, Step;
    if xs != [] {
      StepConsistent(s, ops, node, st, xs[0]);
      RunConsistent(s, ops, node, Step(ops, node, st, xs[0]), xs[1..]);
    }
  }

  lemma SameStores(a: Store, b: Store)
    requires forall k :: Lookup(a, k) == Lookup(b, k)
    ensures a == b
  {
    forall k ensures k in a <==> k in b {
      assert Lookup(a, k) == Lookup(b, k);
    }
    forall k | k in a ensures a[k] == b[k] {
      assert Lookup(a, k) == Lookup(b, k);
    }
  }

  /** Every interleaving of the nodes that runs every command: the stores together, and every reply,
      are those of the commands run in order on one store. */
  lemma AnyInterleaving(s: Store, ops: seq<Op>, node: Text -> nat, xs: seq<nat>)
    requires forall i :: 0 <= i < |ops| ==> i in Run(ops, node, Start(s), xs).done
    ensures var st := Run(ops, node, Start(s), xs);
            && st.store == SeqStore(s, ops, |ops|)
            && (forall i :: 0 <= i < |ops| ==> i in st.replies && st.replies[i] == SeqReply(s, ops, i))
  {
    hide Run, SeqReply;
    StartConsistent(s, ops, node);
    RunConsistent(s, ops, node, Start(s), xs);
    var st := Run(ops, node, Start(s), xs);
    forall k ensures Lookup(st.store, k) == Lookup(SeqStore(s, ops, |ops|), k) {
      SeqValue(s, ops, k, st.done, |ops|);
    }
    SameStores(st.store, SeqStore(s, ops, |ops|));
  }
}
