/** The output side of a connection: a queue of buffers drained by gathered writes that may stop at
    any byte. */
module Gather {
  import opened Options
  import opened Bytes

  const IOV_MAX: nat := 1024
  const WRITEV_MAX_SIZE: nat := 2 * 1024 * 1024

  // ----- what is left to send -----

  function Join(bufs: seq<Text>): Text {
    if bufs == [] then [] else bufs[0] + Join(bufs[1..])
  }

  /** What `write_single` sends of a buffer from an offset on: nothing if the offset is past its end. */
  function Rest(buf: Text, offset: nat): Text {
    if offset <= |buf| then buf[offset..] else []
  }

  /** The bytes still to be sent, the first buffer from `offset` on. */
  function Pending(bufs: seq<Text>, offset: nat): Text {
    if bufs == [] then [] else Rest(bufs[0], offset) + Join(bufs[1..])
  }

  /** The offset is within the first buffer, and 0 when there is none. */
  predicate Tidy(bufs: seq<Text>, offset: nat) {
    offset == 0 || (bufs != [] && offset < |bufs[0]|)
  }

  lemma {:induction false} JoinConcat(a: seq<Text>, b: seq<Text>)
    ensures Join(a + b) == Join(a) + Join(b)
  {
    if a == [] {
      assert a + b == b;
    } else {
      assert (a + b)[1..] == a[1..] + b;
      JoinConcat(a[1..], b);
    }
  }

  lemma PendingConcat(a: seq<Text>, b: seq<Text>, offset: nat)
    requires a != []
    ensures Pending(a + b, offset) == Pending(a, offset) + Join(b)
  {
    assert (a + b)[1..] == a[1..] + b;
    JoinConcat(a[1..], b);
  }

  lemma AppendPending(bufs: seq<Text>, buf: Text, offset: nat)
    ensures Pending(bufs + [buf], offset) == Pending(bufs, offset) + if bufs == [] then Rest(buf, offset) else buf
  {
    assert Join([buf]) == buf by { assert [buf][1..] == []; }
    if bufs != [] {
      PendingConcat(bufs, [buf], offset);
    } else {
      assert bufs + [buf] == [buf];
    }
  }

  lemma PendingWhole(bufs: seq<Text>)
    ensures Pending(bufs, 0) == Join(bufs)
  {
  }

  lemma PendingNone(offset: nat)
    ensures Pending([], offset) == []
  {
  }

  /** Skipping the whole first buffer. */
  lemma SkipFirst(bufs: seq<Text>, offset: nat, n: nat)
    requires bufs != [] && offset <= |bufs[0]| && |bufs[0]| - offset <= n < |Pending(bufs, offset)|
    ensures bufs[1..] != []
    ensures var m := n - (|bufs[0]| - offset);
            m < |Pending(bufs[1..], 0)| && Pending(bufs, offset)[n..] == Pending(bufs[1..], 0)[m..]
  {
    PendingWhole(bufs[1..]);
  }

  /** Skipping part of the first buffer. */
  lemma SkipPart(bufs: seq<Text>, offset: nat, n: nat)
    requires bufs != [] && offset + n <= |bufs[0]|
    ensures Pending(bufs, offset)[n..] == Pending(bufs, offset + n)
  {
    assert Rest(bufs[0], offset)[n..] == Rest(bufs[0], offset + n);
  }

  // ----- the socket -----

  datatype Status = Fine | Again | Broken

  /** What a descriptor does with one call: it takes up to `n` bytes, takes none for now, or breaks. */
  datatype Answer = Takes(n: nat) | Refuses | Breaks

  function FirstOf(answers: seq<Answer>): Answer {
    if answers == [] then Refuses else answers[0]
  }

  function Others(answers: seq<Answer>): seq<Answer> {
    if answers == [] then [] else answers[1..]
  }

  /** What a `write` of `length` bytes returns: at least one byte is taken, or none and -1. */
  function Returns(answer: Answer, length: nat): int
    requires length > 0
  {
    match answer
    case Takes(n) => if n == 0 then 1 else if n <= length then n else length
    case _ => -1
  }

  function StatusOf(answer: Answer): Status {
    match answer
    case Takes(_) => Fine
    case Refuses => Again
    case Breaks => Broken
  }

  /** A descriptor in non-blocking mode.  Its answers, one for each call, are any list; after the last
      it takes no more. */
  class Socket {
    ghost var accepted: Text
    var status: Status
    var answers: seq<Answer>

    constructor (answers: seq<Answer>)
      ensures accepted == [] && status == Fine && this.answers == answers
    {
      accepted, status, this.answers := [], Fine, answers;
    }

    /** `cio::write` of at least one byte */
    method Write(data: Text) returns (n: int)
      requires data != []
      modifies this
      ensures n == Returns(FirstOf(old(answers)), |data|) && (n == -1 || 0 < n <= |data|)
      ensures status == StatusOf(FirstOf(old(answers))) && answers == Others(old(answers))
      ensures accepted == old(accepted) + if n == -1 then [] else data[..n]
    {
      n := Returns(FirstOf(answers), |data|);
      status, answers := StatusOf(FirstOf(answers)), Others(answers);
      if n != -1 {
        accepted := accepted + data[..n];
      }
    }

    /** `cio::writev` */
    method WriteVector(ghost data: Text, length: nat) returns (n: int)
      requires length == |data|
      modifies this
      ensures -1 <= n <= length
      ensures n == -1 ==> status != Fine
      ensures n == 0 && 0 < length ==> status == Again
      ensures 0 < n ==> status == Fine
      ensures accepted == old(accepted) + if n == -1 then [] else data[..n]
    {
      var answer := FirstOf(answers);
      status, answers := StatusOf(answer), Others(answers);
      if !answer.Takes? {
        return -1;
      }
      n := if answer.n <= length then answer.n else length;
      if n == 0 && 0 < length {
        status := Again;
      }
      accepted := accepted + data[..n];
    }
  }

  // ----- gathered writes -----

  /** `cio::iovec`: `len` bytes of a buffer, from `base` on. */
  datatype Iovec = Iovec(mem: Text, base: nat, len: nat)

  predicate InBounds(v: Iovec) {
    v.base + v.len <= |v.mem|
  }

  function Span(v: Iovec): Text
    requires InBounds(v)
  {
    v.mem[v.base..v.base + v.len]
  }

  predicate AllInBounds(vec: seq<Iovec>) {
    forall i :: 0 <= i < |vec| ==> InBounds(vec[i])
  }

  /** What `writev` reads through the vector. */
  function Gathered(vec: seq<Iovec>): Text
    requires AllInBounds(vec)
  {
    if vec == [] then [] else Span(vec[0]) + Gathered(vec[1..])
  }

  predicate Whole(vec: seq<Iovec>, bufs: seq<Text>) {
    |vec| == |bufs| && forall i :: 0 <= i < |vec| ==> vec[i] == Iovec(bufs[i], 0, |bufs[i]|)
  }

  /** The vector describes the buffers, the first from `offset` on. */
  predicate Describes(vec: seq<Iovec>, bufs: seq<Text>, offset: nat) {
    && vec != [] && bufs != [] && offset <= |bufs[0]|
    && vec[0] == Iovec(bufs[0], offset, |bufs[0]| - offset)
    && Whole(vec[1..], bufs[1..])
  }

  lemma {:induction false} GatherWhole(vec: seq<Iovec>, bufs: seq<Text>)
    requires Whole(vec, bufs)
    ensures AllInBounds(vec) && Gathered(vec) == Join(bufs)
    decreases |vec|
  {
    if vec != [] {
      GatherWhole(vec[1..], bufs[1..]);
    }
  }

  lemma GatherDescribed(vec: seq<Iovec>, bufs: seq<Text>, offset: nat)
    requires Describes(vec, bufs, offset)
    ensures AllInBounds(vec) && Gathered(vec) == Pending(bufs, offset)
  {
    GatherWhole(vec[1..], bufs[1..]);
  }

  /** The bytes of a buffer between two offsets. */
  function Between(buf: Text, first: nat, offset: nat): Text {
    if first <= offset <= |buf| then buf[first..offset] else []
  }

  lemma BetweenRest(sent: Text, buf: Text, first: nat, offset: nat)
    requires first <= offset && (first <= |buf| ==> offset <= |buf|)
    ensures sent + Between(buf, first, offset) + Rest(buf, offset) == sent + Rest(buf, first)
  {
    if first <= |buf| {
      assert buf[first..] == buf[first..offset] + buf[offset..];
    }
  }

  lemma BetweenStep(sent: Text, buf: Text, first: nat, offset: nat, n: nat)
    requires first <= offset && offset + n <= |buf|
    ensures sent + Between(buf, first, offset) + buf[offset..][..n] == sent + Between(buf, first, offset + n)
  {
    assert buf[first..offset + n] == buf[first..offset] + buf[offset..][..n];
  }

  /** How far `write_single` gets with a buffer of `length` bytes. */
  datatype Reach = Reach(offset: nat, status: Status, answers: seq<Answer>)

  function ReachOf(length: nat, offset: nat, answers: seq<Answer>): Reach
    decreases length - offset
  {
    if offset >= length then Reach(offset, Fine, answers)
    else
      match FirstOf(answers)
      case Takes(_) => ReachOf(length, offset + Returns(FirstOf(answers), length - offset), Others(answers))
      case answer => Reach(offset, StatusOf(answer), Others(answers))
  }

  /** `write_single` */
  method WriteSingle(socket: Socket, buf: Text, first: nat) returns (done: bool, offset: nat)
    modifies socket
    ensures first <= offset && (first <= |buf| ==> offset <= |buf|) && old(socket.accepted) <= socket.accepted
    ensures socket.accepted + Rest(buf, offset) == old(socket.accepted) + Rest(buf, first)
    ensures done <==> offset >= |buf|
    ensures !done ==> socket.status != Fine
    ensures var r := ReachOf(|buf|, first, old(socket.answers));
            offset == r.offset && socket.answers == r.answers && (!done ==> socket.status == r.status)
  {
    hide Rest, Between;
    offset := first;
    BetweenNone(buf, first);
    while offset < |buf|
      invariant first <= offset && (first <= |buf| ==> offset <= |buf|)
      invariant socket.accepted == old(socket.accepted) + Between(buf, first, offset)
      invariant ReachOf(|buf|, offset, socket.answers) == ReachOf(|buf|, first, old(socket.answers))
    {
      var n := socket.Write(buf[offset..]);
      if n == -1 {
        BetweenRest(old(socket.accepted), buf, first, offset);
        return false, offset;
      }
      BetweenStep(old(socket.accepted), buf, first, offset, n);
      offset := offset + n;
    }
    BetweenRest(old(socket.accepted), buf, first, offset);
    return true, offset;
  }

  lemma BetweenNone(buf: Text, first: nat)
    ensures Between(buf, first, first) == []
  {
  }

  lemma DescribesNext(vec: seq<Iovec>, bufs: seq<Text>, offset: nat, n: nat)
    requires Describes(vec, bufs, offset) && vec[0].len <= n < |Pending(bufs, offset)|
    ensures |vec| > 1 && |bufs| > 1 && Describes(vec[1..], bufs[1..], 0)
    ensures n - vec[0].len < |Pending(bufs[1..], 0)|
    ensures Pending(bufs, offset)[n..] == Pending(bufs[1..], 0)[n - vec[0].len..]
  {
    SkipFirst(bufs, offset, n);
  }

  lemma DescribesPart(vec: seq<Iovec>, bufs: seq<Text>, offset: nat, n: nat)
    requires Describes(vec, bufs, offset) && n < vec[0].len
    ensures Describes(vec[0 := Iovec(vec[0].mem, vec[0].base + n, vec[0].len - n)], bufs, offset + n)
    ensures offset + n < |bufs[0]|
    ensures n <= |Pending(bufs, offset)| && Pending(bufs, offset + n) == Pending(bufs, offset)[n..]
  {
    SkipPart(bufs, offset, n);
  }

  /** The inner loop of `write_vec`: `n` bytes went out, which ends inside one of the buffers. */
  method Advance(vec: array<Iovec>, ghost bufs: seq<Text>, count: nat, from: nat, n: nat, first: nat)
    returns (written: nat, offset: nat)
    requires count == |bufs| && from < count <= vec.Length
    requires Describes(vec[from..count], bufs[from..], first) && n < |Pending(bufs[from..], first)|
    modifies vec
    ensures from <= written < count
    ensures Describes(vec[written..count], bufs[written..], offset) && offset < |bufs[written]|
    ensures Pending(bufs[written..], offset) == Pending(bufs[from..], first)[n..]
  {
    hide Describes, Pending;
    var left: nat := n;
    written, offset := from, first;
    while vec[written].len <= left
      modifies {}
      invariant from <= written < count
      invariant Describes(vec[written..count], bufs[written..], offset)
      invariant left < |Pending(bufs[written..], offset)|
      invariant Pending(bufs[written..], offset)[left..] == Pending(bufs[from..], first)[n..]
      decreases count - written
    {
      DescribesNext(vec[written..count], bufs[written..], offset, left);
      assert bufs[written..][1..] == bufs[written + 1..];
      assert vec[written..count][1..] == vec[written + 1..count];
      left := left - vec[written].len;
      written := written + 1;
      offset := 0;
    }
    ghost var v := vec[written..count];
    DescribesPart(v, bufs[written..], offset, left);
    vec[written] := Iovec(vec[written].mem, vec[written].base + left, vec[written].len - left);
    assert vec[written..count] == v[0 := Iovec(v[0].mem, v[0].base + left, v[0].len - left)];
    offset := offset + left;
  }

  lemma DescribesFrom(vec: seq<Iovec>, bufs: seq<Text>, offset: nat)
    requires Whole(vec, bufs) && vec != [] && offset <= |bufs[0]|
    ensures Describes(vec[0 := Iovec(bufs[0], offset, |bufs[0]| - offset)], bufs, offset)
  {
    assert vec[0 := Iovec(bufs[0], offset, |bufs[0]| - offset)][1..] == vec[1..];
  }

  lemma Taken(sent: Text, data: Text, n: nat)
    requires n <= |data|
    ensures sent + data[..n] + data[n..] == sent + data
    ensures n == |data| ==> sent + data[..n] == sent + data
  {
    assert data == data[..n] + data[n..];
  }

  /** The loop of `write_vec` over `writev`, for more than one buffer */
  method WriteGathered(socket: Socket, vec: array<Iovec>, ghost bufs: seq<Text>, count: nat, total: nat, first: nat)
    returns (written: nat, offset: nat)
    requires count == |bufs| && 0 < count <= vec.Length
    requires Describes(vec[..count], bufs, first) && total == |Pending(bufs, first)|
    modifies socket, vec
    ensures written <= count && old(socket.accepted) <= socket.accepted
    ensures written == count ==> socket.accepted == old(socket.accepted) + Pending(bufs, first)
    ensures written < count ==>
              && socket.status != Fine
              && socket.accepted + Pending(bufs[written..], offset) == old(socket.accepted) + Pending(bufs, first)
              && offset <= |bufs[written]| && (first == 0 || first < |bufs[0]| ==> Tidy(bufs[written..], offset))
  {
    hide Describes, Pending, Gathered;
    var left := total;
    written, offset := 0, first;
    assert vec[0..count] == vec[..count] && bufs[0..] == bufs;
    FirstOffset(vec[..count], bufs, first);
    while true
      invariant written < count && old(socket.accepted) <= socket.accepted && left == |Pending(bufs[written..], offset)|
      invariant Describes(vec[written..count], bufs[written..], offset)
      invariant socket.accepted + Pending(bufs[written..], offset) == old(socket.accepted) + Pending(bufs, first)
      invariant offset <= |bufs[written]| && (first == 0 || first < |bufs[0]| ==> Tidy(bufs[written..], offset))
      decreases left
    {
      ghost var data := Pending(bufs[written..], offset);
      GatherDescribed(vec[written..count], bufs[written..], offset);
      ghost var sent := socket.accepted;
      var n := socket.WriteVector(Gathered(vec[written..count]), left);
      if n == left {
        Taken(sent, data, n);
        return count, offset;
      }
      if n == 0 || n == -1 {
        assert data[..0] == [];
        return written, offset;
      }
      Taken(sent, data, n);
      left := left - n;
      written, offset := Advance(vec, bufs, count, written, n, offset);
    }
  }

  lemma FirstOffset(vec: seq<Iovec>, bufs: seq<Text>, offset: nat)
    requires Describes(vec, bufs, offset)
    ensures offset <= |bufs[0]|
  {
  }

  /** `write_vec` */
  method WriteVec(socket: Socket, vec: array<Iovec>, bufs: seq<Text>, count: nat, total: int, first: nat)
    returns (written: nat, offset: nat)
    requires count == |bufs| && 0 < count <= vec.Length && Whole(vec[..count], bufs)
    requires count == 1 || (first <= |bufs[0]| && total == |Pending(bufs, first)|)
    modifies socket, vec
    ensures written <= count && old(socket.accepted) <= socket.accepted
    ensures written == count ==> socket.accepted == old(socket.accepted) + Pending(bufs, first)
    ensures written < count ==>
              && socket.status != Fine
              && socket.accepted + Pending(bufs[written..], offset) == old(socket.accepted) + Pending(bufs, first)
              && offset <= |bufs[written]| && (first == 0 || first < |bufs[0]| ==> Tidy(bufs[written..], offset))
    ensures count == 1 ==>
              var r := ReachOf(|bufs[0]|, first, old(socket.answers));
              && written == (if r.offset >= |bufs[0]| then 1 else 0) && offset == r.offset
              && (written == 0 ==> socket.status == r.status) && socket.answers == r.answers
  {
    hide Describes, Gathered, ReachOf;
    if count == 1 {
      var done;
      assert vec[0] == vec[..count][0];
      done, offset := WriteSingle(socket, vec[0].mem, first);
      assert Pending(bufs, first) == Rest(bufs[0], first);
      if done {
        assert Rest(bufs[0], offset) == [];
        return 1, offset;
      }
      assert bufs[0..] == bufs && Pending(bufs, offset) == Rest(bufs[0], offset);
      return 0, offset;
    }
    DescribesFrom(vec[..count], bufs, first);
    assert vec[..count][0] == vec[0];
    vec[0] := Iovec(vec[0].mem, vec[0].base + first, vec[0].len - first);
    assert vec[..count] == old(vec[..count])[0 := Iovec(bufs[0], first, |bufs[0]| - first)];
    written, offset := WriteGathered(socket, vec, bufs, count, total, first);
  }

  /** `next_group_to_write`: the buffers of one `writev`, and the number of bytes they still hold.  The
      size is unsigned: when the offset is past the first buffer it is huge, here below zero. */
  method NextGroup(bufs: seq<Text>, first: nat, vec: array<Iovec>) returns (count: nat, size: int)
    requires bufs != [] && vec.Length == IOV_MAX
    modifies vec
    ensures 0 < count <= |bufs| && count <= IOV_MAX && Whole(vec[..count], bufs[..count])
    ensures first <= |bufs[0]| ==> size == |Pending(bufs[..count], first)|
    ensures count == |bufs| || count == IOV_MAX || !(0 <= size + |bufs[count]| <= WRITEV_MAX_SIZE)
    ensures count > 1 <==> |bufs| > 1 && 0 <= |bufs[0]| - first + |bufs[1]| <= WRITEV_MAX_SIZE
  {
    vec[0] := Iovec(bufs[0], 0, |bufs[0]|);
    size := |bufs[0]| - first;
    var i := 1;
    assert first <= |bufs[0]| ==> size == |Pending(bufs[..1], first)|;
    while i < |bufs| && i < IOV_MAX && 0 <= size + |bufs[i]| <= WRITEV_MAX_SIZE
      invariant 0 < i <= |bufs| && i <= IOV_MAX && Whole(vec[..i], bufs[..i])
      invariant first <= |bufs[0]| ==> size == |Pending(bufs[..i], first)|
      invariant if i == 1 then size == |bufs[0]| - first else 0 <= |bufs[0]| - first + |bufs[1]| <= WRITEV_MAX_SIZE
    {
      vec[i] := Iovec(bufs[i], 0, |bufs[i]|);
      assert vec[..i + 1] == vec[..i] + [vec[i]] && bufs[..i + 1] == bufs[..i] + [bufs[i]];
      PendingConcat(bufs[..i], [bufs[i]], first);
      assert Join([bufs[i]]) == bufs[i] by { assert [bufs[i]][1..] == []; }
      size := size + vec[i].len;
      i := i + 1;
    }
    return i, size;
  }

  /** A whole group of buffers went out. */
  lemma GroupDone(bufs: seq<Text>, count: nat, offset: nat, sent: Text, accepted: Text)
    requires 0 < count <= |bufs| && accepted == sent + Pending(bufs[..count], offset)
    ensures accepted + Pending(bufs[count..], 0) == sent + Pending(bufs, offset)
  {
    hide Pending, Join;
    assert bufs == bufs[..count] + bufs[count..];
    PendingConcat(bufs[..count], bufs[count..], offset);
    PendingWhole(bufs[count..]);
    assert sent + Pending(bufs[..count], offset) + Join(bufs[count..]) == sent + (Pending(bufs[..count], offset) + Join(bufs[count..]));
  }

  /** A group stopped inside its buffer `written`. */
  lemma GroupStopped(bufs: seq<Text>, count: nat, offset: nat, sent: Text, accepted: Text, written: nat, at: nat)
    requires written < count <= |bufs|
    requires accepted + Pending(bufs[..count][written..], at) == sent + Pending(bufs[..count], offset)
    ensures accepted + Pending(bufs[written..], at) == sent + Pending(bufs, offset)
    ensures accepted <= sent + Pending(bufs, offset)
    ensures Tidy(bufs[..count][written..], at) ==> Tidy(bufs[written..], at)
  {
    hide Pending, Join;
    var rest := bufs[count..];
    assert bufs == bufs[..count] + rest;
    assert bufs[written..] == bufs[..count][written..] + rest;
    PendingConcat(bufs[..count], rest, offset);
    PendingConcat(bufs[..count][written..], rest, at);
    assert accepted + (Pending(bufs[..count][written..], at) + Join(rest)) == accepted + Pending(bufs[..count][written..], at) + Join(rest);
  }

  /** The offset is past the first buffer, and a second one is gathered with it: the length of the
      first vector entry underflows. */
  predicate Overruns(bufs: seq<Text>, offset: nat) {
    |bufs| > 1 && offset > |bufs[0]| && 0 <= |bufs[0]| - offset + |bufs[1]| <= WRITEV_MAX_SIZE
  }

  /** The offset is not past the first buffer, and 0 when there is none. */
  predicate Within(bufs: seq<Text>, offset: nat) {
    if bufs == [] then offset == 0 else offset <= |bufs[0]|
  }

  /** How `writev` ends; `Overran` is the call it makes with a vector that leaves its buffer. */
  datatype Outcome = Drained | Blocked | Failed | Overran

  class BufferSet {
    var bufs: seq<Text>
    var offset: nat

    ghost function Left(): Text
      reads this
    {
      Pending(bufs, offset)
    }

    constructor ()
      ensures bufs == [] && offset == 0
    {
      bufs, offset := [], 0;
    }

    method Append(buf: Text)
      modifies `bufs
      ensures bufs == old(bufs) + [buf]
      ensures Left() == old(Left()) + if old(bufs) == [] then Rest(buf, offset) else buf
    {
      AppendPending(bufs, buf, offset);
      bufs := bufs + [buf];
    }

    /** `clear` forgets the buffers and leaves the offset. */
    method Clear()
      modifies `bufs
      ensures bufs == []
    {
      bufs := [];
    }

    /** `BufferSet::writev`: unless the connection breaks, what was accepted and what is left are
        together what was left before; `false` only when the descriptor took no more. */
    method Writev(socket: Socket) returns (r: Outcome)
      modifies this, socket
      ensures r == Overran <==> Overruns(old(bufs), old(offset))
      ensures old(bufs) == [] ==> r == Drained
      ensures old(socket.accepted) <= socket.accepted
      ensures r == Drained ==>
                && bufs == [] && socket.accepted == old(socket.accepted) + old(Left())
                && offset == if old(bufs) == [] then old(offset) else 0
      ensures r == Blocked ==>
                && bufs != [] && socket.status == Again && offset <= |bufs[0]|
                && socket.accepted + Left() == old(socket.accepted) + old(Left())
                && (old(Tidy(bufs, offset)) ==> Tidy(bufs, offset))
      ensures r == Failed ==>
                && socket.status == Broken
                && socket.accepted <= old(socket.accepted) + old(Left())
      ensures old(|bufs|) == 1 ==> Reaches(old(bufs[0]), old(offset), old(socket.answers), r)
      ensures old(|bufs|) == 1 && r == Blocked ==> bufs == old(bufs)
    {
      hide Pending, Whole, ReachOf;
      PendingNone(offset);
      var vec := new Iovec[IOV_MAX](_ => Iovec([], 0, 0));
      while bufs != []
        invariant socket.accepted + Left() == old(socket.accepted) + old(Left())
        invariant old(socket.accepted) <= socket.accepted
        invariant old(Tidy(bufs, offset)) ==> Tidy(bufs, offset)
        invariant if bufs == old(bufs) then offset == old(offset) && socket.answers == old(socket.answers)
                  else |bufs| < |old(bufs)| && offset == 0 && !Overruns(old(bufs), old(offset))
        invariant old(|bufs|) == 1 && bufs == [] ==> ReachOf(|old(bufs)[0]|, old(offset), old(socket.answers)).offset >= |old(bufs)[0]|
        decreases |bufs|
      {
        var count, size := NextGroup(bufs, offset, vec);
        if count > 1 && offset > |bufs[0]| {
          return Overran;
        }
        assert |bufs| == 1 ==> bufs[..count] == bufs == bufs[0..];
        ghost var sent := socket.accepted;
        var written, at := WriteVec(socket, vec, bufs[..count], count, size, offset);
        if written < count {
          GroupStopped(bufs, count, offset, sent, socket.accepted, written, at);
          offset := at;
          if socket.status == Broken {
            return Failed;
          }
          bufs := bufs[written..];
          return Blocked;
        }
        GroupDone(bufs, count, offset, sent, socket.accepted);
        bufs := bufs[written..];
        offset := 0;
      }
      PendingNone(offset);
      return Drained;
    }

    /** What one call does with a single buffer, answer by answer */
    ghost predicate Reaches(buf: Text, first: nat, answers: seq<Answer>, r: Outcome)
      reads this
    {
      var reach := ReachOf(|buf|, first, answers);
      && (r == Drained <==> reach.offset >= |buf|)
      && (r == Blocked ==> offset == reach.offset)
      && (r == Failed <==> reach.offset < |buf| && reach.status == Broken)
    }
  }

  // ----- whole runs -----

  datatype Operation = Put(buf: Text) | Flush

  function Appended(ops: seq<Operation>): Text {
    if ops == [] then [] else (if ops[0].Put? then ops[0].buf else []) + Appended(ops[1..])
  }

  lemma {:induction false} AppendedConcat(a: seq<Operation>, b: seq<Operation>)
    ensures Appended(a + b) == Appended(a) + Appended(b)
  {
    if a == [] {
      assert a + b == b;
    } else {
      assert (a + b)[1..] == a[1..] + b;
      AppendedConcat(a[1..], b);
    }
  }

  lemma AppendedSnoc(ops: seq<Operation>, i: nat)
    requires i < |ops|
    ensures Appended(ops[..i + 1]) == Appended(ops[..i]) + if ops[i].Put? then ops[i].buf else []
  {
    assert ops[..i + 1] == ops[..i] + [ops[i]];
    assert [ops[i]][1..] == [];
    AppendedConcat(ops[..i], [ops[i]]);
  }

  /** The first buffer appended in the first `n` operations */
  function FirstPut(ops: seq<Operation>, n: nat): Option<Text>
    requires n <= |ops|
  {
    if n == 0 then None
    else if FirstPut(ops, n - 1).Some? then FirstPut(ops, n - 1)
    else if ops[n - 1].Put? then Some(ops[n - 1].buf)
    else None
  }

  /** The buffers there are before the first `writev` that has any; `Flushed` when it has been made. */
  datatype Phase = Filling(bufs: seq<Text>) | Flushed(bufs: seq<Text>)

  function PhaseOf(ops: seq<Operation>, n: nat): Phase
    requires n <= |ops|
  {
    if n == 0 then Filling([])
    else
      match (PhaseOf(ops, n - 1), ops[n - 1])
      case (Filling(bufs), Put(buf)) => Filling(bufs + [buf])
      case (Filling(bufs), Flush) => if bufs == [] then Filling([]) else Flushed(bufs)
      case (phase, _) => phase
  }

  /** The bytes an offset left over from before takes off the first buffer, and those that remain */
  function Missing(k: nat, ops: seq<Operation>, n: nat): Text
    requires n <= |ops|
  {
    match FirstPut(ops, n)
    case None => []
    case Some(buf) => if k <= |buf| then buf[..k] else buf
  }

  function Remaining(k: nat, ops: seq<Operation>, n: nat): Text
    requires n <= |ops|
  {
    if n == 0 then []
    else
      Remaining(k, ops, n - 1) +
      match ops[n - 1]
      case Flush => []
      case Put(buf) => if FirstPut(ops, n - 1).None? then Rest(buf, k) else buf
  }

  lemma {:induction false} NothingPut(ops: seq<Operation>, n: nat)
    requires n <= |ops| && FirstPut(ops, n).None?
    ensures Appended(ops[..n]) == [] && forall k :: Remaining(k, ops, n) == []
  {
    if n > 0 {
      NothingPut(ops, n - 1);
      AppendedSnoc(ops, n - 1);
    }
  }

  lemma CutAt(buf: Text, k: nat)
    ensures (if k <= |buf| then buf[..k] else buf) + Rest(buf, k) == buf
  {
    if k <= |buf| {
      assert buf[..k] + buf[k..] == buf;
    }
  }

  lemma LaterPut(k: nat, ops: seq<Operation>, n: nat)
    requires 0 < n <= |ops| && FirstPut(ops, n - 1).Some?
    ensures var x := if ops[n - 1].Put? then ops[n - 1].buf else [];
            Missing(k, ops, n) + Remaining(k, ops, n) == Missing(k, ops, n - 1) + Remaining(k, ops, n - 1) + x
  {
    hide Rest;
    var x := if ops[n - 1].Put? then ops[n - 1].buf else [];
    assert Missing(k, ops, n) == Missing(k, ops, n - 1);
    assert Missing(k, ops, n) + Remaining(k, ops, n - 1) + x == Missing(k, ops, n) + (Remaining(k, ops, n - 1) + x);
  }

  lemma {:induction false} MissingAndRemaining(k: nat, ops: seq<Operation>, n: nat)
    requires n <= |ops|
    ensures Appended(ops[..n]) == Missing(k, ops, n) + Remaining(k, ops, n)
  {
    hide Appended, Rest;
    if n == 0 {
      NothingPut(ops, 0);
    } else {
      AppendedSnoc(ops, n - 1);
      if FirstPut(ops, n - 1).None? {
        NothingPut(ops, n - 1);
        if ops[n - 1].Put? {
          CutAt(ops[n - 1].buf, k);
          assert [] + ops[n - 1].buf == ops[n - 1].buf && [] + Rest(ops[n - 1].buf, k) == Rest(ops[n - 1].buf, k);
        }
      } else {
        MissingAndRemaining(k, ops, n - 1);
        LaterPut(k, ops, n);
      }
    }
  }

  /** With an offset `k` left over from before, all bytes go out whole in these operations: there is no
      offset, or the first buffer is empty and the first `writev` stays within the buffers. */
  predicate WholeAfter(k: nat, ops: seq<Operation>) {
    || k == 0
    || ((FirstPut(ops, |ops|).Some? ==> FirstPut(ops, |ops|).value == []) && !OverrunsIn(k, ops))
  }

  predicate OverrunsIn(k: nat, ops: seq<Operation>) {
    PhaseOf(ops, |ops|).Flushed? && Overruns(PhaseOf(ops, |ops|).bufs, k)
  }

  datatype End = Ran | BrokeOff | OverranAt

  /** A buffer set in the middle of a run */
  ghost predicate Midway(k: nat, ops: seq<Operation>, n: nat, bufs: seq<Text>, offset: nat, sent: Text, accepted: Text)
    requires n <= |ops|
  {
    && accepted + Pending(bufs, offset) == sent + Remaining(k, ops, n)
    && (k == 0 ==> Tidy(bufs, offset))
    && match PhaseOf(ops, n)
       case Filling(filled) => bufs == filled && offset == k
       case Flushed(filled) => !Overruns(filled, k) && Within(bufs, offset) && FirstPut(ops, n).Some?
  }

  lemma StartMidway(k: nat, ops: seq<Operation>, accepted: Text)
    ensures Midway(k, ops, 0, [], k, accepted, accepted)
  {
    assert accepted + [] == accepted;
  }

  lemma PutMidway(k: nat, ops: seq<Operation>, n: nat, bufs: seq<Text>, offset: nat, sent: Text, accepted: Text)
    requires n < |ops| && ops[n].Put? && Midway(k, ops, n, bufs, offset, sent, accepted)
    ensures Midway(k, ops, n + 1, bufs + [ops[n].buf], offset, sent, accepted)
  {
    hide Pending, Rest;
    var buf := ops[n].buf;
    FillingPuts(ops, n);
    RestZero(buf);
    AppendPending(bufs, buf, offset);
    var more := if bufs == [] then Rest(buf, offset) else buf;
    assert Remaining(k, ops, n + 1) == Remaining(k, ops, n) + more;
    assert accepted + (Pending(bufs, offset) + more) == accepted + Pending(bufs, offset) + more;
    assert sent + (Remaining(k, ops, n) + more) == sent + Remaining(k, ops, n) + more;
  }

  lemma RestZero(buf: Text)
    ensures Rest(buf, 0) == buf
  {
  }

  /** While no `writev` has had any, the buffers are those appended so far. */
  lemma {:induction false} FillingPuts(ops: seq<Operation>, n: nat)
    requires n <= |ops|
    ensures PhaseOf(ops, n).Filling? ==> (PhaseOf(ops, n).bufs == [] <==> FirstPut(ops, n).None?)
    ensures PhaseOf(ops, n).Flushed? ==> FirstPut(ops, n).Some?
  {
    if n > 0 {
      FillingPuts(ops, n - 1);
    }
  }

  lemma FlushMidway(k: nat, ops: seq<Operation>, n: nat, bufs: seq<Text>, offset: nat, sent: Text, accepted: Text,
                    bufs': seq<Text>, offset': nat, accepted': Text)
    requires n < |ops| && ops[n] == Flush && Midway(k, ops, n, bufs, offset, sent, accepted) && !Overruns(bufs, offset)
    requires if bufs == [] then bufs' == [] && offset' == offset else Within(bufs', offset')
    requires accepted' + Pending(bufs', offset') == accepted + Pending(bufs, offset)
    requires Tidy(bufs, offset) ==> Tidy(bufs', offset')
    ensures Midway(k, ops, n + 1, bufs', offset', sent, accepted')
  {
    hide Pending;
    FillingPuts(ops, n);
    assert Remaining(k, ops, n) + [] == Remaining(k, ops, n);
  }

  /** Once the first `writev` with any buffers has been made, it stays made. */
  lemma {:induction false} PhaseStays(ops: seq<Operation>, n: nat, m: nat)
    requires n <= m <= |ops| && PhaseOf(ops, n).Flushed?
    ensures PhaseOf(ops, m) == PhaseOf(ops, n)
    decreases m
  {
    if n < m {
      PhaseStays(ops, n, m - 1);
    }
  }

  lemma OverranMeans(k: nat, ops: seq<Operation>, n: nat, bufs: seq<Text>, offset: nat, sent: Text, accepted: Text)
    requires n < |ops| && ops[n] == Flush && Midway(k, ops, n, bufs, offset, sent, accepted) && Overruns(bufs, offset)
    ensures OverrunsIn(k, ops)
  {
    assert PhaseOf(ops, n + 1) == Flushed(bufs) && offset == k;
    PhaseStays(ops, n + 1, |ops|);
  }

  lemma NoOverrunYet(k: nat, ops: seq<Operation>, n: nat, bufs: seq<Text>, offset: nat, sent: Text, accepted: Text)
    requires n <= |ops| && Midway(k, ops, n, bufs, offset, sent, accepted) && (n == |ops| || PhaseOf(ops, n).Flushed?)
    ensures !OverrunsIn(k, ops)
  {
    if PhaseOf(ops, n).Flushed? {
      PhaseStays(ops, n, |ops|);
    }
  }

  lemma DrainedMidway(bufs: seq<Text>, offset: nat, offset': nat)
    requires offset' == if bufs == [] then offset else 0
    ensures if bufs == [] then offset' == offset else Within([], offset')
    ensures Pending([], offset') == [] && (Tidy(bufs, offset) ==> Tidy([], offset'))
  {
  }

  lemma BlockedMidway(bufs: seq<Text>, offset: nat)
    requires bufs != [] && offset <= |bufs[0]|
    ensures Within(bufs, offset)
  {
  }

  lemma BrokenMeans(k: nat, ops: seq<Operation>, n: nat, bufs: seq<Text>, offset: nat, sent: Text, accepted: Text)
    requires n < |ops| && ops[n] == Flush && bufs != []
    requires Midway(k, ops, n, bufs, offset, sent, accepted) && !Overruns(bufs, offset)
    ensures !OverrunsIn(k, ops) && accepted + Pending(bufs, offset) == sent + Remaining(k, ops, n + 1)
  {
    hide Pending, Overruns;
    assert PhaseOf(ops, n + 1).Flushed?;
    PhaseStays(ops, n + 1, |ops|);
    assert Remaining(k, ops, n) + [] == Remaining(k, ops, n);
  }

  lemma RunMeans(k: nat, ops: seq<Operation>, bufs: seq<Text>, offset: nat, sent: Text, accepted: Text)
    requires Midway(k, ops, |ops|, bufs, offset, sent, accepted)
    ensures accepted + Pending(bufs, offset) == sent + Remaining(k, ops, |ops|) && (k == 0 ==> Tidy(bufs, offset))
  {
  }

  /** All that was appended remains, exactly when the leftover offset finds nothing to take. */
  lemma WholeIff(k: nat, ops: seq<Operation>, sent: Text)
    ensures OverrunsIn(k, ops) ==> !WholeAfter(k, ops)
    ensures !OverrunsIn(k, ops) ==> (sent + Remaining(k, ops, |ops|) == sent + Appended(ops) <==> WholeAfter(k, ops))
  {
    hide Remaining, Appended;
    MissingAndRemaining(k, ops, |ops|);
    assert ops[..|ops|] == ops;
    var missing, remaining := Missing(k, ops, |ops|), Remaining(k, ops, |ops|);
    assert |sent + (missing + remaining)| == |sent + remaining| + |missing|;
    assert missing == [] ==> missing + remaining == remaining;
  }

  /** Every sequence of appends and `writev` calls, on a connection that takes any bytes at any time and
      with any offset left over from before.  Nothing is repeated or reordered; what is lost is exactly
      what the offset takes off the first buffer; and the vector is overrun exactly when the first
      `writev` that has any buffers finds the offset past the first and gathers a second. */
  method Drive(ops: seq<Operation>, out: BufferSet, socket: Socket) returns (end: End, ran: nat)
    requires out.bufs == []
    modifies out, socket
    ensures ran <= |ops|
    ensures end == OverranAt <==> OverrunsIn(old(out.offset), ops)
    ensures end == Ran ==>
              socket.accepted + Pending(out.bufs, out.offset) == old(socket.accepted) + Remaining(old(out.offset), ops, |ops|)
    ensures end == Ran && old(out.offset) == 0 ==> Tidy(out.bufs, out.offset)
    ensures end == BrokeOff ==>
              old(socket.accepted) <= socket.accepted <= old(socket.accepted) + Remaining(old(out.offset), ops, ran)
    ensures end != BrokeOff ==>
              (end == Ran && socket.accepted + Pending(out.bufs, out.offset) == old(socket.accepted) + Appended(ops)
               <==> WholeAfter(old(out.offset), ops))
  {
    hide Pending, Appended, Tidy, Remaining, Midway, Overruns, OverrunsIn, WholeAfter, Within, ReachOf;
    var k := out.offset;
    ghost var sent := socket.accepted;
    StartMidway(k, ops, sent);
    for i := 0 to |ops|
      invariant Midway(k, ops, i, out.bufs, out.offset, sent, socket.accepted) && sent <= socket.accepted
    {
      match ops[i] {
        case Put(buf) =>
          PutMidway(k, ops, i, out.bufs, out.offset, sent, socket.accepted);
          out.Append(buf);
        case Flush =>
          ghost var bufs, offset, accepted := out.bufs, out.offset, socket.accepted;
          var r := out.Writev(socket);
          if r == Overran {
            OverranMeans(k, ops, i, bufs, offset, sent, accepted);
            WholeIff(k, ops, sent);
            return OverranAt, i;
          }
          if r == Failed {
            BrokenMeans(k, ops, i, bufs, offset, sent, accepted);
            return BrokeOff, i + 1;
          }
          if r == Drained {
            DrainedMidway(bufs, offset, out.offset);
          } else {
            BlockedMidway(out.bufs, out.offset);
          }
          FlushMidway(k, ops, i, bufs, offset, sent, accepted, out.bufs, out.offset, socket.accepted);
      }
    }
    NoOverrunYet(k, ops, |ops|, out.bufs, out.offset, sent, socket.accepted);
    WholeIff(k, ops, sent);
    RunMeans(k, ops, out.bufs, out.offset, sent, socket.accepted);
    return Ran, |ops|;
  }

  /** A server object that is closed and used again, with any requests and any flushes, on a new
      connection: the bytes go out whole if and only if no buffer was partly written when it was closed,
      unless nothing but an empty buffer meets the leftover offset. */
  method Reuse(ops: seq<Operation>, out: BufferSet, socket: Socket) returns (end: End, ran: nat)
    modifies out, socket
    ensures end != BrokeOff ==>
              (end == Ran && socket.accepted + Pending(out.bufs, out.offset) == old(socket.accepted) + Appended(ops)
               <==> WholeAfter(old(out.offset), ops))
    ensures end != BrokeOff && FirstPut(ops, |ops|).Some? && FirstPut(ops, |ops|).value != [] ==>
              (end == Ran && socket.accepted + Pending(out.bufs, out.offset) == old(socket.accepted) + Appended(ops)
               <==> old(out.offset) == 0)
    ensures end == OverranAt <==> OverrunsIn(old(out.offset), ops)
  {
    hide Pending, Appended, OverrunsIn;
    out.Clear();
    end, ran := Drive(ops, out, socket);
  }

  /** A connection that is reset in the middle of a request, and the next one of the same server object:
      the first two bytes of its request are lost. */
  method LosesBytes() returns (next: Socket)
    ensures fresh(next) && next.accepted == [7] && Appended([Put([5, 6, 7]), Flush]) == [5, 6, 7]
  {
    var out := new BufferSet();
    var before := new Socket([Takes(2), Refuses]);
    out.Append([1, 2, 3]);
    assert ReachOf(3, 0, [Takes(2), Refuses]) == ReachOf(3, 2, [Refuses]) == Reach(2, Again, []);
    var r := out.Writev(before);
    assert r == Blocked && out.offset == 2;
    out.Clear();
    next := new Socket([Takes(3)]);
    out.Append([5, 6, 7]);
    assert ReachOf(3, 2, [Takes(3)]) == ReachOf(3, 3, []);
    r := out.Writev(next);
    assert r == Drained;
    assert [Put([5, 6, 7]), Flush][1..] == [Flush] && [Flush][1..] == [];
  }

  /** The same with two requests gathered, of which the first is shorter than the offset. */
  method OverrunsVector() returns (r: Outcome)
    ensures r == Overran
  {
    var out := new BufferSet();
    var before := new Socket([Takes(2), Refuses]);
    out.Append([1, 2, 3]);
    assert ReachOf(3, 0, [Takes(2), Refuses]) == ReachOf(3, 2, [Refuses]) == Reach(2, Again, []);
    r := out.Writev(before);
    assert r == Blocked && out.offset == 2;
    out.Clear();
    out.Append([5]);
    out.Append([6, 7]);
    var next := new Socket([Takes(3)]);
    r := out.Writev(next);
  }
}
