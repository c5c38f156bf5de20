/** Streams of messages: the splitter finds their boundaries, however the bytes arrive. */
module Streams {
  import opened Bytes
  import opened Resp
  import opened SplitterModel
  import opened SplitterProofs

  /** How many messages are whole within the first `n` bytes. */
  function Whole(ms: seq<Message>, n: nat): (j: nat)
    ensures j <= |ms|
    decreases |ms|
  {
    if ms == [] || n < |Encode(ms[0])| then 0 else 1 + Whole(ms[1..], n - |Encode(ms[0])|)
  }

  function Offset(ms: seq<Message>, j: nat): nat
    requires j <= |ms|
    decreases j
  {
    if j == 0 then 0 else |Encode(ms[0])| + Offset(ms[1..], j - 1)
  }

  /** The positions where the first `j` messages end. */
  function Boundaries(ms: seq<Message>, j: nat, pos: nat): seq<nat>
    requires j <= |ms|
    decreases j
  {
    if j == 0 then [] else [pos + |Encode(ms[0])|] + Boundaries(ms[1..], j - 1, pos + |Encode(ms[0])|)
  }

  /** Everything the first `j` messages report. */
  function NoticesOfStream(ms: seq<Message>, j: nat, pos: nat): seq<Notice>
    requires j <= |ms|
    decreases j
  {
    if j == 0 then []
    else
      var next := pos + |Encode(ms[0])|;
      NoticesOf(ms[0], pos) + [Split(next)] + NoticesOfStream(ms[1..], j - 1, next)
  }

  lemma {:induction false} WholeFits(ms: seq<Message>, n: nat)
    ensures Offset(ms, Whole(ms, n)) <= n
    decreases |ms|
  {
    if ms != [] && n >= |Encode(ms[0])| {
      WholeFits(ms[1..], n - |Encode(ms[0])|);
    }
  }

  /** The bytes from `pos` on are a prefix of the stream `ms`. */
  predicate Carries(buf: Text, pos: nat, ms: seq<Message>) {
    pos <= |buf| && buf[pos..] <= EncodeItems(ms)
  }

  /** What `split_by` has found: `j` messages from `pos` on, and possibly the start of another. */
  predicate Found(buf: Text, pos: nat, ms: seq<Message>, k: Sink, r: Parsed)
    requires pos <= |buf|
  {
    var j := Whole(ms, |buf| - pos);
    var told := k.notices + NoticesOfStream(ms, j, pos);
    && (r.Next? || r.Interrupted?)
    && (Finished(r) <==> pos + Offset(ms, j) == |buf|)
    && r.sink.points == k.points + Boundaries(ms, j, pos)
    && told <= r.sink.notices && NoSplit(r.sink.notices[|told|..])
  }

  lemma NoneLeft(buf: Text, ms: seq<Message>, k: Sink)
    requires k.stack == []
    ensures Found(buf, |buf|, ms, k, Next(|buf|, k))
  {
    assert k.notices + [] == k.notices && k.notices[|k.notices|..] == [];
  }

  lemma CutShort(buf: Text, pos: nat, ms: seq<Message>, k: Sink)
    requires k.stack == [] && pos < |buf| && ms != [] && |buf| - pos < |Encode(ms[0])|
    requires Unfinished(buf, k, Parse(buf, pos, k))
    ensures SplitFrom(buf, pos, k) == Parse(buf, pos, k) && Found(buf, pos, ms, k, Parse(buf, pos, k))
  {
    hide Parse, Encode;
    var r := Parse(buf, pos, k);
    assert k.notices + [] == k.notices;
    if r.Next? {
      assert SplitFrom(buf, |buf|, r.sink) == r;
    }
  }

  lemma OneMore(buf: Text, pos: nat, ms: seq<Message>, k: Sink, r: Parsed)
    requires ms != [] && k.stack == [] && pos + |Encode(ms[0])| <= |buf|
    requires var next := pos + |Encode(ms[0])|; Found(buf, next, ms[1..], Completed(k, NoticesOf(ms[0], pos), next), r)
    ensures Found(buf, pos, ms, k, r)
  {
    hide Encode, NoticesOf, NoSplit;
    var next, m := pos + |Encode(ms[0])|, ms[0];
    var j := Whole(ms[1..], |buf| - next);
    assert Whole(ms, |buf| - pos) == 1 + j;
    var rest := NoticesOfStream(ms[1..], j, next);
    assert k.notices + NoticesOf(m, pos) + [Split(next)] + rest == k.notices + (NoticesOf(m, pos) + [Split(next)] + rest);
    assert k.points + [next] + Boundaries(ms[1..], j, next) == k.points + ([next] + Boundaries(ms[1..], j, next));
  }

  lemma StreamStep(buf: Text, pos: nat, ms: seq<Message>)
    requires Carries(buf, pos, ms) && pos < |buf|
    ensures ms != []
    ensures if |buf| - pos < |Encode(ms[0])| then Short(buf, pos, Encode(ms[0]))
            else At(buf, pos, Encode(ms[0])) && Carries(buf, pos + |Encode(ms[0])|, ms[1..])
  {
    var text := Encode(ms[0]);
    assert EncodeItems(ms) == text + EncodeItems(ms[1..]);
    if |buf| - pos < |text| {
      assert buf[pos..] == text[..|buf| - pos];
    } else {
      assert buf[pos..][..|text|] == text;
      assert buf[pos..pos + |text|] == buf[pos..][..|text|];
      assert buf[pos + |text|..] == buf[pos..][|text|..];
      assert buf[pos..][|text|..] <= EncodeItems(ms)[|text|..];
    }
  }

  lemma SplitStep(buf: Text, pos: nat, k: Sink, next: nat, k1: Sink)
    requires pos < |buf| && Parse(buf, pos, k) == Next(next, k1)
    ensures pos < next <= |buf| && SplitFrom(buf, pos, k) == SplitFrom(buf, next, k1)
  {
    hide Parse;
  }

  lemma CompletedTop(k: Sink, ns: seq<Notice>, next: nat)
    requires k.stack == []
    ensures Completed(k, ns, next).stack == []
  {
  }

  /** On any prefix of a well-formed stream the splitter finds exactly the boundaries of the whole
      messages, and looks finished if and only if the bytes end on one. */
  lemma {:induction false} SplitStream(buf: Text, pos: nat, ms: seq<Message>, k: Sink)
    requires pos <= |buf| && Carries(buf, pos, ms) && AllWellFormed(ms) && k.stack == []
    ensures Found(buf, pos, ms, k, SplitFrom(buf, pos, k))
    decreases |ms|
  {
    hide Parse, Encode, NoticesOf, Found, Carries, WellFormed, Completed, At, Short, Unfinished;
    if pos == |buf| {
      NoneLeft(buf, ms, k);
      return;
    }
    StreamStep(buf, pos, ms);
    if |buf| - pos < |Encode(ms[0])| {
      ParseShort(buf, pos, ms[0], k);
      CutShort(buf, pos, ms, k);
    } else {
      var next := pos + |Encode(ms[0])|;
      var k1 := Completed(k, NoticesOf(ms[0], pos), next);
      ParseWhole(buf, pos, ms[0], k);
      SplitStep(buf, pos, k, next, k1);
      CompletedTop(k, NoticesOf(ms[0], pos), next);
      SplitStream(buf, next, ms[1..], k1);
      OneMore(buf, pos, ms, k, SplitFrom(buf, next, k1));
    }
  }

  // ----- bytes that arrive in pieces -----

  /** What is left after the whole messages. */
  function Tail(buf: Text, ms: seq<Message>): Text {
    var o := Offset(ms, Whole(ms, |buf|));
    if o <= |buf| then buf[o..] else []
  }

  function Outputs<O>(out: Message -> O, ms: seq<Message>, j: nat): seq<O>
    requires j <= |ms|
  {
    if j == 0 then [] else [out(ms[0])] + Outputs(out, ms[1..], j - 1)
  }

  predicate Each(ok: Message -> bool, ms: seq<Message>) {
    forall i :: 0 <= i < |ms| ==> WellFormed(ms[i]) && ok(ms[i])
  }

  /** A splitter of buffers: on any prefix of a stream it gives one output for each whole message and
      keeps the rest. */
  ghost predicate Cuts<O(!new)>(cut: Text -> (seq<O>, Text), out: Message -> O, ok: Message -> bool) {
    forall buf: Text, ms: seq<Message> :: Each(ok, ms) && Carries(buf, 0, ms) ==>
      cut(buf) == (Outputs(out, ms, Whole(ms, |buf|)), Tail(buf, ms))
  }

  /** Each chunk is appended to what was kept, and the whole is split again from its start. */
  function FeedAll<O>(cut: Text -> (seq<O>, Text), kept: Text, chunks: seq<Text>): (seq<O>, Text)
    decreases |chunks|
  {
    if chunks == [] then ([], kept)
    else
      var (o, rest) := cut(kept + chunks[0]);
      var (os, last) := FeedAll(cut, rest, chunks[1..]);
      (o + os, last)
  }

  function Concat(chunks: seq<Text>): Text {
    if chunks == [] then [] else chunks[0] + Concat(chunks[1..])
  }

  /** Counting whole messages past some that are already whole. */
  lemma {:induction false} WholeFrom(ms: seq<Message>, n: nat, more: nat)
    ensures Offset(ms, Whole(ms, n)) <= n
    ensures var j := Whole(ms, n);
            Whole(ms, n + more) == j + Whole(ms[j..], n + more - Offset(ms, j))
    ensures var j := Whole(ms, n); Whole(ms[j..], n - Offset(ms, j)) == 0
    decreases |ms|
  {
    hide Encode;
    if ms != [] && n >= |Encode(ms[0])| {
      var e := |Encode(ms[0])|;
      WholeFrom(ms[1..], n - e, more);
      var j := Whole(ms, n);
      assert ms[1..][j - 1..] == ms[j..];
    } else {
      assert ms[0..] == ms;
    }
  }

  lemma {:induction false} OffsetFrom(ms: seq<Message>, j: nat, i: nat)
    requires j + i <= |ms|
    ensures Offset(ms, j + i) == Offset(ms, j) + Offset(ms[j..], i)
    decreases j
  {
    hide Encode;
    if j == 0 {
      assert ms[0..] == ms;
    } else {
      OffsetFrom(ms[1..], j - 1, i);
      assert ms[1..][j - 1..] == ms[j..];
    }
  }

  lemma {:induction false} OutputsFrom<O>(out: Message -> O, ms: seq<Message>, j: nat, i: nat)
    requires j + i <= |ms|
    ensures Outputs(out, ms, j + i) == Outputs(out, ms, j) + Outputs(out, ms[j..], i)
    decreases j
  {
    if j == 0 {
      assert ms[0..] == ms;
    } else {
      OutputsFrom(out, ms[1..], j - 1, i);
      assert ms[1..][j - 1..] == ms[j..];
    }
  }

  lemma {:induction false} EncodedFrom(ms: seq<Message>, j: nat)
    requires j <= |ms|
    ensures Offset(ms, j) <= |EncodeItems(ms)| && EncodeItems(ms)[Offset(ms, j)..] == EncodeItems(ms[j..])
    decreases j
  {
    hide Encode;
    if j == 0 {
      assert ms[0..] == ms;
    } else {
      EncodedFrom(ms[1..], j - 1);
      assert ms[1..][j - 1..] == ms[j..];
      assert EncodeItems(ms)[|Encode(ms[0])|..] == EncodeItems(ms[1..]);
    }
  }

  /** The kept bytes, and whatever follows them, are the rest of the stream. */
  lemma KeptCarries(ms: seq<Message>, buf: Text, more: Text)
    requires Carries(buf + more, 0, ms)
    ensures Carries(buf, 0, ms)
    ensures var j := Whole(ms, |buf|);
            Carries(Tail(buf, ms) + more, 0, ms[j..]) && Tail(buf + more, ms) == Tail(Tail(buf, ms) + more, ms[j..])
    ensures Whole(ms, |buf + more|) == Whole(ms, |buf|) + Whole(ms[Whole(ms, |buf|)..], |Tail(buf, ms) + more|)
    ensures Whole(ms[Whole(ms, |buf|)..], |Tail(buf, ms)|) == 0
  {
    hide Encode, Offset, Whole;
    var n, all := |buf|, buf + more;
    var j := Whole(ms, n);
    var o := Offset(ms, j);
    WholeFrom(ms, n, |more|);
    EncodedFrom(ms, j);
    var i := Whole(ms[j..], |all| - o);
    OffsetFrom(ms, j, i);
    WholeFrom(ms[j..], |all| - o, 0);
    assert all[0..] == all && buf[0..] == buf;
    assert all[o..] == buf[o..] + more;
    assert (buf[o..] + more)[0..] == buf[o..] + more;
    assert all[o..] <= EncodeItems(ms)[o..];
    assert all[o..][Offset(ms[j..], i)..] == all[o + Offset(ms[j..], i)..];
  }

  /** However a prefix of a stream is cut into chunks, the outputs are those of its whole messages,
      in order, and exactly the incomplete tail is kept. */
  lemma {:induction false} AnyChunks<O(!new)>(cut: Text -> (seq<O>, Text), out: Message -> O, ok: Message -> bool,
                                              ms: seq<Message>, kept: Text, chunks: seq<Text>)
    requires Cuts(cut, out, ok) && Each(ok, ms)
    requires Carries(kept + Concat(chunks), 0, ms) && Whole(ms, |kept|) == 0
    ensures var all := kept + Concat(chunks);
            FeedAll(cut, kept, chunks) == (Outputs(out, ms, Whole(ms, |all|)), Tail(all, ms))
    decreases |chunks|
  {
    hide Encode, Offset, Whole, Carries, Tail;
    if chunks == [] {
      assert kept + [] == kept;
      TailNone(kept, ms);
    } else {
      var buf, more := kept + chunks[0], Concat(chunks[1..]);
      assert buf + more == kept + Concat(chunks);
      KeptCarries(ms, buf, more);
      var j := Whole(ms, |buf|);
      var rest := Tail(buf, ms);
      assert cut(buf) == (Outputs(out, ms, j), rest);
      AnyChunks(cut, out, ok, ms[j..], rest, chunks[1..]);
      OutputsFrom(out, ms, j, Whole(ms[j..], |rest + more|));
    }
  }

  lemma TailNone(buf: Text, ms: seq<Message>)
    requires Whole(ms, |buf|) == 0
    ensures Tail(buf, ms) == buf
  {
    assert Offset(ms, 0) == 0;
  }

  lemma StreamStepWhole(buf: Text, pos: nat, ms: seq<Message>)
    requires pos <= |buf| && Carries(buf, pos, ms) && Whole(ms, |buf| - pos) > 0
    ensures ms != [] && At(buf, pos, Encode(ms[0])) && pos + |Encode(ms[0])| <= |buf|
    ensures Carries(buf, pos + |Encode(ms[0])|, ms[1..])
    ensures Whole(ms, |buf| - pos) == 1 + Whole(ms[1..], |buf| - pos - |Encode(ms[0])|)
  {
    hide Carries;
    StreamStep(buf, pos, ms);
  }

  lemma {:induction false} LastBoundary(ms: seq<Message>, j: nat, pos: nat)
    requires j <= |ms|
    ensures |Boundaries(ms, j, pos)| == j && (j > 0 ==> Boundaries(ms, j, pos)[j - 1] == pos + Offset(ms, j))
    decreases j
  {
    hide Encode;
    if j > 0 {
      LastBoundary(ms[1..], j - 1, pos + |Encode(ms[0])|);
    }
  }

  lemma OffsetNone(ms: seq<Message>)
    ensures Offset(ms, 0) == 0
  {
  }

  lemma NothingWhole(ms: seq<Message>)
    ensures Whole(ms, 0) == 0
  {
  }

  /** Finished or not, exactly the incomplete tail is kept: clearing and truncating agree. */
  lemma KeptTail(buf: Text, ms: seq<Message>)
    requires AllWellFormed(ms) && Carries(buf, 0, ms)
    ensures var r, j := SplitAll(buf), Whole(ms, |buf|);
            && (r.Next? || r.Interrupted?) && Kept(buf, r) == Tail(buf, ms)
            && (Finished(r) <==> Tail(buf, ms) == [])
            && NoticesOfStream(ms, j, 0) <= r.sink.notices && NoSplit(r.sink.notices[|NoticesOfStream(ms, j, 0)|..])
  {
    hide Carries, Whole, NoticesOfStream, NoSplit, SplitFrom, Boundaries, Offset;
    SplitStream(buf, 0, ms, Start());
    var r, j := SplitAll(buf), Whole(ms, |buf|);
    assert Start().notices + NoticesOfStream(ms, j, 0) == NoticesOfStream(ms, j, 0);
    LastBoundary(ms, j, 0);
    WholeFits(ms, |buf|);
    OffsetNone(ms);
    var o := Offset(ms, j);
    assert r.sink.points == [0] + Boundaries(ms, j, 0);
    assert r.sink.points[|r.sink.points| - 1] == o;
    assert Tail(buf, ms) == buf[o..] == buf[o..|buf|];
    assert Finished(r) <==> o == |buf|;
  }

  // ----- a bad byte -----

  /** The first `j` messages of `ms` stand in the buffer from `pos` on. */
  predicate Holds(buf: Text, pos: nat, ms: seq<Message>, j: nat)
    decreases j
  {
    j <= |ms| && (j == 0 || (At(buf, pos, Encode(ms[0])) && Holds(buf, pos + |Encode(ms[0])|, ms[1..], j - 1)))
  }

  lemma {:induction false} WholeHolds(buf: Text, pos: nat, ms: seq<Message>, j: nat)
    requires pos <= |buf| && Carries(buf, pos, ms) && j <= Whole(ms, |buf| - pos)
    ensures Holds(buf, pos, ms, j)
    decreases j
  {
    hide Carries, Encode, At;
    if j > 0 {
      StreamStepWhole(buf, pos, ms);
      WholeHolds(buf, pos + |Encode(ms[0])|, ms[1..], j - 1);
    }
  }

  lemma AtSplit(buf: Text, pos: nat, a: Text, b: Text)
    requires At(buf, pos, a + b)
    ensures At(buf, pos, a) && At(buf, pos + |a|, b)
  {
    var text := buf[pos..pos + |a + b|];
    assert buf[pos..pos + |a|] == text[..|a|] == a;
    assert buf[pos + |a|..pos + |a| + |b|] == text[|a|..] == b;
  }

  lemma {:induction false} EncodedHolds(buf: Text, pos: nat, ms: seq<Message>)
    requires At(buf, pos, EncodeItems(ms))
    ensures Holds(buf, pos, ms, |ms|)
    decreases |ms|
  {
    hide Encode, At;
    if ms != [] {
      AtSplit(buf, pos, Encode(ms[0]), EncodeItems(ms[1..]));
      EncodedHolds(buf, pos + |Encode(ms[0])|, ms[1..]);
    }
  }

  /** No message starts with this byte. */
  predicate NoType(b: Byte) {
    b != COLON && b != PLUS && b != DOLLAR && b != STAR && b != MINUS
  }

  /** Whole messages, then a byte that starts none */
  predicate Garbled(buf: Text, pos: nat, ms: seq<Message>) {
    At(buf, pos, EncodeItems(ms)) && pos + |EncodeItems(ms)| < |buf| && NoType(buf[pos + |EncodeItems(ms)|])
  }

  lemma GarbledStep(buf: Text, pos: nat, ms: seq<Message>)
    requires Garbled(buf, pos, ms) && ms != []
    ensures At(buf, pos, Encode(ms[0])) && Garbled(buf, pos + |Encode(ms[0])|, ms[1..])
  {
    hide Encode, At, NoType;
    AtSplit(buf, pos, Encode(ms[0]), EncodeItems(ms[1..]));
  }

  lemma BadByte(buf: Text, pos: nat, k: Sink, ms: seq<Message>)
    requires Garbled(buf, pos, ms) && ms == []
    ensures SplitFrom(buf, pos, k) == Bad(k)
  {
    assert Parse(buf, pos, k) == Bad(k);
  }

  /** The bad byte is found after everything before it has been reported. */
  lemma {:induction false} SplitGarbled(buf: Text, pos: nat, ms: seq<Message>, k: Sink)
    requires pos <= |buf| && Garbled(buf, pos, ms) && AllWellFormed(ms) && k.stack == []
    ensures var r := SplitFrom(buf, pos, k); r.Bad? && r.sink.notices == k.notices + NoticesOfStream(ms, |ms|, pos)
    decreases |ms|
  {
    hide Parse, Encode, NoticesOf, Garbled, WellFormed, Completed, At, SplitFrom;
    if ms == [] {
      assert k.notices + [] == k.notices;
      BadByte(buf, pos, k, ms);
    } else {
      GarbledStep(buf, pos, ms);
      var next, ns := pos + |Encode(ms[0])|, NoticesOf(ms[0], pos);
      var k1 := Completed(k, ns, next);
      ParseWhole(buf, pos, ms[0], k);
      GarbledInside(buf, pos, ms);
      SplitStep(buf, pos, k, next, k1);
      CompletedTop(k, ns, next);
      CompletedNotices(k, ns, next);
      SplitGarbled(buf, next, ms[1..], k1);
      var rest := NoticesOfStream(ms[1..], |ms| - 1, next);
      assert k.notices + ns + [Split(next)] + rest == k.notices + (ns + [Split(next)] + rest);
    }
  }

  lemma GarbledInside(buf: Text, pos: nat, ms: seq<Message>)
    requires Garbled(buf, pos, ms)
    ensures pos < |buf|
  {
  }

  lemma CompletedNotices(k: Sink, ns: seq<Notice>, next: nat)
    requires k.stack == []
    ensures Completed(k, ns, next).notices == k.notices + ns + [Split(next)]
  {
  }
}
