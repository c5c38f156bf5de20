/** Replies of a node, as a server connection splits them and sorts redirections from the rest. */
module Responses {
  import opened Bytes
  import opened Resp
  import opened SplitterModel
  import opened SplitterProofs
  import opened Streams
  import opened Splitter

  // ----- what a reply means -----

  /** "MOVED", "ASK" and "CLUSTERDOWN" */
  const MOVED: Text := [77, 79, 86, 69, 68]
  const ASK: Text := [65, 83, 75]
  const CLUSTERDOWN: Text := [67, 76, 85, 83, 84, 69, 82, 68, 79, 87, 78]

  predicate StartsIgnoringCase(s: Text, pre: Text) {
    |pre| <= |s| && forall i :: 0 <= i < |pre| ==> Upper(s[i]) == Upper(pre[i])
  }

  /** `util::stristartswith` */
  method StartsWith(s: Text, pre: Text) returns (r: bool)
    ensures r <==> StartsIgnoringCase(s, pre)
  {
    for i := 0 to |pre|
      invariant i <= |s| && forall j :: 0 <= j < i ==> Upper(s[j]) == Upper(pre[j])
    {
      if |s| == i {
        return |s| == |pre|;
      }
      if Upper(s[i]) != Upper(pre[i]) {
        return false;
      }
    }
    return true;
  }

  predicate Redirects(error: Text) {
    StartsIgnoringCase(error, MOVED) || StartsIgnoringCase(error, ASK) || StartsIgnoringCase(error, CLUSTERDOWN)
  }

  datatype Response = Retry | Normal(bytes: Text, error: bool)

  function Judge(bytes: Text, error: Text): Response {
    if Redirects(error) then Retry else Normal(bytes, error != [])
  }

  /** The text of the last error in a message, at any depth; `before` if there is none. */
  function LastError(before: Text, m: Message): Text
    decreases m, 0
  {
    match m
    case Error(text) => text
    case Array(_, items) => LastErrorOf(before, items)
    case _ => before
  }

  function LastErrorOf(before: Text, items: seq<Message>): Text
    decreases items, 1
  {
    if items == [] then before else LastErrorOf(LastError(before, items[0]), items[1..])
  }

  function Reply(m: Message): Response {
    Judge(Encode(m), LastError([], m))
  }

  // ----- the consumer -----

  /** `ServerResponseSplitter`: where the message under way began, its last error, and the responses. */
  datatype Consumer = Consumer(begin: nat, lastError: Text, responses: seq<Response>)

  function Consume(buf: Text, c: Consumer, n: Notice): Consumer {
    match n
    case Err(begin, end) => c.(lastError := Slice(buf, begin, end))
    case Split(next) => Consumer(next, [], c.responses + [Judge(Slice(buf, c.begin, next), c.lastError)])
    case _ => c
  }

  function ConsumeAll(buf: Text, c: Consumer, ns: seq<Notice>): Consumer
    decreases |ns|
  {
    if ns == [] then c else ConsumeAll(buf, Consume(buf, c, ns[0]), ns[1..])
  }

  /** `split_server_response`: the responses, and what stays in the buffer */
  function SplitServer(buf: Text): (seq<Response>, Text) {
    match SplitAll(buf)
    case Bad(_) => ([], buf)
    case Undefined => ([], buf)
    case r =>
      (ConsumeAll(buf, Consumer(0, [], []), r.sink.notices).responses,
       Kept(buf, r))
  }

  lemma {:induction false} ConsumeConcat(buf: Text, c: Consumer, a: seq<Notice>, b: seq<Notice>)
    ensures ConsumeAll(buf, c, a + b) == ConsumeAll(buf, ConsumeAll(buf, c, a), b)
    decreases |a|
  {
    if a == [] {
      assert a + b == b;
    } else {
      assert (a + b)[1..] == a[1..] + b;
      ConsumeConcat(buf, Consume(buf, c, a[0]), a[1..], b);
    }
  }

  lemma ConsumeOne(buf: Text, c: Consumer, n: Notice)
    ensures ConsumeAll(buf, c, [n]) == Consume(buf, c, n)
  {
    assert [n][1..] == [];
  }

  lemma {:induction false} NoSplitNoResponse(buf: Text, c: Consumer, ns: seq<Notice>)
    requires NoSplit(ns)
    ensures ConsumeAll(buf, c, ns).responses == c.responses
    decreases |ns|
  {
    if ns != [] {
      NoSplitNoResponse(buf, Consume(buf, c, ns[0]), ns[1..]);
    }
  }

  lemma ErrorText(buf: Text, pos: nat, text: Text)
    requires At(buf, pos, [MINUS] + (text + CRLF))
    ensures Slice(buf, pos + 1, pos + 1 + |text|) == text
  {
    AtFirst(buf, pos, [MINUS], text + CRLF);
    AtFirst(buf, pos + 1, text, CRLF);
  }

  lemma ItemsAt(buf: Text, pos: nat, m: Message)
    requires m.Array? && At(buf, pos, Encode(m))
    ensures At(buf, pos + |m.length| + 3, EncodeItems(m.items))
  {
    AtFirst(buf, pos, [STAR] + (m.length + CRLF), EncodeItems(m.items));
  }

  /** What a message reports leaves its last error behind. */
  lemma {:induction false} MessageConsumed(buf: Text, pos: nat, m: Message, c: Consumer)
    requires At(buf, pos, Encode(m))
    ensures ConsumeAll(buf, c, NoticesOf(m, pos)) == c.(lastError := LastError(c.lastError, m))
    decreases m, 0
  {
    hide At, EncodeItems, Slice, NoticesOfItems;
    match m
    case Array(length, items) =>
      ItemsAt(buf, pos, m);
      var q := pos + |length| + 3;
      ConsumeConcat(buf, c, [Arr(|items|)], NoticesOfItems(items, q));
      ConsumeOne(buf, c, Arr(|items|));
      ItemsConsumed(buf, q, items, c);
    case Error(text) =>
      ErrorText(buf, pos, text);
      ConsumeOne(buf, c, Err(pos + 1, pos + 1 + |text|));
    case Simple(text) => ConsumeOne(buf, c, Str(pos + 1, pos + 1 + |text|));
    case Bulk(length, body) => ConsumeOne(buf, c, Str(pos + |length| + 3, pos + |length| + 3 + |body|));
    case _ =>
  }

  lemma {:induction false} ItemsConsumed(buf: Text, pos: nat, items: seq<Message>, c: Consumer)
    requires At(buf, pos, EncodeItems(items))
    ensures ConsumeAll(buf, c, NoticesOfItems(items, pos)) == c.(lastError := LastErrorOf(c.lastError, items))
    decreases items, 1
  {
    hide At, Encode, NoticesOf, LastError;
    if items != [] {
      var m, rest, q := items[0], items[1..], pos + |Encode(items[0])|;
      AtFirst(buf, pos, Encode(m), EncodeItems(rest));
      MessageConsumed(buf, pos, m, c);
      ConsumeConcat(buf, c, NoticesOf(m, pos), NoticesOfItems(rest, q));
      ItemsConsumed(buf, q, rest, c.(lastError := LastError(c.lastError, m)));
    }
  }

  /** One response for each message. */
  lemma {:induction false} StreamConsumed(buf: Text, pos: nat, ms: seq<Message>, j: nat, c: Consumer)
    requires j <= |ms| && pos <= |buf| && Carries(buf, pos, ms) && j <= Whole(ms, |buf| - pos)
    requires c.begin == pos && c.lastError == []
    ensures ConsumeAll(buf, c, NoticesOfStream(ms, j, pos)).responses == c.responses + Outputs(Reply, ms, j)
    decreases j
  {
    hide At, Encode, NoticesOf, LastError, Slice, Carries, Judge;
    if j == 0 {
      assert c.responses + [] == c.responses;
    } else {
      StreamStepWhole(buf, pos, ms);
      var m, next := ms[0], pos + |Encode(ms[0])|;
      MessageConsumed(buf, pos, m, c);
      SliceAt(buf, pos, Encode(m));
      var rest := NoticesOfStream(ms[1..], j - 1, next);
      ConsumeConcat(buf, c, NoticesOf(m, pos) + [Split(next)], rest);
      ConsumeConcat(buf, c, NoticesOf(m, pos), [Split(next)]);
      var c1 := c.(lastError := LastError([], m));
      ConsumeOne(buf, c1, Split(next));
      StreamConsumed(buf, next, ms[1..], j - 1, Consume(buf, c1, Split(next)));
      assert c.responses + [Reply(m)] + Outputs(Reply, ms[1..], j - 1) == c.responses + ([Reply(m)] + Outputs(Reply, ms[1..], j - 1));
    }
  }

  lemma StreamResponses(buf: Text, ms: seq<Message>, k: Sink)
    requires Carries(buf, 0, ms)
    requires var told := NoticesOfStream(ms, Whole(ms, |buf|), 0);
             told <= k.notices && NoSplit(k.notices[|told|..])
    ensures ConsumeAll(buf, Consumer(0, [], []), k.notices).responses == Outputs(Reply, ms, Whole(ms, |buf|))
  {
    hide Carries, Whole, ConsumeAll, NoticesOfStream, NoSplit, Reply;
    var j, c := Whole(ms, |buf|), Consumer(0, [], []);
    var told := NoticesOfStream(ms, j, 0);
    assert k.notices == told + k.notices[|told|..];
    ConsumeConcat(buf, c, told, k.notices[|told|..]);
    StreamConsumed(buf, 0, ms, j, c);
    NoSplitNoResponse(buf, ConsumeAll(buf, c, told), k.notices[|told|..]);
    assert [] + Outputs(Reply, ms, j) == Outputs(Reply, ms, j);
  }

  /** On a prefix of a stream of well-formed replies: one response for each whole reply, and the
      incomplete one stays in the buffer. */
  lemma ServerSplits(buf: Text, ms: seq<Message>)
    requires AllWellFormed(ms) && Carries(buf, 0, ms)
    ensures SplitServer(buf) == (Outputs(Reply, ms, Whole(ms, |buf|)), Tail(buf, ms))
  {
    hide Carries, Whole, ConsumeAll, NoticesOfStream, NoSplit, SplitFrom, Reply, Tail, Kept;
    KeptTail(buf, ms);
    StreamResponses(buf, ms, SplitAll(buf).sink);
  }

  lemma ServerCuts()
    ensures Cuts(SplitServer, Reply, (m: Message) => true)
  {
    hide SplitServer, Carries, Outputs, Reply;
    forall buf: Text, ms: seq<Message> | Each((m: Message) => true, ms) && Carries(buf, 0, ms)
      ensures SplitServer(buf) == (Outputs(Reply, ms, Whole(ms, |buf|)), Tail(buf, ms))
    {
      ServerSplits(buf, ms);
    }
  }

  /** A server connection: however the node's replies are cut by the network, each whole one gives its
      response, in order, and exactly the incomplete one is kept. */
  lemma ServerAnyChunks(ms: seq<Message>, chunks: seq<Text>)
    requires AllWellFormed(ms) && Concat(chunks) <= EncodeItems(ms)
    ensures FeedAll(SplitServer, [], chunks) == (Outputs(Reply, ms, Whole(ms, |Concat(chunks)|)), Tail(Concat(chunks), ms))
  {
    hide SplitServer, Outputs, Reply, Tail;
    ServerCuts();
    assert [] + Concat(chunks) == Concat(chunks) == Concat(chunks)[0..];
    NothingWhole(ms);
    AnyChunks(SplitServer, Reply, (m: Message) => true, ms, [], chunks);
  }

  // ----- the consumer as it runs -----

  class ServerResponseSplitter {
    const buf: Text
    var begin: nat
    var lastError: Text
    var responses: seq<Response>

    ghost function View(): Consumer
      reads this
    {
      Consumer(begin, lastError, responses)
    }

    constructor (buf: Text)
      ensures this.buf == buf && View() == Consumer(0, [], [])
    {
      this.buf, begin, lastError, responses := buf, 0, [], [];
    }

    /** `on_error` */
    method OnError(from: nat, to: nat)
      modifies `lastError
      ensures View() == Consume(buf, old(View()), Err(from, to))
    {
      lastError := Slice(buf, from, to);
    }

    /** `on_split_point` */
    method OnSplitPoint(next: nat)
      modifies `begin, `lastError, `responses
      ensures View() == Consume(buf, old(View()), Split(next))
    {
      hide StartsIgnoringCase;
      EmptyNotRedirect();
      var redirected := false;
      if lastError != [] {
        var moved := StartsWith(lastError, MOVED);
        var ask := StartsWith(lastError, ASK);
        var down := StartsWith(lastError, CLUSTERDOWN);
        redirected := moved || ask || down;
      }
      if redirected {
        responses := responses + [Retry];
      } else {
        responses := responses + [Normal(Slice(buf, begin, next), lastError != [])];
      }
      begin, lastError := next, [];
    }
  }

  lemma EmptyNotRedirect()
    ensures !Redirects([])
  {
  }

  /** `split_server_response`; nothing is returned when the bytes are no message. */
  method SplitServerResponse(buf: Text) returns (thrown: bool, responses: seq<Response>, rest: Text)
    ensures thrown <==> SplitAll(buf).Bad? || SplitAll(buf).Undefined?
    ensures (responses, rest) == SplitServer(buf)
  {
    hide Consume, SplitFrom, Slice;
    var s, o := SplitBy(buf);
    if !o.Moved? && !o.Interruption? {
      return true, [], buf;
    }
    var c := new ServerResponseSplitter(buf);
    ghost var all := ConsumeAll(buf, c.View(), s.notices);
    assert s.notices[0..] == s.notices;
    for i := 0 to |s.notices|
      modifies c
      invariant c.buf == buf
      invariant ConsumeAll(buf, c.View(), s.notices[i..]) == all
    {
      assert s.notices[i..][1..] == s.notices[i + 1..];
      match s.notices[i] {
        case Err(from, to) => c.OnError(from, to);
        case Split(next) => c.OnSplitPoint(next);
        case _ => Unheard(buf, c.View(), s.notices[i]);
      }
    }
    var kept := s.Rest(buf, o);
    return false, c.responses, kept;
  }

  lemma Unheard(buf: Text, c: Consumer, n: Notice)
    requires n.Str? || n.Arr?
    ensures Consume(buf, c, n) == c
  {
  }

  // ----- which replies are redirections -----

  /** The text begins with the word, written in capitals, with each letter in either case. */
  predicate Begins(text: Text, word: Text) {
    |word| <= |text| && forall i :: 0 <= i < |word| ==> text[i] == word[i] || (65 <= word[i] <= 90 && text[i] == word[i] + 32)
  }

  lemma BeginsIs(text: Text, word: Text)
    requires forall i :: 0 <= i < |word| ==> 65 <= word[i] <= 90
    ensures Begins(text, word) <==> StartsIgnoringCase(text, word)
  {
  }

  /** An error reply is retried if and only if its text begins with MOVED, ASK or CLUSTERDOWN, whatever
      the case of the letters and whatever follows; any other is handed on, bytes and all, as an error. */
  lemma ErrorReply(text: Text)
    ensures var m, r := Error(text), Reply(Error(text));
            && (Begins(text, [77, 79, 86, 69, 68]) ==> r == Retry)
            && (Begins(text, [65, 83, 75]) ==> r == Retry)
            && (Begins(text, [67, 76, 85, 83, 84, 69, 82, 68, 79, 87, 78]) ==> r == Retry)
            && (Begins(text, [77, 79, 86, 69, 68]) || Begins(text, [65, 83, 75])
                || Begins(text, [67, 76, 85, 83, 84, 69, 82, 68, 79, 87, 78]) || r == Normal(Encode(m), text != []))
  {
    hide Begins, StartsIgnoringCase, Encode;
    BeginsIs(text, MOVED);
    BeginsIs(text, ASK);
    BeginsIs(text, CLUSTERDOWN);
  }

  predicate Plain(m: Message) {
    !m.Error? && !m.Array?
  }

  /** A reply that is no error and no array is handed on as it is. */
  lemma PlainReply(m: Message)
    requires Plain(m)
    ensures Reply(m) == Normal(Encode(m), false)
  {
    EmptyNotRedirect();
  }

  /** The bytes of an error reply, as they come from the node */
  lemma ErrorBytes(text: Text)
    requires CR !in text
    ensures SplitServer([45] + (text + [13, 10])) == ([Reply(Error(text))], [])
  {
    hide Reply, SplitServer;
    var m, bytes := Error(text), [45] + (text + [13, 10]);
    assert Encode(m) == bytes;
    assert EncodeItems([m]) == bytes by { assert [m][1..] == []; }
    assert bytes[0..] == bytes;
    ServerSplits(bytes, [m]);
    OneWhole(m);
    assert [m][1..] == [];
    assert Outputs(Reply, [m], 1) == [Reply(m)] + Outputs(Reply, [m][1..], 0) == [Reply(m)];
    assert Tail(bytes, [m]) == bytes[|bytes|..] == [];
  }

  lemma OneWhole(m: Message)
    ensures Whole([m], |Encode(m)|) == 1 && Offset([m], 1) == |Encode(m)|
  {
    hide Encode;
    assert [m][1..] == [];
  }

  lemma {:induction false} PlainItems(before: Text, items: seq<Message>)
    requires forall i :: 0 <= i < |items| ==> Plain(items[i])
    ensures LastErrorOf(before, items) == before
    decreases |items|
  {
    if items != [] {
      assert Plain(items[0]);
      PlainItems(before, items[1..]);
    }
  }

  lemma {:induction false} LastItem(before: Text, items: seq<Message>, k: nat)
    requires k < |items| && items[k].Error? && forall i :: k < i < |items| ==> Plain(items[i])
    ensures LastErrorOf(before, items) == items[k].text
    decreases |items|
  {
    if k == 0 {
      assert forall i :: 0 <= i < |items[1..]| ==> items[1..][i] == items[i + 1];
      PlainItems(items[0].text, items[1..]);
    } else {
      LastItem(LastError(before, items[0]), items[1..], k - 1);
    }
  }

  /** An array is judged by the last error in it: it is retried if that error alone would be, and else
      handed on whole. */
  lemma ArrayReply(length: Text, items: seq<Message>, k: nat)
    requires k < |items| && items[k].Error? && forall i :: k < i < |items| ==> Plain(items[i])
    ensures var m := Array(length, items);
            Reply(m) == if Reply(items[k]) == Retry then Retry else Normal(Encode(m), items[k].text != [])
  {
    hide Redirects, Encode;
    LastItem([], items, k);
  }

  /** An array without an error in it is handed on whole. */
  lemma CleanArrayReply(length: Text, items: seq<Message>)
    requires forall i :: 0 <= i < |items| ==> Plain(items[i])
    ensures Reply(Array(length, items)) == Normal(Encode(Array(length, items)), false)
  {
    hide Encode;
    PlainItems([], items);
    EmptyNotRedirect();
  }
}
