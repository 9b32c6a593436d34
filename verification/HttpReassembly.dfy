/**
 What HttpSession and HttpServer deliver: exactly when a split body is put back
 together, that messages do not leak into each other, and that connections do
 not either.
 */
module HttpReassembly {
  import opened HttpParser

  // ---------------------------------------------------------------------
  // Feeding
  // ---------------------------------------------------------------------

  lemma {:induction false} FeedAppend(s: Session, a: seq<Callback>, b: seq<Callback>)
    ensures Feed(s, a + b) == Feed(Feed(s, a), b)
  {
    if b == [] {
      assert a + b == a;
    } else {
      FeedAppend(s, a, b[..|b|-1]);
      assert (a + b)[..|a + b|-1] == a + b[..|b|-1];
    }
  }

  lemma FeedOne(s: Session, cb: Callback)
    ensures Feed(s, [cb]) == Dispatch(s, cb)
  {
    assert [cb][..0] == [];
    assert Feed(s, []) == s;
  }

  // ---------------------------------------------------------------------
  // Body reassembly
  // ---------------------------------------------------------------------

  function Concat(parts: seq<string>): string {
    if parts == [] then "" else Concat(parts[..|parts|-1]) + parts[|parts|-1]
  }

  lemma {:induction false} ConcatAppend(a: seq<string>, b: seq<string>)
    ensures Concat(a + b) == Concat(a) + Concat(b)
  {
    if b == [] {
      assert a + b == a;
    } else {
      ConcatAppend(a, b[..|b|-1]);
      assert (a + b)[..|a + b|-1] == a + b[..|b|-1];
    }
  }

  /** The callbacks for a Content-Length body that arrives as `chunks`. */
  function Bodies(chunks: seq<string>): seq<Callback> {
    seq(|chunks|, i requires 0 <= i < |chunks| => Body(chunks[i], |Concat(chunks[i+1..])|))
  }

  ghost predicate NonEmpty(chunks: seq<string>) {
    forall k :: 0 <= k < |chunks| ==> |chunks[k]| > 0
  }

  /** Chunk `k` is as long as everything before it. */
  predicate Echo(chunks: seq<string>, k: nat)
    requires k < |chunks|
  {
    |chunks[k]| == |Concat(chunks[..k])|
  }

  ghost predicate NoEcho(chunks: seq<string>) {
    forall k: nat :: 1 <= k < |chunks| ==> !Echo(chunks, k)
  }

  /** The session after the first `k` chunks. */
  function After(s: Session, chunks: seq<string>, k: nat): Session
    requires k <= |chunks|
  {
    Feed(s, Bodies(chunks)[..k])
  }

  lemma AfterNext(s: Session, chunks: seq<string>, k: nat)
    requires k < |chunks|
    ensures After(s, chunks, k + 1) == OnBody(After(s, chunks, k), chunks[k], |Concat(chunks[k+1..])|)
  {
    var cbs := Bodies(chunks);
    assert cbs[..k+1][..k] == cbs[..k];
  }

  lemma ConcatTo(chunks: seq<string>, k: nat)
    requires k < |chunks|
    ensures Concat(chunks[..k+1]) == Concat(chunks[..k]) + chunks[k]
  {
    assert chunks[..k+1][..k] == chunks[..k];
  }

  lemma MoreToCome(chunks: seq<string>, k: nat)
    requires NonEmpty(chunks) && k < |chunks|
    ensures |Concat(chunks[k+1..])| == 0 <==> k + 1 == |chunks|
  {
    var rest := chunks[k+1..];
    if rest != [] {
      assert rest[|rest|-1] == chunks[|chunks|-1];
    }
  }

  /** As long as no echo occurred, chunks are cached and nothing is parsed. */
  lemma {:induction false} Caching(s: Session, chunks: seq<string>, k: nat)
    requires s.content == "" && s.request.parsed == [] && NonEmpty(chunks)
    requires k < |chunks| && forall j: nat :: 1 <= j < k ==> !Echo(chunks, j)
    ensures After(s, chunks, k).content == Concat(chunks[..k])
    ensures After(s, chunks, k).request.parsed == []
  {
    if k == 0 {
      assert chunks[..0] == [] && Bodies(chunks)[..0] == [];
    } else {
      Caching(s, chunks, k - 1);
      AfterNext(s, chunks, k - 1);
      MoreToCome(chunks, k - 1);
      ConcatTo(chunks, k - 1);
      if k == 1 {
        assert chunks[..0] == [];
      } else {
        assert !Echo(chunks, k - 1);
      }
    }
  }

  lemma OnBodyGrows(s: Session, at: string, remaining: nat)
    ensures s.request.parsed <= OnBody(s, at, remaining).request.parsed
  {
  }

  /** What was parsed stays parsed. */
  lemma {:induction false} ParsedGrows(s: Session, chunks: seq<string>, k: nat, m: nat)
    requires k <= m <= |chunks|
    ensures After(s, chunks, k).request.parsed <= After(s, chunks, m).request.parsed
  {
    if k < m {
      hide After, OnBody, Concat, Bodies;
      ParsedGrows(s, chunks, k, m - 1);
      AfterNext(s, chunks, m - 1);
      OnBodyGrows(After(s, chunks, m - 1), chunks[m-1], |Concat(chunks[m-1+1..])|);
    }
  }

  /** from_string runs once, on the last chunk, with the whole body. */
  predicate Reassembles(s: Session, chunks: seq<string>)
    requires chunks != []
  {
    && After(s, chunks, |chunks| - 1).request.parsed == []
    && After(s, chunks, |chunks|).request.parsed == [Concat(chunks)]
  }

  lemma FirstEcho(chunks: seq<string>) returns (k: nat)
    requires !NoEcho(chunks)
    ensures 1 <= k < |chunks| && Echo(chunks, k)
    ensures forall j: nat :: 1 <= j < k ==> !Echo(chunks, j)
  {
    var some: nat :| 1 <= some < |chunks| && Echo(chunks, some);
    k := 1;
    while !Echo(chunks, k)
      invariant 1 <= k <= some
      invariant forall j: nat :: 1 <= j < k ==> !Echo(chunks, j)
      decreases some - k
    {
      k := k + 1;
    }
  }

  /** The comment in handle_on_body promises that a body received in several
      parts is cached and parsed as a whole. For every split into non-empty
      chunks that is what happens if and only if no chunk after the first has
      the same length as everything before it: such a chunk is taken for the
      whole body. */
  lemma BodyReassembledIffNoEcho(s: Session, chunks: seq<string>)
    requires s.content == "" && s.request.parsed == [] && NonEmpty(chunks) && chunks != []
    ensures Reassembles(s, chunks) <==> NoEcho(chunks)
    ensures After(s, chunks, |chunks|).request.parsed == [Concat(chunks)] <==> NoEcho(chunks)
  {
    if NoEcho(chunks) {
      WholeWithoutEcho(s, chunks);
    } else {
      var k := FirstEcho(chunks);
      BrokenByEcho(s, chunks, k);
    }
  }

  lemma WholeWithoutEcho(s: Session, chunks: seq<string>)
    requires s.content == "" && s.request.parsed == [] && NonEmpty(chunks) && chunks != []
    requires NoEcho(chunks)
    ensures Reassembles(s, chunks)
  {
    var n := |chunks|;
    Caching(s, chunks, n - 1);
    AfterNext(s, chunks, n - 1);
    MoreToCome(chunks, n - 1);
    ConcatTo(chunks, n - 1);
    assert chunks[..n] == chunks;
    if n == 1 {
      assert chunks[..0] == [];
    } else {
      assert !Echo(chunks, n - 1);
    }
  }

  lemma BrokenByEcho(s: Session, chunks: seq<string>, k: nat)
    requires s.content == "" && s.request.parsed == [] && NonEmpty(chunks) && chunks != []
    requires 1 <= k < |chunks| && Echo(chunks, k) && forall j: nat :: 1 <= j < k ==> !Echo(chunks, j)
    ensures !Reassembles(s, chunks) && After(s, chunks, |chunks|).request.parsed != [Concat(chunks)]
  {
    hide OnBody, After, Bodies, Concat, Echo, NonEmpty;
    EchoIsParsed(s, chunks, k);
    ParsedGrows(s, chunks, k + 1, |chunks|);
    var parsed := After(s, chunks, |chunks|).request.parsed;
    assert parsed[0] == chunks[k];
    EchoIsShort(chunks, k);
    assert [Concat(chunks)][0] != parsed[0];
  }

  /** The first echo is taken for the whole body. */
  lemma EchoIsParsed(s: Session, chunks: seq<string>, k: nat)
    requires s.content == "" && s.request.parsed == [] && NonEmpty(chunks)
    requires 1 <= k < |chunks| && Echo(chunks, k) && forall j: nat :: 1 <= j < k ==> !Echo(chunks, j)
    ensures After(s, chunks, k + 1).request.parsed == [chunks[k]]
  {
    Caching(s, chunks, k);
    AfterNext(s, chunks, k);
    hide After, Bodies, Concat, NonEmpty;
  }

  lemma EchoIsShort(chunks: seq<string>, k: nat)
    requires NonEmpty(chunks) && 1 <= k < |chunks| && Echo(chunks, k)
    ensures |chunks[k]| < |Concat(chunks)|
  {
    hide Concat;
    assert chunks == chunks[..k] + chunks[k..];
    ConcatAppend(chunks[..k], chunks[k..]);
    ConcatHead(chunks, k);
  }

  lemma ConcatHead(chunks: seq<string>, k: nat)
    requires k < |chunks|
    ensures |Concat(chunks[k..])| >= |chunks[k]|
  {
    assert chunks[k..] == [chunks[k]] + chunks[k+1..];
    ConcatAppend([chunks[k]], chunks[k+1..]);
    assert [chunks[k]][..0] == [] && Concat([chunks[k]]) == Concat([]) + chunks[k];
  }

  /** Two splits of one body that both avoid echoes are indistinguishable. */
  lemma ChunkingDoesNotMatter(s: Session, a: seq<string>, b: seq<string>)
    requires s.content == "" && s.request.parsed == [] && Concat(a) == Concat(b)
    requires NonEmpty(a) && NonEmpty(b) && a != [] && b != [] && NoEcho(a) && NoEcho(b)
    ensures Feed(s, Bodies(a)).request.parsed == Feed(s, Bodies(b)).request.parsed == [Concat(a)]
  {
    BodyReassembledIffNoEcho(s, a);
    BodyReassembledIffNoEcho(s, b);
    assert Bodies(a)[..|a|] == Bodies(a) && Bodies(b)[..|b|] == Bodies(b);
  }

  // ---------------------------------------------------------------------
  // One message after the other
  // ---------------------------------------------------------------------

  /** A complete message as llhttp reports it: the spans of the request line,
      in order, and the chunks of the body. */
  datatype Message = Message(head: seq<Callback>, chunks: seq<string>)

  ghost predicate WellFormed(m: Message) {
    forall cb :: cb in m.head ==> cb.Method? || cb.Url? || cb.Version?
  }

  function Callbacks(m: Message): seq<Callback> {
    ([MessageBegin] + m.head) + ([HeadersComplete] + Bodies(m.chunks)) + [MessageComplete]
  }

  /** The head fields of a request line: of each kind the last span. */
  function HeadOf(spans: seq<Callback>): map<string, string> {
    Feed(NEW_SESSION, spans).request.head
  }

  /** The arguments of from_string for a body that arrives as `chunks`. */
  function ParsedOf(chunks: seq<string>): seq<string> {
    Feed(NEW_SESSION, Bodies(chunks)).request.parsed
  }

  /** Two sessions that agree on what the callbacks in `cbs` look at. */
  lemma {:induction false} FeedAgrees(s: Session, t: Session, cbs: seq<Callback>)
    requires s.request.parsed == t.request.parsed && s.content == t.content
    requires forall cb :: cb in cbs ==> cb.Body?
    ensures Feed(s, cbs).request.parsed == Feed(t, cbs).request.parsed
    ensures Feed(s, cbs).request.head == s.request.head
    ensures Feed(s, cbs).delivered == s.delivered
  {
    if cbs != [] {
      assert cbs[|cbs|-1] in cbs;
      FeedAgrees(s, t, cbs[..|cbs|-1]);
      BodyAgrees(s, t, cbs[..|cbs|-1]);
    }
  }

  lemma {:induction false} BodyAgrees(s: Session, t: Session, cbs: seq<Callback>)
    requires s.request.parsed == t.request.parsed && s.content == t.content
    requires forall cb :: cb in cbs ==> cb.Body?
    ensures Feed(s, cbs).content == Feed(t, cbs).content
  {
    if cbs != [] {
      assert cbs[|cbs|-1] in cbs;
      BodyAgrees(s, t, cbs[..|cbs|-1]);
    }
  }

  lemma {:induction false} HeadAgrees(s: Session, cbs: seq<Callback>)
    requires s.request == NEW_REQUEST
    requires forall cb :: cb in cbs ==> cb.Method? || cb.Url? || cb.Version?
    ensures Feed(s, cbs).request == Request(HeadOf(cbs), [])
    ensures Feed(s, cbs).delivered == s.delivered
    decreases |cbs|
  {
    if cbs != [] {
      assert cbs[|cbs|-1] in cbs;
      HeadAgrees(s, cbs[..|cbs|-1]);
      HeadAgrees(NEW_SESSION, cbs[..|cbs|-1]);
    }
  }

  /** From any session, whatever an earlier or broken message left in it, a
      complete message delivers exactly its own head and body. */
  lemma MessageDelivered(s: Session, m: Message)
    requires WellFormed(m)
    ensures Feed(s, Callbacks(m)).delivered == s.delivered + [Request(HeadOf(m.head), ParsedOf(m.chunks))]
  {
    var bodies := Bodies(m.chunks);
    FeedAppend(s, ([MessageBegin] + m.head) + ([HeadersComplete] + bodies), [MessageComplete]);
    FeedAppend(s, [MessageBegin] + m.head, [HeadersComplete] + bodies);
    FeedAppend(s, [MessageBegin], m.head);
    FeedOne(s, MessageBegin);
    var s1 := s.(request := NEW_REQUEST);
    HeadAgrees(s1, m.head);
    var s2 := Feed(s1, m.head);
    FeedAppend(s2, [HeadersComplete], bodies);
    FeedOne(s2, HeadersComplete);
    var s3 := s2.(content := "");
    FeedAgrees(s3, NEW_SESSION, bodies);
    FeedOne(Feed(s3, bodies), MessageComplete);
  }

  function AllCallbacks(ms: seq<Message>): seq<Callback> {
    if ms == [] then [] else AllCallbacks(ms[..|ms|-1]) + Callbacks(ms[|ms|-1])
  }

  /** Message k depends on the callbacks of message k alone. */
  lemma {:induction false} MessagesIndependent(s: Session, ms: seq<Message>)
    requires forall m :: m in ms ==> WellFormed(m)
    ensures Feed(s, AllCallbacks(ms)).delivered
         == s.delivered + seq(|ms|, i requires 0 <= i < |ms| => Request(HeadOf(ms[i].head), ParsedOf(ms[i].chunks)))
  {
    if ms != [] {
      var init, last := ms[..|ms|-1], ms[|ms|-1];
      MessagesIndependent(s, init);
      FeedAppend(s, AllCallbacks(init), Callbacks(last));
      MessageDelivered(Feed(s, AllCallbacks(init)), last);
    }
  }

  /** The body handed on is the body that was sent, exactly without an echo. */
  lemma DeliveredBody(chunks: seq<string>)
    requires NonEmpty(chunks)
    ensures chunks == [] ==> ParsedOf(chunks) == []
    ensures chunks != [] ==> (ParsedOf(chunks) == [Concat(chunks)] <==> NoEcho(chunks))
  {
    if chunks != [] {
      BodyReassembledIffNoEcho(NEW_SESSION, chunks);
      assert Bodies(chunks)[..|chunks|] == Bodies(chunks);
    }
  }

  // ---------------------------------------------------------------------
  // Spans of the request line
  // ---------------------------------------------------------------------

  datatype Part = MethodPart | UrlPart | VersionPart

  function NameOf(part: Part): string {
    match part
    case MethodPart => "method"
    case UrlPart => "url"
    case VersionPart => "version"
  }

  predicate IsSpan(cb: Callback, part: Part) {
    match part
    case MethodPart => cb.Method?
    case UrlPart => cb.Url?
    case VersionPart => cb.Version?
  }

  /** The spans of one part of a request line, in order. */
  function SpansOf(head: seq<Callback>, part: Part): seq<string> {
    if head == [] then []
    else
      var last := head[|head|-1];
      var before := SpansOf(head[..|head|-1], part);
      if IsSpan(last, part) then before + [last.at] else before
  }

  lemma NamesApart()
    ensures forall p, q :: NameOf(p) == NameOf(q) ==> p == q
  {
    assert |"method"| == 6 && |"url"| == 3 && |"version"| == 7;
  }

  /** Of each part the last span is kept. */
  lemma {:induction false} LastSpan(head: seq<Callback>, part: Part)
    requires forall cb :: cb in head ==> cb.Method? || cb.Url? || cb.Version?
    ensures var spans := SpansOf(head, part);
      && (NameOf(part) in HeadOf(head) <==> spans != [])
      && (spans != [] ==> HeadOf(head)[NameOf(part)] == spans[|spans|-1])
  {
    if head != [] {
      assert head[|head|-1] in head;
      LastSpan(head[..|head|-1], part);
      NamesApart();
    }
  }

  /** Every span replaces the one before: a method, url or version that arrives
      in several reads is delivered whole if and only if all its spans but the
      last are empty, whatever arrives of the other two in between. */
  lemma PartIsWholeIffOneSpan(head: seq<Callback>, part: Part)
    requires forall cb :: cb in head ==> cb.Method? || cb.Url? || cb.Version?
    requires SpansOf(head, part) != []
    ensures var spans := SpansOf(head, part);
      && NameOf(part) in HeadOf(head)
      && (HeadOf(head)[NameOf(part)] == Concat(spans) <==> Concat(spans[..|spans|-1]) == "")
  {
    var spans := SpansOf(head, part);
    var n := |spans|;
    LastSpan(head, part);
    assert Concat(spans) == Concat(spans[..n-1]) + spans[n-1];
    if Concat(spans[..n-1]) == "" {
      assert "" + spans[n-1] == spans[n-1];
    }
  }

  // ---------------------------------------------------------------------
  // Connections
  // ---------------------------------------------------------------------

  datatype Arrival = Arrival(conn: ConnId, data: string)

  function ServeAll<P>(llhttp: Llhttp<P>, conns: map<ConnId, Conn<P>>, arrivals: seq<Arrival>): map<ConnId, Conn<P>> {
    if arrivals == [] then conns
    else
      var last := arrivals[|arrivals|-1];
      Serve(llhttp, ServeAll(llhttp, conns, arrivals[..|arrivals|-1]), last.conn, last.data)
  }

  function RecvAll<P>(llhttp: Llhttp<P>, c: Conn<P>, datas: seq<string>): Conn<P> {
    if datas == [] then c else Recv(llhttp, RecvAll(llhttp, c, datas[..|datas|-1]), datas[|datas|-1])
  }

  /** The data of one connection, in order of arrival. */
  function Of(arrivals: seq<Arrival>, conn: ConnId): seq<string> {
    if arrivals == [] then []
    else
      var last := arrivals[|arrivals|-1];
      var before := Of(arrivals[..|arrivals|-1], conn);
      if last.conn == conn then before + [last.data] else before
  }

  lemma RecvSnoc<P>(llhttp: Llhttp<P>, c: Conn<P>, datas: seq<string>, data: string)
    ensures RecvAll(llhttp, c, datas + [data]) == Recv(llhttp, RecvAll(llhttp, c, datas), data)
  {
    assert (datas + [data])[..|datas|] == datas;
  }

  /** For every interleaving of any number of connections, each connection's
      session is the one it would have been alone: same parser state, same
      messages delivered. */
  lemma {:induction false} SessionsDoNotInterfere<P>(llhttp: Llhttp<P>, arrivals: seq<Arrival>, conn: ConnId)
    ensures var served := ServeAll(llhttp, map[], arrivals); var own := Of(arrivals, conn);
      && (conn in served <==> own != [])
      && (conn in served ==> served[conn] == RecvAll(llhttp, NewConn(llhttp), own))
  {
    if arrivals != [] {
      var init, last := arrivals[..|arrivals|-1], arrivals[|arrivals|-1];
      SessionsDoNotInterfere(llhttp, init, conn);
      if last.conn == conn {
        RecvSnoc(llhttp, NewConn(llhttp), Of(init, conn), last.data);
      }
    }
  }

  // ---------------------------------------------------------------------
  // End to end
  // ---------------------------------------------------------------------

  /** The parser's state and all the callbacks it made, after the reads `datas`. */
  function StateAfter<P>(llhttp: Llhttp<P>, state: P, datas: seq<string>): P {
    if datas == [] then state
    else
      var done := llhttp.execute(StateAfter(llhttp, state, datas[..|datas|-1]), datas[|datas|-1]);
      if done.ok then done.state else llhttp.reset(done.state)
  }

  function AllMade<P>(llhttp: Llhttp<P>, state: P, datas: seq<string>): seq<Callback> {
    if datas == [] then []
    else
      var init := datas[..|datas|-1];
      AllMade(llhttp, state, init) + llhttp.execute(StateAfter(llhttp, state, init), datas[|datas|-1]).made
  }

  /** The reads of a connection come to their callbacks, one after the other. */
  lemma {:induction false} ReadsAreCallbacks<P>(llhttp: Llhttp<P>, c: Conn<P>, datas: seq<string>)
    ensures RecvAll(llhttp, c, datas)
         == Conn(StateAfter(llhttp, c.state, datas), Feed(c.session, AllMade(llhttp, c.state, datas)))
  {
    if datas != [] {
      var init := datas[..|datas|-1];
      ReadsAreCallbacks(llhttp, c, init);
      FeedAppend(c.session, AllMade(llhttp, c.state, init),
                 llhttp.execute(StateAfter(llhttp, c.state, init), datas[|datas|-1]).made);
    }
  }

  lemma {:induction false} NothingComplete(s: Session, cbs: seq<Callback>)
    requires forall cb :: cb in cbs ==> !cb.MessageComplete?
    ensures Feed(s, cbs).delivered == s.delivered
  {
    if cbs != [] {
      assert cbs[|cbs|-1] in cbs;
      NothingComplete(s, cbs[..|cbs|-1]);
    }
  }

  /** For every interleaving of connections and every way their data is cut into
      reads: when the callbacks of a connection are those of complete messages,
      and perhaps of one begun, exactly these messages are delivered for it, in
      order, each with its own head and body. */
  lemma MessagesReachTheirConnection<P>(llhttp: Llhttp<P>, arrivals: seq<Arrival>, conn: ConnId, ms: seq<Message>, begun: seq<Callback>)
    requires forall m :: m in ms ==> WellFormed(m)
    requires forall cb :: cb in begun ==> !cb.MessageComplete?
    requires Of(arrivals, conn) != []
    requires AllMade(llhttp, llhttp.init, Of(arrivals, conn)) == AllCallbacks(ms) + begun
    ensures conn in ServeAll(llhttp, map[], arrivals)
    ensures ServeAll(llhttp, map[], arrivals)[conn].session.delivered
         == seq(|ms|, i requires 0 <= i < |ms| => Request(HeadOf(ms[i].head), ParsedOf(ms[i].chunks)))
  {
    hide ServeAll, RecvAll, AllMade, Of, WellFormed, Feed, AllCallbacks, HeadOf, ParsedOf;
    SessionsDoNotInterfere(llhttp, arrivals, conn);
    ReadsAreCallbacks(llhttp, NewConn(llhttp), Of(arrivals, conn));
    FeedAppend(NEW_SESSION, AllCallbacks(ms), begun);
    MessagesIndependent(NEW_SESSION, ms);
    NothingComplete(Feed(NEW_SESSION, AllCallbacks(ms)), begun);
  }
}
