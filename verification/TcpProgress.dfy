/**
 What a server can always do next: a client is admitted, a request is answered.
 */
module TcpProgress {
  import opened Wrappers
  import opened Runtime
  import opened TcpServer
  import opened TcpInvariant
  import opened TcpHistory

  /** `co` waits for its operation and the kernel has not answered yet. */
  ghost predicate Idle(s: St, co: CoId) {
    && co in s.frames && s.frames[co].Waits() && !s.frames[co].slot.done
    && s.frames[co].slot.op in s.ops && s.ops[s.frames[co].slot.op].result == None
  }

  /** The kernel answers, and the completion handler runs. */
  lemma Answered(s: St, co: CoId, outcome: Outcome)
    requires Inv(s) && Idle(s, co) && Possible(RequestOf(s.frames[co]), outcome)
    ensures var o := s.frames[co].slot.op;
      && Enabled(s, EvKernel(o, outcome)) && Enabled(Next(s, EvKernel(o, outcome)), EvHandler(o))
    ensures var o := s.frames[co].slot.op; var t := Next(Next(s, EvKernel(o, outcome)), EvHandler(o));
      && Inv(t) && co in t.rt.tokens && t.frames == s.frames[co := Fill(s.frames[co], o, outcome)]
      && t.open == s.open && t.nextConn == s.nextConn && t.nextOp == s.nextOp && t.returned == s.returned
      && t.rt.live == s.rt.live && t.rt.next == s.rt.next
  {
    hide Inv, Kernel, Handler, Fill, Possible;
    var o := s.frames[co].slot.op;
    OwnWait(s, co);
    NextInv(s, EvKernel(o, outcome));
    var u := Kernel(s, o, outcome);
    KernelOnly(s, o, outcome);
    KernelReplies(s, o, outcome);
    KernelConn(s, o, outcome);
    InvIsUp(u);
    NextInv(u, EvHandler(o));
    HandlerIs(u, o);
  }

  lemma HandlerIs(s: St, o: OpId)
    requires o in s.ops && s.ops[o].result.Some? && s.ops[o].co in s.frames
    ensures var co := s.ops[o].co; var t := Handler(s, o);
      && co in t.rt.tokens && t.frames == s.frames[co := Fill(s.frames[co], o, s.ops[o].result.value)]
      && t.open == s.open && t.nextConn == s.nextConn && t.nextOp == s.nextOp && t.returned == s.returned
      && t.rt.live == s.rt.live && t.rt.next == s.rt.next && t.input == s.input
  {
    hide Fill;
  }

  lemma OwnWait(s: St, co: CoId)
    requires Inv(s) && Idle(s, co)
    ensures var o := s.frames[co].slot.op;
      && !s.down && s.ops[o].co == co && s.ops[o].req == RequestOf(s.frames[co]) && s.frames[co].slot == Slot(o, false, true, 0)
  {
    hide Domain, Population, Conns, Wires, Inputs, HandlersMatched;
    assert Matched(s, co);
  }

  lemma SubmittedIsIdle(s: St, t: St, co: CoId, req: Request)
    requires Submitted(s, t, co, req)
    ensures Idle(t, co) && t.frames[co].slot.op == s.nextOp
  {
  }

  lemma RunOf3(s: St, a: Event, b: Event, c: Event)
    requires Enabled(s, a) && Enabled(Next(s, a), b) && Enabled(Next(Next(s, a), b), c)
    requires Orderly(s, a) && Orderly(Next(s, a), b) && Orderly(Next(Next(s, a), b), c)
    ensures Feasible(s, [a, b, c]) && Exec(s, [a, b, c]) == Next(Next(Next(s, a), b), c) && AllOrderly(s, [a, b, c])
  {
    hide Next, Enabled, Orderly;
    var s1, s2 := Next(s, a), Next(Next(s, a), b);
    assert [a, b, c][1..] == [b, c] && [b, c][1..] == [c] && [c][1..] == [];
    assert Feasible(Next(s2, c), []) && AllOrderly(Next(s2, c), []);
    assert Feasible(s2, [c]) && Exec(s2, [c]) == Next(s2, c) && AllOrderly(s2, [c]);
    assert Feasible(s1, [b, c]) && Exec(s1, [b, c]) == Exec(s2, [c]) && AllOrderly(s1, [b, c]);
  }

  /** A completion and the token it posts. */
  function Completes(co: CoId, o: OpId, outcome: Outcome, choice: Choice): seq<Event> {
    [EvKernel(o, outcome), EvHandler(o), EvWake(co, choice)]
  }

  lemma CompletesRun(s: St, co: CoId, outcome: Outcome, choice: Choice)
    requires Inv(s) && Idle(s, co) && Possible(RequestOf(s.frames[co]), outcome)
    ensures var o := s.frames[co].slot.op; var es := Completes(co, o, outcome, choice);
      && Feasible(s, es) && AllOrderly(s, es) && Inv(Exec(s, es))
      && Enabled(s, EvKernel(o, outcome)) && Enabled(Next(s, EvKernel(o, outcome)), EvHandler(o))
      && var t := Next(Next(s, EvKernel(o, outcome)), EvHandler(o));
         Enabled(t, EvWake(co, choice)) && Exec(s, es) == Next(t, EvWake(co, choice))
  {
    Answered(s, co, outcome);
    var o := s.frames[co].slot.op;
    var t := Next(Next(s, EvKernel(o, outcome)), EvHandler(o));
    assert !t.down by { InvIsUp(t); }
    hide Inv, Kernel, Handler, RunBody;
    NextInv(t, EvWake(co, choice));
    RunOf3(s, EvKernel(o, outcome), EvHandler(o), EvWake(co, choice));
  }

  lemma InvIsUp(s: St)
    requires Inv(s)
    ensures !s.down
  {
  }

  /** In every state of an orderly run in which the acceptor waits, the next
      client can be admitted: the connection is opened and its coroutine waits to
      read from it, and a fresh coroutine goes on to accept. */
  lemma ClientIsAdmitted(s: St, a: CoId, choice: Choice)
    requires Inv(s) && Idle(s, a) && s.frames[a].Accepting?
    ensures var es := Completes(a, s.frames[a].slot.op, Success(0), choice);
      && Feasible(s, es) && AllOrderly(s, es)
      && var t := Exec(s, es);
         && s.nextConn !in s.open && t.open == s.open + {s.nextConn} && t.nextConn == s.nextConn + 1
         && Idle(t, a) && t.frames[a].Reading? && t.frames[a].conn == s.nextConn
         && s.rt.next !in s.rt.live && t.rt.live == s.rt.live + {s.rt.next}
         && s.rt.next in t.frames && t.frames[s.rt.next] == Fresh && s.rt.next in t.rt.tokens
  {
    hide Inv, Next, Submitted, Idle;
    IdleIs(s, a);
    assert RequestOf(s.frames[a]) == AcceptOp;
    CompletesRun(s, a, Success(0), choice);
    Answered(s, a, Success(0));
    var o := s.frames[a].slot.op;
    var t := Next(Next(s, EvKernel(o, Success(0))), EvHandler(o));
    AcceptAdds(t, a, choice);
    SubmittedIsIdle(t, Next(t, EvWake(a, choice)), a, ReadOp(s.nextConn));
  }

  lemma IdleIs(s: St, co: CoId)
    requires Inv(s) && Idle(s, co)
    ensures co in s.frames && s.frames[co].Waits() && Fill(s.frames[co], s.frames[co].slot.op, Success(0)).slot.ok
  {
  }

  lemma {:induction false} RunAppend(s: St, a: seq<Event>, b: seq<Event>)
    requires Feasible(s, a) && AllOrderly(s, a) && Feasible(Exec(s, a), b) && AllOrderly(Exec(s, a), b)
    ensures Feasible(s, a + b) && AllOrderly(s, a + b) && Exec(s, a + b) == Exec(Exec(s, a), b)
    decreases |a|
  {
    hide Next, Enabled, Orderly;
    if a == [] {
      assert a + b == b;
    } else {
      assert (a + b)[1..] == a[1..] + b;
      RunAppend(Next(s, a[0]), a[1..], b);
    }
  }

  /** The handler made the first of its moves: it waits for the read, for the
      write, or for its timer, the operation being number `next`. */
  ghost predicate Went(next: OpId, t: St, co: CoId, conn: ConnId, moves: seq<Move>) {
    && co in t.frames
    && if moves == [] then Idle(t, co) && t.frames[co] == Reading(Slot(next, false, true, 0), conn)
       else if moves[0].Say? then
         Idle(t, co) && t.frames[co] == Writing(Slot(next, false, true, 0), conn, moves[0].text, 0, moves[1..])
       else t.frames[co] == Pausing(conn, moves[1..]) && co in t.rt.armed
  }

  lemma MovesWent(s: St, t: St, co: CoId, conn: ConnId, moves: seq<Move>)
    requires Moves(s, t, co, conn, moves)
    ensures Went(s.nextOp, t, co, conn, moves)
  {
  }

  /** The reader gets its text and the handler makes its first move. */
  lemma ReadCompletes(s: St, co: CoId, text: string, choice: Choice)
    requires Inv(s) && Idle(s, co) && s.frames[co].Reading? && |text| <= CAPACITY
    ensures var es := Completes(co, s.frames[co].slot.op, Data(text), choice);
      && Feasible(s, es) && AllOrderly(s, es)
      && var t := Exec(s, es); var k := s.frames[co].conn;
         && Inv(t) && t.returned == s.returned && InputOf(t, k).handled == InputOf(s, k).handled + [text]
         && Went(s.nextOp, t, co, k, choice.moves)
  {
    hide Inv, Next, Moves, Went, Idle, InputOf, Front;
    IdleIs(s, co);
    ReaderIs(s, co);
    var o := s.frames[co].slot.op;
    var k := s.frames[co].conn;
    CompletesRun(s, co, Data(text), choice);
    Answered(s, co, Data(text));
    var t := Next(Next(s, EvKernel(o, Data(text))), EvHandler(o));
    ReadHandsOn(t, co, choice);
    MovesWent(t, Next(t, EvWake(co, choice)), co, k, choice.moves);
    BufferAfter(s, co, text);
  }

  lemma ReaderIs(s: St, co: CoId)
    requires Inv(s) && Idle(s, co) && s.frames[co].Reading?
    ensures var f := s.frames[co]; f.slot == Slot(f.slot.op, false, true, 0) && RequestOf(f) == ReadOp(f.conn)
  {
    OwnWait(s, co);
    hide Inv;
  }

  lemma BufferAfter(s: St, co: CoId, text: string)
    requires Inv(s) && Idle(s, co) && s.frames[co].Reading? && |text| <= CAPACITY
    ensures var o := s.frames[co].slot.op; var k := s.frames[co].conn;
      && Enabled(s, EvKernel(o, Data(text))) && Enabled(Next(s, EvKernel(o, Data(text))), EvHandler(o))
      && var i := InputOf(Next(Next(s, EvKernel(o, Data(text))), EvHandler(o)), k);
         Front(i.buffer, |text|) == text && i.handled == InputOf(s, k).handled
  {
    hide Inv, Idle, Kernel, Handler, Read, Possible;
    IdleIs(s, co);
    ReaderIs(s, co);
    DataIsPossible(s, co, text);
    Answered(s, co, Data(text));
    OwnWait(s, co);
    var o := s.frames[co].slot.op;
    var k := s.frames[co].conn;
    FrontOfRead(s, k, text);
    KernelReads(s, o, text, k);
    var u := Kernel(s, o, Data(text));
    KernelOnly(s, o, Data(text));
    HandlerIs(u, o);
    InputOfRead(s, u, k, text);
    OnlyInput(u, Handler(u, o), k);
  }

  lemma DataIsPossible(s: St, co: CoId, text: string)
    requires co in s.frames && s.frames[co].Reading? && |text| <= CAPACITY
    ensures Possible(RequestOf(s.frames[co]), Data(text))
  {
  }

  lemma KernelReads(s: St, o: OpId, text: string, k: ConnId)
    requires Enabled(s, EvKernel(o, Data(text))) && s.ops[o].req == ReadOp(k)
    ensures Kernel(s, o, Data(text)).input == Read(s, k, text)
  {
    hide Read;
  }

  lemma InputOfRead(s: St, u: St, k: ConnId, text: string)
    requires u.input == Read(s, k, text)
    ensures k in u.input && InputOf(u, k) == Read(s, k, text)[k]
  {
  }

  /** The writer gets all its data out, and the handler goes on. */
  lemma WriteCompletes(s: St, co: CoId, choice: Choice)
    requires Inv(s) && Idle(s, co) && s.frames[co].Writing? && s.frames[co].sent == 0
    ensures var f := s.frames[co]; var es := Completes(co, f.slot.op, Success(|f.data|), choice);
      && Feasible(s, es) && AllOrderly(s, es)
      && var t := Exec(s, es);
         && Inv(t) && f.conn in s.returned && f.conn in t.returned && t.returned[f.conn] == s.returned[f.conn] + [f.data]
         && Went(s.nextOp, t, co, f.conn, f.rest)
  {
    hide Inv, Next, Moves, Went, Idle;
    IdleIs(s, co);
    WriterIs(s, co);
    var f := s.frames[co];
    CompletesRun(s, co, Success(|f.data|), choice);
    Answered(s, co, Success(|f.data|));
    var t := Next(Next(s, EvKernel(f.slot.op, Success(|f.data|))), EvHandler(f.slot.op));
    WriteGoesOn(t, co, choice);
    MovesWent(t, Next(t, EvWake(co, choice)), co, f.conn, f.rest);
  }

  lemma WriterIs(s: St, co: CoId)
    requires Inv(s) && Idle(s, co) && s.frames[co].Writing? && s.frames[co].sent == 0
    ensures var f := s.frames[co];
      f.slot == Slot(f.slot.op, false, true, 0) && Possible(RequestOf(f), Success(|f.data|))
  {
    hide Inv, Possible;
    OwnWait(s, co);
    WriterFits(s.frames[co]);
  }

  lemma WriterFits(f: Frame)
    requires f.Writing? && f.sent == 0
    ensures Possible(RequestOf(f), Success(|f.data|))
  {
    assert From(f.data, 0) == f.data;
  }

  /** The events of one request and its one reply. */
  function Exchange(co: CoId, first: OpId, next: OpId, text: string, reply: string): seq<Event> {
    Completes(co, first, Data(text), Choice([Say(reply)], 0)) + Completes(co, next, Success(|reply|), NOTHING)
  }

  /** In every state of an orderly run in which a server waits to read: whatever
      text arrives and whatever the handler replies, the text is handled once,
      the reply is on the wire once, and the server waits to read again. */
  lemma RequestIsAnswered(s: St, co: CoId, text: string, reply: string)
    requires Inv(s) && Idle(s, co) && s.frames[co].Reading? && |text| <= CAPACITY
    ensures var k := s.frames[co].conn; var es := Exchange(co, s.frames[co].slot.op, s.nextOp, text, reply);
      && Feasible(s, es) && AllOrderly(s, es)
      && var t := Exec(s, es);
         && Idle(t, co) && t.frames[co].Reading? && t.frames[co].conn == k
         && k in s.wire && k in t.wire && t.wire[k] == s.wire[k] + reply
         && k in s.input && k in t.input && t.input[k].handled == s.input[k].handled + [text]
  {
    IdleIs(s, co);
    var k := s.frames[co].conn;
    var choice := Choice([Say(reply)], 0);
    var one := Completes(co, s.frames[co].slot.op, Data(text), choice);
    var two := Completes(co, s.nextOp, Success(|reply|), NOTHING);
    hide Inv, Next, Enabled, Completes, Idle, Flat, InputOf;
    ReadCompletes(s, co, text, choice);
    var m := Exec(s, one);
    WriterHeard(m, co);
    WriteCompletes(m, co, NOTHING);
    var t := Exec(m, two);
    RunAppend(s, one, two);
    WireBetween(s, co);
    WireBetween(t, co);
    FlatSnoc(s.returned[k], reply);
    ReadsNothing(m, two, co, s.nextOp, |reply|, k);
    InputIs(s, k);
    InputIs(m, k);
    InputIs(t, k);
  }

  lemma InputIs(s: St, k: ConnId)
    ensures k in s.input ==> InputOf(s, k) == s.input[k]
  {
  }

  /** While a server reads, the wire is what returned and all reads but the one
      under way were handled. */
  lemma WireBetween(s: St, co: CoId)
    requires Inv(s) && Idle(s, co) && s.frames[co].Reading?
    ensures var k := s.frames[co].conn;
      && k in s.wire && k in s.returned && s.wire[k] == Flat(s.returned[k])
      && k in s.input && s.input[k].got == s.input[k].handled
  {
    ServesOwn(s, co);
    assert WireOf(s, s.frames[co]) && InputAt(s, s.frames[co]);
    hide Inv;
  }

  lemma WriterHeard(m: St, co: CoId)
    requires Inv(m) && Idle(m, co) && m.frames[co].Writing?
    ensures var k := m.frames[co].conn; k in m.input && m.input[k].got == m.input[k].handled
  {
    InvInputs(m);
    hide Inv;
    assert InputAt(m, m.frames[co]);
  }

  /** A write reads nothing. */
  lemma ReadsNothing(m: St, two: seq<Event>, co: CoId, o: OpId, n: nat, k: ConnId)
    requires Inv(m) && Feasible(m, two) && AllOrderly(m, two) && two == Completes(co, o, Success(n), NOTHING)
    ensures InputOf(Exec(m, two), k).got == InputOf(m, k).got
  {
    hide Inv, InputOf, Exec, AllOrderly;
    GotRun(m, two, k);
    NoText(m, EvKernel(o, Success(n)), EvHandler(o), EvWake(co, NOTHING), k);
  }

  lemma NoText(m: St, a: Event, b: Event, c: Event, k: ConnId)
    requires Feasible(m, [a, b, c]) && a.EvKernel? && a.outcome.Success? && !b.EvKernel? && !c.EvKernel?
    ensures TextsRead(m, [a, b, c], k) == []
  {
    hide Next, Enabled;
    assert [a, b, c][1..] == [b, c] && [b, c][1..] == [c] && [c][1..] == [];
    var m1 := Next(m, a);
    assert Feasible(m1, [b, c]);
    var m2 := Next(m1, b);
    assert Feasible(m2, [c]);
    assert TextsRead(Next(m2, c), [], k) == [];
    assert TextsRead(m2, [c], k) == [];
    assert TextsRead(m1, [b, c], k) == [];
  }
}
