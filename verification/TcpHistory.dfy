/**
 What every step of TcpServer::handle achieves, and the whole history of a
 server in terms of what the kernel answered and the message handler asked.
 */
module TcpHistory {
  import opened Wrappers
  import opened Runtime
  import opened TcpServer
  import opened TcpInvariant
  import opened TcpResults

  // ---------------------------------------------------------------------
  // One token
  // ---------------------------------------------------------------------

  /** `co` has given the kernel one operation and waits for it. */
  ghost predicate Submitted(s: St, t: St, co: CoId, req: Request) {
    && t.ops == s.ops[s.nextOp := Op(co, req, None)] && s.nextOp !in s.ops
    && co in t.frames && t.frames[co].Waits() && t.frames[co].slot == Slot(s.nextOp, false, true, 0)
    && t.rt.tokens[co] == 0 && co !in t.rt.armed
  }

  /** The handler of `conn` makes the first of its moves and keeps the others. */
  ghost predicate Moves(s: St, t: St, co: CoId, conn: ConnId, moves: seq<Move>) {
    && co in t.frames && t.open == s.open && t.rt.live == s.rt.live
    && if moves == [] then
         Submitted(s, t, co, ReadOp(conn)) && t.frames[co].Reading? && t.frames[co].conn == conn
       else if moves[0].Say? then
         Submitted(s, t, co, WriteOp(conn, moves[0].text))
         && t.frames[co] == Writing(t.frames[co].slot, conn, moves[0].text, 0, moves[1..])
       else
         t.frames[co] == Pausing(conn, moves[1..]) && co in t.rt.armed && t.rt.tokens[co] == 0 && t.ops == s.ops
  }

  lemma TakenIs(s: St, co: CoId)
    requires Inv(s) && co in s.rt.tokens
    ensures var t := Taken(s, co);
      && co in s.frames && co in s.rt.live && t == s.(rt := t.rt)
      && t.rt.tokens[co] == 0 && co !in t.rt.armed && t.rt.live == s.rt.live && t.rt.next == s.rt.next
      && s.nextOp !in s.ops && s.rt.next !in s.frames && s.rt.next !in s.rt.live && s.rt.tokens[s.rt.next] == 0
      && t.rt.tokens[s.rt.next] == 0
      && (s.frames[co].Waits() ==> s.frames[co].slot.done)
  {
    hide Population, Conns, Wires, Inputs, Pending;
    TokenIsLive(s, co);
    DomainParts(s);
    TakeIs(s.rt, co);
    SpawnEffect(s.rt);
    FrameKnown(s, s.rt.next);
    assert s.rt.next != co;
  }

  lemma ArmIs(r: Rt, co: CoId)
    ensures co in Arm(r, co).armed && Arm(r, co).tokens == r.tokens && Arm(r, co).live == r.live
  {
  }

  /** A successful accept adds exactly one open connection, served by the
      coroutine that accepted it, with nothing read from it yet, and one fresh
      coroutine, which has one token. */
  lemma AcceptAdds(s: St, co: CoId, choice: Choice)
    requires Inv(s) && Enabled(s, EvWake(co, choice)) && co in s.frames && s.frames[co].Accepting? && s.frames[co].slot.ok
    ensures var t := Next(s, EvWake(co, choice)); var conn, born := s.nextConn, s.rt.next;
      && conn !in s.open && t.open == s.open + {conn} && t.nextConn == conn + 1
      && Submitted(s, t, co, ReadOp(conn)) && t.frames[co].Reading? && t.frames[co].conn == conn
      && conn in t.input && t.input[conn] == Input("", [], []) && conn in t.wire && t.wire[conn] == ""
      && conn in t.server && t.server[conn] == co
      && born !in s.frames && t.frames.Keys == s.frames.Keys + {born} && t.frames[born] == Fresh
      && t.rt.live == s.rt.live + {born} && born !in s.rt.live && t.rt.tokens[born] == 1
  {
    TakenIs(s, co);
    assert s.nextConn !in s.open;
    hide Inv, Take;
    AcceptIs(Taken(s, co), co, choice);
  }

  lemma AcceptIs(s: St, co: CoId, choice: Choice)
    requires co in s.frames && s.frames[co].Accepting? && s.frames[co].slot.ok && s.frames[co].slot.done
    requires co !in s.rt.armed && s.rt.tokens[co] == 0 && co != s.rt.next && s.nextOp !in s.ops && s.rt.tokens[s.rt.next] == 0
    ensures var t := Body(s, co, choice); var conn, born := s.nextConn, s.rt.next;
      && t.open == s.open + {conn} && t.nextConn == conn + 1
      && Submitted(s, t, co, ReadOp(conn)) && t.frames[co].Reading? && t.frames[co].conn == conn
      && conn in t.input && t.input[conn] == Input("", [], []) && conn in t.wire && t.wire[conn] == ""
      && conn in t.server && t.server[conn] == co
      && t.frames.Keys == s.frames.Keys + {born} && t.frames[born] == Fresh
      && t.rt.live == s.rt.live + {born} && t.rt.tokens[born] == 1
  {
  }

  /** A failed accept changes neither, and accepts again. */
  lemma AcceptAgain(s: St, co: CoId, choice: Choice)
    requires Inv(s) && Enabled(s, EvWake(co, choice)) && co in s.frames
    requires s.frames[co].Fresh? || (s.frames[co].Accepting? && !s.frames[co].slot.ok)
    ensures var t := Next(s, EvWake(co, choice));
      && t.open == s.open && t.nextConn == s.nextConn && t.rt.live == s.rt.live && t.frames.Keys == s.frames.Keys
      && Submitted(s, t, co, AcceptOp) && t.frames[co].Accepting?
  {
    TakenIs(s, co);
    hide Inv, Take;
  }

  /** A failed read closes the connection and ends its coroutine. */
  lemma FailedReadCloses(s: St, co: CoId, choice: Choice)
    requires Inv(s) && Enabled(s, EvWake(co, choice)) && co in s.frames && s.frames[co].Reading? && !s.frames[co].slot.ok
    ensures var t := Next(s, EvWake(co, choice)); var conn := s.frames[co].conn;
      && conn in s.open && t.open == s.open - {conn} && t.nextConn == s.nextConn
      && co in s.rt.live && t.rt.live == s.rt.live - {co} && t.frames == s.frames[co := Gone] && t.ops == s.ops
  {
    TakenIs(s, co);
    assert EachServed(s);
    hide Inv, Take;
  }

  /** A read with data: the handler is given the bytes read and makes its moves. */
  lemma ReadHandsOn(s: St, co: CoId, choice: Choice)
    requires Inv(s) && Enabled(s, EvWake(co, choice)) && co in s.frames && s.frames[co].Reading? && s.frames[co].slot.ok
    ensures var t := Next(s, EvWake(co, choice)); var f := s.frames[co]; var i := InputOf(s, f.conn);
      && InputOf(t, f.conn) == i.(handled := i.handled + [Front(i.buffer, f.slot.size)])
      && t.returned == s.returned && Moves(s, t, co, f.conn, choice.moves)
  {
    hide Inv, Take, Moves, Proceed, Heard;
    TakenIs(s, co);
    var u := Taken(s, co);
    var f := s.frames[co];
    var v := u.(input := Heard(u, f.conn, f.slot.size));
    ProceedIs(v, co, f.conn, choice.moves);
    HeardIs(s, u, f.conn, f.slot.size);
    SameStart(s, v, Proceed(v, co, f.conn, choice.moves), co);
    OnlyInput(v, Proceed(v, co, f.conn, choice.moves), f.conn);
  }

  lemma HeardIs(s: St, u: St, conn: ConnId, n: nat)
    requires u.input == s.input
    ensures var i := InputOf(s, conn);
      InputOf(u.(input := Heard(u, conn, n)), conn) == i.(handled := i.handled + [Front(i.buffer, n)])
  {
  }

  lemma ProceedIs(s: St, co: CoId, conn: ConnId, moves: seq<Move>)
    requires co in s.frames && s.rt.tokens[co] == 0 && co !in s.rt.armed && s.nextOp !in s.ops
    ensures var t := Proceed(s, co, conn, moves);
      && Moves(s, t, co, conn, moves) && t.input == s.input && t.returned == s.returned && t.frames.Keys == s.frames.Keys
  {
    ArmIs(s.rt, co);
    hide Arm;
    if moves != [] && moves[0].Say? {
      assert moves[0].text[0..] == moves[0].text;
    }
  }

  /** A write whose data is out: the call returns and the handler makes its next
      move. Else the rest is offered again. */
  lemma WriteGoesOn(s: St, co: CoId, choice: Choice)
    requires Inv(s) && Enabled(s, EvWake(co, choice)) && co in s.frames && s.frames[co].Writing?
    ensures var t := Next(s, EvWake(co, choice)); var f := s.frames[co]; var out := f.sent + f.slot.size;
      && f.conn in s.returned && f.conn in t.returned && out <= |f.data|
      && (out == |f.data| ==> t.returned == s.returned[f.conn := s.returned[f.conn] + [f.data]] && Moves(s, t, co, f.conn, f.rest))
      && (out < |f.data| ==>
            && t.returned == s.returned && Submitted(s, t, co, WriteOp(f.conn, f.data[out..]))
            && t.frames[co] == Writing(t.frames[co].slot, f.conn, f.data, out, f.rest))
  {
    hide Inv, Take, Moves, Submitted;
    TakenIs(s, co);
    WireFits(s, co);
    WroteIs(Taken(s, co), co, choice);
    hide Body;
    SameStart(s, Taken(s, co), Body(Taken(s, co), co, choice), co);
  }

  lemma WroteIs(s: St, co: CoId, choice: Choice)
    requires co in s.frames && s.frames[co].Writing? && s.frames[co].conn in s.returned
    requires s.rt.tokens[co] == 0 && co !in s.rt.armed && s.nextOp !in s.ops
    ensures var t := Body(s, co, choice); var f := s.frames[co]; var out := f.sent + f.slot.size;
      && (out == |f.data| ==> t.returned == s.returned[f.conn := s.returned[f.conn] + [f.data]] && Moves(s, t, co, f.conn, f.rest))
      && (out < |f.data| ==>
            && t.returned == s.returned && Submitted(s, t, co, WriteOp(f.conn, f.data[out..]))
            && t.frames[co] == Writing(t.frames[co].slot, f.conn, f.data, out, f.rest))
  {
    hide Proceed, From, Moves;
    var f := s.frames[co];
    FromIs(f.data, f.sent + f.slot.size);
    var u := s.(returned := s.returned[f.conn := s.returned[f.conn] + [f.data]]);
    ProceedIs(u, co, f.conn, f.rest);
    SameStart(s, u, Proceed(u, co, f.conn, f.rest), co);
  }

  /** Both descriptions compare operations, open connections and live set only. */
  lemma SameStart(s: St, u: St, t: St, co: CoId)
    requires u.ops == s.ops && u.nextOp == s.nextOp && u.open == s.open && u.rt.live == s.rt.live
    ensures forall conn, moves :: Moves(u, t, co, conn, moves) ==> Moves(s, t, co, conn, moves)
    ensures forall req :: Submitted(u, t, co, req) ==> Submitted(s, t, co, req)
  {
  }

  lemma FromIs(data: string, sent: nat)
    ensures sent <= |data| ==> From(data, sent) == data[sent..]
  {
  }

  lemma WireFits(s: St, co: CoId)
    requires Inv(s) && co in s.frames && s.frames[co].Writing? && s.frames[co].slot.done
    ensures s.frames[co].conn in s.returned && s.frames[co].sent + s.frames[co].slot.size <= |s.frames[co].data|
  {
    assert WireOf(s, s.frames[co]);
  }

  /** A pause that is over: the handler makes its next move. */
  lemma PauseGoesOn(s: St, co: CoId, choice: Choice)
    requires Inv(s) && Enabled(s, EvWake(co, choice)) && co in s.frames && s.frames[co].Pausing?
    ensures var t := Next(s, EvWake(co, choice)); var f := s.frames[co];
      t.returned == s.returned && t.input == s.input && Moves(s, t, co, f.conn, f.rest)
  {
    hide Inv, Take, Moves, Proceed;
    TakenIs(s, co);
    var u := Taken(s, co);
    var f := s.frames[co];
    ProceedIs(u, co, f.conn, f.rest);
    SameStart(s, u, Proceed(u, co, f.conn, f.rest), co);
  }

  // ---------------------------------------------------------------------
  // Reads
  // ---------------------------------------------------------------------

  /** What one event reads from connection `k`. */
  function ReadBy(s: St, e: Event, k: ConnId): seq<string>
    requires Enabled(s, e)
  {
    if e.EvKernel? && s.ops[e.op].req == ReadOp(k) && e.outcome.Data? then [e.outcome.text] else []
  }

  /** The texts the kernel read from connection `k` over a run. */
  function TextsRead(s: St, es: seq<Event>, k: ConnId): seq<string>
    requires Feasible(s, es)
    decreases |es|
  {
    if es == [] then [] else ReadBy(s, es[0], k) + TextsRead(Next(s, es[0]), es[1..], k)
  }

  lemma KernelGot(s: St, op: OpId, outcome: Outcome, k: ConnId)
    requires Enabled(s, EvKernel(op, outcome))
    ensures InputOf(Kernel(s, op, outcome), k).got == InputOf(s, k).got + ReadBy(s, EvKernel(op, outcome), k)
  {
  }

  ghost predicate Keeps(s: St, t: St) {
    t.input == s.input && t.nextConn == s.nextConn && t.open == s.open
  }

  lemma StartKeeps(s: St, co: CoId, req: Request, frame: Frame)
    ensures Keeps(s, Start(s, co, req, frame))
  {
  }

  lemma ProceedKeeps(s: St, co: CoId, conn: ConnId, moves: seq<Move>)
    ensures Keeps(s, Proceed(s, co, conn, moves))
  {
    hide Start, Arm, From;
    if moves == [] {
      StartKeeps(s, co, ReadOp(conn), Reading(EmptySlot(s), conn));
    } else if moves[0].Say? {
      var text := moves[0].text;
      StartKeeps(s, co, WriteOp(conn, From(text, 0)), Writing(EmptySlot(s), conn, text, 0, moves[1..]));
    }
  }

  lemma OthersKeep(s: St, co: CoId)
    ensures StartAccept(s, co).input == s.input && StartAccept(s, co).nextConn == s.nextConn
    ensures forall conn :: Closed(s, co, conn).input == s.input && Closed(s, co, conn).nextConn == s.nextConn
  {
    hide Finish;
  }

  lemma WroteKeeps(s: St, co: CoId, conn: ConnId, data: string, sent: nat, rest: seq<Move>)
    ensures Keeps(s, Wrote(s, co, conn, data, sent, rest))
  {
    hide Proceed, From, Start;
    StartKeeps(s, co, WriteOp(conn, From(data, sent)), Writing(EmptySlot(s), conn, data, sent, rest));
    var calls := if conn in s.returned then s.returned[conn] else [];
    ProceedKeeps(s.(returned := s.returned[conn := calls + [data]]), co, conn, rest);
  }

  lemma BodyInputIs(s: St, co: CoId, choice: Choice)
    requires co in s.frames
    ensures var f := s.frames[co]; var i := Body(s, co, choice).input;
      || i == s.input
      || (f.Accepting? && i == s.input[s.nextConn := NO_INPUT])
      || (f.Reading? && i == Heard(s, f.conn, if f.slot.done then f.slot.size else choice.junk))
  {
    hide Heard, Proceed, StartAccept, Accepted, Closed, Wrote;
    OthersKeep(s, co);
    match s.frames[co]
    case Accepting(slot) => AcceptedIs(s, co);
    case Reading(slot, conn) =>
      ProceedKeeps(s.(input := Heard(s, conn, if slot.done then slot.size else choice.junk)), co, conn, choice.moves);
    case Writing(slot, conn, data, sent, rest) => WroteKeeps(s, co, conn, data, sent + slot.size, rest);
    case Pausing(conn, rest) => ProceedKeeps(s, co, conn, rest);
    case _ =>
  }

  lemma SameGot(s: St, t: St, k: ConnId, conn: ConnId, n: nat)
    requires s.nextConn !in s.input
    requires t.input == s.input || t.input == s.input[s.nextConn := NO_INPUT] || t.input == Heard(s, conn, n)
    ensures InputOf(t, k).got == InputOf(s, k).got
  {
  }

  lemma WakeGot(s: St, co: CoId, choice: Choice, k: ConnId)
    requires Conns(s) && co in s.rt.tokens
    ensures InputOf(RunBody(s, co, choice), k).got == InputOf(s, k).got
  {
    assert s.nextConn !in s.input;
    hide Take, Body, Conns, Heard, InputOf;
    var t := RunBody(s, co, choice);
    var u := Taken(s, co);
    assert InputOf(u, k) == InputOf(s, k) by { OnlyInput(s, u, k); }
    if co in s.rt.live && co in s.frames {
      BodyInputIs(u, co, choice);
      var f := u.frames[co];
      SameGot(u, t, k, if f.Reading? then f.conn else 0, if f.Reading? && f.slot.done then f.slot.size else choice.junk);
    }
  }

  lemma OnlyInput(s: St, t: St, k: ConnId)
    requires t.input == s.input
    ensures InputOf(t, k) == InputOf(s, k)
  {
  }

  lemma GotStep(s: St, e: Event, k: ConnId)
    requires Inv(s) && Enabled(s, e)
    ensures InputOf(Next(s, e), k).got == InputOf(s, k).got + ReadBy(s, e, k)
  {
    hide Inv, RunBody, Kernel, Handler, InputOf, Conns, Post, Expire, RunFired, RunCancelled;
    match e
    case EvWake(co, choice) =>
      ConnsOf(s);
      WakeGot(s, co, choice, k);
    case EvKernel(op, outcome) => KernelGot(s, op, outcome, k);
    case EvHandler(op) =>
      HandlerInputIs(s, op);
      OnlyInput(s, Handler(s, op), k);
    case _ => OnlyInput(s, Next(s, e), k);
  }

  lemma ConnsOf(s: St)
    requires Inv(s)
    ensures Conns(s)
  {
    hide Domain, AllMatched, HandlersMatched, Population, Conns, Wires, Inputs;
  }

  lemma HandlerInputIs(s: St, op: OpId)
    requires op in s.ops && s.ops[op].result.Some?
    ensures Handler(s, op).input == s.input
  {
    hide Fill, Post;
  }

  lemma {:induction false} GotRun(s: St, es: seq<Event>, k: ConnId)
    requires Inv(s) && Feasible(s, es) && AllOrderly(s, es)
    ensures InputOf(Exec(s, es), k).got == InputOf(s, k).got + TextsRead(s, es, k)
    decreases |es|
  {
    hide Inv, Next, Enabled, Orderly, ReadBy;
    if es != [] {
      NextInv(s, es[0]);
      GotStep(s, es[0], k);
      GotRun(Next(s, es[0]), es[1..], k);
    }
  }

  /** Over every orderly run the message handler is given, for each connection,
      what the kernel read from it, in order, each text once, but for one whose
      completion has not yet resumed the reader; for a closed connection and for
      one whose server does not read, all of it. */
  lemma HandledIsRead(es: seq<Event>, k: ConnId)
    requires Feasible(LISTENING, es) && AllOrderly(LISTENING, es) && k in Exec(LISTENING, es).input
    ensures var s := Exec(LISTENING, es); var read := TextsRead(LISTENING, es, k); var handled := s.input[k].handled;
      && handled <= read && |read| <= |handled| + 1
      && (k !in s.open ==> handled == read)
      && (forall c: CoId :: ServedBy(s, k, c) && !s.frames[c].Reading? ==> handled == read)
  {
    InitInv();
    hide Domain, AllMatched, HandlersMatched, OneAcceptor, Wires, Conns;
    RunKeepsInv(LISTENING, es);
    hide Inv;
    GotRun(LISTENING, es, k);
    var s := Exec(LISTENING, es);
    assert InputOf(LISTENING, k).got == [];
    InvInputs(s);
    HeardAt(s, k);
  }

  lemma InvInputs(s: St)
    requires Inv(s)
    ensures Inputs(s) && EachServed(s)
  {
    hide Domain, AllMatched, HandlersMatched, OneAcceptor, Wires, Conns;
  }

  // ---------------------------------------------------------------------
  // Replies
  // ---------------------------------------------------------------------

  function Says(moves: seq<Move>): seq<string> {
    if moves == [] then [] else (if moves[0].Say? then [moves[0].text] else []) + Says(moves[1..])
  }

  /** The replies the handler asks for when one event hands a read on. */
  function AskedBy(s: St, e: Event, k: ConnId): seq<string> {
    if e.EvWake? && e.co in s.frames && s.frames[e.co].Reading? && s.frames[e.co].conn == k && s.frames[e.co].slot.ok
    then Says(e.choice.moves) else []
  }

  function Asked(s: St, es: seq<Event>, k: ConnId): seq<string>
    requires Feasible(s, es)
    decreases |es|
  {
    if es == [] then [] else AskedBy(s, es[0], k) + Asked(Next(s, es[0]), es[1..], k)
  }

  /** The replies a coroutine has under way and ahead. */
  function Ahead(f: Frame): seq<string> {
    match f
    case Writing(_, _, data, _, rest) => [data] + Says(rest)
    case Pausing(_, rest) => Says(rest)
    case _ => []
  }

  /** The replies of connection `k` that came back, and those still ahead. */
  function Due(s: St, k: ConnId): seq<string> {
    (if k in s.returned then s.returned[k] else [])
    + (if k in s.open && k in s.server && s.server[k] in s.frames then Ahead(s.frames[s.server[k]]) else [])
  }

  lemma MovesAhead(s: St, t: St, co: CoId, conn: ConnId, moves: seq<Move>)
    requires Moves(s, t, co, conn, moves)
    ensures Ahead(t.frames[co]) == Says(moves)
  {
  }

  /** A token leaves the frames and replies of everybody else alone. */
  ghost predicate OthersStay(s: St, t: St, co: CoId)
    requires co in s.frames
  {
    && (forall c: CoId :: c in s.frames && c != co ==> c in t.frames && t.frames[c] == s.frames[c])
    && (forall c: CoId :: c in t.frames && c !in s.frames ==> t.frames[c].Fresh?)
    && (forall k: ConnId :: k in s.server ==> k in t.server && (k < s.nextConn ==> t.server[k] == s.server[k]))
    && (forall o: OpId :: o in s.ops && o < s.nextOp ==> o in t.ops && t.ops[o] == s.ops[o])
    && (forall k: ConnId :: k in s.returned && k < s.nextConn && !(s.frames[co].Serves() && s.frames[co].conn == k) ==>
          k in t.returned && t.returned[k] == s.returned[k])
    && (forall k: ConnId :: k in t.returned ==> k in s.returned || k == s.nextConn)
    && (forall k: ConnId :: k in t.open && k != s.nextConn ==> k in s.open)
    && (forall k: ConnId :: k in s.open && !(s.frames[co].Serves() && s.frames[co].conn == k) ==> k in t.open)
    && s.nextConn <= t.nextConn && t.server.Keys <= s.server.Keys + {s.nextConn}
  }

  lemma MovedOthers(s: St, t: St, co: CoId, g: Frame)
    requires co in s.frames && Settled(s, t, co, g) && Moved(s, t, co, g)
    ensures OthersStay(s, t, co)
  {
    hide Arm;
  }

  lemma AcceptedOthers(s: St, co: CoId)
    requires co in s.frames && s.rt.next !in s.frames
    ensures OthersStay(s, Accepted(s, co), co)
  {
    hide Accepted, Settled, Spawn;
    AcceptedIs(s, co);
    AcceptRuntime(s, Accepted(s, co), co, Reading(EmptySlot(s), s.nextConn));
  }

  lemma ClosedOthers(s: St, co: CoId)
    requires co in s.frames && s.frames[co].Reading?
    ensures OthersStay(s, Closed(s, co, s.frames[co].conn), co)
  {
    hide Finish;
  }

  lemma BodyOthers(s: St, co: CoId, choice: Choice)
    requires Begun(s, co) && s.rt.next !in s.frames
    ensures OthersStay(s, Body(s, co, choice), co)
  {
    hide InControl, Domain, Population, Conns, Inputs, NextFrame, Settled, Moved, Accepted, Closed, Proceed, Wrote, StartAccept, Heard, OthersStay, WireOf, InputAt;
    assert co in s.frames by { FreshOp(s, co); }
    var f := s.frames[co];
    assert f.Serves() ==> WireOf(s, f);
    assert f.Serves() ==> InputAt(s, f) by {
      if f.Serves() { InputOfServer(s, co); }
    }
    WireOfConn(s, f);
    if StaysInRole(f) {
      BodyMoves(s, co, choice);
      MovedOthers(s, Body(s, co, choice), co, NextFrame(s, f, choice));
    } else if f.Accepting? {
      AcceptedOthers(s, co);
    } else {
      ClosedOthers(s, co);
    }
  }

  lemma InputOfServer(s: St, co: CoId)
    requires Inputs(s) && co in s.frames && s.frames[co].Serves()
    ensures InputAt(s, s.frames[co])
  {
  }

  lemma WakeOthers(s: St, co: CoId, choice: Choice)
    requires Inv(s) && co in s.rt.tokens
    ensures co in s.frames && OthersStay(s, RunBody(s, co, choice), co)
  {
    hide Inv, Begun, Body, Take, OthersStay;
    TakenIs(s, co);
    TokenBegins(s, co);
    var u := Taken(s, co);
    BodyOthers(u, co, choice);
    OnlyRuntime(s, u, Body(u, co, choice), co);
  }

  lemma OnlyRuntime(s: St, u: St, t: St, co: CoId)
    requires u == s.(rt := u.rt) && co in s.frames && OthersStay(u, t, co)
    ensures OthersStay(s, t, co)
  {
  }

  // ---------------------------------------------------------------------
  // Every reply asked for
  // ---------------------------------------------------------------------

  lemma DueOfOthers(s: St, t: St, co: CoId, k: ConnId)
    requires EachServed(s) && Conns(s) && co in s.frames && OthersStay(s, t, co)
    requires k < s.nextConn && !(s.frames[co].Serves() && s.frames[co].conn == k)
    requires s.frames[co].Serves() || s.frames[co].Accepts()
    ensures Due(t, k) == Due(s, k)
  {
    if k in s.open {
      assert ServedBy(s, k, s.server[k]);
      assert s.server[k] != co;
    }
  }

  lemma NoneDue(s: St, k: ConnId)
    requires Conns(s) && k >= s.nextConn
    ensures Due(s, k) == []
  {
  }

  lemma DueIs(t: St, k: ConnId, co: CoId)
    requires k in t.returned && co in t.frames && (k in t.open ==> k in t.server && t.server[k] == co)
    ensures Due(t, k) == t.returned[k] + if k in t.open then Ahead(t.frames[co]) else []
  {
  }

  lemma OwnConn(s: St, co: CoId, choice: Choice)
    requires Inv(s) && Enabled(s, EvWake(co, choice)) && co in s.frames && s.frames[co].Serves()
    ensures var t := Next(s, EvWake(co, choice)); var k := s.frames[co].conn;
      k in t.server && t.server[k] == co
    ensures var k := s.frames[co].conn; Due(s, k) == s.returned[k] + Ahead(s.frames[co])
  {
    ServesOwn(s, co);
    WakeOthers(s, co, choice);
    hide Inv, RunBody;
    DueIs(s, s.frames[co].conn, co);
  }

  lemma DueOfReader(s: St, co: CoId, choice: Choice)
    requires Inv(s) && Enabled(s, EvWake(co, choice)) && co in s.frames && s.frames[co].Reading?
    ensures var k := s.frames[co].conn;
      Due(Next(s, EvWake(co, choice)), k) == Due(s, k) + AskedBy(s, EvWake(co, choice), k)
  {
    hide Inv, Says, Moves, Due, Next, Front;
    var t := Next(s, EvWake(co, choice));
    var k := s.frames[co].conn;
    ServesOwn(s, co);
    OwnConn(s, co, choice);
    if s.frames[co].slot.ok {
      ReadHandsOn(s, co, choice);
      MovesOpen(s, t, co, k, choice.moves);
      MovesAhead(s, t, co, k, choice.moves);
    } else {
      FailedReadCloses(s, co, choice);
      ClosedReturned(s, co, choice);
    }
    DueIs(t, k, co);
  }

  lemma MovesOpen(s: St, t: St, co: CoId, conn: ConnId, moves: seq<Move>)
    requires Moves(s, t, co, conn, moves)
    ensures co in t.frames && t.open == s.open
  {
  }

  lemma DueOfWriter(s: St, co: CoId, choice: Choice)
    requires Inv(s) && Enabled(s, EvWake(co, choice)) && co in s.frames && s.frames[co].Writing?
    ensures var k := s.frames[co].conn; Due(Next(s, EvWake(co, choice)), k) == Due(s, k)
  {
    hide Inv, Says, Moves, Due, Next;
    var t := Next(s, EvWake(co, choice));
    var f := s.frames[co];
    ServesOwn(s, co);
    OwnConn(s, co, choice);
    WriteGoesOn(s, co, choice);
    WriteStaysOpen(s, co, choice);
    if f.sent + f.slot.size == |f.data| {
      MovesOpen(s, t, co, f.conn, f.rest);
      MovesAhead(s, t, co, f.conn, f.rest);
      assert s.returned[f.conn] + ([f.data] + Says(f.rest)) == (s.returned[f.conn] + [f.data]) + Says(f.rest);
    }
    DueIs(t, f.conn, co);
  }

  lemma DueOfPause(s: St, co: CoId, choice: Choice)
    requires Inv(s) && Enabled(s, EvWake(co, choice)) && co in s.frames && s.frames[co].Pausing?
    ensures var k := s.frames[co].conn; Due(Next(s, EvWake(co, choice)), k) == Due(s, k)
  {
    hide Inv, Says, Moves, Due, Next;
    var t := Next(s, EvWake(co, choice));
    var f := s.frames[co];
    ServesOwn(s, co);
    OwnConn(s, co, choice);
    PauseGoesOn(s, co, choice);
    MovesOpen(s, t, co, f.conn, f.rest);
    MovesAhead(s, t, co, f.conn, f.rest);
    DueIs(t, f.conn, co);
  }

  lemma DueOfWake(s: St, co: CoId, choice: Choice, k: ConnId)
    requires Inv(s) && Enabled(s, EvWake(co, choice))
    ensures Due(Next(s, EvWake(co, choice)), k) == Due(s, k) + AskedBy(s, EvWake(co, choice), k)
  {
    hide Inv, RunBody, Due, Says, EachServed, Conns, OthersStay;
    RolesOf(s, co);
    WakeOthers(s, co, choice);
    var t := Next(s, EvWake(co, choice));
    var f := s.frames[co];
    if f.Serves() && f.conn == k {
      match f
      case Reading(_, _) => DueOfReader(s, co, choice);
      case Writing(_, _, _, _, _) => DueOfWriter(s, co, choice);
      case Pausing(_, _) => DueOfPause(s, co, choice);
    } else if k < s.nextConn {
      DueOfOthers(s, t, co, k);
    } else {
      NoneDue(s, k);
      DueOfNew(s, co, choice, k);
    }
  }

  lemma RolesOf(s: St, co: CoId)
    requires Inv(s) && co in s.rt.tokens
    ensures co in s.frames && (s.frames[co].Serves() || s.frames[co].Accepts()) && EachServed(s) && Conns(s)
  {
    TokenIsLive(s, co);
  }

  /** A connection that was just made has nothing due. */
  lemma DueOfNew(s: St, co: CoId, choice: Choice, k: ConnId)
    requires Inv(s) && Enabled(s, EvWake(co, choice)) && k >= s.nextConn
    ensures Due(Next(s, EvWake(co, choice)), k) == []
  {
    hide Inv, Next, Due, EachServed, Conns;
    RolesOf(s, co);
    var t := Next(s, EvWake(co, choice));
    if s.frames[co].Accepting? && s.frames[co].slot.ok {
      AcceptAdds(s, co, choice);
      NothingReturned(s, co, choice);
      NewIsEmpty(s, t, co, k);
    } else {
      NoConnMade(s, co, choice);
      NextInv(s, EvWake(co, choice));
      ConnsOf(t);
      NoneDue(t, k);
    }
  }

  lemma NewIsEmpty(s: St, t: St, co: CoId, k: ConnId)
    requires t.returned == s.returned[s.nextConn := []] && k !in s.returned && k !in s.open && k >= s.nextConn
    requires t.open == s.open + {s.nextConn} && s.nextConn in t.server && t.server[s.nextConn] == co
    requires co in t.frames && t.frames[co].Reading?
    ensures Due(t, k) == []
  {
  }

  lemma NothingReturned(s: St, co: CoId, choice: Choice)
    requires Inv(s) && Enabled(s, EvWake(co, choice)) && co in s.frames && s.frames[co].Accepting? && s.frames[co].slot.ok
    ensures var t := Next(s, EvWake(co, choice));
      && t.returned == s.returned[s.nextConn := []]
      && (forall k: ConnId :: k >= s.nextConn ==> k !in s.returned && k !in s.open)
  {
    TakenIs(s, co);
    assert Conns(s);
    hide Inv, Take, Spawn;
  }

  lemma NoConnMade(s: St, co: CoId, choice: Choice)
    requires Inv(s) && Enabled(s, EvWake(co, choice)) && co in s.frames && !(s.frames[co].Accepting? && s.frames[co].slot.ok)
    ensures Next(s, EvWake(co, choice)).nextConn == s.nextConn
  {
    TakenIs(s, co);
    hide Inv, Take;
    BodyMakesNone(Taken(s, co), co, choice);
  }

  lemma BodyMakesNone(s: St, co: CoId, choice: Choice)
    requires co in s.frames && !(s.frames[co].Accepting? && s.frames[co].slot.ok)
    ensures Body(s, co, choice).nextConn == s.nextConn
  {
    hide Heard, Proceed, StartAccept, Accepted, Closed, Wrote;
    OthersKeep(s, co);
    match s.frames[co]
    case Reading(slot, conn) =>
      ProceedKeeps(s.(input := Heard(s, conn, if slot.done then slot.size else choice.junk)), co, conn, choice.moves);
    case Writing(slot, conn, data, sent, rest) => WroteKeeps(s, co, conn, data, sent + slot.size, rest);
    case Pausing(conn, rest) => ProceedKeeps(s, co, conn, rest);
    case _ =>
  }

  lemma DueStep(s: St, e: Event, k: ConnId)
    requires Inv(s) && Enabled(s, e)
    ensures Due(Next(s, e), k) == Due(s, k) + AskedBy(s, e, k)
  {
    hide Inv;
    match e
    case EvWake(co, choice) => DueOfWake(s, co, choice, k);
    case EvKernel(op, outcome) =>
      KernelOnly(s, op, outcome);
      KernelReplies(s, op, outcome);
      hide Kernel;
    case EvHandler(op) => DueOfHandler(s, op, k);
    case _ => hide Says;
  }

  lemma KernelReplies(s: St, op: OpId, outcome: Outcome)
    requires Enabled(s, EvKernel(op, outcome))
    ensures var t := Kernel(s, op, outcome); t.returned == s.returned && t.open == s.open && t.server == s.server
  {
  }

  lemma DueOfHandler(s: St, op: OpId, k: ConnId)
    requires op in s.ops && s.ops[op].result.Some?
    ensures Due(Handler(s, op), k) == Due(s, k)
  {
    hide Says;
  }

  lemma {:induction false} DueRun(s: St, es: seq<Event>, k: ConnId)
    requires Inv(s) && Feasible(s, es) && AllOrderly(s, es)
    ensures Due(Exec(s, es), k) == Due(s, k) + Asked(s, es, k)
    decreases |es|
  {
    hide Inv, Next, Enabled, Orderly, AskedBy, Due;
    if es != [] {
      NextInv(s, es[0]);
      DueStep(s, es[0], k);
      DueRun(Next(s, es[0]), es[1..], k);
    }
  }

  /** Over every orderly run, for each connection: the replies sent and returned,
      then the one being sent, then those the handler has still to send, are all
      replies its handler ever asked for, in order. While its server reads, and
      once it is closed, all have been sent; with WireIsExact, all are on the wire. */
  lemma AskedIsSent(es: seq<Event>, k: ConnId)
    requires Feasible(LISTENING, es) && AllOrderly(LISTENING, es) && k in Exec(LISTENING, es).returned
    ensures var s := Exec(LISTENING, es);
      && (forall c: CoId :: ServedBy(s, k, c) ==> s.returned[k] + Ahead(s.frames[c]) == Asked(LISTENING, es, k))
      && (k !in s.open ==> s.returned[k] == Asked(LISTENING, es, k))
  {
    hide Inv, Due, Asked, Ahead, Feasible, Exec, EachServed, Inputs;
    InitInv();
    RunKeepsInv(LISTENING, es);
    DueRun(LISTENING, es, k);
    NothingDueYet(k);
    var s := Exec(LISTENING, es);
    InvInputs(s);
    assert [] + Asked(LISTENING, es, k) == Asked(LISTENING, es, k);
    forall c: CoId | ServedBy(s, k, c)
      ensures s.returned[k] + Ahead(s.frames[c]) == Asked(LISTENING, es, k)
    {
      ServerOf(s, k, c);
      DueIs(s, k, c);
    }
    if k !in s.open {
      ClosedDue(s, k);
    }
  }

  lemma NothingDueYet(k: ConnId)
    ensures Due(LISTENING, k) == []
  {
  }

  lemma ServerOf(s: St, k: ConnId, c: CoId)
    requires EachServed(s) && ServedBy(s, k, c)
    ensures c in s.frames && k in s.open && k in s.server && s.server[k] == c
  {
  }

  lemma ClosedDue(s: St, k: ConnId)
    requires k in s.returned && k !in s.open
    ensures Due(s, k) == s.returned[k]
  {
  }

  lemma ServesOwn(s: St, co: CoId)
    requires Inv(s) && co in s.frames && s.frames[co].Serves()
    ensures var k := s.frames[co].conn;
      k in s.open && k in s.server && s.server[k] == co && k in s.returned && k < s.nextConn
  {
    hide Domain, AllMatched, HandlersMatched, OneAcceptor, Inputs;
    assert WireOf(s, s.frames[co]);
  }

  lemma ClosedReturned(s: St, co: CoId, choice: Choice)
    requires Inv(s) && Enabled(s, EvWake(co, choice)) && co in s.frames && s.frames[co].Reading? && !s.frames[co].slot.ok
    ensures Next(s, EvWake(co, choice)).returned == s.returned
  {
    TakenIs(s, co);
    hide Inv, Take;
  }

  lemma WriteStaysOpen(s: St, co: CoId, choice: Choice)
    requires Inv(s) && Enabled(s, EvWake(co, choice)) && co in s.frames && s.frames[co].Writing?
    ensures Next(s, EvWake(co, choice)).open == s.open
  {
    TakenIs(s, co);
    WireFits(s, co);
    hide Inv, Take, From;
    BodyKeepsOpen(Taken(s, co), co, choice);
  }

  lemma BodyKeepsOpen(s: St, co: CoId, choice: Choice)
    requires co in s.frames && s.frames[co].Writing?
    ensures Body(s, co, choice).open == s.open
  {
    var f := s.frames[co];
    hide Wrote;
    WroteKeeps(s, co, f.conn, f.data, f.sent + f.slot.size, f.rest);
  }

  // ---------------------------------------------------------------------
  // Connections that come and go
  // ---------------------------------------------------------------------

  /** The kernel completes an accept with success; a read of `k` with a failure. */
  predicate AcceptOk(s: St, e: Event)
    requires Enabled(s, e)
  {
    e.EvKernel? && s.ops[e.op].req == AcceptOp && e.outcome.Success?
  }

  predicate ReadFails(s: St, e: Event, k: ConnId)
    requires Enabled(s, e)
  {
    e.EvKernel? && s.ops[e.op].req == ReadOp(k) && e.outcome.Failure?
  }

  function AcceptsOk(s: St, es: seq<Event>): nat
    requires Feasible(s, es)
    decreases |es|
  {
    if es == [] then 0 else (if AcceptOk(s, es[0]) then 1 else 0) + AcceptsOk(Next(s, es[0]), es[1..])
  }

  function ReadsFailed(s: St, es: seq<Event>, k: ConnId): nat
    requires Feasible(s, es)
    decreases |es|
  {
    if es == [] then 0 else (if ReadFails(s, es[0], k) then 1 else 0) + ReadsFailed(Next(s, es[0]), es[1..], k)
  }

  /** The accept of `a` was successful, and `a` has not run since. */
  ghost predicate Accepts(s: St, a: CoId) {
    && a in s.frames && s.frames[a].Accepting?
    && var slot := s.frames[a].slot;
       if slot.done then slot.ok
       else slot.op in s.ops && s.ops[slot.op].result.Some? && s.ops[slot.op].result.value.Success?
  }

  /** The read of `c` on `k` failed, and `c` has not run since. */
  ghost predicate Fails(s: St, k: ConnId, c: CoId) {
    && c in s.frames && s.frames[c].Reading? && s.frames[c].conn == k
    && var slot := s.frames[c].slot;
       if slot.done then !slot.ok
       else slot.op in s.ops && s.ops[slot.op].result == Some(Failure)
  }

  ghost function One(b: bool): nat { if b then 1 else 0 }

  /** Connections made, and the one about to be. */
  ghost function Made(s: St): nat {
    s.nextConn + One(exists a :: Accepts(s, a))
  }

  /** Whether `k` was closed, or is about to be. */
  ghost function Lost(s: St, k: ConnId): nat {
    One(k < s.nextConn && k !in s.open) + One(exists c :: Fails(s, k, c))
  }

  lemma MadeSame(s: St, t: St)
    requires t.nextConn == s.nextConn && forall a :: Accepts(s, a) <==> Accepts(t, a)
    ensures Made(t) == Made(s)
  {
  }

  lemma LostSame(s: St, t: St, k: ConnId)
    requires t.nextConn == s.nextConn && t.open == s.open && forall c :: Fails(s, k, c) <==> Fails(t, k, c)
    ensures Lost(t, k) == Lost(s, k)
  {
  }

  /** One acceptor, one server per connection, and everybody's operation its own. */
  lemma Roles(s: St)
    requires Inv(s)
    ensures forall a: CoId, b: CoId | a in s.frames && b in s.frames ::
      s.frames[a].Accepts() && s.frames[b].Accepts() ==> a == b
    ensures forall c: CoId, d: CoId | c in s.frames && d in s.frames ::
      s.frames[c].Serves() && s.frames[d].Serves() && s.frames[c].conn == s.frames[d].conn ==> c == d
    ensures forall c: CoId :: c in s.frames && s.frames[c].Waits() && !s.frames[c].slot.done ==>
      s.frames[c].slot.op in s.ops && s.ops[s.frames[c].slot.op].co == c
  {
    hide Domain, Conns, Wires, Inputs, HandlersMatched;
    assert EachServed(s) && OneAcceptor(s);
    forall c: CoId | c in s.frames && s.frames[c].Waits() && !s.frames[c].slot.done
      ensures s.frames[c].slot.op in s.ops && s.ops[s.frames[c].slot.op].co == c
    {
      assert Matched(s, c);
    }
  }

  lemma KernelConnections(s: St, op: OpId, outcome: Outcome, k: ConnId)
    requires Inv(s) && Enabled(s, EvKernel(op, outcome))
    ensures var t := Kernel(s, op, outcome);
      && Made(t) == Made(s) + One(AcceptOk(s, EvKernel(op, outcome)))
      && Lost(t, k) == Lost(s, k) + One(ReadFails(s, EvKernel(op, outcome), k))
  {
    hide Domain, Population, Conns, Wires, Inputs, Matched;
    OwnOperation(s, op);
    Roles(s);
    KernelOnly(s, op, outcome);
    KernelReplies(s, op, outcome);
    KernelConn(s, op, outcome);
    hide Kernel, Inv;
    var t := Kernel(s, op, outcome);
    var co := s.ops[op].co;
    KernelPending(s, t, op, outcome, k);
    hide Accepts, Fails;
  }

  lemma KernelPending(s: St, t: St, op: OpId, outcome: Outcome, k: ConnId)
    requires op in s.ops && s.ops[op].result == None && s.ops[op].co in s.frames && Enabled(s, EvKernel(op, outcome))
    requires t.frames == s.frames && t.ops == s.ops[op := s.ops[op].(result := Some(outcome))]
    requires var f := s.frames[s.ops[op].co]; f.Waits() && f.slot == Slot(op, false, true, 0) && s.ops[op].req == RequestOf(f)
    requires forall a: CoId, b: CoId | a in s.frames && b in s.frames ::
      s.frames[a].Accepts() && s.frames[b].Accepts() ==> a == b
    requires forall c: CoId, d: CoId | c in s.frames && d in s.frames ::
      s.frames[c].Serves() && s.frames[d].Serves() && s.frames[c].conn == s.frames[d].conn ==> c == d
    requires forall c: CoId :: c in s.frames && s.frames[c].Waits() && !s.frames[c].slot.done ==>
      s.frames[c].slot.op in s.ops && s.ops[s.frames[c].slot.op].co == c
    ensures var co, e := s.ops[op].co, EvKernel(op, outcome);
      && !Accepts(s, co) && !Fails(s, k, co)
      && (Accepts(t, co) <==> AcceptOk(s, e)) && (Fails(t, k, co) <==> ReadFails(s, e, k))
      && (forall a: CoId :: a != co ==> (Accepts(t, a) <==> Accepts(s, a)))
      && (forall c: CoId :: c != co ==> (Fails(t, k, c) <==> Fails(s, k, c)))
      && (AcceptOk(s, e) ==> forall a :: !Accepts(s, a)) && (ReadFails(s, e, k) ==> forall c :: !Fails(s, k, c))
  {
  }

  lemma KernelConn(s: St, op: OpId, outcome: Outcome)
    requires Enabled(s, EvKernel(op, outcome))
    ensures Kernel(s, op, outcome).nextConn == s.nextConn
  {
  }

  lemma HandlerConnections(s: St, op: OpId, k: ConnId)
    requires Inv(s) && op in s.ops && s.ops[op].result.Some?
    ensures Made(Handler(s, op)) == Made(s) && Lost(Handler(s, op), k) == Lost(s, k)
  {
    hide Domain, Population, Conns, Wires, Inputs, Matched;
    OwnOperation(s, op);
    assert Possible(s.ops[op].req, s.ops[op].result.value);
    Roles(s);
    hide Inv;
    var t := Handler(s, op);
    assert t.frames == s.frames[s.ops[op].co := t.frames[s.ops[op].co]] && t.ops == s.ops - {op};
    assert forall a :: Accepts(t, a) <==> Accepts(s, a);
    assert forall c :: Fails(t, k, c) <==> Fails(s, k, c);
    MadeSame(s, t);
    LostSame(s, t, k);
  }

  /** Nobody else's accept or read is touched. */
  lemma Elsewhere(s: St, t: St, co: CoId)
    requires Inv(s) && co in s.frames && OthersStay(s, t, co)
    ensures forall a: CoId :: a != co ==> (Accepts(t, a) <==> Accepts(s, a))
    ensures forall k: ConnId, c: CoId :: c != co ==> (Fails(t, k, c) <==> Fails(s, k, c))
  {
    hide Inv, Accepts, Fails, OthersStay;
    forall a: CoId, k: ConnId | a != co
      ensures (Accepts(t, a) <==> Accepts(s, a)) && (Fails(t, k, a) <==> Fails(s, k, a))
    {
      PendingOp(s, a);
      OtherAt(s, t, co, a);
      SameAt(s, t, a, k);
    }
    forall a: CoId | a != co
      ensures Accepts(t, a) <==> Accepts(s, a)
    {
      PendingOp(s, a);
      OtherAt(s, t, co, a);
      SameAt(s, t, a, 0);
    }
  }

  lemma PendingOp(s: St, a: CoId)
    requires Inv(s)
    ensures a in s.frames && s.frames[a].Waits() && !s.frames[a].slot.done ==>
      s.frames[a].slot.op in s.ops && s.frames[a].slot.op < s.nextOp
  {
    Roles(s);
    OpsOld(s);
    hide Inv;
  }

  lemma OtherAt(s: St, t: St, co: CoId, a: CoId)
    requires co in s.frames && OthersStay(s, t, co) && a != co
    ensures a in s.frames ==> a in t.frames && t.frames[a] == s.frames[a]
    ensures a in t.frames && a !in s.frames ==> t.frames[a].Fresh?
    ensures a in s.frames && s.frames[a].Waits() ==>
      var o := s.frames[a].slot.op; o in s.ops && o < s.nextOp ==> o in t.ops && t.ops[o] == s.ops[o]
  {
  }

  lemma OpsOld(s: St)
    requires Inv(s)
    ensures forall o: OpId :: o in s.ops ==> o < s.nextOp
  {
    hide Domain, AllMatched, Population, Conns, Wires, Inputs;
  }

  lemma SameAt(s: St, t: St, a: CoId, k: ConnId)
    requires a in s.frames ==> a in t.frames && t.frames[a] == s.frames[a]
    requires a in t.frames && a !in s.frames ==> t.frames[a].Fresh?
    requires a in s.frames && s.frames[a].Waits() && !s.frames[a].slot.done ==>
      var o := s.frames[a].slot.op; o in s.ops && o in t.ops && t.ops[o] == s.ops[o]
    ensures (Accepts(t, a) <==> Accepts(s, a)) && (Fails(t, k, a) <==> Fails(s, k, a))
  {
  }

  /** A fresh operation is neither accepted nor failed. */
  lemma FreshIsNeither(s: St, t: St, co: CoId, req: Request, k: ConnId)
    requires Submitted(s, t, co, req)
    ensures !Accepts(t, co) && !Fails(t, k, co)
  {
  }

  lemma MovesIsNeither(s: St, t: St, co: CoId, conn: ConnId, moves: seq<Move>, k: ConnId)
    requires Moves(s, t, co, conn, moves)
    ensures !Accepts(t, co) && !Fails(t, k, co) && t.open == s.open
  {
  }

  lemma WakeOfAcceptor(s: St, co: CoId, choice: Choice, k: ConnId)
    requires Inv(s) && Enabled(s, EvWake(co, choice)) && co in s.frames && s.frames[co].Accepts()
    ensures var t := Next(s, EvWake(co, choice)); Made(t) == Made(s) && Lost(t, k) == Lost(s, k)
  {
    hide Inv, Next, Accepts, Fails, Submitted, OthersStay;
    var t := Next(s, EvWake(co, choice));
    WakeOthersNext(s, co, choice);
    Elsewhere(s, t, co);
    AcceptorAlone(s, co);
    TokenDone(s, co);
    if s.frames[co].Accepting? && s.frames[co].slot.ok {
      AcceptAdds(s, co, choice);
      FreshIsNeither(s, t, co, ReadOp(s.nextConn), k);
    } else {
      AcceptAgain(s, co, choice);
      FreshIsNeither(s, t, co, AcceptOp, k);
    }
  }

  lemma WakeOthersNext(s: St, co: CoId, choice: Choice)
    requires Inv(s) && Enabled(s, EvWake(co, choice))
    ensures co in s.frames && OthersStay(s, Next(s, EvWake(co, choice)), co)
  {
    hide Inv, RunBody, OthersStay;
    WakeOthers(s, co, choice);
  }

  lemma TokenDone(s: St, co: CoId)
    requires Inv(s) && co in s.rt.tokens
    ensures co in s.frames && (s.frames[co].Waits() ==> s.frames[co].slot.done)
    ensures Accepts(s, co) <==> s.frames[co].Accepting? && s.frames[co].slot.ok
    ensures forall k :: Fails(s, k, co) <==> s.frames[co].Reading? && s.frames[co].conn == k && !s.frames[co].slot.ok
  {
    TakenIs(s, co);
    hide Inv;
  }

  lemma AcceptorAlone(s: St, co: CoId)
    requires Inv(s) && co in s.frames && s.frames[co].Accepts()
    ensures forall a :: Accepts(s, a) ==> a == co
    ensures forall k: ConnId, c: CoId :: Fails(s, k, c) ==> k in s.open && k < s.nextConn
  {
    Roles(s);
    assert EachServed(s) && Conns(s);
    hide Inv;
  }

  lemma WakeOfServer(s: St, co: CoId, choice: Choice, k: ConnId)
    requires Inv(s) && Enabled(s, EvWake(co, choice)) && co in s.frames && s.frames[co].Serves()
    ensures var t := Next(s, EvWake(co, choice)); Made(t) == Made(s) && Lost(t, k) == Lost(s, k)
  {
    hide Inv, Next, Accepts, Fails, Submitted, OthersStay, Moves;
    var t := Next(s, EvWake(co, choice));
    WakeOthersNext(s, co, choice);
    Elsewhere(s, t, co);
    TokenDone(s, co);
    ServesOwn(s, co);
    NoConnMade(s, co, choice);
    ServerAlone(s, co);
    match s.frames[co]
    case Reading(slot, conn) =>
      if slot.ok {
        ReadHandsOn(s, co, choice);
        MovesIsNeither(s, t, co, conn, choice.moves, k);
      } else {
        FailedReadCloses(s, co, choice);
        GoneIsNeither(t, co, k);
        assert Fails(s, conn, co);
        assert k == conn ==> forall c :: !Fails(t, k, c);
      }
    case Writing(slot, conn, data, sent, rest) =>
      WriteGoesOn(s, co, choice);
      WriteStaysOpen(s, co, choice);
      if sent + slot.size == |data| {
        MovesIsNeither(s, t, co, conn, rest, k);
      } else {
        FreshIsNeither(s, t, co, WriteOp(conn, data[sent + slot.size..]), k);
      }
    case Pausing(conn, rest) =>
      PauseGoesOn(s, co, choice);
      MovesIsNeither(s, t, co, conn, rest, k);
    case _ =>
  }

  lemma GoneIsNeither(t: St, co: CoId, k: ConnId)
    requires co in t.frames && t.frames[co].Gone?
    ensures !Accepts(t, co) && !Fails(t, k, co)
  {
  }

  lemma ServerAlone(s: St, co: CoId)
    requires Inv(s) && co in s.frames && s.frames[co].Serves()
    ensures forall c :: Fails(s, s.frames[co].conn, c) ==> c == co
  {
    Roles(s);
    hide Inv;
  }

  lemma ConnectionsStep(s: St, e: Event, k: ConnId)
    requires Inv(s) && Enabled(s, e)
    ensures Made(Next(s, e)) == Made(s) + One(AcceptOk(s, e))
    ensures Lost(Next(s, e), k) == Lost(s, k) + One(ReadFails(s, e, k))
  {
    hide Inv, Made, Lost, RunBody, Kernel, Handler;
    match e
    case EvWake(co, choice) =>
      RolesOf(s, co);
      if s.frames[co].Serves() {
        WakeOfServer(s, co, choice, k);
      } else {
        WakeOfAcceptor(s, co, choice, k);
      }
    case EvKernel(op, outcome) => KernelConnections(s, op, outcome, k);
    case EvHandler(op) => HandlerConnections(s, op, k);
    case _ =>
      var t := Next(s, e);
      SameFrames(s, t, k);
  }

  lemma SameFrames(s: St, t: St, k: ConnId)
    requires t == s.(rt := t.rt)
    ensures Made(t) == Made(s) && Lost(t, k) == Lost(s, k)
  {
    assert forall a :: Accepts(s, a) <==> Accepts(t, a);
    assert forall c :: Fails(s, k, c) <==> Fails(t, k, c);
  }

  lemma {:induction false} ConnectionsRun(s: St, es: seq<Event>, k: ConnId)
    requires Inv(s) && Feasible(s, es) && AllOrderly(s, es)
    ensures Made(Exec(s, es)) == Made(s) + AcceptsOk(s, es)
    ensures Lost(Exec(s, es), k) == Lost(s, k) + ReadsFailed(s, es, k)
    decreases |es|
  {
    hide Inv, Next, Enabled, Orderly, AcceptOk, ReadFails, Made, Lost;
    if es != [] {
      NextInv(s, es[0]);
      ConnectionsStep(s, es[0], k);
      ConnectionsRun(Next(s, es[0]), es[1..], k);
    }
  }

  /** Over every orderly run: as many connections were made as the kernel accepted,
      but for one whose acceptor has not run yet; and a connection is open exactly
      until a read on it fails and its reader has run. No client is dropped, and
      none is kept. */
  lemma ConnectionsAreAccepts(es: seq<Event>, k: ConnId)
    requires Feasible(LISTENING, es) && AllOrderly(LISTENING, es)
    ensures var s := Exec(LISTENING, es);
      && s.nextConn + One(exists a :: Accepts(s, a)) == AcceptsOk(LISTENING, es)
      && (k < s.nextConn ==>
            (k in s.open <==> ReadsFailed(LISTENING, es, k) == 0 || exists c :: Fails(s, k, c)))
      && ReadsFailed(LISTENING, es, k) <= 1
  {
    InitInv();
    hide Domain, AllMatched, HandlersMatched, OneAcceptor, Wires, Inputs;
    RunKeepsInv(LISTENING, es);
    var s := Exec(LISTENING, es);
    assert Conns(s);
    assert forall c :: Fails(s, k, c) ==> k in s.open by { FailsOpen(s, k); }
    hide Inv;
    ConnectionsRun(LISTENING, es, k);
    NothingYet(k);
    hide Accepts, Fails;
  }

  lemma FailsOpen(s: St, k: ConnId)
    requires Inv(s)
    ensures forall c :: Fails(s, k, c) ==> k in s.open
  {
    assert EachServed(s);
  }

  lemma NothingYet(k: ConnId)
    ensures Made(LISTENING) == 0 && Lost(LISTENING, k) == 0
  {
    assert forall a :: !Accepts(LISTENING, a);
    assert forall c :: !Fails(LISTENING, k, c);
  }
}
