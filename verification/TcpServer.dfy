/**
 The coroutines of src/common/tcp_server: every one runs TcpServer::handle,
 that is accept, spawn the successor, then a read loop whose message handler
 may send any replies on the connection and wait with a timer any number of
 times, as FixBuilder::create does. Every wait on a socket is "start the
 operation, yield, the completion handler writes the locals and posts a token".
 Tokens say which coroutine to resume, never why.
 */
module TcpServer {
  import opened Wrappers
  import opened Runtime

  type ConnId = nat
  type OpId = nat

  /** The locals `ec` and `size` of one wait, as its completion handler sees
      them. `ec` starts as success; `done` is history: the handler ran. */
  datatype Slot = Slot(op: OpId, done: bool, ok: bool, size: nat)

  /** What a message handler does next: send a reply, or yield with a timer. */
  datatype Move = Say(text: string) | Pause

  /** What is open when a token runs: what the message handler does, should a
      message arrive, and what the uninitialised `size` of recv holds. */
  datatype Choice = Choice(moves: seq<Move>, junk: nat)

  const NOTHING := Choice([], 0)

  /** Where a coroutine is suspended. Writing is the loop of
      TcpConnection::send, with `sent` for `send_size`; Pausing is a yield_for
      inside the message handler; `rest` is what the handler has still to do. */
  datatype Frame =
    | Fresh
    | Accepting(slot: Slot)
    | Reading(slot: Slot, conn: ConnId)
    | Writing(slot: Slot, conn: ConnId, data: string, sent: nat, rest: seq<Move>)
    | Pausing(conn: ConnId, rest: seq<Move>)
    | Gone
  {
    predicate Waits() { Accepting? || Reading? || Writing? }

    predicate Serves() { Reading? || Writing? || Pausing? }

    predicate Accepts() { Fresh? || Accepting? }
  }

  datatype Request = AcceptOp | ReadOp(conn: ConnId) | WriteOp(conn: ConnId, bytes: string)

  /** Success for accept and write, Data for read. */
  datatype Outcome = Failure | Success(size: nat) | Data(text: string)

  /** An operation the kernel was given and whose completion handler has not run. */
  datatype Op = Op(co: CoId, req: Request, result: Option<Outcome>)

  /** The `data_` of a connection, where every read begins at the front; and as
      history what the reads on it returned, and what do_recv was called with. */
  datatype Input = Input(buffer: string, got: seq<string>, handled: seq<string>)

  const NO_INPUT := Input("", [], [])

  /** std::array<char, 1024> */
  const CAPACITY := 1024

  /** `down`: an exception escaped a coroutine and the io thread, so the process
      is gone. The three before `input` are history: `server` names the coroutine
      that accepted a connection, `wire` is what the kernel has taken for each
      connection, `returned` the arguments of the send calls on it that came
      back. */
  datatype St = St(
    rt: Rt,
    frames: map<CoId, Frame>,
    ops: map<OpId, Op>,
    nextOp: OpId,
    nextConn: ConnId,
    open: set<ConnId>,
    server: map<ConnId, CoId>,
    wire: map<ConnId, string>,
    returned: map<ConnId, seq<string>>,
    input: map<ConnId, Input>,
    down: bool)

  // ---------------------------------------------------------------------
  // The bodies, cut at their yields
  // ---------------------------------------------------------------------

  function EmptySlot(s: St): Slot { Slot(s.nextOp, false, true, 0) }

  function Start(s: St, co: CoId, req: Request, frame: Frame): St {
    s.(ops := s.ops[s.nextOp := Op(co, req, None)],
       nextOp := s.nextOp + 1,
       frames := s.frames[co := frame])
  }

  function StartAccept(s: St, co: CoId): St {
    Start(s, co, AcceptOp, Accepting(EmptySlot(s)))
  }

  function StartRead(s: St, co: CoId, conn: ConnId): St {
    Start(s, co, ReadOp(conn), Reading(EmptySlot(s), conn))
  }

  /** The part of `data` not sent yet. */
  function From(data: string, sent: nat): string {
    if sent <= |data| then data[sent..] else ""
  }

  /** One turn of the loop in TcpConnection::send. */
  function StartWrite(s: St, co: CoId, conn: ConnId, data: string, sent: nat, rest: seq<Move>): St {
    Start(s, co, WriteOp(conn, From(data, sent)), Writing(EmptySlot(s), conn, data, sent, rest))
  }

  /** The message handler yields with a timer. */
  function StartPause(s: St, co: CoId, conn: ConnId, rest: seq<Move>): St {
    s.(rt := Arm(s.rt, co), frames := s.frames[co := Pausing(conn, rest)])
  }

  /** The message handler makes its next move; after the last one recv is
      called again. */
  function Proceed(s: St, co: CoId, conn: ConnId, moves: seq<Move>): St {
    if moves == [] then StartRead(s, co, conn)
    else match moves[0]
      case Say(text) => StartWrite(s, co, conn, text, 0, moves[1..])
      case Pause => StartPause(s, co, conn, moves[1..])
  }

  /** accept returned a socket: spawn the successor, make the connection. */
  function Admitted(s: St, co: CoId): St {
    var conn := s.nextConn;
    s.(rt := Spawn(s.rt),
       nextConn := conn + 1,
       open := s.open + {conn},
       server := s.server[conn := co],
       wire := s.wire[conn := ""],
       returned := s.returned[conn := []],
       input := s.input[conn := NO_INPUT],
       frames := s.frames[s.rt.next := Fresh])
  }

  /** Then recv. */
  function Accepted(s: St, co: CoId): St {
    StartRead(Admitted(s, co), co, s.nextConn)
  }

  /** recv failed: close the socket, the read loop and the body end. */
  function Closed(s: St, co: CoId, conn: ConnId): St {
    s.(rt := Finish(s.rt, co), open := s.open - {conn}, frames := s.frames[co := Gone])
  }

  /** The turn of send is over, `sent` bytes are out in all. */
  function Wrote(s: St, co: CoId, conn: ConnId, data: string, sent: nat, rest: seq<Move>): St {
    if sent == |data| then
      var calls := if conn in s.returned then s.returned[conn] else [];
      Proceed(s.(returned := s.returned[conn := calls + [data]]), co, conn, rest)
    else StartWrite(s, co, conn, data, sent, rest)
  }

  function InputOf(s: St, conn: ConnId): Input {
    if conn in s.input then s.input[conn] else NO_INPUT
  }

  function Front(text: string, n: nat): string {
    if n <= |text| then text[..n] else text
  }

  /** do_recv is called with the first `n` bytes of the buffer. */
  function Heard(s: St, conn: ConnId, n: nat): map<ConnId, Input> {
    var i := InputOf(s, conn);
    s.input[conn := i.(handled := i.handled + [Front(i.buffer, n)])]
  }

  /** What the body does from a yield to the next one. When the wait of accept
      ends before its completion, the socket is not connected and
      remote_endpoint throws. */
  function Body(s: St, co: CoId, choice: Choice): St
    requires co in s.frames
  {
    match s.frames[co]
    case Fresh => StartAccept(s, co)
    case Accepting(slot) =>
      if !slot.ok then StartAccept(s, co) else if slot.done then Accepted(s, co) else s.(down := true)
    case Reading(slot, conn) =>
      if slot.ok then
        Proceed(s.(input := Heard(s, conn, if slot.done then slot.size else choice.junk)), co, conn, choice.moves)
      else Closed(s, co, conn)
    case Writing(slot, conn, data, sent, rest) => Wrote(s, co, conn, data, sent + slot.size, rest)
    case Pausing(conn, rest) => Proceed(s, co, conn, rest)
    case Gone => s
  }

  // ---------------------------------------------------------------------
  // Steps
  // ---------------------------------------------------------------------

  /** EvWake: a token runs. EvKernel: the kernel is done with an operation, its
      handler is queued. EvHandler: the handler writes the locals of its wait
      and posts a token. EvExpire, EvFired, EvCancelled: a timer expires, its
      handler runs, without and with an error. EvStray: somebody else resumes
      the coroutine, as the FIX thread does. */
  datatype Event =
    | EvWake(co: CoId, choice: Choice)
    | EvKernel(op: OpId, outcome: Outcome)
    | EvHandler(op: OpId)
    | EvExpire(co: CoId)
    | EvFired(co: CoId)
    | EvCancelled(co: CoId)
    | EvStray(co: CoId)

  /** A socket write error escapes the coroutine and is not part of this model. */
  predicate Possible(req: Request, outcome: Outcome) {
    match req
    case AcceptOp => !outcome.Data?
    case ReadOp(_) => !outcome.Success? && (outcome.Data? ==> |outcome.text| <= CAPACITY)
    case WriteOp(_, bytes) => outcome.Success? && outcome.size <= |bytes|
  }

  predicate Enabled(s: St, e: Event) {
    !s.down &&
    match e
    case EvWake(co, _) => co in s.rt.tokens
    case EvKernel(op, outcome) => op in s.ops && s.ops[op].result == None && Possible(s.ops[op].req, outcome)
    case EvHandler(op) => op in s.ops && s.ops[op].result.Some?
    case EvExpire(co) => co in s.rt.armed
    case EvFired(co) => co in s.rt.fired
    case EvCancelled(co) => co in s.rt.cancelled
    case EvStray(co) => co < s.rt.next
  }

  /** The state once a token of `co` was taken from the queue. */
  function Taken(s: St, co: CoId): St
    requires co in s.rt.tokens
  {
    s.(rt := Take(s.rt, co))
  }

  function RunBody(s: St, co: CoId, choice: Choice): St
    requires co in s.rt.tokens
  {
    if co in s.rt.live && co in s.frames then Body(Taken(s, co), co, choice) else Taken(s, co)
  }

  function Kernel(s: St, op: OpId, outcome: Outcome): St
    requires op in s.ops && Possible(s.ops[op].req, outcome)
  {
    var o := s.ops[op];
    var t := s.(ops := s.ops[op := o.(result := Some(outcome))]);
    match o.req
    case WriteOp(conn, bytes) =>
      var before := if conn in s.wire then s.wire[conn] else "";
      t.(wire := s.wire[conn := before + bytes[..outcome.size]])
    case ReadOp(conn) =>
      if outcome.Data? then t.(input := Read(s, conn, outcome.text)) else t
    case AcceptOp => t
  }

  /** The kernel puts `text` at the front of the buffer. */
  function Read(s: St, conn: ConnId, text: string): map<ConnId, Input> {
    var i := InputOf(s, conn);
    var kept := if |text| <= |i.buffer| then i.buffer[|text|..] else "";
    s.input[conn := i.(buffer := text + kept, got := i.got + [text])]
  }

  /** The handler's captured references reach the wait that started it; when
      that wait is over there is nothing left to write to. */
  function Fill(f: Frame, op: OpId, outcome: Outcome): Frame {
    var slot := match outcome
                case Failure => Slot(op, true, false, 0)
                case Success(n) => Slot(op, true, true, n)
                case Data(text) => Slot(op, true, true, |text|);
    if f.Waits() && f.slot.op == op then f.(slot := slot) else f
  }

  function Handler(s: St, op: OpId): St
    requires op in s.ops && s.ops[op].result.Some?
  {
    var co := s.ops[op].co;
    var frames := if co in s.frames
                  then s.frames[co := Fill(s.frames[co], op, s.ops[op].result.value)]
                  else s.frames;
    s.(ops := s.ops - {op}, frames := frames, rt := Post(s.rt, co))
  }

  function Next(s: St, e: Event): St
    requires Enabled(s, e)
  {
    match e
    case EvWake(co, choice) => RunBody(s, co, choice)
    case EvKernel(op, outcome) => Kernel(s, op, outcome)
    case EvHandler(op) => Handler(s, op)
    case EvExpire(co) => s.(rt := Expire(s.rt, co))
    case EvFired(co) => s.(rt := RunFired(s.rt, co))
    case EvCancelled(co) => s.(rt := RunCancelled(s.rt, co))
    case EvStray(co) => s.(rt := Post(s.rt, co))
  }

  predicate Feasible(s: St, es: seq<Event>)
    decreases |es|
  {
    es == [] || (Enabled(s, es[0]) && Feasible(Next(s, es[0]), es[1..]))
  }

  function Exec(s: St, es: seq<Event>): St
    requires Feasible(s, es)
    decreases |es|
  {
    if es == [] then s else Exec(Next(s, es[0]), es[1..])
  }

  /** The constructor of TcpServer spawns the first accepting coroutine. */
  const LISTENING := St(Spawn(EMPTY), map[0 := Fresh], map[], 0, 0, {}, map[], map[], map[], map[], false)

  // ---------------------------------------------------------------------
  // The objects
  // ---------------------------------------------------------------------

  /** TcpServer with the sockets and the suspended frames of its coroutines. */
  class TcpServer {
    const sched: Schedule
    var frames: map<CoId, Frame>
    var ops: map<OpId, Op>
    var nextOp: OpId
    var nextConn: ConnId
    var open: set<ConnId>
    ghost var server: map<ConnId, CoId>
    ghost var wire: map<ConnId, string>
    ghost var returned: map<ConnId, seq<string>>
    var input: map<ConnId, Input>
    var down: bool

    ghost function View(): St
      reads this, sched
    {
      St(sched.View(), frames, ops, nextOp, nextConn, open, server, wire, returned, input, down)
    }

    constructor (sched: Schedule)
      requires sched.View() == EMPTY
      modifies sched
      ensures View() == LISTENING && this.sched == sched
    {
      this.sched := sched;
      frames, ops, nextOp, nextConn, open := map[0 := Fresh], map[], 0, 0, {};
      server, wire, returned, input, down := map[], map[], map[], map[], false;
      new;
      var _ := sched.SpawnCo();
    }

    /** async_accept, async_read_some, async_write_some, followed by the yield. */
    method Submit(co: CoId, req: Request, frame: Frame)
      modifies this
      ensures View() == Start(old(View()), co, req, frame)
    {
      ops := ops[nextOp := Op(co, req, None)];
      nextOp := nextOp + 1;
      frames := frames[co := frame];
    }

    method Accept(co: CoId)
      modifies this
      ensures View() == StartAccept(old(View()), co)
    {
      Submit(co, AcceptOp, Accepting(Slot(nextOp, false, true, 0)));
    }

    method Recv(co: CoId, conn: ConnId)
      modifies this
      ensures View() == StartRead(old(View()), co, conn)
    {
      Submit(co, ReadOp(conn), Reading(Slot(nextOp, false, true, 0), conn));
    }

    /** The message handler makes its moves one after the other; each call of
        send suspends inside its loop, each get_for in its yield. */
    method NextMove(co: CoId, conn: ConnId, moves: seq<Move>)
      modifies this, sched
      ensures View() == Proceed(old(View()), co, conn, moves)
    {
      hide Arm;
      if moves == [] {
        Recv(co, conn);
        return;
      }
      match moves[0]
      case Say(text) => SendTurn(co, conn, text, 0, moves[1..]);
      case Pause =>
        sched.YieldFor(co);
        frames := frames[co := Pausing(conn, moves[1..])];
    }

    method SendTurn(co: CoId, conn: ConnId, data: string, sent: nat, rest: seq<Move>)
      modifies this
      ensures View() == StartWrite(old(View()), co, conn, data, sent, rest)
    {
      Submit(co, WriteOp(conn, From(data, sent)), Writing(Slot(nextOp, false, true, 0), conn, data, sent, rest));
    }

    /** accept returned a socket: spawn the successor, make the connection. */
    method Admit(co: CoId)
      modifies this, sched
      ensures View() == Admitted(old(View()), co)
    {
      hide Spawn;
      var conn := nextConn;
      var successor := sched.SpawnCo();
      frames := frames[successor := Fresh];
      nextConn := conn + 1;
      open := open + {conn};
      server, wire, returned := server[conn := co], wire[conn := ""], returned[conn := []];
      input := input[conn := NO_INPUT];
    }

    /** Then the first recv. */
    method Connected(co: CoId)
      modifies this, sched
      ensures View() == Accepted(old(View()), co)
    {
      hide Admitted, StartRead;
      var conn := nextConn;
      Admit(co);
      Recv(co, conn);
    }

    /** recv failed: the socket is closed, the read loop and handle end. */
    method Close(co: CoId, conn: ConnId)
      modifies this, sched
      ensures View() == Closed(old(View()), co, conn)
    {
      hide Finish;
      open := open - {conn};
      frames := frames[co := Gone];
      sched.Erase(co);
    }

    /** The rest of the loop in send: `now` bytes are out. */
    method AfterWrite(co: CoId, conn: ConnId, data: string, now: nat, rest: seq<Move>)
      modifies this, sched
      ensures View() == Wrote(old(View()), co, conn, data, now, rest)
    {
      hide Start, StartPause, From;
      if now == |data| {
        returned := returned[conn := (if conn in returned then returned[conn] else []) + [data]];
        NextMove(co, conn, rest);
      } else {
        SendTurn(co, conn, data, now, rest);
      }
    }

    /** do_recv with the first `n` bytes of the buffer. */
    method DoRecv(conn: ConnId, n: nat)
      modifies this`input
      ensures input == Heard(old(View()), conn, n)
    {
      var i := if conn in input then input[conn] else NO_INPUT;
      input := input[conn := i.(handled := i.handled + [Front(i.buffer, n)])];
    }

    /** A resume token runs: TcpServer::handle from one yield to the next. */
    method Wake(co: CoId, choice: Choice)
      requires co in sched.tokens
      modifies this, sched
      ensures View() == RunBody(old(View()), co, choice)
    {
      hide Take, StartAccept, Proceed, Wrote, Accepted, Closed;
      var alive := sched.BeginToken(co);
      if !alive || co !in frames {
        return;
      }
      match frames[co]
      case Fresh => Accept(co);
      case Accepting(slot) =>
        if !slot.ok {
          Accept(co);
        } else if slot.done {
          Connected(co);
        } else {
          down := true;
        }
      case Reading(slot, conn) =>
        if slot.ok {
          DoRecv(conn, if slot.done then slot.size else choice.junk);
          NextMove(co, conn, choice.moves);
        } else {
          Close(co, conn);
        }
      case Writing(slot, conn, data, sent, rest) => AfterWrite(co, conn, data, sent + slot.size, rest);
      case Pausing(conn, rest) => NextMove(co, conn, rest);
      case Gone =>
    }

    /** The lambda passed to async_accept, async_read_some or async_write_some. */
    method CompletionHandler(op: OpId)
      requires op in ops && ops[op].result.Some?
      modifies this, sched
      ensures View() == Handler(old(View()), op)
    {
      var o := ops[op];
      ops := ops - {op};
      if o.co in frames {
        frames := frames[o.co := Fill(frames[o.co], op, o.result.value)];
      }
      sched.Resume(o.co);
    }
  }

  /** What the kernel answers to one async_write_some. */
  datatype Answer = Broken | TakesUpTo(limit: nat)

  /** How a call of TcpConnection::send stands. */
  datatype Sent = Finished | Threw | Suspended

  /** TcpConnection::send in its own form, for a coroutine whose waits are
      matched: the kernel's answers come from a script. */
  class TcpConnection {
    var wire: string

    constructor ()
      ensures wire == ""
    {
      wire := "";
    }

    /** The wire always holds what it held before and a prefix of `data`; the
        whole of it when the call returns. A kernel that takes something at
        every turn finishes within |data| turns, one turn for no data. */
    method Send(data: string, script: seq<Answer>) returns (status: Sent, ghost taken: nat)
      modifies this
      ensures taken <= |data| && wire == old(wire) + data[..taken]
      ensures status == Finished ==> taken == |data|
      ensures status == Threw ==> exists a :: a in script && a.Broken?
      ensures (forall a :: a in script ==> a.TakesUpTo? && a.limit > 0) && |script| > 0 && |script| >= |data|
              ==> status == Finished
    {
      var sent, turn := 0, 0;
      taken := 0;
      assert data[..0] == "";
      while turn < |script|
        invariant 0 <= turn <= |script| && taken == sent <= |data|
        invariant turn > 0 ==> sent < |data|
        invariant wire == old(wire) + data[..sent]
        invariant (forall a :: a in script ==> a.TakesUpTo? && a.limit > 0) ==> turn <= sent
      {
        var left := data[sent..];
        match script[turn]
        case Broken =>
          assert script[turn] in script;
          return Threw, sent;
        case TakesUpTo(limit) =>
          assert script[turn] in script;
          var size := if limit <= |left| then limit else |left|;
          assert data[..sent + size] == data[..sent] + left[..size];
          wire := wire + left[..size];
          sent := sent + size;
          taken := sent;
          if sent == |data| {
            return Finished, sent;
          }
          turn := turn + 1;
      }
      status := Suspended;
    }
  }
}
