/**
 What the socket machine keeps, as long as every coroutine is resumed only by
 what it waits for.
 */
module TcpInvariant {
  import opened Wrappers
  import opened Runtime
  import opened TcpServer

  // ---------------------------------------------------------------------
  // Invariants
  // ---------------------------------------------------------------------

  ghost predicate Domain(s: St) {
    && RtInv(s.rt)
    && (forall c: CoId :: c in s.frames <==> c < s.rt.next)
    && (forall c: CoId :: c in s.frames ==> (s.frames[c].Gone? <==> c !in s.rt.live))
    && (forall c: CoId :: c in s.rt.live ==> c in s.frames)
  }

  function RequestOf(f: Frame): Request
    requires f.Waits()
  {
    match f
    case Accepting(_) => AcceptOp
    case Reading(_, conn) => ReadOp(conn)
    case Writing(_, conn, data, sent, _) => WriteOp(conn, From(data, sent))
  }

  /** The operation `f` waits for is with the kernel and belongs to `c`. */
  ghost predicate Pending(s: St, c: CoId, f: Frame)
    requires f.Waits()
  {
    && f.slot == Slot(f.slot.op, false, true, 0)
    && f.slot.op in s.ops
    && s.ops[f.slot.op].co == c
    && s.ops[f.slot.op].req == RequestOf(f)
  }

  predicate NoTimer(r: Rt, c: CoId) {
    c !in r.armed && r.fired[c] == 0
  }

  /** Await matching. Not started with one token; or waiting with the operation
      pending and nothing queued; or waiting with its own operation complete and
      exactly one token; or waiting for its timer, which is armed or expired,
      or for the one token posted meanwhile. */
  ghost predicate Matched(s: St, c: CoId)
    requires c in s.frames
  {
    match s.frames[c]
    case Fresh => NoTimer(s.rt, c) && s.rt.tokens[c] == 1
    case Gone => NoTimer(s.rt, c) && s.rt.tokens[c] == 0
    case Pausing(_, _) =>
      if c in s.rt.armed then s.rt.fired[c] == 0 && s.rt.tokens[c] <= 1
      else s.rt.fired[c] + s.rt.tokens[c] == 1
    case _ =>
      NoTimer(s.rt, c) &&
      if s.frames[c].slot.done then s.rt.tokens[c] == 1
      else s.rt.tokens[c] == 0 && Pending(s, c, s.frames[c])
  }

  /** Matched looks at one frame, its operation, its tokens and its timer. */
  lemma SameMatch(s: St, t: St, c: CoId)
    requires c in s.frames && c in t.frames && t.frames[c] == s.frames[c] && Matched(s, c)
    requires t.ops == s.ops && t.rt.tokens[c] == s.rt.tokens[c]
    requires t.rt.fired[c] == s.rt.fired[c] && (c in t.rt.armed <==> c in s.rt.armed)
    ensures Matched(t, c)
  {
  }

  ghost predicate AllMatched(s: St) {
    forall c: CoId :: c in s.frames ==> Matched(s, c)
  }

  /** A handler that has yet to run finds the very wait that started it. */
  ghost predicate HandlersMatched(s: St) {
    forall o: OpId :: o in s.ops ==>
      && o < s.nextOp
      && s.ops[o].co in s.frames
      && s.frames[s.ops[o].co].Waits()
      && s.frames[s.ops[o].co].slot.op == o
      && !s.frames[s.ops[o].co].slot.done
      && (s.ops[o].result.Some? ==> Possible(s.ops[o].req, s.ops[o].result.value))
  }

  ghost predicate ServedBy(s: St, k: ConnId, c: CoId) {
    c in s.frames && s.frames[c].Serves() && s.frames[c].conn == k
  }

  /** One coroutine accepts or is queued to; every open connection has one
      server; cos_ has one member more than there are open connections. */
  ghost predicate Population(s: St) {
    OneAcceptor(s) && EachServed(s) && |s.rt.live| == |s.open| + 1
  }

  ghost predicate OneAcceptor(s: St) {
    && (exists a: CoId :: a in s.frames && s.frames[a].Accepts())
    && (forall a: CoId, b: CoId | a in s.frames && b in s.frames ::
          s.frames[a].Accepts() && s.frames[b].Accepts() ==> a == b)
  }

  ghost predicate EachServed(s: St) {
    && (forall c: CoId :: c in s.frames && s.frames[c].Serves() ==>
          s.frames[c].conn in s.open && s.frames[c].conn in s.server && s.server[s.frames[c].conn] == c)
    && (forall k: ConnId :: k in s.open ==> k in s.server && ServedBy(s, k, s.server[k]))
  }

  ghost predicate Conns(s: St) {
    && (forall k: ConnId :: k in s.wire <==> k < s.nextConn)
    && (forall k: ConnId :: k in s.returned <==> k < s.nextConn)
    && (forall k: ConnId :: k in s.input <==> k < s.nextConn)
    && (forall k: ConnId :: k in s.open ==> k < s.nextConn)
  }

  function Flat(parts: seq<string>): string {
    if parts == [] then "" else Flat(parts[..|parts|-1]) + parts[|parts|-1]
  }

  /** How much of `data` the kernel has taken, beyond `sent`. */
  function Received(s: St, f: Frame): nat
    requires f.Waits()
  {
    if f.slot.done then f.slot.size
    else if f.slot.op in s.ops && s.ops[f.slot.op].result.Some? && s.ops[f.slot.op].result.value.Success?
    then s.ops[f.slot.op].result.value.size
    else 0
  }

  /** The bytes on the wire of the connection `f` serves. */
  ghost predicate WireOf(s: St, f: Frame)
    requires f.Serves()
  {
    && f.conn in s.wire && f.conn in s.returned
    && if f.Writing? then
         && f.sent + Received(s, f) <= |f.data|
         && s.wire[f.conn] == Flat(s.returned[f.conn]) + f.data[..f.sent + Received(s, f)]
         && (f.slot.done ==> f.slot.ok)
       else s.wire[f.conn] == Flat(s.returned[f.conn])
  }

  ghost predicate Wires(s: St) {
    && (forall c: CoId :: c in s.frames && s.frames[c].Serves() ==> WireOf(s, s.frames[c]))
    && (forall k: ConnId :: k in s.wire && k in s.returned && k !in s.open ==> s.wire[k] == Flat(s.returned[k]))
  }

  /** What a read on the connection of `f` returned and do_recv has not seen. */
  function Unheard(s: St, f: Frame): seq<string>
    requires f.Serves()
  {
    var buffer := InputOf(s, f.conn).buffer;
    if !f.Reading? then []
    else if f.slot.done then (if f.slot.ok then [Front(buffer, f.slot.size)] else [])
    else if f.slot.op in s.ops && s.ops[f.slot.op].result.Some? && s.ops[f.slot.op].result.value.Data?
    then [Front(buffer, |s.ops[f.slot.op].result.value.text|)]
    else []
  }

  /** The handler has seen all reads of the connection `f` serves but that one;
      what it saw last is still at the front of the buffer until the next. */
  ghost predicate InputAt(s: St, f: Frame)
    requires f.Serves()
  {
    && f.conn in s.input
    && var i := s.input[f.conn];
    && i.got == i.handled + Unheard(s, f)
    && (Unheard(s, f) == [] && i.handled != [] ==> i.handled[|i.handled|-1] <= i.buffer)
  }

  ghost predicate Inputs(s: St) {
    && (forall c: CoId :: c in s.frames && s.frames[c].Serves() ==> InputAt(s, s.frames[c]))
    && (forall k: ConnId :: k in s.input && k !in s.open ==> s.input[k].got == s.input[k].handled)
  }

  ghost predicate Inv(s: St) {
    !s.down && Inputs(s) &&
    Domain(s) && AllMatched(s) && HandlersMatched(s) && Population(s) && Conns(s) && Wires(s)
  }

  lemma InitDomain()
    ensures Domain(LISTENING) && LISTENING.rt.live == {0} && NoTimer(LISTENING.rt, 0)
  {
    InvInit();
  }

  lemma InitInv()
    ensures Inv(LISTENING)
  {
    InitDomain();
    assert LISTENING.frames[0].Accepts();
  }

  lemma DomainKept(s: St, t: St)
    requires Domain(s) && RtInv(t.rt) && t.rt.next == s.rt.next && t.rt.live == s.rt.live
    requires t.frames.Keys == s.frames.Keys && forall c: CoId :: c in t.frames ==> (t.frames[c].Gone? <==> s.frames[c].Gone?)
    ensures Domain(t)
  {
    hide RtInv;
    assert forall c: CoId :: c in t.frames <==> c in s.frames;
  }

  // ---------------------------------------------------------------------
  // A coroutine gets control
  // ---------------------------------------------------------------------

  /** `co` runs: nothing of its own is queued or armed, no handler refers to it. */
  ghost predicate InControl(s: St, co: CoId) {
    && co in s.frames && co in s.rt.live && co in s.rt.resumed
    && NoTimer(s.rt, co) && s.rt.tokens[co] == 0
    && (forall c: CoId :: c in s.frames && c != co ==> Matched(s, c))
    && (forall o: OpId :: o in s.ops ==> s.ops[o].co != co)
    && HandlersMatched(s)
  }

  lemma DomainParts(s: St)
    requires Domain(s)
    ensures RtInv(s.rt)
  {
    hide RtInv;
  }

  /** No token outlives its coroutine, or comes before its operation is done. */
  lemma TokenIsLive(s: St, co: CoId)
    requires Domain(s) && AllMatched(s) && co in s.rt.tokens
    ensures co in s.rt.live && co in s.frames && !s.frames[co].Gone?
    ensures s.frames[co].Waits() ==> s.frames[co].slot.done
    ensures s.rt.tokens[co] == 1 && s.rt.fired[co] == 0
  {
    hide RtInv;
    assert co < s.rt.next by { DomainParts(s); TokenKnown(s.rt, co); }
    assert Matched(s, co);
  }

  lemma TokenKnown(r: Rt, co: CoId)
    requires RtInv(r)
    ensures co in r.tokens || co in r.fired || co in r.cancelled || co in r.armed ==> co < r.next
  {
  }

  lemma TakeIs(r: Rt, co: CoId)
    requires RtInv(r) && co in r.tokens && co in r.live
    ensures var t := Take(r, co);
      && RtInv(t) && t.tokens == r.tokens[co := r.tokens[co] - 1] && t.fired == r.fired && t.armed == r.armed - {co}
      && t.next == r.next && t.live == r.live && t.finished == r.finished && co in t.resumed
  {
    hide RtInv;
    InvTake(r, co);
  }

  lemma TokenGivesControl(s: St, co: CoId)
    requires Domain(s) && AllMatched(s) && HandlersMatched(s) && co in s.rt.tokens
    ensures InControl(Taken(s, co), co) && Domain(Taken(s, co))
    ensures Taken(s, co).rt.live == s.rt.live && Taken(s, co).rt.next == s.rt.next
  {
    hide RtInv, Take, Domain, Matched;
    TokenIsLive(s, co);
    assert RtInv(s.rt) by { DomainParts(s); }
    TakeIs(s.rt, co);
    var t := Taken(s, co);
    DomainKept(s, t);
    forall c: CoId | c in t.frames && c != co
      ensures Matched(t, c)
    {
      SameMatch(s, t, c);
    }
  }

  /** The other parts do not look at tokens and timers. */
  lemma OnlyRuntimeMoved(s: St, t: St)
    requires Population(s) && Conns(s) && Wires(s) && Inputs(s)
    requires t == s.(rt := t.rt) && t.rt.live == s.rt.live
    ensures Population(t) && Conns(t) && Wires(t) && Inputs(t)
  {
    hide Wires, Inputs;
    assert forall k: ConnId, c: CoId :: ServedBy(t, k, c) <==> ServedBy(s, k, c);
    WiresOnlyRead(s, t);
    InputsOnlyRead(s, t);
  }

  lemma WiresOnlyRead(s: St, t: St)
    requires Wires(s) && t == s.(rt := t.rt)
    ensures Wires(t)
  {
    forall c: CoId | c in t.frames && t.frames[c].Serves()
      ensures WireOf(t, t.frames[c])
    {
      assert WireOf(s, t.frames[c]);
    }
  }

  lemma InputsOnlyRead(s: St, t: St)
    requires Inputs(s) && t == s.(rt := t.rt)
    ensures Inputs(t)
  {
    forall c: CoId | c in t.frames && t.frames[c].Serves()
      ensures InputAt(t, t.frames[c])
    {
      assert InputAt(s, t.frames[c]);
    }
  }

  // ---------------------------------------------------------------------
  // Population and wires under a change of one frame
  // ---------------------------------------------------------------------

  predicate SameRole(f: Frame, g: Frame) {
    (f.Accepts() && g.Accepts()) || (f.Serves() && g.Serves() && f.conn == g.conn)
  }

  lemma PopulationKept(s: St, t: St, co: CoId, g: Frame)
    requires Population(s) && co in s.frames && SameRole(s.frames[co], g)
    requires t.frames == s.frames[co := g] && t.open == s.open && t.server == s.server && t.rt.live == s.rt.live
    ensures Population(t)
  {
    var a :| a in s.frames && s.frames[a].Accepts();
    assert a in t.frames && t.frames[a].Accepts();
  }

  /** Nothing but the operations of `co` and the wire of its connection moved. */
  ghost predicate ApartFrom(s: St, t: St, co: CoId)
    requires co in s.frames
  {
    && t.open == s.open && t.wire.Keys == s.wire.Keys && t.returned.Keys == s.returned.Keys && t.input.Keys == s.input.Keys
    && (forall k: ConnId :: k in s.input && !(s.frames[co].Serves() && s.frames[co].conn == k) ==> t.input[k] == s.input[k])
    && (forall c: CoId :: c in s.frames && c != co ==> c in t.frames && t.frames[c] == s.frames[c])
    && (forall c: CoId :: c in t.frames ==> c in s.frames)
    && (forall o: OpId :: o in s.ops && s.ops[o].co != co ==> o in t.ops && t.ops[o] == s.ops[o])
    && (forall k: ConnId :: k in s.wire && !(s.frames[co].Serves() && s.frames[co].conn == k)
          ==> t.wire[k] == s.wire[k] && (k in s.returned ==> t.returned[k] == s.returned[k]))
  }

  ghost predicate OthersMatched(s: St, co: CoId) {
    forall c: CoId :: c in s.frames && c != co ==> Matched(s, c)
  }

  lemma WiresKept(s: St, t: St, co: CoId)
    requires OthersMatched(s, co) && EachServed(s) && Wires(s)
    requires co in s.frames && co in t.frames && ApartFrom(s, t, co)
    requires SameRole(s.frames[co], t.frames[co])
    requires t.frames[co].Serves() ==> WireOf(t, t.frames[co])
    ensures Wires(t)
  {
    forall c: CoId | c in t.frames && t.frames[c].Serves()
      ensures WireOf(t, t.frames[c])
    {
      if c != co {
        OtherWire(s, t, co, c);
      }
    }
  }

  lemma OtherWire(s: St, t: St, co: CoId, c: CoId)
    requires OthersMatched(s, co) && EachServed(s) && Wires(s)
    requires co in s.frames && ApartFrom(s, t, co)
    requires c in t.frames && t.frames[c].Serves() && c != co
    ensures WireOf(t, t.frames[c])
  {
    var f := t.frames[c];
    assert Matched(s, c) && WireOf(s, f);
    assert f.Writing? ==> Received(t, f) == Received(s, f);
    assert f.conn in s.server && s.server[f.conn] == c;
  }

  lemma InputsKept(s: St, t: St, co: CoId)
    requires OthersMatched(s, co) && EachServed(s) && Inputs(s)
    requires co in s.frames && co in t.frames && ApartFrom(s, t, co)
    requires SameRole(s.frames[co], t.frames[co])
    requires t.frames[co].Serves() ==> InputAt(t, t.frames[co])
    ensures Inputs(t)
  {
    forall c: CoId | c in t.frames && t.frames[c].Serves()
      ensures InputAt(t, t.frames[c])
    {
      if c != co {
        OtherInput(s, t, co, c);
      }
    }
  }

  lemma OtherInput(s: St, t: St, co: CoId, c: CoId)
    requires OthersMatched(s, co) && EachServed(s) && Inputs(s)
    requires co in s.frames && ApartFrom(s, t, co)
    requires c in t.frames && t.frames[c].Serves() && c != co
    ensures InputAt(t, t.frames[c])
  {
    var f := t.frames[c];
    assert Matched(s, c) && InputAt(s, f);
    assert f.conn in s.server && s.server[f.conn] == c;
    assert Unheard(t, f) == Unheard(s, f);
  }

  // ---------------------------------------------------------------------
  // The kernel and the completion handlers
  // ---------------------------------------------------------------------

  lemma KernelOnly(s: St, op: OpId, outcome: Outcome)
    requires Enabled(s, EvKernel(op, outcome))
    ensures var t := Kernel(s, op, outcome);
      && t.frames == s.frames && t.rt == s.rt && t.nextOp == s.nextOp
      && t.ops == s.ops[op := s.ops[op].(result := Some(outcome))]
  {
    hide Read;
  }

  lemma KernelMatches(s: St, op: OpId, outcome: Outcome)
    requires AllMatched(s) && HandlersMatched(s) && Enabled(s, EvKernel(op, outcome))
    ensures AllMatched(Kernel(s, op, outcome)) && HandlersMatched(Kernel(s, op, outcome))
  {
    hide Kernel, NoTimer;
    KernelOnly(s, op, outcome);
    var t := Kernel(s, op, outcome);
    forall c: CoId | c in t.frames
      ensures Matched(t, c)
    {
      assert Matched(s, c);
    }
  }

  /** An operation with the kernel is the one its coroutine waits for. */
  lemma OwnOperation(s: St, op: OpId)
    requires AllMatched(s) && HandlersMatched(s) && op in s.ops
    ensures var co := s.ops[op].co;
      && co in s.frames && s.frames[co].Waits()
      && s.frames[co].slot == Slot(op, false, true, 0)
      && s.ops[op].req == RequestOf(s.frames[co])
      && s.rt.tokens[co] == 0 && NoTimer(s.rt, co)
  {
    assert Matched(s, s.ops[op].co);
  }

  lemma KernelWire(s: St, op: OpId, outcome: Outcome)
    requires AllMatched(s) && HandlersMatched(s) && Wires(s) && Enabled(s, EvKernel(op, outcome))
    ensures var f := s.frames[s.ops[op].co];
      f.Serves() ==> WireOf(Kernel(s, op, outcome), f)
  {
    OwnOperation(s, op);
    hide AllMatched, HandlersMatched;
    var f := s.frames[s.ops[op].co];
    if f.Serves() {
      assert WireOf(s, f);
      if f.Writing? {
        WireGrows(s.wire[f.conn], Flat(s.returned[f.conn]), f.data, f.sent, outcome.size);
      }
    }
  }

  lemma KernelInput(s: St, op: OpId, outcome: Outcome)
    requires AllMatched(s) && HandlersMatched(s) && Inputs(s) && Enabled(s, EvKernel(op, outcome))
    ensures var f := s.frames[s.ops[op].co];
      f.Serves() ==> InputAt(Kernel(s, op, outcome), f)
  {
    OwnOperation(s, op);
    hide AllMatched, HandlersMatched;
    var f := s.frames[s.ops[op].co];
    if f.Serves() {
      assert InputAt(s, f) && Unheard(s, f) == [];
      if outcome.Data? {
        FrontOfRead(s, f.conn, outcome.text);
      }
    }
  }

  lemma FrontOfRead(s: St, conn: ConnId, text: string)
    ensures var i := Read(s, conn, text)[conn];
      Front(i.buffer, |text|) == text && i.got == InputOf(s, conn).got + [text] && i.handled == InputOf(s, conn).handled
  {
  }

  lemma KernelApart(s: St, op: OpId, outcome: Outcome)
    requires AllMatched(s) && HandlersMatched(s) && Wires(s) && Inputs(s) && Enabled(s, EvKernel(op, outcome))
    ensures ApartFrom(s, Kernel(s, op, outcome), s.ops[op].co)
  {
    OwnOperation(s, op);
    hide AllMatched, HandlersMatched, Unheard;
    if s.frames[s.ops[op].co].Serves() {
      assert WireOf(s, s.frames[s.ops[op].co]) && InputAt(s, s.frames[s.ops[op].co]);
    }
  }

  lemma WireGrows(wire: string, before: string, data: string, sent: nat, n: nat)
    requires sent + n <= |data| && wire == before + data[..sent]
    ensures wire + From(data, sent)[..n] == before + data[..sent + n]
  {
    assert data[..sent + n] == data[..sent] + data[sent..][..n];
  }

  lemma KernelFrame(s: St, op: OpId, outcome: Outcome)
    requires Domain(s) && Conns(s) && AllMatched(s) && HandlersMatched(s) && Wires(s) && Inputs(s)
    requires Enabled(s, EvKernel(op, outcome))
    ensures var t := Kernel(s, op, outcome);
      && !t.down
      && Domain(t) && Conns(t) && t.rt == s.rt && t.open == s.open && t.server == s.server
      && s.ops[op].co in s.frames && t.frames == s.frames[s.ops[op].co := s.frames[s.ops[op].co]]
      && SameRole(s.frames[s.ops[op].co], s.frames[s.ops[op].co])
  {
    hide AllMatched, HandlersMatched, RtInv, Domain;
    OwnOperation(s, op);
    DomainParts(s);
    DomainKept(s, Kernel(s, op, outcome));
    hide Unheard;
    var f := s.frames[s.ops[op].co];
    if f.Serves() {
      assert WireOf(s, f) && InputAt(s, f);
    }
  }

  lemma KernelInv(s: St, op: OpId, outcome: Outcome)
    requires Inv(s) && Enabled(s, EvKernel(op, outcome))
    ensures Inv(Kernel(s, op, outcome))
  {
    hide Domain, AllMatched, HandlersMatched, OneAcceptor, EachServed, Conns, Wires, Inputs, InputAt, ApartFrom, SameRole, WireOf, Kernel, OthersMatched;
    KernelFrame(s, op, outcome);
    var t := Kernel(s, op, outcome);
    var co := s.ops[op].co;
    KernelMatches(s, op, outcome);
    KernelWire(s, op, outcome);
    KernelInput(s, op, outcome);
    KernelApart(s, op, outcome);
    PopulationKept(s, t, co, s.frames[co]);
    AllAreOthers(s, co);
    WiresKept(s, t, co);
    InputsKept(s, t, co);
  }

  lemma AllAreOthers(s: St, co: CoId)
    requires AllMatched(s)
    ensures OthersMatched(s, co)
  {
    hide Matched;
  }

  lemma HandlerMatches(s: St, op: OpId)
    requires AllMatched(s) && HandlersMatched(s) && Enabled(s, EvHandler(op))
    ensures AllMatched(Handler(s, op)) && HandlersMatched(Handler(s, op))
  {
    var t := Handler(s, op);
    var co := s.ops[op].co;
    OwnOperation(s, op);
    assert t.frames == s.frames[co := t.frames[co]] && t.frames[co].slot.done;
    assert t.rt.tokens == s.rt.tokens + multiset{co} && t.rt.fired == s.rt.fired && t.rt.armed == s.rt.armed;
    forall c: CoId | c in t.frames
      ensures Matched(t, c)
    {
      assert Matched(s, c);
    }
    forall o: OpId | o in t.ops
      ensures s.ops[o].co != co
    {
      OwnOperation(s, o);
    }
  }

  lemma HandlerApart(s: St, op: OpId)
    requires AllMatched(s) && HandlersMatched(s) && Enabled(s, EvHandler(op))
    ensures ApartFrom(s, Handler(s, op), s.ops[op].co)
    ensures SameRole(s.frames[s.ops[op].co], Handler(s, op).frames[s.ops[op].co])
  {
    OwnOperation(s, op);
    hide AllMatched, HandlersMatched;
  }

  lemma HandlerWire(s: St, op: OpId)
    requires AllMatched(s) && HandlersMatched(s) && Wires(s) && Enabled(s, EvHandler(op))
    ensures var f := Handler(s, op).frames[s.ops[op].co];
      f.Serves() ==> WireOf(Handler(s, op), f)
  {
    OwnOperation(s, op);
    hide AllMatched;
    var f := s.frames[s.ops[op].co];
    if f.Serves() {
      assert WireOf(s, f);
    }
  }

  lemma HandlerInput(s: St, op: OpId)
    requires AllMatched(s) && HandlersMatched(s) && Inputs(s) && Enabled(s, EvHandler(op))
    ensures var f := Handler(s, op).frames[s.ops[op].co];
      f.Serves() ==> InputAt(Handler(s, op), f)
  {
    OwnOperation(s, op);
    hide AllMatched;
    var f := s.frames[s.ops[op].co];
    if f.Serves() {
      assert InputAt(s, f);
    }
  }

  lemma HandlerDomain(s: St, op: OpId)
    requires Domain(s) && Conns(s) && AllMatched(s) && HandlersMatched(s) && Enabled(s, EvHandler(op))
    ensures Domain(Handler(s, op)) && Conns(Handler(s, op)) && Handler(s, op).rt.live == s.rt.live
    ensures Handler(s, op).open == s.open && Handler(s, op).server == s.server && !Handler(s, op).down
    ensures var co := s.ops[op].co;
      Handler(s, op).frames == s.frames[co := Fill(s.frames[co], op, s.ops[op].result.value)]
  {
    hide AllMatched, HandlersMatched, RtInv, Domain;
    OwnOperation(s, op);
    DomainParts(s);
    assert s.ops[op].co < s.rt.next by { FrameKnown(s, s.ops[op].co); }
    InvPost(s.rt, s.ops[op].co);
    DomainKept(s, Handler(s, op));
  }

  lemma FrameKnown(s: St, c: CoId)
    requires Domain(s)
    ensures c in s.frames <==> c < s.rt.next
    ensures c in s.frames ==> (s.frames[c].Gone? <==> c !in s.rt.live)
  {
    hide RtInv;
  }

  lemma HandlerInv(s: St, op: OpId)
    requires Inv(s) && Enabled(s, EvHandler(op))
    ensures Inv(Handler(s, op))
  {
    hide Domain, AllMatched, HandlersMatched, OneAcceptor, EachServed, Conns, Wires, Inputs, InputAt, ApartFrom, SameRole, WireOf, OthersMatched;
    OwnOperation(s, op);
    var t := Handler(s, op);
    var co := s.ops[op].co;
    HandlerMatches(s, op);
    HandlerWire(s, op);
    HandlerInput(s, op);
    HandlerApart(s, op);
    HandlerDomain(s, op);
    hide Handler, Fill;
    PopulationKept(s, t, co, t.frames[co]);
    AllAreOthers(s, co);
    WiresKept(s, t, co);
    InputsKept(s, t, co);
  }

  // ---------------------------------------------------------------------
  // From control to the next wait in the same role
  // ---------------------------------------------------------------------

  /** The frame the next wait of `co` leaves, unless it accepted or closed. */
  function NextFrame(s: St, f: Frame, choice: Choice): Frame {
    match f
    case Reading(_, conn) => Serving(s, conn, choice.moves)
    case Pausing(conn, rest) => Serving(s, conn, rest)
    case Writing(was, conn, data, sent, rest) =>
      if sent + was.size == |data| then Serving(s, conn, rest)
      else Writing(EmptySlot(s), conn, data, sent + was.size, rest)
    case _ => Accepting(EmptySlot(s))
  }

  function Serving(s: St, conn: ConnId, moves: seq<Move>): Frame {
    if moves == [] then Reading(EmptySlot(s), conn)
    else match moves[0]
      case Say(text) => Writing(EmptySlot(s), conn, text, 0, moves[1..])
      case Pause => Pausing(conn, moves[1..])
  }

  predicate StaysInRole(f: Frame) {
    f.Fresh? || f.Writing? || f.Pausing? || (f.Accepting? && !f.slot.ok) || (f.Reading? && f.slot.ok)
  }

  /** `co` went from control into its next wait: an operation with the kernel
      and nothing else, or a timer and nothing else. */
  ghost predicate Settled(s: St, t: St, co: CoId, g: Frame) {
    if g.Waits() then
      && g.slot == EmptySlot(s) && t.rt == s.rt
      && t.ops == s.ops[s.nextOp := Op(co, RequestOf(g), None)] && t.nextOp == s.nextOp + 1
    else g.Pausing? && t.rt == Arm(s.rt, co) && t.ops == s.ops && t.nextOp == s.nextOp
  }

  ghost predicate Moved(s: St, t: St, co: CoId, g: Frame)
    requires co in s.frames
  {
    && SameRole(s.frames[co], g)
    && t.frames == s.frames[co := g]
    && t.open == s.open && t.server == s.server && t.nextConn == s.nextConn && t.wire == s.wire
    && t.returned.Keys == s.returned.Keys && t.input.Keys == s.input.Keys && t.down == s.down
    && (forall k :: k in s.returned && !(g.Serves() && g.conn == k) ==> t.returned[k] == s.returned[k])
    && (forall k :: k in s.input && !(g.Serves() && g.conn == k) ==> t.input[k] == s.input[k])
  }

  lemma SettledMatches(s: St, t: St, co: CoId, g: Frame)
    requires InControl(s, co) && Settled(s, t, co, g) && t.frames == s.frames[co := g]
    ensures AllMatched(t) && HandlersMatched(t)
  {
    forall c: CoId | c in t.frames
      ensures Matched(t, c)
    {
      if c != co {
        assert Matched(s, c);
      }
    }
  }

  lemma SettledDomain(s: St, t: St, co: CoId, g: Frame)
    requires Domain(s) && Conns(s) && InControl(s, co) && Settled(s, t, co, g) && Moved(s, t, co, g)
    ensures Domain(t) && Conns(t) && t.rt.live == s.rt.live
  {
    hide RtInv, HandlersMatched, Matched, Arm, Domain;
    DomainParts(s);
    ArmEffect(s.rt, co);
    FrameKnown(s, co);
    DomainKept(s, t);
  }

  lemma SettledApart(s: St, t: St, co: CoId, g: Frame)
    requires InControl(s, co) && Settled(s, t, co, g) && Moved(s, t, co, g)
    ensures ApartFrom(s, t, co)
  {
    hide Matched, Arm;
  }

  lemma ControlParts(s: St, co: CoId)
    requires InControl(s, co)
    ensures co in s.frames && OthersMatched(s, co)
  {
    hide Matched, HandlersMatched;
  }

  lemma GoesOn(s: St, t: St, co: CoId, g: Frame)
    requires InControl(s, co) && Domain(s) && Population(s) && Conns(s) && Wires(s) && Inputs(s) && !s.down
    requires Settled(s, t, co, g) && Moved(s, t, co, g)
    requires g.Serves() ==> WireOf(t, g) && InputAt(t, g)
    ensures Inv(t)
  {
    ControlParts(s, co);
    hide Domain, AllMatched, HandlersMatched, OneAcceptor, EachServed, Conns, Wires, Inputs, InputAt, ApartFrom, SameRole, WireOf, Settled, OthersMatched, InControl;
    assert t.frames == s.frames[co := g];
    SettledMatches(s, t, co, g);
    SettledDomain(s, t, co, g);
    SettledApart(s, t, co, g);
    PopulationKept(s, t, co, g);
    WiresKept(s, t, co);
    InputsKept(s, t, co);
  }

  lemma WriteMoves(s: St, co: CoId, data: string, sent: nat, rest: seq<Move>)
    requires co in s.frames && s.frames[co].Serves()
    ensures var conn := s.frames[co].conn; var g := Writing(EmptySlot(s), conn, data, sent, rest);
      Settled(s, StartWrite(s, co, conn, data, sent, rest), co, g) && Moved(s, StartWrite(s, co, conn, data, sent, rest), co, g)
  {
    hide From;
  }

  lemma ReadMoves(s: St, co: CoId)
    requires co in s.frames && s.frames[co].Serves()
    ensures var conn := s.frames[co].conn; var g := Reading(EmptySlot(s), conn);
      Settled(s, StartRead(s, co, conn), co, g) && Moved(s, StartRead(s, co, conn), co, g)
  {
  }

  lemma PauseMoves(s: St, co: CoId, rest: seq<Move>)
    requires co in s.frames && s.frames[co].Serves()
    ensures var conn := s.frames[co].conn; var g := Pausing(conn, rest);
      Settled(s, StartPause(s, co, conn, rest), co, g) && Moved(s, StartPause(s, co, conn, rest), co, g)
  {
    hide Arm;
  }

  lemma ProceedMoves(s: St, co: CoId, moves: seq<Move>)
    requires co in s.frames && s.frames[co].Serves()
    ensures var conn := s.frames[co].conn; var g := Serving(s, conn, moves);
      Settled(s, Proceed(s, co, conn, moves), co, g) && Moved(s, Proceed(s, co, conn, moves), co, g)
  {
    hide StartRead, StartWrite, StartPause, Settled, Moved, EmptySlot;
    if moves == [] {
      ReadMoves(s, co);
    } else {
      match moves[0]
      case Say(text) => WriteMoves(s, co, text, 0, moves[1..]);
      case Pause => PauseMoves(s, co, moves[1..]);
    }
  }

  /** What returned, or was handled, is noted before the handler goes on. */
  lemma MovedAfterNote(s: St, u: St, t: St, co: CoId, g: Frame)
    requires co in s.frames && s.frames[co].Serves() && g.Serves() && g.conn == s.frames[co].conn
    requires u == s.(returned := u.returned, input := u.input)
    requires u.returned.Keys == s.returned.Keys && forall k :: k in s.returned && k != g.conn ==> u.returned[k] == s.returned[k]
    requires u.input.Keys == s.input.Keys && forall k :: k in s.input && k != g.conn ==> u.input[k] == s.input[k]
    requires Settled(u, t, co, g) && Moved(u, t, co, g)
    ensures Settled(s, t, co, g) && Moved(s, t, co, g)
  {
    hide Arm;
  }

  /** The state in which the handler goes on: `data` has returned, or the read
      was handled. */
  function Noted(s: St, f: Frame, choice: Choice): St
    requires f.Serves()
  {
    match f
    case Reading(slot, conn) => s.(input := Heard(s, conn, if slot.done then slot.size else choice.junk))
    case Writing(_, conn, data, _, _) =>
      s.(returned := s.returned[conn := (if conn in s.returned then s.returned[conn] else []) + [data]])
    case _ => s
  }

  predicate GoesOnSending(f: Frame) {
    f.Writing? && f.sent + f.slot.size != |f.data|
  }

  function MovesOf(f: Frame, choice: Choice): seq<Move>
    requires f.Serves()
  {
    if f.Reading? then choice.moves else f.rest
  }

  lemma BodyIs(s: St, co: CoId, choice: Choice)
    requires co in s.frames && StaysInRole(s.frames[co]) && s.frames[co].Serves() && !GoesOnSending(s.frames[co])
    ensures var f := s.frames[co];
      && Body(s, co, choice) == Proceed(Noted(s, f, choice), co, f.conn, MovesOf(f, choice))
      && NextFrame(s, f, choice) == Serving(Noted(s, f, choice), f.conn, MovesOf(f, choice))
  {
    hide Proceed, Heard;
  }

  lemma NotedKeys(s: St, f: Frame, choice: Choice)
    requires f.Serves() && f.conn in s.returned && f.conn in s.input
    ensures var u := Noted(s, f, choice);
      && u == s.(returned := u.returned, input := u.input)
      && u.returned.Keys == s.returned.Keys && (forall k :: k in s.returned && k != f.conn ==> u.returned[k] == s.returned[k])
      && u.input.Keys == s.input.Keys && (forall k :: k in s.input && k != f.conn ==> u.input[k] == s.input[k])
  {
  }

  lemma ServingServes(s: St, conn: ConnId, moves: seq<Move>)
    ensures Serving(s, conn, moves).Serves() && Serving(s, conn, moves).conn == conn
  {
  }

  lemma BodyMoves(s: St, co: CoId, choice: Choice)
    requires co in s.frames && StaysInRole(s.frames[co])
    requires s.frames[co].Serves() ==> s.frames[co].conn in s.returned && s.frames[co].conn in s.input
    ensures var g := NextFrame(s, s.frames[co], choice);
      Settled(s, Body(s, co, choice), co, g) && Moved(s, Body(s, co, choice), co, g)
  {
    var f := s.frames[co];
    hide Settled, Moved, Proceed, StartWrite, Noted, Serving;
    if !f.Serves() {
      AcceptMoves(s, co);
    } else if GoesOnSending(f) {
      WriteMoves(s, co, f.data, f.sent + f.slot.size, f.rest);
    } else {
      hide Body, NextFrame;
      BodyIs(s, co, choice);
      NotedKeys(s, f, choice);
      var u := Noted(s, f, choice);
      ProceedMoves(u, co, MovesOf(f, choice));
      ServingServes(u, f.conn, MovesOf(f, choice));
      MovedAfterNote(s, u, Body(s, co, choice), co, NextFrame(s, f, choice));
    }
  }

  lemma AcceptMoves(s: St, co: CoId)
    requires co in s.frames && s.frames[co].Accepts()
    ensures var g := Accepting(EmptySlot(s));
      Settled(s, StartAccept(s, co), co, g) && Moved(s, StartAccept(s, co), co, g)
  {
  }

  lemma FlatSnoc(parts: seq<string>, last: string)
    ensures Flat(parts + [last]) == Flat(parts) + last
  {
    assert (parts + [last])[..|parts|] == parts;
  }

  /** Between two calls of send the wire holds what returned. */
  lemma ProceedWire(s: St, co: CoId, conn: ConnId, moves: seq<Move>)
    requires conn in s.wire && conn in s.returned && s.wire[conn] == Flat(s.returned[conn]) && s.nextOp !in s.ops
    ensures WireOf(Proceed(s, co, conn, moves), Serving(s, conn, moves))
  {
    hide From, Arm;
  }

  lemma WriteWire(s: St, co: CoId, conn: ConnId, data: string, sent: nat, rest: seq<Move>)
    requires conn in s.wire && conn in s.returned && s.nextOp !in s.ops && sent <= |data|
    requires s.wire[conn] == Flat(s.returned[conn]) + data[..sent]
    ensures WireOf(StartWrite(s, co, conn, data, sent, rest), Writing(EmptySlot(s), conn, data, sent, rest))
  {
    hide From;
  }

  lemma NotedWire(s: St, f: Frame, choice: Choice)
    requires f.Serves() && WireOf(s, f) && (f.Waits() ==> f.slot.done) && !GoesOnSending(f)
    ensures var u := Noted(s, f, choice);
      f.conn in u.wire && f.conn in u.returned && u.wire[f.conn] == Flat(u.returned[f.conn])
  {
    if f.Writing? {
      FlatSnoc(s.returned[f.conn], f.data);
      assert f.data[..|f.data|] == f.data;
    }
  }

  /** Where the wire stands when the body has run to its next wait. */
  lemma BodyWire(s: St, co: CoId, choice: Choice)
    requires co in s.frames && StaysInRole(s.frames[co]) && s.frames[co].Serves()
    requires WireOf(s, s.frames[co]) && (s.frames[co].Waits() ==> s.frames[co].slot.done) && s.nextOp !in s.ops
    ensures WireOf(Body(s, co, choice), NextFrame(s, s.frames[co], choice))
  {
    hide From, Proceed, StartWrite, Serving, Noted;
    var f := s.frames[co];
    if GoesOnSending(f) {
      WriteWire(s, co, f.conn, f.data, f.sent + f.slot.size, f.rest);
    } else {
      NotedWire(s, f, choice);
      BodyIs(s, co, choice);
      NotedOps(s, f, choice);
      hide Body, NextFrame, WireOf;
      ProceedWire(Noted(s, f, choice), co, f.conn, MovesOf(f, choice));
    }
  }

  lemma NotedOps(s: St, f: Frame, choice: Choice)
    requires f.Serves()
    ensures Noted(s, f, choice).ops == s.ops && Noted(s, f, choice).nextOp == s.nextOp
  {
  }

  /** Between two reads the handler has seen them all. */
  ghost predicate AllHeard(s: St, conn: ConnId) {
    && conn in s.input
    && var i := s.input[conn];
    i.got == i.handled && (i.handled != [] ==> i.handled[|i.handled|-1] <= i.buffer)
  }

  lemma NotedInput(s: St, f: Frame, choice: Choice)
    requires f.Serves() && InputAt(s, f) && (f.Waits() ==> f.slot.done) && (f.Reading? ==> f.slot.ok)
    ensures AllHeard(Noted(s, f, choice), f.conn)
  {
  }

  lemma ProceedInput(s: St, co: CoId, conn: ConnId, moves: seq<Move>)
    requires AllHeard(s, conn) && s.nextOp !in s.ops
    ensures InputAt(Proceed(s, co, conn, moves), Serving(s, conn, moves))
  {
    hide From, Arm;
  }

  lemma BodyInput(s: St, co: CoId, choice: Choice)
    requires co in s.frames && StaysInRole(s.frames[co]) && s.frames[co].Serves()
    requires InputAt(s, s.frames[co]) && (s.frames[co].Waits() ==> s.frames[co].slot.done) && s.nextOp !in s.ops
    ensures InputAt(Body(s, co, choice), NextFrame(s, s.frames[co], choice))
  {
    var f := s.frames[co];
    if GoesOnSending(f) {
      hide From, Proceed;
    } else {
      hide InputAt, Body, NextFrame, Noted, Proceed, Serving;
      NotedInput(s, f, choice);
      BodyIs(s, co, choice);
      NotedOps(s, f, choice);
      ProceedInput(Noted(s, f, choice), co, f.conn, MovesOf(f, choice));
    }
  }

  lemma RoleStays(s: St, f: Frame, choice: Choice)
    requires StaysInRole(f)
    ensures NextFrame(s, f, choice).Serves() <==> f.Serves()
  {
  }

  /** `s` is the state in which `co` has just got control. */
  ghost predicate Begun(s: St, co: CoId) {
    && InControl(s, co) && Domain(s) && Population(s) && Conns(s) && Wires(s) && Inputs(s) && !s.down
    && !s.frames[co].Gone? && (s.frames[co].Waits() ==> s.frames[co].slot.done)
  }

  lemma TokenBegins(s: St, co: CoId)
    requires Inv(s) && co in s.rt.tokens
    ensures Begun(Taken(s, co), co) && co in s.rt.live && co in s.frames
  {
    TokenIsLive(s, co);
    TokenGivesControl(s, co);
    hide Domain, AllMatched, HandlersMatched, Population, Conns, Wires, Inputs, InControl;
    OnlyRuntimeMoved(s, Taken(s, co));
  }

  lemma WakeInRole(s: St, co: CoId, choice: Choice)
    requires Begun(s, co) && StaysInRole(s.frames[co])
    ensures Inv(Body(s, co, choice))
  {
    hide Domain, AllMatched, HandlersMatched, Population, Conns, WireOf, InputAt, SameRole, Settled, Moved, Body, NextFrame, InControl;
    FreshOp(s, co);
    var f := s.frames[co];
    assert f.Serves() ==> WireOf(s, f) && InputAt(s, f);
    assert f.Serves() ==> f.conn in s.returned && f.conn in s.input by { WireOfConn(s, f); }
    hide Wires, Inputs;
    RoleStays(s, f, choice);
    BodyMoves(s, co, choice);
    if f.Serves() {
      BodyWire(s, co, choice);
      BodyInput(s, co, choice);
    }
    GoesOn(s, Body(s, co, choice), co, NextFrame(s, f, choice));
  }

  lemma FreshOp(s: St, co: CoId)
    requires InControl(s, co)
    ensures co in s.frames && s.nextOp !in s.ops
  {
    hide Matched;
  }

  lemma WireOfConn(s: St, f: Frame)
    ensures f.Serves() && WireOf(s, f) ==> f.conn in s.wire && f.conn in s.returned
    ensures f.Serves() && InputAt(s, f) ==> f.conn in s.input
  {
  }

  // ---------------------------------------------------------------------
  // A connection comes, a connection goes
  // ---------------------------------------------------------------------

  lemma SpawnEffect(r: Rt)
    requires RtInv(r)
    ensures var t := Spawn(r);
      && RtInv(t) && t.next == r.next + 1 && t.live == r.live + {r.next} && r.next !in r.live
      && t.tokens == r.tokens + multiset{r.next} && t.fired == r.fired && t.armed == r.armed && t.resumed == r.resumed
      && r.tokens[r.next] == 0 && NoTimer(r, r.next)
  {
    InvSpawn(r);
  }

  /** The successor is spawned: `co` still has control. */
  function Spawned(s: St): St {
    s.(rt := Spawn(s.rt), frames := s.frames[s.rt.next := Fresh])
  }

  lemma SpawnKeepsControl(s: St, co: CoId)
    requires InControl(s, co) && Domain(s)
    ensures InControl(Spawned(s), co) && Domain(Spawned(s)) && s.rt.next !in s.frames
    ensures Spawned(s).rt.live == s.rt.live + {s.rt.next} && s.rt.next !in s.rt.live
  {
    hide RtInv, Spawn, Matched, Domain;
    DomainParts(s);
    SpawnEffect(s.rt);
    FrameKnown(s, s.rt.next);
    SpawnDomain(s);
    var t := Spawned(s);
    assert Matched(t, s.rt.next) by { FreshMatches(t, s.rt.next); }
    forall c: CoId | c in t.frames && c != co
      ensures Matched(t, c)
    {
      if c != s.rt.next {
        SameMatch(s, t, c);
      }
    }
  }

  lemma SpawnDomain(s: St)
    requires Domain(s)
    ensures Domain(Spawned(s))
  {
    hide RtInv, Spawn;
    SpawnEffect(s.rt);
    assert forall c: CoId :: c in Spawned(s).frames <==> c in s.frames || c == s.rt.next;
  }

  lemma FreshMatches(s: St, c: CoId)
    requires c in s.frames && s.frames[c].Fresh? && NoTimer(s.rt, c) && s.rt.tokens[c] == 1
    ensures Matched(s, c)
  {
  }

  /** `co` reads from a new connection. */
  lemma AcceptedIs(s: St, co: CoId)
    ensures var conn := s.nextConn; var g := Reading(EmptySlot(s), conn);
      && var t := Accepted(s, co);
      && t.frames == Spawned(s).frames[co := g] && Settled(Spawned(s), t, co, g)
      && t.open == s.open + {conn} && t.server == s.server[conn := co] && t.nextConn == conn + 1
      && t.wire == s.wire[conn := ""] && t.returned == s.returned[conn := []] && t.input == s.input[conn := NO_INPUT]
      && t.down == s.down
  {
    hide Spawn;
  }

  lemma AcceptHandsOver(s: St, t: St, co: CoId, g: Frame)
    requires OneAcceptor(s) && co in s.frames && s.frames[co].Accepting? && s.rt.next !in s.frames
    requires t.frames == s.frames[s.rt.next := Fresh][co := g] && g.Reading?
    ensures OneAcceptor(t)
  {
    assert t.frames[s.rt.next].Accepts();
  }

  lemma AcceptServes(s: St, t: St, co: CoId, g: Frame)
    requires EachServed(s) && Conns(s) && co in s.frames && s.frames[co].Accepting? && s.rt.next !in s.frames
    requires t.frames == s.frames[s.rt.next := Fresh][co := g] && g.Reading? && g.conn == s.nextConn
    requires t.open == s.open + {g.conn} && t.server == s.server[g.conn := co]
    ensures EachServed(t) && g.conn !in s.open
  {
  }

  lemma AcceptWires(s: St, t: St, co: CoId, g: Frame)
    requires InControl(s, co) && Conns(s) && Wires(s) && s.frames[co].Accepting? && s.rt.next !in s.frames
    requires t.frames == s.frames[s.rt.next := Fresh][co := g] && g.Reading? && g.conn == s.nextConn
    requires t.ops == s.ops[s.nextOp := Op(co, RequestOf(g), None)] && t.open == s.open + {g.conn}
    requires t.wire == s.wire[g.conn := ""] && t.returned == s.returned[g.conn := []]
    ensures Wires(t)
  {
    forall c: CoId | c in t.frames && t.frames[c].Serves()
      ensures WireOf(t, t.frames[c])
    {
      if c != co {
        assert c in s.frames && t.frames[c] == s.frames[c];
        OldWire(s, t, co, c);
      }
    }
  }

  lemma AcceptInputs(s: St, t: St, co: CoId, g: Frame)
    requires InControl(s, co) && Conns(s) && Inputs(s) && s.frames[co].Accepting? && s.rt.next !in s.frames
    requires t.frames == s.frames[s.rt.next := Fresh][co := g] && g.Reading? && g.conn == s.nextConn && g.slot == EmptySlot(s)
    requires t.ops == s.ops[s.nextOp := Op(co, RequestOf(g), None)] && t.open == s.open + {g.conn}
    requires t.input == s.input[g.conn := NO_INPUT]
    ensures Inputs(t)
  {
    forall c: CoId | c in t.frames && t.frames[c].Serves()
      ensures InputAt(t, t.frames[c])
    {
      if c != co {
        assert c in s.frames && t.frames[c] == s.frames[c];
        OldInput(s, t, co, c);
      }
    }
  }

  lemma OldInput(s: St, t: St, co: CoId, c: CoId)
    requires InControl(s, co) && Conns(s) && Inputs(s)
    requires c in s.frames && s.frames[c].Serves() && c != co
    requires t.input == s.input[s.nextConn := NO_INPUT]
    requires t.ops.Keys == s.ops.Keys + {s.nextOp} && forall o: OpId :: o in s.ops && o != s.nextOp ==> t.ops[o] == s.ops[o]
    ensures InputAt(t, s.frames[c])
  {
    var f := s.frames[c];
    assert Matched(s, c) && InputAt(s, f);
    assert Unheard(t, f) == Unheard(s, f);
  }

  lemma OldWire(s: St, t: St, co: CoId, c: CoId)
    requires InControl(s, co) && Conns(s) && Wires(s)
    requires c in s.frames && s.frames[c].Serves() && c != co
    requires t.wire == s.wire[s.nextConn := ""] && t.returned == s.returned[s.nextConn := []]
    requires t.ops.Keys == s.ops.Keys + {s.nextOp} && forall o: OpId :: o in s.ops && o != s.nextOp ==> t.ops[o] == s.ops[o]
    ensures WireOf(t, s.frames[c])
  {
    var f := s.frames[c];
    assert Matched(s, c) && WireOf(s, f);
    assert f.Writing? ==> Received(t, f) == Received(s, f);
  }

  lemma AcceptMatches(s: St, co: CoId)
    requires InControl(s, co) && Domain(s)
    ensures AllMatched(Accepted(s, co)) && HandlersMatched(Accepted(s, co)) && Domain(Accepted(s, co))
    ensures s.rt.next !in s.frames
    ensures Accepted(s, co).rt.live == s.rt.live + {s.rt.next} && s.rt.next !in s.rt.live
  {
    hide AllMatched, HandlersMatched, InControl, Settled, Accepted, Spawn, Domain;
    var t := Accepted(s, co);
    var g := Reading(EmptySlot(s), s.nextConn);
    AcceptedIs(s, co);
    SpawnKeepsControl(s, co);
    SettledMatches(Spawned(s), t, co, g);
    AcceptRuntime(s, t, co, g);
    AcceptDomain(Spawned(s), t, co, g);
  }

  lemma AcceptPopulation(s: St, co: CoId)
    requires Population(s) && Conns(s) && co in s.frames && s.frames[co].Accepting? && s.rt.next !in s.frames
    requires Accepted(s, co).rt.live == s.rt.live + {s.rt.next} && s.rt.next !in s.rt.live
    ensures Population(Accepted(s, co)) && Conns(Accepted(s, co))
  {
    hide OneAcceptor, EachServed, Settled, Accepted, Spawn;
    var t := Accepted(s, co);
    var g := Reading(EmptySlot(s), s.nextConn);
    AcceptedIs(s, co);
    AcceptHandsOver(s, t, co, g);
    AcceptServes(s, t, co, g);
  }

  lemma AcceptInv(s: St, co: CoId)
    requires Begun(s, co) && s.frames[co].Accepting?
    ensures Inv(Accepted(s, co))
  {
    ControlParts(s, co);
    hide AllMatched, HandlersMatched, Population, Conns, Wires, Inputs, InControl, Settled, Accepted, Spawn, Domain;
    AcceptMatches(s, co);
    AcceptPopulation(s, co);
    var g := Reading(EmptySlot(s), s.nextConn);
    AcceptedIs(s, co);
    AcceptRuntime(s, Accepted(s, co), co, g);
    AcceptWires(s, Accepted(s, co), co, g);
    AcceptInputs(s, Accepted(s, co), co, g);
  }

  lemma AcceptDomain(s: St, t: St, co: CoId, g: Frame)
    requires Domain(s) && InControl(s, co) && t.rt == s.rt && t.frames == s.frames[co := g] && g.Reading?
    ensures Domain(t)
  {
    hide Domain, Matched, RtInv;
    DomainParts(s);
    FrameKnown(s, co);
    DomainKept(s, t);
  }

  lemma AcceptRuntime(s: St, t: St, co: CoId, g: Frame)
    requires g.Reading? && Settled(Spawned(s), t, co, g)
    ensures t.rt == Spawn(s.rt) && t.ops == s.ops[s.nextOp := Op(co, RequestOf(g), None)] && t.nextOp == s.nextOp + 1
  {
  }

  lemma CloseMatches(s: St, co: CoId, conn: ConnId)
    requires InControl(s, co)
    ensures AllMatched(Closed(s, co, conn)) && HandlersMatched(Closed(s, co, conn))
  {
    var t := Closed(s, co, conn);
    forall c: CoId | c in t.frames
      ensures Matched(t, c)
    {
      if c != co { assert Matched(s, c); }
    }
  }

  lemma ClosedDomain(s: St, co: CoId, conn: ConnId)
    requires Domain(s) && co in s.frames && co in s.rt.live && co !in s.rt.armed && co in s.rt.resumed
    ensures Domain(Closed(s, co, conn))
  {
    hide RtInv, Finish;
    InvFinish(s.rt, co);
    FinishOnly(s.rt, co);
    assert forall c: CoId :: c in Closed(s, co, conn).frames <==> c in s.frames;
  }

  lemma CloseDomain(s: St, co: CoId, conn: ConnId)
    requires Domain(s) && Conns(s) && InControl(s, co)
    ensures Domain(Closed(s, co, conn)) && Conns(Closed(s, co, conn))
    ensures Closed(s, co, conn).rt.live == s.rt.live - {co}
  {
    hide RtInv, HandlersMatched, Matched, Finish, Domain;
    ClosedDomain(s, co, conn);
    FinishOnly(s.rt, co);
  }

  lemma FinishOnly(r: Rt, co: CoId)
    ensures Finish(r, co).live == r.live - {co} && Finish(r, co).next == r.next
  {
  }

  lemma ClosePopulation(s: St, t: St, co: CoId)
    requires Population(s) && co in s.frames && s.frames[co].Reading? && co in s.rt.live
    requires t.frames == s.frames[co := Gone] && t.open == s.open - {s.frames[co].conn} && t.server == s.server
    requires t.rt.live == s.rt.live - {co}
    ensures Population(t)
  {
    var a :| a in s.frames && s.frames[a].Accepts();
    assert t.frames[a].Accepts();
    forall k: ConnId | k in t.open
      ensures k in t.server && ServedBy(t, k, t.server[k])
    {
      assert ServedBy(s, k, s.server[k]);
    }
  }

  lemma CloseWires(s: St, co: CoId)
    requires Wires(s) && co in s.frames && s.frames[co].Reading?
    ensures Wires(Closed(s, co, s.frames[co].conn))
  {
    var t := Closed(s, co, s.frames[co].conn);
    assert WireOf(s, s.frames[co]);
    forall c: CoId | c in t.frames && t.frames[c].Serves()
      ensures WireOf(t, t.frames[c])
    {
      assert WireOf(s, s.frames[c]);
    }
  }

  lemma CloseInputs(s: St, co: CoId)
    requires Inputs(s) && co in s.frames && s.frames[co].Reading? && s.frames[co].slot.done && !s.frames[co].slot.ok
    ensures Inputs(Closed(s, co, s.frames[co].conn))
  {
    var t := Closed(s, co, s.frames[co].conn);
    assert InputAt(s, s.frames[co]);
    forall c: CoId | c in t.frames && t.frames[c].Serves()
      ensures InputAt(t, t.frames[c])
    {
      assert InputAt(s, s.frames[c]);
    }
  }

  lemma CloseInv(s: St, co: CoId)
    requires Begun(s, co) && s.frames[co].Reading? && !s.frames[co].slot.ok
    ensures Inv(Closed(s, co, s.frames[co].conn))
  {
    ControlParts(s, co);
    assert co in s.rt.live;
    hide Domain, AllMatched, HandlersMatched, Population, Conns, Wires, Inputs, InControl;
    CloseMatches(s, co, s.frames[co].conn);
    CloseDomain(s, co, s.frames[co].conn);
    ClosePopulation(s, Closed(s, co, s.frames[co].conn), co);
    CloseWires(s, co);
    CloseInputs(s, co);
  }

  lemma WakeInv(s: St, co: CoId, choice: Choice)
    requires Inv(s) && co in s.rt.tokens
    ensures Inv(RunBody(s, co, choice))
  {
    TokenBegins(s, co);
    hide Inv, InControl, Domain, Population, Conns, Wires, Inputs, Accepted, Closed, Proceed, Wrote, StartAccept, Heard;
    var t := Taken(s, co);
    var f := t.frames[co];
    if StaysInRole(f) {
      WakeInRole(t, co, choice);
    } else if f.Accepting? {
      AcceptInv(t, co);
    } else {
      CloseInv(t, co);
    }
  }

  // ---------------------------------------------------------------------
  // Timers and foreign tokens
  // ---------------------------------------------------------------------

  /** Every pause is ended by one thing: its timer does not expire once it was
      resumed, nobody resumes it twice, and nobody resumes a coroutine that does
      not pause. */
  predicate Orderly(s: St, e: Event) {
    match e
    case EvStray(co) => co in s.frames && s.frames[co].Pausing? && s.rt.tokens[co] == 0 && s.rt.fired[co] == 0
    case EvExpire(co) => s.rt.tokens[co] == 0
    case _ => true
  }

  /** Only tokens and timers of `co` moved. */
  ghost predicate OnlyOf(r: Rt, t: Rt, co: CoId) {
    && RtInv(t) && t.live == r.live && t.next == r.next
    && forall c: CoId :: c != co ==>
         t.tokens[c] == r.tokens[c] && t.fired[c] == r.fired[c] && (c in t.armed <==> c in r.armed)
  }

  lemma TimerStep(r: Rt, co: CoId)
    requires RtInv(r)
    ensures co < r.next ==> OnlyOf(r, Post(r, co), co)
    ensures co in r.armed ==> OnlyOf(r, Expire(r, co), co)
    ensures co in r.fired ==> OnlyOf(r, RunFired(r, co), co)
    ensures co in r.cancelled ==> OnlyOf(r, RunCancelled(r, co), co)
  {
    hide RtInv;
    if co < r.next { InvPost(r, co); }
    if co in r.armed { InvExpire(r, co); }
    if co in r.fired { InvRunFired(r, co); }
    if co in r.cancelled { InvRunCancelled(r, co); }
  }

  predicate IsTimer(e: Event) { e.EvExpire? || e.EvFired? || e.EvCancelled? || e.EvStray? }

  lemma TimerOnly(s: St, e: Event)
    requires Domain(s) && IsTimer(e) && Enabled(s, e)
    ensures Next(s, e) == s.(rt := Next(s, e).rt) && OnlyOf(s.rt, Next(s, e).rt, e.co) && Domain(Next(s, e))
  {
    hide RtInv, Domain;
    DomainParts(s);
    TimerStep(s.rt, e.co);
    DomainKept(s, Next(s, e));
  }

  lemma OthersStayMatched(s: St, t: St, co: CoId)
    requires AllMatched(s) && HandlersMatched(s) && t == s.(rt := t.rt) && OnlyOf(s.rt, t.rt, co)
    requires co in t.frames ==> Matched(t, co)
    ensures AllMatched(t) && HandlersMatched(t)
  {
    hide RtInv, Matched;
    forall c: CoId | c in t.frames
      ensures Matched(t, c)
    {
      if c != co { SameMatch(s, t, c); }
    }
  }

  /** A step of timers and tokens keeps its coroutine matched exactly if it is
      orderly. */
  lemma OrderlyStep(s: St, e: Event)
    requires Domain(s) && AllMatched(s) && IsTimer(e) && Enabled(s, e)
    ensures e.co in s.frames && (Matched(Next(s, e), e.co) <==> Orderly(s, e))
  {
    hide RtInv, Domain;
    assert e.co in s.frames by { DomainParts(s); TokenKnown(s.rt, e.co); FrameKnown(s, e.co); }
    assert Matched(s, e.co);
  }

  lemma TimerInv(s: St, e: Event)
    requires Inv(s) && IsTimer(e) && Enabled(s, e) && Orderly(s, e)
    ensures Inv(Next(s, e))
  {
    hide AllMatched, HandlersMatched, Population, Conns, Wires, Inputs, Domain, Matched, Orderly, Next;
    TimerOnly(s, e);
    OrderlyStep(s, e);
    OthersStayMatched(s, Next(s, e), e.co);
    OnlyRuntimeMoved(s, Next(s, e));
  }

  // ---------------------------------------------------------------------
  // Main results
  // ---------------------------------------------------------------------

  lemma NextInv(s: St, e: Event)
    requires Inv(s) && Enabled(s, e) && Orderly(s, e)
    ensures Inv(Next(s, e))
  {
    hide Inv;
    match e
    case EvWake(co, choice) => WakeInv(s, co, choice);
    case EvKernel(op, outcome) => KernelInv(s, op, outcome);
    case EvHandler(op) => HandlerInv(s, op);
    case _ => TimerInv(s, e);
  }

  /** Every event of the run is orderly. */
  predicate AllOrderly(s: St, es: seq<Event>)
    requires Feasible(s, es)
    decreases |es|
  {
    es == [] || (Orderly(s, es[0]) && AllOrderly(Next(s, es[0]), es[1..]))
  }

  lemma {:induction false} RunKeepsInv(s: St, es: seq<Event>)
    requires Inv(s) && Feasible(s, es) && AllOrderly(s, es)
    ensures Inv(Exec(s, es))
    decreases |es|
  {
    hide Inv, Next, Enabled, Orderly;
    if es != [] {
      NextInv(s, es[0]);
      RunKeepsInv(Next(s, es[0]), es[1..]);
    }
  }
}
