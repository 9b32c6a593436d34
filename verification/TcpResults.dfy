/**
 The properties of every run of the socket machine in which each wait is ended
 by what it waits for, and exactly which runs these are.
 */
module TcpResults {
  import opened Wrappers
  import opened Runtime
  import opened TcpServer
  import opened TcpInvariant

  /** Await matching on every orderly run. A queued token belongs to a coroutine
      that has not started, that pauses, or whose own operation is complete, so
      no wait on a socket returns before its completion; a handler that is due
      writes into the locals of the very wait that started its operation. */
  lemma AwaitMatching(es: seq<Event>)
    requires Feasible(LISTENING, es) && AllOrderly(LISTENING, es)
    ensures var s := Exec(LISTENING, es);
      && (forall c: CoId :: c in s.frames ==> Matched(s, c))
      && (forall c: CoId :: c in s.rt.tokens ==>
            && c in s.rt.live && c in s.frames && s.rt.tokens[c] == 1
            && (s.frames[c].Waits() ==> s.frames[c].slot.done))
      && (forall o: OpId :: o in s.ops ==>
            && s.ops[o].co in s.frames
            && s.frames[s.ops[o].co].Waits()
            && s.frames[s.ops[o].co].slot == Slot(o, false, true, 0)
            && s.ops[o].req == RequestOf(s.frames[s.ops[o].co]))
  {
    hide Matched;
    InitInv();
    RunKeepsInv(LISTENING, es);
    var s := Exec(LISTENING, es);
    forall c: CoId | c in s.rt.tokens
      ensures c in s.rt.live && c in s.frames && s.rt.tokens[c] == 1
      ensures s.frames[c].Waits() ==> s.frames[c].slot.done
    {
      TokenIsLive(s, c);
    }
    forall o: OpId | o in s.ops
      ensures s.ops[o].co in s.frames && s.frames[s.ops[o].co].Waits()
      ensures s.frames[s.ops[o].co].slot == Slot(o, false, true, 0)
      ensures s.ops[o].req == RequestOf(s.frames[s.ops[o].co])
    {
      OwnOperation(s, o);
    }
  }

  // ---------------------------------------------------------------------
  // Exactly which runs match
  // ---------------------------------------------------------------------

  ghost predicate AlwaysMatched(s: St, es: seq<Event>)
    requires Feasible(s, es)
    decreases |es|
  {
    AllMatched(s) && (es != [] ==> AlwaysMatched(Next(s, es[0]), es[1..]))
  }

  lemma Disorder(s: St, e: Event)
    requires Inv(s) && Enabled(s, e) && !Orderly(s, e)
    ensures !AllMatched(Next(s, e))
  {
    hide Matched, HandlersMatched, Population, Conns, Wires, Inputs, Orderly, Next, Domain;
    assert IsTimer(e) by { OnlyTimersDisturb(s, e); }
    TimerOnly(s, e);
    OrderlyStep(s, e);
  }

  lemma OnlyTimersDisturb(s: St, e: Event)
    requires !Orderly(s, e)
    ensures IsTimer(e)
  {
  }

  lemma {:induction false} MatchedRun(s: St, es: seq<Event>)
    requires Inv(s) && Feasible(s, es)
    ensures AlwaysMatched(s, es) <==> AllOrderly(s, es)
    decreases |es|
  {
    assert AllMatched(s);
    hide Inv, AllMatched, Next, Enabled, Orderly;
    if es != [] {
      if Orderly(s, es[0]) {
        NextInv(s, es[0]);
        MatchedRun(Next(s, es[0]), es[1..]);
      } else {
        Disorder(s, es[0]);
      }
    }
  }

  /** Awaits match in every state of a run if and only if nobody resumes a
      coroutine that does not pause, nobody resumes a pause twice, and no timer
      expires once its pause was resumed. */
  lemma MatchedIffOrderly(es: seq<Event>)
    requires Feasible(LISTENING, es)
    ensures AlwaysMatched(LISTENING, es) <==> AllOrderly(LISTENING, es)
  {
    InitInv();
    MatchedRun(LISTENING, es);
  }

  // ---------------------------------------------------------------------
  // Population and wires
  // ---------------------------------------------------------------------

  /** The server population on every orderly run: one coroutine accepts or is
      about to, at most one accept is outstanding, every open connection has
      exactly one server, and cos_ has one member more than there are
      connections. */
  lemma ServerPopulation(es: seq<Event>)
    requires Feasible(LISTENING, es) && AllOrderly(LISTENING, es)
    ensures var s := Exec(LISTENING, es);
      && |s.rt.live| == |s.open| + 1
      && (exists a: CoId :: a in s.frames && s.frames[a].Accepts()
            && forall b: CoId :: b in s.frames && s.frames[b].Accepts() ==> b == a)
      && (forall o: OpId, p: OpId :: o in s.ops && p in s.ops && s.ops[o].req.AcceptOp? && s.ops[p].req.AcceptOp? ==> o == p)
      && (forall k: ConnId :: k in s.open ==> k in s.server && ServedBy(s, k, s.server[k]))
      && (forall k: ConnId, c: CoId :: ServedBy(s, k, c) ==> k in s.open && c == s.server[k])
  {
    hide Domain, Matched, HandlersMatched, Wires, Inputs, Conns;
    InitInv();
    RunKeepsInv(LISTENING, es);
    OneAccept(Exec(LISTENING, es));
  }

  lemma OneAccept(s: St)
    requires AllMatched(s) && HandlersMatched(s) && Population(s)
    ensures forall o: OpId, p: OpId | o in s.ops && p in s.ops ::
      s.ops[o].req.AcceptOp? && s.ops[p].req.AcceptOp? ==> o == p
  {
    forall o: OpId, p: OpId | o in s.ops && p in s.ops && s.ops[o].req.AcceptOp? && s.ops[p].req.AcceptOp?
      ensures o == p
    {
      OwnOperation(s, o);
      OwnOperation(s, p);
    }
  }

  /** The wire holds the arguments of the send calls that returned, in order,
      followed by a prefix of the argument of the call in progress; between
      two calls, and once the connection is closed, it is the former alone. */
  ghost predicate WireExactAt(s: St, k: ConnId)
    requires k in s.wire
  {
    && k in s.returned
    && (s.wire[k] == Flat(s.returned[k]) || (k in s.open && k in s.server && Sending(s, k, s.server[k])))
    && (k !in s.open ==> s.wire[k] == Flat(s.returned[k]))
    && (forall c: CoId :: ServedBy(s, k, c) && !s.frames[c].Writing? ==> s.wire[k] == Flat(s.returned[k]))
  }

  ghost predicate Sending(s: St, k: ConnId, c: CoId)
    requires k in s.wire && k in s.returned
  {
    && ServedBy(s, k, c) && s.frames[c].Writing?
    && exists n: nat :: n <= |s.frames[c].data| && s.wire[k] == Flat(s.returned[k]) + s.frames[c].data[..n]
  }

  /** Exactly-once bytes, on every orderly run, whatever sizes the kernel reports. */
  lemma WireIsExact(es: seq<Event>, k: ConnId)
    requires Feasible(LISTENING, es) && AllOrderly(LISTENING, es)
    requires k in Exec(LISTENING, es).wire
    ensures WireExactAt(Exec(LISTENING, es), k)
  {
    hide WireExactAt;
    InitInv();
    RunKeepsInv(LISTENING, es);
    WireAt(Exec(LISTENING, es), k);
  }

  lemma WireAt(s: St, k: ConnId)
    requires Wires(s) && EachServed(s) && Conns(s) && k in s.wire
    ensures WireExactAt(s, k)
  {
    if k in s.open {
      assert ServedBy(s, k, s.server[k]);
      assert WireOf(s, s.frames[s.server[k]]);
    }
  }

  /** What the reads on a connection returned is what the message handler was
      given, in order, each once, but for one that is complete and whose
      coroutine has not run yet; once the connection is closed, exactly. */
  ghost predicate HeardExactAt(s: St, k: ConnId)
    requires k in s.input
  {
    var i := s.input[k];
    && i.handled <= i.got && |i.got| <= |i.handled| + 1
    && (k !in s.open ==> i.handled == i.got)
    && (forall c: CoId :: ServedBy(s, k, c) && !s.frames[c].Reading? ==> i.handled == i.got)
  }

  /** Every read is handled once, on every orderly run. */
  lemma ReadsAreExact(es: seq<Event>, k: ConnId)
    requires Feasible(LISTENING, es) && AllOrderly(LISTENING, es)
    requires k in Exec(LISTENING, es).input
    ensures HeardExactAt(Exec(LISTENING, es), k)
  {
    hide HeardExactAt, Domain, AllMatched, HandlersMatched, Wires;
    InitInv();
    RunKeepsInv(LISTENING, es);
    HeardAt(Exec(LISTENING, es), k);
  }

  lemma HeardAt(s: St, k: ConnId)
    requires Inputs(s) && EachServed(s) && k in s.input
    ensures HeardExactAt(s, k)
  {
    if k in s.open {
      assert ServedBy(s, k, s.server[k]);
      assert InputAt(s, s.frames[s.server[k]]);
    }
    forall c: CoId | ServedBy(s, k, c)
      ensures InputAt(s, s.frames[c])
    {
    }
  }
}
