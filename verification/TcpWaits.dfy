/**
 Waits on sockets when anything may resume a coroutine: exactly when a wait is
 safe, and what one wake-up too many does to a reply.
 */
module TcpWaits {
  import opened Wrappers
  import opened Runtime
  import opened TcpServer
  import opened TcpInvariant

  // ---------------------------------------------------------------------
  // What every run keeps
  // ---------------------------------------------------------------------

  /** A wait is over, or its operation is with the kernel. */
  ghost predicate WaitsOwn(s: St) {
    forall c: CoId :: c in s.frames && s.frames[c].Waits() && !s.frames[c].slot.done ==> Pending(s, c, s.frames[c])
  }

  ghost predicate OpsKnown(s: St) {
    forall o: OpId :: o in s.ops ==> o < s.nextOp && s.ops[o].co in s.frames
  }

  /** Only a pause has an armed timer. */
  ghost predicate TimersPause(s: St) {
    forall c: CoId :: c in s.rt.armed ==> c in s.frames && s.frames[c].Pausing?
  }

  ghost predicate ConnsKnown(s: St) {
    forall c: CoId :: c in s.frames && s.frames[c].Serves() ==> s.frames[c].conn in s.returned && s.frames[c].conn in s.input
  }

  ghost predicate Weak(s: St) {
    Domain(s) && WaitsOwn(s) && OpsKnown(s) && TimersPause(s) && ConnsKnown(s)
  }

  lemma InvIsWeak(s: St)
    requires Inv(s)
    ensures Weak(s)
  {
    hide Population, Conns, Domain;
    assert forall c: CoId :: c in s.rt.armed ==> c in s.frames by { ArmedKnown(s); }
    forall c: CoId | c in s.frames
      ensures s.frames[c].Waits() && !s.frames[c].slot.done ==> Pending(s, c, s.frames[c])
      ensures c in s.rt.armed ==> s.frames[c].Pausing?
      ensures s.frames[c].Serves() ==> s.frames[c].conn in s.returned && s.frames[c].conn in s.input
    {
      assert Matched(s, c);
      assert s.frames[c].Serves() ==> WireOf(s, s.frames[c]) && InputAt(s, s.frames[c]);
    }
  }

  lemma ArmedKnown(s: St)
    requires Domain(s)
    ensures forall c: CoId :: c in s.rt.armed ==> c in s.frames
  {
    assert s.rt.armed <= s.rt.live;
  }

  /** `co` has just got control, whatever else is queued for it. */
  ghost predicate WeakControl(s: St, co: CoId) {
    Weak(s) && co in s.frames && co in s.rt.live && co !in s.rt.armed && co in s.rt.resumed
  }

  lemma TokenControls(s: St, co: CoId)
    requires Weak(s) && co in s.rt.tokens && co in s.rt.live
    ensures WeakControl(Taken(s, co), co)
  {
    hide RtInv, Domain, Take, Pending;
    DomainParts(s);
    TakeIs(s.rt, co);
    var t := Taken(s, co);
    DomainKept(s, t);
    assert co in s.frames by { LiveKnown(s, co); }
    assert forall c: CoId :: c in t.frames && t.frames[c].Waits() && Pending(s, c, t.frames[c]) ==> Pending(t, c, t.frames[c]) by {
      PendingOnlyReads(s, t);
    }
  }

  lemma LiveKnown(s: St, co: CoId)
    requires Domain(s)
    ensures co in s.rt.live ==> co in s.frames && !s.frames[co].Gone?
  {
    hide RtInv;
  }

  lemma PendingOnlyReads(s: St, t: St)
    requires t.ops == s.ops
    ensures forall c: CoId, f: Frame | f.Waits() :: Pending(s, c, f) ==> Pending(t, c, f)
  {
  }

  lemma TokenDropped(s: St, co: CoId)
    requires Weak(s) && co in s.rt.tokens && co !in s.rt.live
    ensures Weak(Taken(s, co))
  {
    hide RtInv, Domain, Take, Pending;
    DomainParts(s);
    InvTake(s.rt, co);
    TakeEffect(s.rt, co);
    DomainKept(s, Taken(s, co));
    PendingOnlyReads(s, Taken(s, co));
  }

  lemma WeakGoesOn(s: St, t: St, co: CoId, g: Frame)
    requires WeakControl(s, co) && Settled(s, t, co, g) && Moved(s, t, co, g)
    ensures Weak(t)
  {
    assert co in s.frames;
    hide RtInv, Arm, Domain, Moved, Settled, WaitsOwn, OpsKnown, ConnsKnown;
    SettledRuntime(s, t, co, g);
    MovedFrames(s, t, co, g);
    SettledWaits(s, t, co, g);
  }

  lemma SettledWaits(s: St, t: St, co: CoId, g: Frame)
    requires WaitsOwn(s) && OpsKnown(s) && co in s.frames && Settled(s, t, co, g) && t.frames == s.frames[co := g]
    ensures WaitsOwn(t) && OpsKnown(t)
  {
    hide Arm;
  }

  lemma MovedFrames(s: St, t: St, co: CoId, g: Frame)
    requires co in s.frames && Moved(s, t, co, g)
    ensures t.frames == s.frames[co := g] && !g.Gone?
    ensures ConnsKnown(s) ==> ConnsKnown(t)
  {
  }

  lemma SettledRuntime(s: St, t: St, co: CoId, g: Frame)
    requires Domain(s) && co in s.frames && co in s.rt.live && Settled(s, t, co, g) && Moved(s, t, co, g)
    ensures Domain(t) && t.rt.armed == if g.Pausing? then s.rt.armed + {co} else s.rt.armed
  {
    hide RtInv, Arm, Domain;
    DomainParts(s);
    ArmEffect(s.rt, co);
    ArmOnly(s.rt, co);
    FrameKnown(s, co);
    DomainKept(s, t);
  }

  lemma ArmOnly(r: Rt, co: CoId)
    ensures Arm(r, co).armed == r.armed + {co}
  {
  }

  lemma WeakAccept(s: St, co: CoId)
    requires WeakControl(s, co) && s.frames[co].Accepting?
    ensures Weak(Accepted(s, co))
  {
    hide RtInv, Domain, Spawn, Accepted, Settled;
    var t := Accepted(s, co);
    var g := Reading(EmptySlot(s), s.nextConn);
    AcceptedIs(s, co);
    AcceptRuntime(s, t, co, g);
    DomainParts(s);
    SpawnEffect(s.rt);
    SpawnDomain(s);
    assert co in Spawned(s).frames && co != s.rt.next by { FrameKnown(s, co); }
    DomainKept(Spawned(s), t);
  }

  lemma WeakClose(s: St, co: CoId, conn: ConnId)
    requires WeakControl(s, co)
    ensures Weak(Closed(s, co, conn))
  {
    ClosedDomain(s, co, conn);
    hide RtInv, Finish, Domain;
    assert Closed(s, co, conn).rt.armed == s.rt.armed by { FinishArmed(s.rt, co); }
  }

  lemma FinishArmed(r: Rt, co: CoId)
    ensures Finish(r, co).armed == r.armed
  {
  }

  /** Weak does not look at `down`. */
  lemma WeakDown(s: St)
    requires Weak(s)
    ensures Weak(s.(down := true))
  {
    hide RtInv;
    assert forall c: CoId, f: Frame | f.Waits() :: Pending(s, c, f) ==> Pending(s.(down := true), c, f);
  }

  lemma WeakWake(s: St, co: CoId, choice: Choice)
    requires Weak(s) && co in s.rt.tokens
    ensures Weak(RunBody(s, co, choice))
  {
    LiveKnown(s, co);
    hide Domain, WaitsOwn, OpsKnown, TimersPause, NextFrame, Settled, Moved, Accepted, Closed, Proceed, Wrote, StartAccept, Heard;
    if co in s.rt.live {
      TokenControls(s, co);
      var t := Taken(s, co);
      var f := t.frames[co];
      if StaysInRole(f) {
        BodyMoves(t, co, choice);
        WeakGoesOn(t, Body(t, co, choice), co, NextFrame(t, f, choice));
      } else if f.Accepting? && f.slot.done {
        WeakAccept(t, co);
      } else if f.Accepting? {
        WeakDown(t);
      } else {
        WeakClose(t, co, f.conn);
      }
    } else {
      TokenDropped(s, co);
    }
  }

  lemma WeakHandler(s: St, op: OpId)
    requires Weak(s) && Enabled(s, EvHandler(op))
    ensures Weak(Handler(s, op))
  {
    hide RtInv, Domain;
    var co := s.ops[op].co;
    DomainParts(s);
    FrameKnown(s, co);
    InvPost(s.rt, co);
    DomainKept(s, Handler(s, op));
  }

  lemma WeakKernel(s: St, op: OpId, outcome: Outcome)
    requires Weak(s) && Enabled(s, EvKernel(op, outcome))
    ensures Weak(Kernel(s, op, outcome))
  {
    hide RtInv, Domain, Kernel;
    KernelOnly(s, op, outcome);
    KernelConns(s, op, outcome);
    DomainParts(s);
    DomainKept(s, Kernel(s, op, outcome));
  }

  lemma KernelConns(s: St, op: OpId, outcome: Outcome)
    requires Enabled(s, EvKernel(op, outcome))
    ensures Kernel(s, op, outcome).returned == s.returned && s.input.Keys <= Kernel(s, op, outcome).input.Keys
  {
  }

  lemma WeakTimer(s: St, e: Event)
    requires Weak(s) && IsTimer(e) && Enabled(s, e)
    ensures Weak(Next(s, e))
  {
    hide RtInv, Domain, Pending;
    TimerOnly(s, e);
    PendingOnlyReads(s, Next(s, e));
    NothingArmed(s.rt, e);
  }

  lemma NothingArmed(r: Rt, e: Event)
    requires IsTimer(e)
    ensures Post(r, e.co).armed == r.armed
    ensures e.co in r.armed ==> Expire(r, e.co).armed <= r.armed
    ensures e.co in r.fired ==> RunFired(r, e.co).armed == r.armed
    ensures e.co in r.cancelled ==> RunCancelled(r, e.co).armed == r.armed
  {
  }

  lemma NextWeak(s: St, e: Event)
    requires Weak(s) && Enabled(s, e)
    ensures Weak(Next(s, e))
  {
    hide Weak;
    match e
    case EvWake(co, choice) => WeakWake(s, co, choice);
    case EvKernel(op, outcome) => WeakKernel(s, op, outcome);
    case EvHandler(op) => WeakHandler(s, op);
    case _ => WeakTimer(s, e);
  }

  lemma {:induction false} RunKeepsWeak(s: St, es: seq<Event>)
    requires Weak(s) && Feasible(s, es)
    ensures Weak(Exec(s, es))
    decreases |es|
  {
    hide Weak, Next, Enabled;
    if es != [] {
      NextWeak(s, es[0]);
      RunKeepsWeak(Next(s, es[0]), es[1..]);
    }
  }

  // ---------------------------------------------------------------------
  // Exactly when a wait is safe
  // ---------------------------------------------------------------------

  /** `co` is in the wait that started operation `o`, which is not complete. */
  predicate InWait(s: St, co: CoId, o: OpId) {
    co in s.frames && s.frames[co].Waits() && s.frames[co].slot.op == o && !s.frames[co].slot.done
  }

  /** The event takes `co` out of this wait. */
  predicate Early(s: St, e: Event, co: CoId, o: OpId) {
    e.EvWake? && e.co == co && InWait(s, co, o) && co in s.rt.live
  }

  predicate LeavesEarly(s: St, es: seq<Event>, co: CoId, o: OpId)
    requires Feasible(s, es)
    decreases |es|
  {
    es != [] && (Early(s, es[0], co, o) || LeavesEarly(Next(s, es[0]), es[1..], co, o))
  }

  /** Nobody else resumes `co` while it is in this wait. */
  predicate Undisturbed(s: St, es: seq<Event>, co: CoId, o: OpId)
    requires Feasible(s, es)
    decreases |es|
  {
    es == [] || (!(es[0] == EvStray(co) && InWait(s, co, o)) && Undisturbed(Next(s, es[0]), es[1..], co, o))
  }

  /** In no continuation does `co` leave this wait before its completion. */
  ghost predicate SafeWait(s: St, co: CoId, o: OpId) {
    forall es: seq<Event> | Feasible(s, es) :: Undisturbed(s, es, co, o) ==> !LeavesEarly(s, es, co, o)
  }

  /** None of the coroutine's tokens or expired timers is queued, and no other
      operation of its is with the kernel. */
  ghost predicate Quiet(s: St, co: CoId, o: OpId) {
    && s.rt.tokens[co] == 0 && s.rt.fired[co] == 0
    && forall p: OpId :: p in s.ops && s.ops[p].co == co ==> p == o
  }

  /** What an event about coroutine `c` leaves to everybody else. */
  ghost predicate Touches(s: St, t: St, c: CoId) {
    && (forall d: CoId :: d in s.frames && d != c ==>
          d in t.frames && t.frames[d] == s.frames[d] && t.rt.tokens[d] == s.rt.tokens[d] && t.rt.fired[d] == s.rt.fired[d])
    && (forall p: OpId :: p in t.ops && t.ops[p].co != c ==> p in s.ops && s.ops[p].co == t.ops[p].co)
  }

  lemma TakeTouches(s: St, c: CoId)
    requires c in s.rt.tokens
    ensures Touches(s, Taken(s, c), c) && Taken(s, c).frames == s.frames && Taken(s, c).nextOp == s.nextOp && Taken(s, c).ops == s.ops
  {
  }

  /** The wait a body ends in is a new one, unless the process is gone. */
  ghost predicate NewWait(s: St, t: St, c: CoId) {
    && (c in t.frames && t.frames[c].Waits() ==> t.frames[c].slot.op == s.nextOp || (c in s.frames && t.frames[c] == s.frames[c]))
    && s.frames.Keys <= t.frames.Keys && s.nextOp <= t.nextOp
  }

  lemma StepTouches(s: St, t: St, c: CoId, g: Frame)
    requires c in s.frames && Settled(s, t, c, g) && Moved(s, t, c, g)
    ensures Touches(s, t, c) && NewWait(s, t, c)
  {
  }

  lemma AcceptTouches(s: St, c: CoId)
    requires Domain(s) && c in s.frames
    ensures Touches(s, Accepted(s, c), c) && NewWait(s, Accepted(s, c), c)
  {
    hide RtInv, Accepted, Spawn, Domain, Settled;
    DomainParts(s);
    AcceptedIs(s, c);
    AcceptRuntime(s, Accepted(s, c), c, Reading(EmptySlot(s), s.nextConn));
    SpawnEffect(s.rt);
    FrameKnown(s, s.rt.next);
  }

  lemma CloseTouches(s: St, c: CoId, conn: ConnId)
    requires c in s.frames
    ensures Touches(s, Closed(s, c, conn), c) && NewWait(s, Closed(s, c, conn), c)
  {
  }

  lemma DownTouches(s: St, c: CoId)
    ensures Touches(s, s.(down := true), c) && NewWait(s, s.(down := true), c)
  {
  }

  lemma BodyTouches(s: St, c: CoId, choice: Choice)
    requires WeakControl(s, c)
    ensures Touches(s, Body(s, c, choice), c) && NewWait(s, Body(s, c, choice), c)
  {
    LiveKnown(s, c);
    hide Domain, WaitsOwn, OpsKnown, TimersPause, NextFrame, Settled, Moved, Accepted, Closed, Proceed, Wrote, StartAccept, Heard, Touches, NewWait;
    var f := s.frames[c];
    if StaysInRole(f) {
      BodyMoves(s, c, choice);
      StepTouches(s, Body(s, c, choice), c, NextFrame(s, f, choice));
    } else if f.Accepting? && f.slot.done {
      AcceptTouches(s, c);
    } else if f.Accepting? {
      DownTouches(s, c);
    } else {
      CloseTouches(s, c, f.conn);
    }
  }

  lemma TouchesBoth(s: St, t: St, u: St, c: CoId)
    requires Touches(s, t, c) && Touches(t, u, c)
    ensures Touches(s, u, c)
  {
  }

  lemma WakeTouches(s: St, c: CoId, choice: Choice)
    requires Weak(s) && c in s.rt.tokens
    ensures Touches(s, RunBody(s, c, choice), c)
    ensures c in s.rt.live ==> NewWait(s, RunBody(s, c, choice), c)
    ensures c !in s.rt.live ==> RunBody(s, c, choice).frames == s.frames && RunBody(s, c, choice).nextOp == s.nextOp
  {
    LiveKnown(s, c);
    hide Weak, WeakControl, Body, Touches, Take, NewWait;
    TakeTouches(s, c);
    if c in s.rt.live {
      TokenControls(s, c);
      BodyTouches(Taken(s, c), c, choice);
      TouchesBoth(s, Taken(s, c), RunBody(s, c, choice), c);
      assert NewWait(Taken(s, c), RunBody(s, c, choice), c);
      SameNextOp(s, Taken(s, c), RunBody(s, c, choice), c);
    }
  }

  lemma SameNextOp(s: St, t: St, u: St, c: CoId)
    requires t.nextOp == s.nextOp && t.frames == s.frames && NewWait(t, u, c)
    ensures NewWait(s, u, c)
  {
  }

  lemma TimerTouches(s: St, e: Event)
    requires Domain(s) && IsTimer(e) && Enabled(s, e)
    ensures Touches(s, Next(s, e), e.co) && Next(s, e).frames == s.frames && Next(s, e).ops == s.ops
  {
    hide RtInv, Domain;
    TimerOnly(s, e);
  }

  ghost predicate QuietWait(s: St, co: CoId, o: OpId) {
    InWait(s, co, o) ==> Quiet(s, co, o)
  }

  lemma TouchedQuiet(s: St, t: St, c: CoId, co: CoId, o: OpId)
    requires Touches(s, t, c) && c != co && co in s.frames && QuietWait(s, co, o)
    ensures QuietWait(t, co, o)
  {
  }

  lemma HandlerTouches(s: St, op: OpId)
    requires Enabled(s, EvHandler(op))
    ensures Touches(s, Handler(s, op), s.ops[op].co)
  {
  }

  /** The completion of `o` ends the wait; another one cannot be its. */
  lemma OwnHandlerQuiet(s: St, op: OpId, co: CoId, o: OpId)
    requires Enabled(s, EvHandler(op)) && s.ops[op].co == co && QuietWait(s, co, o)
    ensures QuietWait(Handler(s, op), co, o)
  {
  }

  lemma KernelQuiet(s: St, op: OpId, outcome: Outcome, co: CoId, o: OpId)
    requires Enabled(s, EvKernel(op, outcome)) && QuietWait(s, co, o)
    ensures QuietWait(Kernel(s, op, outcome), co, o)
  {
  }

  lemma OwnTimerQuiet(s: St, e: Event, o: OpId)
    requires Weak(s) && IsTimer(e) && Enabled(s, e) && QuietWait(s, e.co, o)
    requires !(e.EvStray? && InWait(s, e.co, o))
    ensures QuietWait(Next(s, e), e.co, o)
  {
    TimerTouches(s, e);
    hide Domain, WaitsOwn, OpsKnown, ConnsKnown;
  }

  lemma QuietStep(s: St, e: Event, co: CoId, o: OpId)
    requires Weak(s) && Enabled(s, e) && co in s.frames && o < s.nextOp && QuietWait(s, co, o)
    requires !(e == EvStray(co) && InWait(s, co, o))
    ensures !Early(s, e, co, o)
    ensures QuietWait(Next(s, e), co, o)
  {
    match e
    case EvWake(c, choice) =>
      WakeTouches(s, c, choice);
      hide Weak, Touches, Quiet, RunBody;
      if c != co {
        TouchedQuiet(s, Next(s, e), c, co, o);
      } else if InWait(s, co, o) {
        QuietHasNoToken(s, co, o);
      }
    case EvKernel(op, outcome) => KernelQuiet(s, op, outcome, co, o);
    case EvHandler(op) =>
      if s.ops[op].co == co {
        OwnHandlerQuiet(s, op, co, o);
      } else {
        HandlerTouches(s, op);
        hide Weak, Touches, Handler;
        TouchedQuiet(s, Next(s, e), s.ops[op].co, co, o);
      }
    case _ =>
      hide Touches, Next;
      TimerTouches(s, e);
      hide Weak;
      if e.co == co {
        OwnTimerQuiet(s, e, o);
      } else {
        TouchedQuiet(s, Next(s, e), e.co, co, o);
      }
  }

  lemma QuietHasNoToken(s: St, co: CoId, o: OpId)
    requires Quiet(s, co, o)
    ensures co !in s.rt.tokens && co !in s.rt.fired
  {
  }

  /** In a quiet wait nothing but the completion can end it. */
  lemma {:induction false} QuietRun(s: St, es: seq<Event>, co: CoId, o: OpId)
    requires Weak(s) && co in s.frames && o < s.nextOp && QuietWait(s, co, o)
    requires Feasible(s, es) && Undisturbed(s, es, co, o)
    ensures !LeavesEarly(s, es, co, o)
    decreases |es|
  {
    hide Weak, Next, Enabled, QuietWait, Early, InWait;
    if es != [] {
      NextWeak(s, es[0]);
      QuietStep(s, es[0], co, o);
      NothingForgotten(s, es[0], co);
      QuietRun(Next(s, es[0]), es[1..], co, o);
    }
  }

  lemma NothingForgotten(s: St, e: Event, co: CoId)
    requires Weak(s) && Enabled(s, e) && co in s.frames
    ensures co in Next(s, e).frames && Next(s, e).nextOp >= s.nextOp
  {
    if e.EvWake? {
      WakeTouches(s, e.co, e.choice);
    }
    hide Weak, RunBody, Touches;
  }

  // ---------------------------------------------------------------------
  // The other half: each of the three ways out
  // ---------------------------------------------------------------------

  /** The shortest run in which something left over ends the wait. */
  function WayOut(s: St, co: CoId, p: OpId): seq<Event> {
    if co in s.rt.tokens then [EvWake(co, NOTHING)]
    else if co in s.rt.fired then [EvFired(co), EvWake(co, NOTHING)]
    else if p in s.ops && s.ops[p].result.Some? then [EvHandler(p), EvWake(co, NOTHING)]
    else if p in s.ops then [EvKernel(p, AnyAnswer(s.ops[p].req)), EvHandler(p), EvWake(co, NOTHING)]
    else []
  }

  function AnyAnswer(req: Request): Outcome {
    if req.ReadOp? then Failure else Success(0)
  }

  lemma WakesEarly(s: St, co: CoId, o: OpId)
    requires co in s.rt.tokens && InWait(s, co, o) && co in s.rt.live && !s.down
    ensures Feasible(s, [EvWake(co, NOTHING)]) && Undisturbed(s, [EvWake(co, NOTHING)], co, o)
    ensures LeavesEarly(s, [EvWake(co, NOTHING)], co, o)
  {
    hide Next;
    var e := EvWake(co, NOTHING);
    assert [e][1..] == [];
  }

  lemma OneBefore(s: St, e: Event, es: seq<Event>, co: CoId, o: OpId)
    requires Enabled(s, e) && !e.EvStray? && Feasible(Next(s, e), es) && Undisturbed(Next(s, e), es, co, o)
    requires LeavesEarly(Next(s, e), es, co, o)
    ensures Feasible(s, [e] + es) && Undisturbed(s, [e] + es, co, o) && LeavesEarly(s, [e] + es, co, o)
  {
    hide Next, Enabled, Early, InWait;
    assert ([e] + es)[1..] == es;
  }

  lemma HandlerWakes(s: St, co: CoId, o: OpId, p: OpId)
    requires !s.down && InWait(s, co, o) && co in s.rt.live && p in s.ops && p != o && s.ops[p].co == co && s.ops[p].result.Some?
    ensures Feasible(s, [EvHandler(p), EvWake(co, NOTHING)]) && Undisturbed(s, [EvHandler(p), EvWake(co, NOTHING)], co, o)
    ensures LeavesEarly(s, [EvHandler(p), EvWake(co, NOTHING)], co, o)
  {
    WakesEarly(Next(s, EvHandler(p)), co, o);
    hide Next;
    OneBefore(s, EvHandler(p), [EvWake(co, NOTHING)], co, o);
    assert [EvHandler(p), EvWake(co, NOTHING)] == [EvHandler(p)] + [EvWake(co, NOTHING)];
  }

  lemma LeftoverEndsIt(s: St, co: CoId, o: OpId, p: OpId)
    requires !s.down && InWait(s, co, o) && co in s.rt.live
    requires co in s.rt.tokens || co in s.rt.fired || (p in s.ops && p != o && s.ops[p].co == co)
    ensures var es := WayOut(s, co, p); Feasible(s, es) && Undisturbed(s, es, co, o) && LeavesEarly(s, es, co, o)
  {
    hide Feasible, Undisturbed, LeavesEarly;
    var wake := [EvWake(co, NOTHING)];
    if co in s.rt.tokens {
      WakesEarly(s, co, o);
    } else if co in s.rt.fired {
      WakesEarly(Next(s, EvFired(co)), co, o);
      OneBefore(s, EvFired(co), wake, co, o);
      assert [EvFired(co), EvWake(co, NOTHING)] == [EvFired(co)] + wake;
    } else if s.ops[p].result.Some? {
      HandlerWakes(s, co, o, p);
    } else {
      var e := EvKernel(p, AnyAnswer(s.ops[p].req));
      KernelAnswers(s, p, co, o);
      HandlerWakes(Next(s, e), co, o, p);
      OneBefore(s, e, [EvHandler(p), EvWake(co, NOTHING)], co, o);
      assert [e, EvHandler(p), EvWake(co, NOTHING)] == [e] + [EvHandler(p), EvWake(co, NOTHING)];
    }
  }

  lemma KernelAnswers(s: St, p: OpId, co: CoId, o: OpId)
    requires !s.down && p in s.ops && s.ops[p].result == None
    ensures Enabled(s, EvKernel(p, AnyAnswer(s.ops[p].req)))
    ensures var t := Next(s, EvKernel(p, AnyAnswer(s.ops[p].req)));
      && !t.down && t.frames == s.frames && t.rt == s.rt && p in t.ops && t.ops[p].co == s.ops[p].co && t.ops[p].result.Some?
  {
  }

  lemma Reached(es: seq<Event>)
    requires Feasible(LISTENING, es)
    ensures Weak(Exec(LISTENING, es))
  {
    InitInv();
    InvIsWeak(LISTENING);
    hide Weak, Inv;
    RunKeepsWeak(LISTENING, es);
  }

  /** In every state of every run, a coroutine that waits for a socket operation
      cannot be taken out of the wait before its completion, in any continuation
      in which nobody else resumes it there, if and only if none of its tokens
      and expired timers is queued and no operation of an earlier wait is left,
      or the process is gone already. */
  lemma WaitIsSafeIffQuiet(es: seq<Event>, co: CoId)
    requires Feasible(LISTENING, es)
    requires var s := Exec(LISTENING, es); co in s.frames && s.frames[co].Waits() && !s.frames[co].slot.done
    ensures var s := Exec(LISTENING, es); var o := s.frames[co].slot.op;
      SafeWait(s, co, o) <==> Quiet(s, co, o) || s.down
  {
    var s := Exec(LISTENING, es);
    var o := s.frames[co].slot.op;
    Reached(es);
    WaitFacts(s, co);
    hide Exec, Weak, Feasible, Undisturbed, LeavesEarly;
    if Quiet(s, co, o) {
      forall more: seq<Event> | Feasible(s, more) && Undisturbed(s, more, co, o)
        ensures !LeavesEarly(s, more, co, o)
      {
        QuietRun(s, more, co, o);
      }
    } else if s.down {
      forall more: seq<Event> | Feasible(s, more) && Undisturbed(s, more, co, o)
        ensures !LeavesEarly(s, more, co, o)
      {
        NothingAfter(s, more, co, o);
      }
    } else {
      var p: OpId := if co in s.rt.tokens || co in s.rt.fired then o else LeftoverOf(s, co, o);
      LeftoverEndsIt(s, co, o, p);
      assert Feasible(s, WayOut(s, co, p));
    }
  }

  lemma NothingAfter(s: St, es: seq<Event>, co: CoId, o: OpId)
    requires s.down && Feasible(s, es)
    ensures !LeavesEarly(s, es, co, o)
  {
  }

  ghost function LeftoverOf(s: St, co: CoId, o: OpId): (p: OpId)
    requires !Quiet(s, co, o) && co !in s.rt.tokens && co !in s.rt.fired
    ensures p in s.ops && s.ops[p].co == co && p != o
  {
    var p :| p in s.ops && s.ops[p].co == co && p != o; p
  }

  lemma WaitFacts(s: St, co: CoId)
    requires Weak(s) && co in s.frames && s.frames[co].Waits() && !s.frames[co].slot.done
    ensures co in s.rt.live && s.frames[co].slot.op < s.nextOp && s.frames[co].slot.op in s.ops
    ensures Pending(s, co, s.frames[co])
  {
    hide RtInv;
  }

  // ---------------------------------------------------------------------
  // What one wake-up too many costs during send
  // ---------------------------------------------------------------------

  function OnWire(s: St, k: ConnId): string {
    if k in s.wire then s.wire[k] else ""
  }

  /** An early resume, and the kernel taking in full what it was given before
      and what it is given again. */
  function Resend(co: CoId, first: OpId, again: OpId, size: nat): seq<Event> {
    [EvWake(co, NOTHING), EvKernel(first, Success(size)), EvKernel(again, Success(size))]
  }

  /** `co` is inside send with something left that the kernel has not taken. */
  predicate MidSend(s: St, co: CoId) {
    && !s.down && co in s.frames && s.frames[co].Writing? && !s.frames[co].slot.done
    && s.frames[co].slot.op in s.ops && s.ops[s.frames[co].slot.op].result == None
    && s.frames[co].sent < |s.frames[co].data|
  }

  /** `size` still has its initial zero, so the loop hands the same bytes to the
      kernel again, and the peer receives them twice. This is so for every
      connection, every data and every amount already sent. */
  lemma TokenDuplicatesBytes(s: St, co: CoId)
    requires Weak(s) && MidSend(s, co) && co in s.rt.tokens
    ensures var f := s.frames[co]; var es := Resend(co, f.slot.op, s.nextOp, |f.data| - f.sent);
      && Feasible(s, es)
      && OnWire(Exec(s, es), f.conn) == OnWire(s, f.conn) + f.data[f.sent..] + f.data[f.sent..]
  {
    hide Weak, RunBody, Kernel;
    var f := s.frames[co];
    var es := Resend(co, f.slot.op, s.nextOp, |f.data| - f.sent);
    SecondWrite(s, co);
    KernelTakesBoth(Next(s, es[0]), f.slot.op, s.nextOp, f.conn, f.data[f.sent..]);
    ThreeSteps(s, es[0], es[1], es[2]);
  }

  /** Two writes of the same bytes are outstanding, the kernel takes both. */
  lemma KernelTakesBoth(s: St, op: OpId, again: OpId, conn: ConnId, bytes: string)
    requires op in s.ops && again in s.ops && op != again
    requires s.ops[op].req == s.ops[again].req == WriteOp(conn, bytes)
    requires s.ops[op].result == s.ops[again].result == None && !s.down
    ensures Enabled(s, EvKernel(op, Success(|bytes|)))
    ensures var t := Kernel(s, op, Success(|bytes|));
      && Enabled(t, EvKernel(again, Success(|bytes|)))
      && OnWire(Kernel(t, again, Success(|bytes|)), conn) == OnWire(s, conn) + bytes + bytes
  {
    assert bytes[..|bytes|] == bytes;
  }

  lemma SecondWrite(s: St, co: CoId)
    requires Weak(s) && MidSend(s, co) && co in s.rt.tokens
    ensures var f := s.frames[co];
      && f.slot.op in s.ops && f.slot.op < s.nextOp
      && s.ops[f.slot.op].req == WriteOp(f.conn, f.data[f.sent..])
      && var t := RunBody(s, co, NOTHING);
         && t.ops == s.ops[s.nextOp := Op(co, WriteOp(f.conn, f.data[f.sent..]), None)]
         && t.wire == s.wire && !t.down
  {
    WaitFacts(s, co);
    hide Weak, Take;
  }

  lemma ThreeSteps(s: St, a: Event, b: Event, c: Event)
    requires Enabled(s, a) && Enabled(Next(s, a), b) && Enabled(Next(Next(s, a), b), c)
    ensures Feasible(s, [a, b, c]) && Exec(s, [a, b, c]) == Next(Next(Next(s, a), b), c)
  {
    hide Next, Enabled;
    var s1, s2 := Next(s, a), Next(Next(s, a), b);
    assert [a, b, c][1..] == [b, c] && [b, c][1..] == [c] && [c][1..] == [];
    assert Feasible(Next(s2, c), []);
    assert Feasible(s2, [c]) && Exec(s2, [c]) == Next(s2, c);
    assert Feasible(s1, [b, c]) && Exec(s1, [b, c]) == Exec(s2, [c]);
  }

  lemma {:induction false} RunAppend(s: St, a: seq<Event>, b: seq<Event>)
    requires Feasible(s, a) && Feasible(Exec(s, a), b)
    ensures Feasible(s, a + b) && Exec(s, a + b) == Exec(Exec(s, a), b)
    decreases |a|
  {
    hide Next, Enabled;
    if a == [] {
      assert a + b == b;
    } else {
      assert (a + b)[1..] == a[1..] + b;
      RunAppend(Next(s, a[0]), a[1..], b);
    }
  }

  /** The handler began to send `text`, and one of its tokens is queued. */
  ghost predicate Doomed(s: St, t: St, co: CoId, conn: ConnId, text: string) {
    && Weak(t) && MidSend(t, co) && co in t.rt.tokens && t.wire == s.wire
    && t.frames[co].slot.op == s.nextOp && t.frames[co].conn == conn && t.nextOp == s.nextOp + 1
    && t.frames[co].data == text && t.frames[co].sent == 0
  }

  lemma DoomedDoubles(s: St, es: seq<Event>, co: CoId, conn: ConnId, text: string)
    requires Feasible(s, es) && Doomed(s, Exec(s, es), co, conn, text)
    ensures var all := es + Resend(co, s.nextOp, s.nextOp + 1, |text|);
      Feasible(s, all) && OnWire(Exec(s, all), conn) == OnWire(s, conn) + text + text
  {
    hide Weak, Feasible, Exec, Resend;
    TokenDuplicatesBytes(Exec(s, es), co);
    assert text[0..] == text;
    RunAppend(s, es, Resend(co, s.nextOp, s.nextOp + 1, |text|));
  }

  /** The handler begins to send: after a read, or after a pause. */
  lemma SayBegins(s: St, co: CoId, choice: Choice, text: string, rest: seq<Move>)
    requires !s.down && co in s.rt.tokens && co in s.rt.live && co in s.frames && text != ""
    requires var f := s.frames[co];
      || (f.Reading? && f.slot.ok && choice.moves == [Say(text)] + rest)
      || (f.Pausing? && f.rest == [Say(text)] + rest)
    ensures var t := RunBody(s, co, choice);
      && MidSend(t, co) && t.wire == s.wire && t.nextOp == s.nextOp + 1 && t.rt == Take(s.rt, co)
      && t.frames[co] == Writing(EmptySlot(s), s.frames[co].conn, text, 0, rest)
  {
    hide Take, Heard;
    assert ([Say(text)] + rest)[1..] == rest;
  }

  lemma TakeKeeps(r: Rt, co: CoId)
    requires co in r.tokens
    ensures Take(r, co).fired == r.fired && Take(r, co).next == r.next
  {
  }

  /** Nothing special has to happen before: any reply that is not empty, sent
      by any handler in any reachable state, reaches the peer twice if somebody
      resumes the coroutine then. */
  lemma AnyReplyCanBeDoubled(s: St, co: CoId, text: string, rest: seq<Move>, junk: nat)
    requires Inv(s) && co in s.rt.tokens && co in s.frames && s.frames[co].Reading? && s.frames[co].slot.ok
    requires text != ""
    ensures var conn := s.frames[co].conn;
      var es := [EvWake(co, Choice([Say(text)] + rest, junk)), EvStray(co)] + Resend(co, s.nextOp, s.nextOp + 1, |text|);
      Feasible(s, es) && OnWire(Exec(s, es), conn) == OnWire(s, conn) + text + text
  {
    TokenIsLive(s, co);
    InvIsWeak(s);
    hide Weak, Inv, RunBody, OnWire, MidSend, Resend, Feasible, Exec;
    var conn := s.frames[co].conn;
    var choice := Choice([Say(text)] + rest, junk);
    var wake := EvWake(co, choice);
    SayBegins(s, co, choice, text, rest);
    NextWeak(s, wake);
    StrayIsDoom(s, Next(s, wake), co, conn, text);
    TwoSteps(s, wake, EvStray(co));
    DoomedDoubles(s, [wake, EvStray(co)], co, conn, text);
  }

  lemma StrayIsDoom(s: St, t: St, co: CoId, conn: ConnId, text: string)
    requires Weak(t) && MidSend(t, co) && t.wire == s.wire && t.nextOp == s.nextOp + 1
    requires t.frames[co].slot.op == s.nextOp && t.frames[co].conn == conn
    requires t.frames[co].data == text && t.frames[co].sent == 0
    ensures Enabled(t, EvStray(co)) && Doomed(s, Next(t, EvStray(co)), co, conn, text)
    ensures co in t.rt.fired ==> Enabled(t, EvFired(co)) && Doomed(s, Next(t, EvFired(co)), co, conn, text)
  {
    hide Weak;
    Known(t, co);
    NextWeak(t, EvStray(co));
    if co in t.rt.fired {
      NextWeak(t, EvFired(co));
    }
  }

  lemma Known(s: St, co: CoId)
    requires Weak(s)
    ensures co in s.frames ==> co < s.rt.next && (s.frames[co].Gone? <==> co !in s.rt.live)
  {
    hide RtInv;
  }

  lemma TwoSteps(s: St, a: Event, b: Event)
    requires Enabled(s, a) && Enabled(Next(s, a), b)
    ensures Feasible(s, [a, b]) && Exec(s, [a, b]) == Next(Next(s, a), b)
  {
    hide Next, Enabled;
    var s1 := Next(s, a);
    assert [a, b][1..] == [b] && [b][1..] == [];
    assert Feasible(Next(s1, b), []);
    assert Feasible(s1, [b]) && Exec(s1, [b]) == Next(s1, b);
  }

  /** A response posts a token, the timer expires before that token runs, the
      handler goes on, the expired timer is handled. */
  function Race(co: CoId): seq<Event> {
    [EvStray(co), EvExpire(co)] + [EvWake(co, NOTHING), EvFired(co)]
  }

  lemma Overtaken(s: St, co: CoId)
    requires Weak(s) && !s.down && co in s.frames && s.frames[co].Pausing? && co in s.rt.armed
    ensures Feasible(s, [EvStray(co), EvExpire(co)])
    ensures var t := Exec(s, [EvStray(co), EvExpire(co)]);
      && Weak(t) && co in t.rt.tokens && co in t.rt.fired && co in t.rt.live && t == s.(rt := t.rt)
  {
    hide Weak, Post, Expire, Feasible, Exec;
    Known(s, co);
    BothQueued(s.rt, co);
    var t := s.(rt := Post(s.rt, co));
    var u := s.(rt := Expire(t.rt, co));
    assert Enabled(s, EvStray(co)) && Next(s, EvStray(co)) == t;
    assert Enabled(t, EvExpire(co)) && Next(t, EvExpire(co)) == u;
    NextWeak(s, EvStray(co));
    NextWeak(t, EvExpire(co));
    TwoSteps(s, EvStray(co), EvExpire(co));
  }

  lemma BothQueued(r: Rt, co: CoId)
    requires co in r.armed
    ensures var p := Post(r, co);
      co in p.armed && co in Expire(p, co).tokens && co in Expire(p, co).fired && Expire(p, co).live == r.live
  {
  }

  /** One response is enough. While the handler pauses, as create does in
      get_for, a response arrives as the timer expires. The handler goes on and
      sends its reply; the expired timer ends the wait in send before the
      completion, and the reply reaches the peer twice. */
  lemma OneResponseCanDoubleTheReply(s: St, co: CoId, text: string, rest: seq<Move>)
    requires Inv(s) && co in s.frames && s.frames[co].Pausing? && s.frames[co].rest == [Say(text)] + rest
    requires co in s.rt.armed && text != ""
    ensures var conn := s.frames[co].conn;
      var es := Race(co) + Resend(co, s.nextOp, s.nextOp + 1, |text|);
      Feasible(s, es) && OnWire(Exec(s, es), conn) == OnWire(s, conn) + text + text
  {
    InvIsWeak(s);
    hide Weak, Inv, RunBody, OnWire, MidSend, Resend, Feasible, Exec;
    var conn := s.frames[co].conn;
    Overtaken(s, co);
    var t := Exec(s, [EvStray(co), EvExpire(co)]);
    SayBegins(t, co, NOTHING, text, rest);
    NextWeak(t, EvWake(co, NOTHING));
    TakeKeeps(t.rt, co);
    StrayIsDoom(s, Next(t, EvWake(co, NOTHING)), co, conn, text);
    TwoSteps(t, EvWake(co, NOTHING), EvFired(co));
    RunAppend(s, [EvStray(co), EvExpire(co)], [EvWake(co, NOTHING), EvFired(co)]);
    DoomedDoubles(s, Race(co), co, conn, text);
  }

  // ---------------------------------------------------------------------
  // And during recv
  // ---------------------------------------------------------------------

  /** `size` is not initialised and `ec` says success, so do_recv is called with
      whatever is in front of the buffer: when it holds the length of the last
      message by chance, that message is handled again. This is so for every
      connection that waits for its next message, whatever the handler then does. */
  lemma AnyRequestCanBeRepeated(s: St, co: CoId, before: seq<string>, last: string, moves: seq<Move>)
    requires Inv(s) && co in s.frames && s.frames[co].Reading? && !s.frames[co].slot.done
    requires s.frames[co].slot.op in s.ops ==> s.ops[s.frames[co].slot.op].result == None
    requires InputOf(s, s.frames[co].conn).handled == before + [last]
    ensures var conn := s.frames[co].conn; var es := [EvStray(co), EvWake(co, Choice(moves, |last|))];
      && Feasible(s, es)
      && InputOf(Exec(s, es), conn).handled == before + [last] + [last]
      && InputOf(Exec(s, es), conn).got == before + [last]
  {
    hide Inv, RunBody, InputAt, Unheard;
    var f := s.frames[co];
    var choice := Choice(moves, |last|);
    WaitsForNext(s, co);
    var t := s.(rt := Post(s.rt, co));
    assert co in t.rt.tokens && co in t.rt.live && Next(s, EvStray(co)) == t;
    HearsAgain(t, co, choice);
    FrontOfLast(s, f, before, last);
    TwoSteps(s, EvStray(co), EvWake(co, choice));
  }

  lemma WaitsForNext(s: St, co: CoId)
    requires Inv(s) && co in s.frames && s.frames[co].Reading? && !s.frames[co].slot.done
    requires s.frames[co].slot.op in s.ops ==> s.ops[s.frames[co].slot.op].result == None
    ensures !s.down && co < s.rt.next && co in s.rt.live && s.frames[co].slot.ok
    ensures InputAt(s, s.frames[co]) && Unheard(s, s.frames[co]) == []
  {
    hide Population, Conns, Wires, HandlersMatched, RtInv;
    assert Matched(s, co) && InputAt(s, s.frames[co]);
  }

  lemma HearsAgain(s: St, co: CoId, choice: Choice)
    requires co in s.rt.tokens && co in s.rt.live && co in s.frames && s.frames[co].Reading?
    requires !s.frames[co].slot.done && s.frames[co].slot.ok
    ensures var i := InputOf(s, s.frames[co].conn); var t := RunBody(s, co, choice);
      InputOf(t, s.frames[co].conn) == i.(handled := i.handled + [Front(i.buffer, choice.junk)])
  {
    hide Take, Arm, From;
  }

  lemma FrontOfLast(s: St, f: Frame, before: seq<string>, last: string)
    requires f.Serves() && InputAt(s, f) && Unheard(s, f) == [] && InputOf(s, f.conn).handled == before + [last]
    ensures var i := InputOf(s, f.conn); Front(i.buffer, |last|) == last && i.got == before + [last]
  {
    var i := InputOf(s, f.conn);
    assert i.handled[|i.handled|-1] == last;
  }
}
