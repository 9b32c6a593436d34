/**
 What a call of create leaves in the queue: the balance of wake-ups of every
 call over every run, and what it means for the call after it.
 */
module FixBalance {
  import opened Wrappers
  import opened Runtime
  import opened FixBuilder
  import opened FixInvariant
  import opened FixResults

  // ---------------------------------------------------------------------
  // Counting over a run
  // ---------------------------------------------------------------------

  /** How many responses woke the coroutine of future `f`: the posts of set. */
  function Posts(x: Fx, es: seq<Event>, f: FutId): nat
    requires Feasible(x, es)
    decreases |es|
  {
    if es == [] then 0
    else (if es[0].EvPost? && x.setter == Stored(f) then 1 else 0) + Posts(Next(x, es[0]), es[1..], f)
  }

  function Count(es: seq<Event>, e: Event): nat {
    if es == [] then 0 else (if es[0] == e then 1 else 0) + Count(es[1..], e)
  }

  /** Everything that can wake the call of future `f`: responses posted to it,
      expirations of its coroutine's timer, completions of operations of that
      coroutine's earlier waits, and tokens posted by anybody else. */
  function WakeUps(x: Fx, es: seq<Event>, co: CoId, f: FutId): nat
    requires Feasible(x, es)
  {
    Posts(x, es, f) + Count(es, EvExpire(co)) + Count(es, EvComplete(co)) + Count(es, EvForeign(co))
  }

  /** How many of its waits a call has come back from. */
  function Reads(g: Frame): int
    requires g.InCall()
  {
    if g.Leaving? then g.call.pass else g.call.pass - 1
  }

  /** `co` is in the call that registered future `f`. */
  predicate InCallOf(x: Fx, co: CoId, f: FutId) {
    co in x.frames && x.frames[co].InCall() && x.frames[co].call.fut == f
  }

  /** The wake-ups of `co` that are queued. */
  function Queued(x: Fx, co: CoId): nat {
    x.rt.tokens[co] + x.rt.fired[co]
  }

  // ---------------------------------------------------------------------
  // One step
  // ---------------------------------------------------------------------

  /** The wake-ups that one step adds for the call. */
  function Added(x: Fx, e: Event, co: CoId, f: FutId): nat {
    (if e.EvPost? && x.setter == Stored(f) then 1 else 0)
    + (if e == EvExpire(co) || e == EvComplete(co) || e == EvForeign(co) then 1 else 0)
  }

  ghost predicate Balanced(x: Fx, y: Fx, co: CoId, added: nat)
    requires co in x.frames && x.frames[co].InCall()
  {
    co in y.frames && y.frames[co].InCall() ==>
      Queued(y, co) + Reads(y.frames[co]) == Queued(x, co) + Reads(x.frames[co]) + added
  }

  /** An operation outstanding stays so until it completes; a call starts none. */
  ghost predicate LeftBalanced(x: Fx, y: Fx, e: Event, co: CoId) {
    x.left[co] == y.left[co] + if e == EvComplete(co) then 1 else 0
  }

  lemma LeftStep(x: Fx, e: Event, co: CoId, f: FutId)
    requires Enabled(x, e) && InCallOf(x, co, f)
    ensures LeftBalanced(x, Next(x, e), e, co)
  {
    hide Take, Expire, Arm, Finish, RunFired, RunCancelled, Post, Spawn, Observe, MarkExpired, MarkDisturbed;
  }

  lemma BalanceOfToken(x: Fx, c: CoId, co: CoId, f: FutId)
    requires Control(x.rt, x.running, x.frames) && Calls(x.frames, x.futs)
    requires Enabled(x, EvToken(c)) && InCallOf(x, co, f)
    ensures Balanced(x, DoToken(x, c), co, 0)
  {
    hide RtInv, Take, Control, Observe, DoToken;
    ControlParts(x);
    TokenFrame(x, c);
    TakeEffect(x.rt, c);
    TokenShape(x, c);
    TokenOutcome(x, c);
    if c == co && co in x.rt.live {
      ReadyWaits(x, co);
      var g := x.frames[co];
      ObserveReads(g.call, x.futs[g.call.fut].value, g.clean, g.expired);
    }
  }

  lemma ReadyWaits(x: Fx, co: CoId)
    requires Control(x.rt, x.running, x.frames) && x.running == None && co in x.frames && x.frames[co].InCall()
    ensures x.frames[co].Waiting? && co in x.rt.live
  {
    hide RtInv;
  }

  lemma ObserveReads(call: Call, value: Option<Delivery>, clean: bool, expired: bool)
    ensures var g := Observe(call, value, clean, expired); g.InCall() && Reads(g) == call.pass
  {
  }

  /** A response is posted to the call that is in flight. */
  lemma BalanceOfPost(x: Fx, co: CoId, f: FutId)
    requires Calls(x.frames, x.futs) && Registry(x.frames, x.futs, x.pmss) && SetterOk(x.setter, x.futs, x.pmss)
    requires Enabled(x, EvPost) && InCallOf(x, co, f)
    ensures Balanced(x, DoPost(x), co, Added(x, EvPost, co, f))
  {
    assert InFlight(x.frames, x.futs, x.setter.fut);
    hide Registry;
  }

  lemma BalanceOfTimer(x: Fx, e: Event, co: CoId, f: FutId)
    requires InCallOf(x, co, f) && Enabled(x, e)
    requires e.EvExpire? || e.EvFired? || e.EvCancelled? || e.EvForeign? || e.EvComplete?
    ensures Balanced(x, Step(x, e), co, Added(x, e, co, f))
  {
  }

  lemma BalanceOfFrame(x: Fx, e: Event, co: CoId, f: FutId)
    requires InCallOf(x, co, f) && Enabled(x, e)
    requires e.EvGetFor? || e.EvYield? || e.EvEnd? || e.EvExit? || e.EvStore? || e.EvRegister? || e.EvStart?
    ensures Balanced(x, Step(x, e), co, Added(x, e, co, f))
  {
  }

  lemma BalanceOfSpawn(x: Fx, co: CoId, f: FutId)
    requires InCallOf(x, co, f) && x.rt.next !in x.frames
    ensures Balanced(x, DoSpawn(x), co, Added(x, EvSpawn, co, f))
  {
  }

  lemma BalanceStep(x: Fx, e: Event, co: CoId, f: FutId)
    requires FxInv(x) && Enabled(x, e) && InCallOf(x, co, f)
    ensures Balanced(x, Next(x, e), co, Added(x, e, co, f))
  {
    hide Control, Calls, Registry, SetterOk, Awake, Values, Passes, Wakers;
    NextIsNew(x);
    TimePasses(x, e);
    match e
    case EvToken(c) => BalanceOfToken(x, c, co, f);
    case EvPost => BalanceOfPost(x, co, f);
    case EvSpawn => BalanceOfSpawn(x, co, f);
    case EvExpire(_) => BalanceOfTimer(x, e, co, f);
    case EvFired(_) => BalanceOfTimer(x, e, co, f);
    case EvCancelled(_) => BalanceOfTimer(x, e, co, f);
    case EvForeign(_) => BalanceOfTimer(x, e, co, f);
    case EvComplete(_) => BalanceOfTimer(x, e, co, f);
    case _ => BalanceOfFrame(x, e, co, f);
  }

  lemma TimePasses(x: Fx, e: Event)
    requires Enabled(x, e)
    ensures Next(x, e).rt == Step(x, e).rt && Next(x, e).frames == Step(x, e).frames
  {
  }

  // ---------------------------------------------------------------------
  // The whole call
  // ---------------------------------------------------------------------

  /** A call that ended is not taken up again: a future serves one call. */
  lemma EndedStays(x: Fx, e: Event, co: CoId, f: FutId)
    requires FxInv(x) && Enabled(x, e) && f < |x.futs| && !InCallOf(x, co, f)
    ensures !InCallOf(Next(x, e), co, f) && f < |Next(x, e).futs|
  {
    hide FxInv;
    if e.EvRegister? || e.EvExit? {
    } else {
      CallsOfStep(x, e);
      hide Step, Enabled;
    }
  }

  lemma FuturesStay(x: Fx, e: Event)
    requires Enabled(x, e)
    ensures |x.futs| <= |Next(x, e).futs|
  {
    hide Take, Expire, Arm, Finish, RunFired, RunCancelled, Post, Spawn, Observe, MarkExpired;
  }

  lemma {:induction false} EndedForGood(x: Fx, es: seq<Event>, co: CoId, f: FutId)
    requires FxInv(x) && Feasible(x, es) && f < |x.futs| && !InCallOf(x, co, f)
    ensures !InCallOf(Exec(x, es), co, f)
    decreases |es|
  {
    hide FxInv, Next, Enabled, InCallOf;
    if es != [] {
      EndedStays(x, es[0], co, f);
      NextInv(x, es[0]);
      EndedForGood(Next(x, es[0]), es[1..], co, f);
    }
  }

  lemma OwnFuture(x: Fx, co: CoId, f: FutId)
    requires FxInv(x) && InCallOf(x, co, f)
    ensures f < |x.futs|
  {
    hide Control, Registry, SetterOk, Awake, Values, Passes, Wakers;
  }

  lemma {:induction false} BalanceRun(x: Fx, es: seq<Event>, co: CoId, f: FutId)
    requires FxInv(x) && Feasible(x, es) && InCallOf(x, co, f) && InCallOf(Exec(x, es), co, f)
    ensures var y := Exec(x, es);
      && Queued(y, co) + Reads(y.frames[co]) == Queued(x, co) + Reads(x.frames[co]) + WakeUps(x, es, co, f)
      && x.left[co] == y.left[co] + Count(es, EvComplete(co))
    decreases |es|
  {
    hide FxInv, Next, Enabled, Queued, Reads;
    if es != [] {
      var y := Next(x, es[0]);
      NextInv(x, es[0]);
      OwnFuture(x, co, f);
      if !InCallOf(y, co, f) {
        FuturesStay(x, es[0]);
        EndedForGood(y, es[1..], co, f);
        assert false;
      }
      BalanceStep(x, es[0], co, f);
      LeftStep(x, es[0], co, f);
      BalanceRun(y, es[1..], co, f);
    }
  }

  // ---------------------------------------------------------------------
  // Main results
  // ---------------------------------------------------------------------

  /** A call of create from its registration in state `x`, over any events of
      both threads, to its scope exit. */
  predicate WholeCall(x: Fx, co: CoId, session: SessionId, request: Msg, es: seq<Event>) {
    && Enabled(x, EvRegister(co, session, request))
    && Feasible(Next(x, EvRegister(co, session, request)), es)
    && var y := Exec(Next(x, EvRegister(co, session, request)), es);
       InCallOf(y, co, |x.futs|) && Enabled(y, EvExit(co))
  }

  function Called(x: Fx, co: CoId, session: SessionId, request: Msg): Fx
    requires Enabled(x, EvRegister(co, session, request))
  {
    Next(x, EvRegister(co, session, request))
  }

  /** Right after the scope exit. */
  function Exited(x: Fx, co: CoId, session: SessionId, request: Msg, es: seq<Event>): Fx
    requires WholeCall(x, co, session, request, es)
  {
    Next(Exec(Called(x, co, session, request), es), EvExit(co))
  }

  /** How often the call waited. */
  function Waits(x: Fx, co: CoId, session: SessionId, request: Msg, es: seq<Event>): nat
    requires WholeCall(x, co, session, request, es)
  {
    Exec(Called(x, co, session, request), es).frames[co].call.pass
  }

  lemma CallBegins(x: Fx, co: CoId, session: SessionId, request: Msg)
    requires Enabled(x, EvRegister(co, session, request))
    ensures var y := Called(x, co, session, request);
      InCallOf(y, co, |x.futs|) && Queued(y, co) == Queued(x, co) && Reads(y.frames[co]) == 0 && y.left == x.left
  {
  }

  lemma CallEnds(y: Fx, co: CoId)
    requires Enabled(y, EvExit(co))
    ensures co in y.frames && y.frames[co].Leaving?
    ensures Queued(Next(y, EvExit(co)), co) == Queued(y, co) && Next(y, EvExit(co)).left == y.left
  {
  }

  /** The balance of every call over every run: the wake-ups queued when it is
      over are those queued when it began and those that came during it, less
      one for each wait; the operations outstanding when it is over are those
      from before that did not complete during it. */
  lemma CallBalance(x: Fx, co: CoId, session: SessionId, request: Msg, es: seq<Event>)
    requires FxInv(x) && WholeCall(x, co, session, request, es)
    ensures var z := Exited(x, co, session, request, es);
      && Queued(z, co) + Waits(x, co, session, request, es)
           == Queued(x, co) + WakeUps(Called(x, co, session, request), es, co, |x.futs|)
      && z.left[co] + Count(es, EvComplete(co)) == x.left[co]
  {
    hide FxInv, Enabled, Next, Queued, Feasible, Exec, WakeUps, Count, InCallOf;
    var y := Called(x, co, session, request);
    NextInv(x, EvRegister(co, session, request));
    CallBegins(x, co, session, request);
    CallEnds(Exec(y, es), co);
    BalanceRun(y, es, co, |x.futs|);
  }

  /** The wake-ups of the call are as many as its waits, and every operation
      outstanding when it began completed during it. */
  predicate Even(x: Fx, co: CoId, session: SessionId, request: Msg, es: seq<Event>)
    requires WholeCall(x, co, session, request, es)
  {
    && Queued(x, co) + WakeUps(Called(x, co, session, request), es, co, |x.futs|) == Waits(x, co, session, request, es)
    && Count(es, EvComplete(co)) == x.left[co]
  }

  /** Exactly when create leaves nothing of its coroutine's in the queue and
      nothing outstanding. For a call that found nothing and that nobody else
      resumed: if the responses posted to it and the expirations of its timer
      are together as many as its waits. */
  lemma LeavesCleanIff(x: Fx, co: CoId, session: SessionId, request: Msg, es: seq<Event>)
    requires FxInv(x) && WholeCall(x, co, session, request, es)
    ensures NoStray(Exited(x, co, session, request, es), co) <==> Even(x, co, session, request, es)
    ensures NoStray(x, co) && Count(es, EvForeign(co)) == 0 ==>
      (NoStray(Exited(x, co, session, request, es), co) <==>
         Posts(Called(x, co, session, request), es, |x.futs|) + Count(es, EvExpire(co)) == Waits(x, co, session, request, es))
  {
    hide FxInv, WholeCall, Posts, Count, Called, Exited, Waits;
    CallBalance(x, co, session, request, es);
  }

  /** And what it means for the coroutine's next call, on whatever session: its
      first wait can time out only after its timer expired, in every
      continuation in which nobody else resumes it there, if and only if this
      call comes out even. */
  lemma NextTimeoutIsTrueIff(x: Fx, co: CoId, session: SessionId, request: Msg, es: seq<Event>, next: SessionId, again: Msg)
    requires FxInv(x) && WholeCall(x, co, session, request, es)
    ensures var z := Exited(x, co, session, request, es);
      && Enabled(z, EvRegister(co, next, again))
      && Enabled(Called(z, co, next, again), EvGetFor(co))
      && (NeverPremature(Next(Called(z, co, next, again), EvGetFor(co)), |z.futs|) <==> Even(x, co, session, request, es))
  {
    hide FxInv, Next, Enabled, Even, Feasible, Exec, InCallOf, NeverPremature, NoStray, HasValue, Waits;
    var y := Called(x, co, session, request);
    NextInv(x, EvRegister(co, session, request));
    RunKeepsInv(y, es);
    NextInv(Exec(y, es), EvExit(co));
    LeavesCleanIff(x, co, session, request, es);
    var z := Exited(x, co, session, request, es);
    CallAgain(Exec(y, es), co, next, again);
    NextInv(z, EvRegister(co, next, again));
    TimeoutIsTrueIffNoStray(Called(z, co, next, again), co);
  }

  lemma CallAgain(y: Fx, co: CoId, next: SessionId, again: Msg)
    requires Enabled(y, EvExit(co))
    ensures var z := Next(y, EvExit(co));
      && Enabled(z, EvRegister(co, next, again))
      && var w := Next(z, EvRegister(co, next, again));
         && Enabled(w, EvGetFor(co)) && w.frames[co].call.fut == |z.futs| && !HasValue(w, |z.futs|)
         && (NoStray(w, co) <==> NoStray(z, co))
  {
  }
}
