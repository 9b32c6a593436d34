/**
 The properties of FixBuilder::create over every run: no wake-up is lost, what
 is returned was delivered to this call, and exactly when the registry and the
 timeout do what they promise.
 */
module FixResults {
  import opened Wrappers
  import opened Runtime
  import opened FixBuilder
  import opened FixInvariant

  // ---------------------------------------------------------------------
  // No lost wake-up
  // ---------------------------------------------------------------------

  /** In every interleaving: while a call has not read the value stored in its
      future, either the FIX thread is between its store and its post, or a
      resume token of that coroutine is queued. The response may well arrive
      before the coroutine has yielded. */
  lemma NoLostWakeup(es: seq<Event>, co: CoId)
    requires Feasible(START, es)
    ensures var x := Exec(START, es);
      co in x.frames && x.frames[co].InCall() ==>
        && x.frames[co].call.fut < |x.futs|
        && var f := x.frames[co].call.fut;
           x.futs[f].value.Some? && !x.futs[f].seen ==> x.setter == Stored(f) || co in x.rt.tokens
  {
    StartInv();
    RunKeepsInv(START, es);
    var x := Exec(START, es);
    if co in x.frames && x.frames[co].InCall() {
      assert InFlight(x.frames, x.futs, x.frames[co].call.fut);
    }
  }

  /** And the token does its work: with the FIX thread out of on_recv and the
      event loop idle, the waiting coroutine can be resumed, and what it sees
      is the value stored last, never the default. */
  lemma WakeupYieldsLastValue(es: seq<Event>, co: CoId)
    requires Feasible(START, es)
    requires var x := Exec(START, es);
      && co in x.frames && x.frames[co].Waiting? && x.frames[co].call.fut < |x.futs|
      && x.futs[x.frames[co].call.fut].value.Some? && !x.futs[x.frames[co].call.fut].seen
      && x.setter.Free? && x.running == None
    ensures var x := Exec(START, es);
      && Enabled(x, EvToken(co))
      && var y := Next(x, EvToken(co)); var call := x.frames[co].call;
         var d := x.futs[call.fut].value.value;
         && co in y.frames && call.fut < |y.futs| && y.futs[call.fut].seen
         && y.frames[co] ==
              if call.request.msgType == NEW_ORDER_SINGLE && d.msg.msgType == EXECUTION_REPORT
              then Leaving(call, Response(d)) else Ready(call.(pass := call.pass + 1))
  {
    hide FxInv, Exec, Feasible, Next;
    NoLostWakeup(es, co);
    StartInv();
    RunKeepsInv(START, es);
    TokenObserves(Exec(START, es), co);
  }

  lemma TokenObserves(x: Fx, co: CoId)
    requires FxInv(x) && x.running == None && co in x.rt.tokens
    requires co in x.frames && x.frames[co].Waiting? && x.frames[co].call.fut < |x.futs|
    requires x.futs[x.frames[co].call.fut].value.Some?
    ensures Enabled(x, EvToken(co))
    ensures var y := Next(x, EvToken(co)); var call := x.frames[co].call;
      var d := x.futs[call.fut].value.value;
      && co in y.frames && call.fut < |y.futs| && y.futs[call.fut].seen
      && y.frames[co] ==
           if call.request.msgType == NEW_ORDER_SINGLE && d.msg.msgType == EXECUTION_REPORT
           then Leaving(call, Response(d)) else Ready(call.(pass := call.pass + 1))
  {
    hide Take, RtInv, Registry, Awake, SetterOk, Values, Passes, Wakers, Calls;
    assert co in x.rt.live;
  }

  // ---------------------------------------------------------------------
  // Every wait ends
  // ---------------------------------------------------------------------

  /** Something is under way for every coroutine inside get_for. */
  ghost predicate Wakeable(x: Fx) {
    forall c: CoId :: c in x.frames && x.frames[c].Waiting? ==> c in x.rt.armed || c in x.rt.fired || c in x.rt.tokens
  }

  /** What becomes of armed timers and queued items of everybody but `co`. */
  ghost predicate KeepsOthers(r: Rt, t: Rt, co: CoId) {
    forall c: CoId :: c != co ==>
      (c in r.armed ==> c in t.armed) && (c in r.fired ==> c in t.fired) && (c in r.tokens ==> c in t.tokens)
  }

  lemma ArmMoves(r: Rt, co: CoId)
    ensures KeepsOthers(r, Arm(r, co), co) && co in Arm(r, co).armed
  {
  }

  lemma ExpireMoves(r: Rt, co: CoId)
    ensures co in r.armed ==> KeepsOthers(r, Expire(r, co), co) && co in Expire(r, co).fired
    ensures co in r.fired ==> KeepsOthers(r, RunFired(r, co), co) && co in RunFired(r, co).tokens
  {
  }

  lemma TakeMoves(r: Rt, co: CoId)
    ensures co in r.tokens ==> KeepsOthers(r, Take(r, co), co)
  {
  }

  lemma TimersMove(r: Rt, co: CoId)
    ensures KeepsOthers(r, Arm(r, co), co) && co in Arm(r, co).armed
    ensures co in r.armed ==> KeepsOthers(r, Expire(r, co), co) && co in Expire(r, co).fired
    ensures co in r.fired ==> KeepsOthers(r, RunFired(r, co), co) && co in RunFired(r, co).tokens
    ensures co in r.tokens ==> KeepsOthers(r, Take(r, co), co)
  {
    hide KeepsOthers, Arm, Expire, RunFired, Take;
    ArmMoves(r, co);
    ExpireMoves(r, co);
    TakeMoves(r, co);
  }

  lemma PostsMove(r: Rt, co: CoId)
    ensures KeepsOthers(r, Post(r, co), co) && co in Post(r, co).tokens
    ensures Post(r, co).armed == r.armed && Post(r, co).fired == r.fired
    ensures co in r.cancelled ==>
      RunCancelled(r, co).armed == r.armed && RunCancelled(r, co).fired == r.fired && RunCancelled(r, co).tokens == r.tokens
    ensures Finish(r, co).armed == r.armed && Finish(r, co).fired == r.fired && Finish(r, co).tokens == r.tokens
    ensures Spawn(r).armed == r.armed && Spawn(r).fired == r.fired && forall c: CoId :: c in r.tokens ==> c in Spawn(r).tokens
  {
  }

  lemma WakeableAfterToken(x: Fx, co: CoId)
    requires FxInv(x) && Wakeable(x) && Enabled(x, EvToken(co))
    ensures Wakeable(Next(x, EvToken(co)))
  {
    hide FxInv, Take, DoToken, Calls, Wakeable, KeepsOthers;
    FxParts(x);
    TokenKnown(x, co);
    TokenShape(x, co);
    TimersMove(x.rt, co);
    assert Next(x, EvToken(co)) == DoToken(x, co).(now := x.now + 1);
    AfterToken(x, Next(x, EvToken(co)), co);
  }

  lemma AfterToken(x: Fx, t: Fx, co: CoId)
    requires Wakeable(x) && KeepsOthers(x.rt, t.rt, co) && co in x.frames && co in t.frames
    requires t.frames == x.frames[co := t.frames[co]] && !t.frames[co].Waiting?
    ensures Wakeable(t)
  {
  }

  lemma TokenKnown(x: Fx, co: CoId)
    requires FxInv(x) && co in x.rt.tokens
    ensures co in x.frames && (co in x.rt.live <==> !x.frames[co].Ended?)
  {
    hide Calls, Registry, SetterOk, Awake, Values, Passes, Wakers;
    TokenFrame(x, co);
  }

  lemma WakeableStep(x: Fx, e: Event)
    requires FxInv(x) && Wakeable(x) && Enabled(x, e)
    ensures Wakeable(Next(x, e))
  {
    match e
    case EvToken(co) => WakeableAfterToken(x, co);
    case EvExpire(co) => WakeableTimer(x, e);
    case EvFired(co) => WakeableTimer(x, e);
    case EvGetFor(co) => WakeableTimer(x, e);
    case EvYield(co, _) => WakeableTimer(x, e);
    case _ => WakeableRest(x, e);
  }

  lemma WakeableTimer(x: Fx, e: Event)
    requires Wakeable(x) && Enabled(x, e) && (e.EvExpire? || e.EvFired? || e.EvGetFor? || e.EvYield?)
    ensures Wakeable(Next(x, e))
  {
    hide Expire, RunFired, Arm;
    TimersMove(x.rt, e.co);
  }

  lemma WakeableRest(x: Fx, e: Event)
    requires Wakeable(x) && Enabled(x, e) && !(e.EvExpire? || e.EvFired? || e.EvGetFor? || e.EvYield? || e.EvToken?)
    ensures Wakeable(Next(x, e))
  {
    hide Post, RunCancelled, Finish, Spawn;
    var co := if e.EvSpawn? || e.EvStore? then 0 else if e.EvPost? then x.futs[x.setter.fut].co else e.co;
    PostsMove(x.rt, co);
  }

  lemma {:induction false} WakeableRun(x: Fx, es: seq<Event>)
    requires FxInv(x) && Wakeable(x) && Feasible(x, es)
    ensures Wakeable(Exec(x, es)) && FxInv(Exec(x, es))
    decreases |es|
  {
    hide FxInv, Wakeable, Next, Enabled;
    if es != [] {
      NextInv(x, es[0]);
      WakeableStep(x, es[0]);
      WakeableRun(Next(x, es[0]), es[1..]);
    }
  }

  /** In every reachable state a coroutine inside get_for has its timer armed,
      or an expired timer or a token queued. */
  lemma EveryWaitCanEnd(es: seq<Event>, co: CoId)
    requires Feasible(START, es)
    ensures var x := Exec(START, es);
      co in x.frames && x.frames[co].Waiting? ==> co in x.rt.armed || co in x.rt.fired || co in x.rt.tokens
  {
    StartInv();
    hide FxInv;
    WakeableRun(START, es);
  }

  /** The shortest way out of a wait, from the armed timer on. */
  function TimerRun(co: CoId): seq<Event> { [EvExpire(co), EvFired(co), EvToken(co)] }

  /** And a timeout comes: from every reachable state in which a coroutine waits
      with its timer armed and no value stored, the FIX thread being out of
      on_recv and nobody in control, the timer can expire, its handler can run,
      the token can run, and then create throws TimeoutException. */
  lemma TimeoutComes(es: seq<Event>, co: CoId)
    requires Feasible(START, es)
    requires var x := Exec(START, es);
      && x.running == None && x.setter.Free?
      && co in x.frames && x.frames[co].Waiting? && co in x.rt.armed
      && x.frames[co].call.fut < |x.futs| && x.futs[x.frames[co].call.fut].value.None?
    ensures var x := Exec(START, es);
      && Feasible(x, TimerRun(co))
      && var y := Exec(x, TimerRun(co));
         && co in y.frames && y.frames[co].Leaving? && y.frames[co].call == x.frames[co].call
         && y.frames[co].ending.Timeout? && y.frames[co].ending.expired
         && y.running == Some(co)
  {
    var x := Exec(START, es);
    StartInv();
    RunKeepsInv(START, es);
    WaiterLives(x, co);
    hide FxInv, Feasible, Exec;
    TimerRunIs(x, co);
  }

  lemma WaiterLives(x: Fx, co: CoId)
    requires FxInv(x) && co in x.frames && x.frames[co].Waiting?
    ensures co in x.rt.live
  {
    hide RtInv, Calls, Registry, SetterOk, Awake, Values, Passes, Wakers;
  }

  lemma TimerRunIs(x: Fx, co: CoId)
    requires x.running == None && co in x.frames && x.frames[co].Waiting? && co in x.rt.armed && co in x.rt.live
    requires x.frames[co].call.fut < |x.futs| && x.futs[x.frames[co].call.fut].value.None?
    ensures Feasible(x, TimerRun(co))
    ensures var y := Exec(x, TimerRun(co));
      && co in y.frames && y.frames[co].Leaving? && y.frames[co].call == x.frames[co].call
      && y.frames[co].ending.Timeout? && y.frames[co].ending.expired
      && y.running == Some(co)
  {
    hide Expire, RunFired, Take, Feasible, Exec, KeepsOthers, Arm;
    TimersMove(x.rt, co);
    var x1 := Next(x, EvExpire(co));
    TimersMove(x1.rt, co);
    TimersLive(x.rt, co);
    TimersLive(x1.rt, co);
    var x2 := Next(x1, EvFired(co));
    TokenReadsNothing(x2, co);
    ThreeSteps(x, EvExpire(co), EvFired(co), EvToken(co));
  }

  lemma TimersLive(r: Rt, co: CoId)
    ensures co in r.armed ==> Expire(r, co).live == r.live
    ensures co in r.fired ==> RunFired(r, co).live == r.live
  {
  }

  lemma TokenReadsNothing(x: Fx, co: CoId)
    requires x.running == None && co in x.rt.tokens && co in x.rt.live && co in x.frames && x.frames[co].Waiting?
    requires x.frames[co].expired && x.frames[co].call.fut < |x.futs| && x.futs[x.frames[co].call.fut].value.None?
    ensures Enabled(x, EvToken(co))
    ensures var y := Next(x, EvToken(co));
      && co in y.frames && y.frames[co].Leaving? && y.frames[co].call == x.frames[co].call
      && y.frames[co].ending.Timeout? && y.frames[co].ending.expired && y.running == Some(co)
  {
    hide Take;
  }

  lemma ThreeSteps(x: Fx, a: Event, b: Event, c: Event)
    requires Enabled(x, a) && Enabled(Next(x, a), b) && Enabled(Next(Next(x, a), b), c)
    ensures Feasible(x, [a, b, c]) && Exec(x, [a, b, c]) == Next(Next(Next(x, a), b), c)
  {
    hide Enabled, Next;
    var x1, x2 := Next(x, a), Next(Next(x, a), b);
    assert [a, b, c][1..] == [b, c] && [b, c][1..] == [c] && [c][1..] == [];
    assert Feasible(Next(x2, c), []);
    assert Feasible(x2, [c]) && Exec(x2, [c]) == Next(x2, c);
    assert Feasible(x1, [b, c]) && Exec(x1, [b, c]) == Exec(x2, [c]);
  }

  // ---------------------------------------------------------------------
  // Causality
  // ---------------------------------------------------------------------

  /** A response that create is about to return is an ExecutionReport to a
      NewOrderSingle, delivered on the call's own session, after the call
      registered and before its entry is erased. A TimeoutException comes from
      the first pass of the loop, whatever the length of the run. */
  lemma Causality(es: seq<Event>, co: CoId)
    requires Feasible(START, es)
    requires var x := Exec(START, es); co in x.frames && x.frames[co].Leaving?
    ensures var x := Exec(START, es); var call := x.frames[co].call;
      && call.fut < |x.futs|
      && (x.frames[co].ending.Timeout? ==> call.pass == 1)
      && (x.frames[co].ending.Response? ==>
            && var d := x.frames[co].ending.got;
            && call.request.msgType == NEW_ORDER_SINGLE && d.msg.msgType == EXECUTION_REPORT
            && d.session == call.session
            && x.futs[call.fut].registered < d.at < x.now)
  {
    StartInv();
    RunKeepsInv(START, es);
    hide RtInv, Registry, Awake, SetterOk, Wakers;
  }

  /** The call of future `f` has an answer and is not on its way to a timeout. */
  ghost predicate Answered(x: Fx, f: FutId) {
    && f < |x.futs| && x.futs[f].value.Some?
    && (forall c: CoId :: c in x.frames && x.frames[c].Leaving? && x.frames[c].call.fut == f ==> x.frames[c].ending.Response?)
  }

  lemma AnsweredStep(x: Fx, e: Event, f: FutId)
    requires FxInv(x) && Enabled(x, e) && Answered(x, f)
    ensures Answered(Next(x, e), f)
  {
    hide RtInv, Registry, Awake, SetterOk, Wakers, Values, Passes, Control;
    hide Take, Expire, Arm, Finish, RunFired, RunCancelled, Post, Spawn;
  }

  /** The value is never cleared: once any response reached the call, it can
      no longer time out, however long it goes on waiting. */
  lemma {:induction false} AnsweredNeverTimesOut(x: Fx, es: seq<Event>, f: FutId)
    requires FxInv(x) && Feasible(x, es) && Answered(x, f)
    ensures Answered(Exec(x, es), f)
    decreases |es|
  {
    hide FxInv, Answered;
    if es != [] {
      NextInv(x, es[0]);
      AnsweredStep(x, es[0], f);
      AnsweredNeverTimesOut(Next(x, es[0]), es[1..], f);
    }
  }

  // ---------------------------------------------------------------------
  // Exactly when a timeout is a timeout
  // ---------------------------------------------------------------------

  /** If the call of `f` ends in a timeout, the timer of its wait expired. */
  ghost predicate NotPremature(x: Fx, f: FutId) {
    forall c: CoId :: c in x.frames && x.frames[c].Leaving? && x.frames[c].call.fut == f && x.frames[c].ending.Timeout? ==>
      x.frames[c].ending.expired
  }

  /** Somebody who is neither a future nor a timer nor a completion resumes the
      call of `f` in its wait. */
  predicate Disturbs(x: Fx, e: Event, f: FutId) {
    e.EvForeign? && e.co in x.frames && x.frames[e.co].Waiting? && x.frames[e.co].call.fut == f
  }

  predicate Undisturbed(x: Fx, es: seq<Event>, f: FutId)
    requires Feasible(x, es)
    decreases |es|
  {
    es == [] || (!Disturbs(x, es[0], f) && Undisturbed(Next(x, es[0]), es[1..], f))
  }

  ghost predicate NeverPremature(x: Fx, f: FutId) {
    forall es: seq<Event> | Feasible(x, es) :: Undisturbed(x, es, f) ==> NotPremature(Exec(x, es), f)
  }

  /** The first wait of the call of `f` began clean. */
  ghost predicate CleanStart(x: Fx, f: FutId) {
    && f < |x.futs|
    && forall c: CoId :: c in x.frames && x.frames[c].InCall() && x.frames[c].call.fut == f ==>
         && (x.frames[c].Ready? ==> x.frames[c].call.pass > 1)
         && (x.frames[c].Waiting? && x.frames[c].call.pass == 1 ==> x.frames[c].clean)
         && (x.frames[c].Leaving? && x.frames[c].ending.Timeout? ==> x.frames[c].ending.clean)
  }

  lemma CleanStep(x: Fx, e: Event, f: FutId)
    requires FxInv(x) && Enabled(x, e) && CleanStart(x, f) && !Disturbs(x, e, f)
    ensures CleanStart(Next(x, e), f)
  {
    CleanParts(x);
    hide FxInv, CleanStart, Enabled;
    match e
    case EvToken(co) => CleanOfToken(x, co, f);
    case EvGetFor(co) => CleanOfGetFor(x, co, f);
    case EvRegister(co, session, request) => CleanOfRegister(x, co, session, request, f);
    case _ => CleanOfOther(x, e, f);
  }

  lemma CleanParts(x: Fx)
    requires FxInv(x)
    ensures Calls(x.frames, x.futs) && Passes(x.frames, x.futs)
  {
    hide Control, Calls, Registry, SetterOk, Awake, Values, Passes, Wakers;
  }

  /** A call that goes round again is past its first pass. */
  lemma CleanOfToken(x: Fx, co: CoId, f: FutId)
    requires Calls(x.frames, x.futs) && Passes(x.frames, x.futs) && Enabled(x, EvToken(co)) && CleanStart(x, f)
    ensures CleanStart(Next(x, EvToken(co)), f)
  {
    hide Take;
  }

  /** Only a first pass had to begin clean. */
  lemma CleanOfGetFor(x: Fx, co: CoId, f: FutId)
    requires Enabled(x, EvGetFor(co)) && CleanStart(x, f)
    ensures CleanStart(Next(x, EvGetFor(co)), f)
  {
    hide Arm;
  }

  lemma CleanOfRegister(x: Fx, co: CoId, session: SessionId, request: Msg, f: FutId)
    requires Enabled(x, EvRegister(co, session, request)) && CleanStart(x, f)
    ensures CleanStart(Next(x, EvRegister(co, session, request)), f)
  {
  }

  lemma CleanOfOther(x: Fx, e: Event, f: FutId)
    requires Enabled(x, e) && CleanStart(x, f) && !e.EvToken? && !e.EvGetFor? && !e.EvRegister? && !Disturbs(x, e, f)
    ensures CleanStart(Next(x, e), f)
  {
    hide Expire, Arm, Finish, RunFired, RunCancelled, Post, Spawn;
  }

  lemma {:induction false} CleanRun(x: Fx, es: seq<Event>, f: FutId)
    requires FxInv(x) && Feasible(x, es) && CleanStart(x, f) && Undisturbed(x, es, f)
    ensures CleanStart(Exec(x, es), f) && FxInv(Exec(x, es))
    decreases |es|
  {
    hide FxInv, CleanStart, Disturbs;
    if es != [] {
      NextInv(x, es[0]);
      CleanStep(x, es[0], f);
      CleanRun(Next(x, es[0]), es[1..], f);
    }
  }

  lemma CleanIsNotPremature(x: Fx, f: FutId)
    requires FxInv(x) && CleanStart(x, f)
    ensures NotPremature(x, f)
  {
    hide RtInv, Control, Calls, Registry, SetterOk, Awake, Values, Passes;
  }

  /** What a stray item causes before anything else happens: its token runs. */
  function StrayWakeup(x: Fx, co: CoId): seq<Event> {
    if co in x.rt.tokens then [EvToken(co)]
    else [if co in x.rt.fired then EvFired(co) else EvComplete(co), EvToken(co)]
  }

  lemma StrayTimesOut(y: Fx, co: CoId, f: FutId)
    requires co in y.frames && y.frames[co].Waiting? && y.frames[co].call.fut == f && !y.frames[co].expired
    requires f < |y.futs| && y.futs[f].value.None? && y.running == None && co in y.rt.live
    requires !NoStray(y, co)
    ensures var es := StrayWakeup(y, co); Feasible(y, es) && Undisturbed(y, es, f) && !NotPremature(Exec(y, es), f)
  {
    hide Disturbs, NotPremature;
    if co in y.rt.tokens {
      TokenTimesOut(y, co, f);
      OneStep(y, EvToken(co), f);
    } else {
      var e := if co in y.rt.fired then EvFired(co) else EvComplete(co);
      TokenTimesOut(Next(y, e), co, f);
      TwoSteps(y, e, EvToken(co), f);
    }
  }

  lemma TokenTimesOut(y: Fx, co: CoId, f: FutId)
    requires co in y.frames && y.frames[co].Waiting? && y.frames[co].call.fut == f && !y.frames[co].expired
    requires f < |y.futs| && y.futs[f].value.None? && y.running == None && co in y.rt.live
    requires co in y.rt.tokens
    ensures Enabled(y, EvToken(co)) && !NotPremature(Next(y, EvToken(co)), f)
  {
    hide Take;
    var z := Next(y, EvToken(co));
    assert z.frames[co] == Leaving(y.frames[co].call, Timeout(y.frames[co].clean, false));
  }

  lemma OneStep(x: Fx, a: Event, f: FutId)
    requires Enabled(x, a) && !a.EvForeign?
    ensures Feasible(x, [a]) && Exec(x, [a]) == Next(x, a) && Undisturbed(x, [a], f)
  {
    hide Enabled, Next;
    assert [a][1..] == [];
    assert Feasible(Next(x, a), []);
  }

  lemma TwoSteps(x: Fx, a: Event, b: Event, f: FutId)
    requires Enabled(x, a) && Enabled(Next(x, a), b) && !a.EvForeign? && !b.EvForeign?
    ensures Feasible(x, [a, b]) && Exec(x, [a, b]) == Next(Next(x, a), b) && Undisturbed(x, [a, b], f)
  {
    hide Enabled, Next;
    assert [a, b][1..] == [b];
    OneStep(Next(x, a), b, f);
  }

  /** None of the coroutine's tokens and expired timers is queued, and none of
      its operations of earlier waits is outstanding. */
  ghost predicate NoStray(x: Fx, co: CoId) {
    x.rt.tokens[co] == 0 && x.rt.fired[co] == 0 && x.left[co] == 0
  }

  ghost predicate HasValue(x: Fx, f: FutId) {
    f < |x.futs| && x.futs[f].value.Some?
  }

  /** No premature timeout, exactly. Whenever create calls get_for, on its first
      pass or a later one: the default can come back only after the timer armed
      there has expired, in every continuation in which nobody but futures,
      timers and completions resumes the coroutine there, if and only if a
      response was stored already, or at that moment none of the coroutine's own
      tokens and expired timers is queued and none of its operations of earlier
      waits is outstanding. */
  lemma TimeoutIsTrueIffNoStray(x: Fx, co: CoId)
    requires FxInv(x) && Enabled(x, EvGetFor(co))
    ensures var f := x.frames[co].call.fut;
      NeverPremature(Next(x, EvGetFor(co)), f) <==> HasValue(x, f) || NoStray(x, co)
  {
    var f := x.frames[co].call.fut;
    var y := Next(x, EvGetFor(co));
    NextInv(x, EvGetFor(co));
    if HasValue(x, f) {
      AnsweredAtGetFor(x, co);
      hide FxInv, Answered, NotPremature, Next, Enabled;
      forall es: seq<Event> | Feasible(y, es)
        ensures NotPremature(Exec(y, es), f)
      {
        AnsweredNeverTimesOut(y, es, f);
        AnsweredIsNotPremature(Exec(y, es), f);
      }
    } else {
      FirstPass(x, co);
      GetForShape(x, co);
      hide FxInv, Next, Enabled, CleanStart, NeverPremature;
      UnansweredWait(y, co, f);
    }
  }

  lemma AnsweredAtGetFor(x: Fx, co: CoId)
    requires FxInv(x) && Enabled(x, EvGetFor(co)) && HasValue(x, x.frames[co].call.fut)
    ensures Answered(Next(x, EvGetFor(co)), x.frames[co].call.fut)
  {
    CleanParts(x);
    hide FxInv, Passes, Enabled, Next;
    GetForIs(x, co);
  }

  lemma GetForIs(x: Fx, co: CoId)
    requires Enabled(x, EvGetFor(co))
    ensures co in x.frames && x.frames[co].Ready?
    ensures var y := Next(x, EvGetFor(co)); y.futs == x.futs && exists clean :: y.frames == x.frames[co := Waiting(x.frames[co].call, clean, false)]
  {
    hide Arm;
  }

  lemma AnsweredIsNotPremature(x: Fx, f: FutId)
    requires Answered(x, f)
    ensures NotPremature(x, f)
  {
  }

  /** Without a value the call is on its first pass. */
  lemma FirstPass(x: Fx, co: CoId)
    requires FxInv(x) && Enabled(x, EvGetFor(co)) && !HasValue(x, x.frames[co].call.fut)
    ensures x.frames[co].call.fut < |x.futs| && x.frames[co].call.pass == 1
  {
    hide FxInv, Enabled;
    CleanParts(x);
    assert co in x.frames && x.frames[co].Ready? by { GetForIs(x, co); }
  }

  lemma UnansweredWait(y: Fx, co: CoId, f: FutId)
    requires FxInv(y) && y.running == None && f < |y.futs| && y.futs[f].value.None?
    requires co in y.rt.live && co in y.frames && y.frames[co].Waiting? && y.frames[co].call.fut == f && !y.frames[co].expired
    requires NoStray(y, co) ==> CleanStart(y, f)
    ensures NeverPremature(y, f) <==> NoStray(y, co)
  {
    hide FxInv, Next, Enabled, NotPremature, CleanStart;
    if NoStray(y, co) {
      forall es: seq<Event> | Feasible(y, es) && Undisturbed(y, es, f)
        ensures NotPremature(Exec(y, es), f)
      {
        CleanRun(y, es, f);
        CleanIsNotPremature(Exec(y, es), f);
      }
    } else {
      StrayTimesOut(y, co, f);
      var es := StrayWakeup(y, co);
      assert Feasible(y, es) && Undisturbed(y, es, f) && !NotPremature(Exec(y, es), f);
    }
  }

  lemma GetForShape(x: Fx, co: CoId)
    requires FxInv(x) && Enabled(x, EvGetFor(co)) && x.frames[co].call.pass == 1
    ensures var y := Next(x, EvGetFor(co)); var f := x.frames[co].call.fut;
      && f < |x.futs| && y.futs == x.futs && y.running == None && co in y.rt.live
      && y.rt.tokens == x.rt.tokens && y.rt.fired == x.rt.fired && y.left == x.left
      && co in y.frames
      && y.frames[co] == Waiting(x.frames[co].call, NoStray(x, co), false)
      && (NoStray(x, co) ==> CleanStart(y, f))
  {
    hide RtInv, Arm, Registry, SetterOk, Awake, Values, Wakers, CleanStart;
    ArmEffect(x.rt, co);
    var y := Next(x, EvGetFor(co));
    assert y.frames == x.frames[co := y.frames[co]] && y.futs == x.futs;
    if NoStray(x, co) {
      FirstWaitIsClean(x.frames, y, co);
    }
  }

  lemma FirstWaitIsClean(frames: map<CoId, Frame>, y: Fx, co: CoId)
    requires Calls(frames, y.futs) && co in frames && frames[co].Ready?
    requires co in y.frames && y.frames[co] == Waiting(frames[co].call, true, false) && y.frames == frames[co := y.frames[co]]
    ensures CleanStart(y, frames[co].call.fut)
  {
  }

  // ---------------------------------------------------------------------
  // Exactly when the registry serves every call
  // ---------------------------------------------------------------------

  /** No two calls in flight share a session. */
  ghost predicate Distinct(x: Fx) {
    forall c: CoId, d: CoId | c in x.frames && d in x.frames && c != d ::
      x.frames[c].InCall() && x.frames[d].InCall() ==> x.frames[c].call.session != x.frames[d].call.session
  }

  /** The keys of pmss_ are the sessions with a call in flight, and each entry
      is that call's own promise. */
  ghost predicate Served(x: Fx) {
    && (forall c: CoId :: c in x.frames && x.frames[c].InCall() ==>
          && x.frames[c].call.session in x.pmss && x.pmss[x.frames[c].call.session] == x.frames[c].call.fut)
    && (forall s: SessionId :: s in x.pmss ==>
          && x.pmss[s] < |x.futs|
          && var c := x.futs[x.pmss[s]].co;
             c in x.frames && x.frames[c].InCall() && x.frames[c].call.session == s)
  }

  /** Distinct, or Served, in every state of the run. */
  ghost predicate AlwaysDistinct(x: Fx, es: seq<Event>)
    requires Feasible(x, es)
    decreases |es|
  {
    Distinct(x) && (es != [] ==> AlwaysDistinct(Next(x, es[0]), es[1..]))
  }

  ghost predicate AlwaysServed(x: Fx, es: seq<Event>)
    requires Feasible(x, es)
    decreases |es|
  {
    Served(x) && (es != [] ==> AlwaysServed(Next(x, es[0]), es[1..]))
  }

  lemma ServedIsDistinct(x: Fx)
    requires Calls(x.frames, x.futs) && Served(x)
    ensures Distinct(x)
  {
  }

  /** Entries name calls in flight; the registry misses a call only. */
  lemma EntriesNameCalls(x: Fx)
    requires Calls(x.frames, x.futs) && Registry(x.frames, x.futs, x.pmss)
    ensures forall s: SessionId :: s in x.pmss ==>
      && x.pmss[s] < |x.futs|
      && var c := x.futs[x.pmss[s]].co; c in x.frames && x.frames[c].InCall() && x.frames[c].call.session == s
  {
    forall s: SessionId | s in x.pmss
      ensures InFlight(x.frames, x.futs, x.pmss[s])
    {
    }
  }

  ghost predicate OwnEntry(x: Fx, c: CoId) {
    c in x.frames && x.frames[c].InCall() ==>
      x.frames[c].call.session in x.pmss && x.pmss[x.frames[c].call.session] == x.frames[c].call.fut
  }

  lemma EntryOfRegister(x: Fx, co: CoId, session: SessionId, request: Msg, c: CoId)
    requires Served(x) && Enabled(x, EvRegister(co, session, request))
    requires Distinct(Next(x, EvRegister(co, session, request)))
    ensures OwnEntry(Next(x, EvRegister(co, session, request)), c)
  {
    var y := Next(x, EvRegister(co, session, request));
    assert y.frames == x.frames[co := Ready(Call(|x.futs|, session, request, 1))];
    assert y.pmss == x.pmss[session := |x.futs|];
    if c in y.frames && y.frames[c].InCall() && c != co {
      assert y.frames[c].call.session != y.frames[co].call.session;
    }
  }

  lemma EntryOfExit(x: Fx, co: CoId, c: CoId)
    requires Served(x) && Distinct(x) && Enabled(x, EvExit(co))
    ensures OwnEntry(Next(x, EvExit(co)), c)
  {
    var y := Next(x, EvExit(co));
    assert y.frames == x.frames[co := Elsewhere] && y.pmss == x.pmss - {x.frames[co].call.session};
    if c in y.frames && y.frames[c].InCall() {
      assert x.frames[c].call.session != x.frames[co].call.session;
    }
  }

  lemma EntryOfOther(x: Fx, e: Event, c: CoId)
    requires FxInv(x) && Served(x) && Enabled(x, e) && !e.EvRegister? && !e.EvExit?
    ensures OwnEntry(Next(x, e), c)
  {
    hide FxInv, Step, Enabled, SameOwners;
    CallsOfStep(x, e);
  }

  lemma EntryKept(x: Fx, e: Event, c: CoId)
    requires FxInv(x) && Enabled(x, e) && Served(x) && Distinct(x) && Distinct(Next(x, e))
    ensures OwnEntry(Next(x, e), c)
  {
    hide FxInv, Next, Enabled, Distinct, Served, OwnEntry;
    match e
    case EvRegister(co, session, request) => EntryOfRegister(x, co, session, request, c);
    case EvExit(co) => EntryOfExit(x, co, c);
    case _ => EntryOfOther(x, e, c);
  }

  lemma ServedStep(x: Fx, e: Event)
    requires FxInv(x) && Enabled(x, e) && Served(x) && Distinct(x) && Distinct(Next(x, e))
    ensures Served(Next(x, e))
  {
    hide FxInv, Next, Enabled, Distinct, Calls, Registry;
    NextInv(x, e);
    var y := Next(x, e);
    FxParts(y);
    EntriesNameCalls(y);
    forall c: CoId | c in y.frames && y.frames[c].InCall()
      ensures y.frames[c].call.session in y.pmss && y.pmss[y.frames[c].call.session] == y.frames[c].call.fut
    {
      EntryKept(x, e, c);
    }
  }

  lemma FxParts(x: Fx)
    requires FxInv(x)
    ensures Calls(x.frames, x.futs) && Registry(x.frames, x.futs, x.pmss)
  {
    hide Control, Calls, Registry, SetterOk, Awake, Values, Passes, Wakers;
  }

  lemma {:induction false} ServedRun(x: Fx, es: seq<Event>)
    requires FxInv(x) && Feasible(x, es) && Served(x)
    ensures AlwaysDistinct(x, es) <==> AlwaysServed(x, es)
    decreases |es|
  {
    hide FxInv, Next, Enabled, Distinct, Served, Calls, Registry;
    FxParts(x);
    ServedIsDistinct(x);
    if es != [] {
      var y := Next(x, es[0]);
      NextInv(x, es[0]);
      if AlwaysDistinct(y, es[1..]) {
        ServedStep(x, es[0]);
        ServedRun(y, es[1..]);
      } else if AlwaysServed(y, es[1..]) {
        ServedRun(y, es[1..]);
      }
    }
  }

  /** Over every run: the keys of pmss_ are at all times exactly the sessions
      with a call in flight, each entry that call's own promise, if and only if
      no two calls on one session ever overlap. When two do, the later one
      takes the entry and whichever ends first erases it. */
  lemma RegistryServesIffNoOverlap(es: seq<Event>)
    requires Feasible(START, es)
    ensures AlwaysDistinct(START, es) <==> AlwaysServed(START, es)
  {
    StartInv();
    ServedRun(START, es);
  }

  /** In every run, overlap or not, an entry belongs to a call still in flight
      on that session, namely the last one registered there. */
  lemma EntriesAreLastRegistered(es: seq<Event>, session: SessionId)
    requires Feasible(START, es) && session in Exec(START, es).pmss
    ensures var x := Exec(START, es); var f := x.pmss[session];
      && InFlight(x.frames, x.futs, f)
      && x.futs[f].session == session
      && x.frames[x.futs[f].co].call.session == session
      && (forall g: FutId :: f < g < |x.futs| ==> x.futs[g].session != session)
  {
    StartInv();
    RunKeepsInv(START, es);
    hide RtInv, Control, SetterOk, Awake, Values, Passes, Wakers;
  }

  lemma {:induction false} ServedAtEnd(x: Fx, es: seq<Event>)
    requires Feasible(x, es) && AlwaysServed(x, es)
    ensures Served(Exec(x, es))
    decreases |es|
  {
    hide Next, Enabled, Served;
    if es != [] {
      ServedAtEnd(Next(x, es[0]), es[1..]);
    }
  }

  /** `msg` was stored for the call in flight on its session and for nobody
      else; if there is none, nothing happened. */
  ghost predicate ReachesItsCall(x: Fx, y: Fx, session: SessionId, msg: Msg) {
    && |y.futs| == |x.futs| && y.frames == x.frames && y.rt == x.rt
    && (forall c: CoId :: c in x.frames && x.frames[c].InCall() ==>
          && x.frames[c].call.fut < |x.futs|
          && (x.frames[c].call.session == session ==>
                && y.futs[x.frames[c].call.fut].value == Some(Delivery(msg, session, x.now))
                && y.setter == Stored(x.frames[c].call.fut))
          && (x.frames[c].call.session != session ==>
                y.futs[x.frames[c].call.fut] == x.futs[x.frames[c].call.fut]))
    && ((forall c: CoId :: c in x.frames && x.frames[c].InCall() ==> x.frames[c].call.session != session)
          ==> y.futs == x.futs && y.setter == x.setter)
  }

  /** On every run in which no two calls on one session overlap: a response
      reaches the call in flight on its session and nobody else, and is lost
      only if there is none. */
  lemma DeliveredToItsCall(es: seq<Event>, session: SessionId, msg: Msg)
    requires Feasible(START, es) && AlwaysDistinct(START, es) && Enabled(Exec(START, es), EvStore(session, msg))
    ensures var x := Exec(START, es); ReachesItsCall(x, Next(x, EvStore(session, msg)), session, msg)
  {
    hide Feasible, Exec, AlwaysServed, AlwaysDistinct, FxInv, Next, Enabled, Calls, Registry, Served, ReachesItsCall;
    StartInv();
    RegistryServesIffNoOverlap(es);
    ServedAtEnd(START, es);
    RunKeepsInv(START, es);
    FxParts(Exec(START, es));
    DeliveredWhenServed(Exec(START, es), session, msg);
  }

  lemma DeliveredWhenServed(x: Fx, session: SessionId, msg: Msg)
    requires Calls(x.frames, x.futs) && Served(x) && Enabled(x, EvStore(session, msg))
    ensures ReachesItsCall(x, Next(x, EvStore(session, msg)), session, msg)
  {
  }

  // ---------------------------------------------------------------------
  // Where stray tokens come from
  // ---------------------------------------------------------------------

  function Then(e: Event, rest: seq<Event>): seq<Event> { [e] + rest }

  function TwoResponses(co: CoId, session: SessionId, order: Msg, early: Msg, report: Msg): seq<Event> {
    Then(EvRegister(co, session, order),
    Then(EvStore(session, early), Then(EvPost, Then(EvStore(session, report), Then(EvPost, ReadOnce(co))))))
  }

  function ReadOnce(co: CoId): seq<Event> {
    Then(EvGetFor(co), Then(EvToken(co), Then(EvExit(co), [])))
  }

  /** A second response before the first is read leaves a token behind: create
      returns normally, and the coroutine goes on with one of its own tokens
      still queued, so its next wait ends early. For any session and messages,
      from any state in which the coroutine has control and the FIX thread is
      out of on_recv. */
  lemma SecondResponseLeavesToken(x: Fx, co: CoId, session: SessionId, order: Msg, early: Msg, report: Msg)
    requires Runs(x, co) && x.frames[co].Elsewhere? && x.setter.Free? && co in x.rt.live
    requires order.msgType == NEW_ORDER_SINGLE && report.msgType == EXECUTION_REPORT
    ensures Feasible(x, TwoResponses(co, session, order, early, report))
    ensures var y := Exec(x, TwoResponses(co, session, order, early, report));
      && y.rt.tokens[co] == x.rt.tokens[co] + 1
      && co in y.frames && y.frames[co].Elsewhere? && y.running == Some(co) && y.setter.Free?
  {
    var call := Call(|x.futs|, session, order, 1);
    Registered(x, co, session, order);
    hide Next, Step, Enabled, InRequest, Post, Feasible, Exec, Runs, Then, ReadOnce;
    var x1 := Next(x, EvRegister(co, session, order));
    OneResponse(x1, co, call, early);
    var x2 := Next(x1, EvStore(session, early));
    var x3 := Next(x2, EvPost);
    OneResponse(x3, co, call, report);
    var x4 := Next(x3, EvStore(session, report));
    var x5 := Next(x4, EvPost);
    PostEffect(x.rt, co);
    PostEffect(Post(x.rt, co), co);
    ReadAndLeave(x5, co, call);
    var es5 := ReadOnce(co);
    var es4 := Then(EvPost, es5);
    var es3 := Then(EvStore(session, report), es4);
    var es2 := Then(EvPost, es3);
    var es1 := Then(EvStore(session, early), es2);
    Prepend(x4, EvPost, es5);
    Prepend(x3, EvStore(session, report), es4);
    Prepend(x2, EvPost, es3);
    Prepend(x1, EvStore(session, early), es2);
    Prepend(x, EvRegister(co, session, order), es1);
  }

  /** The events of a call that is answered once, in time. */
  function OneResponseRun(co: CoId, session: SessionId, order: Msg, report: Msg): seq<Event> {
    Then(EvRegister(co, session, order), Then(EvGetFor(co), Then(EvStore(session, report), Then(EvPost, Then(EvToken(co), [])))))
  }

  /** An answer comes back: whenever a coroutine has control outside create and
      the FIX thread is out of on_recv, it can call create on any session, and an
      ExecutionReport on that session is what create is then about to return. */
  lemma AnswerReturns(x: Fx, co: CoId, session: SessionId, order: Msg, report: Msg)
    requires Runs(x, co) && x.frames[co].Elsewhere? && x.setter.Free? && co in x.rt.live
    requires order.msgType == NEW_ORDER_SINGLE && report.msgType == EXECUTION_REPORT
    ensures Feasible(x, OneResponseRun(co, session, order, report))
    ensures var y := Exec(x, OneResponseRun(co, session, order, report));
      && co in y.frames && y.frames[co].Leaving? && y.frames[co].ending.Response?
      && y.frames[co].ending.got.msg == report && y.frames[co].ending.got.session == session
      && y.running == Some(co)
  {
    var call := Call(|x.futs|, session, order, 1);
    Registered(x, co, session, order);
    hide Next, Enabled, InRequest, Feasible, Exec, Runs, Then, Answerable, Expecting;
    var x1 := Next(x, EvRegister(co, session, order));
    WaitsExpecting(x1, co, call);
    var x2 := Next(x1, EvGetFor(co));
    StoreAnswers(x2, co, call, report);
    var x3 := Next(x2, EvStore(session, report));
    var x4 := Next(x3, EvPost);
    ReadsAnswer(x4, co, call);
    var x5 := Next(x4, EvToken(co));
    Nothing(x5);
    Prepend(x4, EvToken(co), []);
    Prepend(x3, EvPost, Then(EvToken(co), []));
    Prepend(x2, EvStore(session, report), Then(EvPost, Then(EvToken(co), [])));
    Prepend(x1, EvGetFor(co), Then(EvStore(session, report), Then(EvPost, Then(EvToken(co), []))));
    Prepend(x, EvRegister(co, session, order),
            Then(EvGetFor(co), Then(EvStore(session, report), Then(EvPost, Then(EvToken(co), [])))));
  }

  /** `co` waits in get_for with its entry standing. */
  ghost predicate Expecting(y: Fx, co: CoId, call: Call) {
    && y.running == None && y.setter.Free? && co in y.rt.live
    && co in y.frames && y.frames[co].Waiting? && y.frames[co].call == call
    && call.fut < |y.futs| && y.futs[call.fut].co == co
    && call.session in y.pmss && y.pmss[call.session] == call.fut
  }

  lemma WaitsExpecting(x: Fx, co: CoId, call: Call)
    requires InRequest(x, co, call)
    ensures Enabled(x, EvGetFor(co)) && Expecting(Next(x, EvGetFor(co)), co, call)
  {
    ArmAlone(x.rt, co);
    hide Arm;
  }

  lemma StoreAnswers(y: Fx, co: CoId, call: Call, report: Msg)
    requires Expecting(y, co, call)
    requires call.request.msgType == NEW_ORDER_SINGLE && report.msgType == EXECUTION_REPORT
    ensures Enabled(y, EvStore(call.session, report)) && Enabled(Next(y, EvStore(call.session, report)), EvPost)
    ensures var z := Next(Next(y, EvStore(call.session, report)), EvPost);
      Answerable(z, co, call) && z.futs[call.fut].value == Some(Delivery(report, call.session, y.now))
  {
  }

  /** And that token forges a timeout: whatever the coroutine asks for next, on
      whatever session, that call can throw TimeoutException before the timer
      of its wait has expired. */
  lemma SecondResponseForgesTimeout(x: Fx, co: CoId, session: SessionId, order: Msg, early: Msg, report: Msg, next: SessionId, request: Msg)
    requires FxInv(x) && Runs(x, co) && x.frames[co].Elsewhere? && x.setter.Free? && co in x.rt.live
    requires order.msgType == NEW_ORDER_SINGLE && report.msgType == EXECUTION_REPORT
    ensures Feasible(x, TwoResponses(co, session, order, early, report))
    ensures var y := Exec(x, TwoResponses(co, session, order, early, report));
      && Enabled(y, EvRegister(co, next, request))
      && var z := Next(y, EvRegister(co, next, request));
         && Enabled(z, EvGetFor(co))
         && !NeverPremature(Next(z, EvGetFor(co)), |y.futs|)
  {
    hide FxInv, Exec, Feasible, TwoResponses, NeverPremature, Control;
    SecondResponseLeavesToken(x, co, session, order, early, report);
    var y := Exec(x, TwoResponses(co, session, order, early, report));
    RunKeepsInv(x, TwoResponses(co, session, order, early, report));
    InControlIsLive(y, co);
    Registered(y, co, next, request);
    NextInv(y, EvRegister(co, next, request));
    TimeoutIsTrueIffNoStray(Next(y, EvRegister(co, next, request)), co);
  }

  lemma InControlIsLive(x: Fx, co: CoId)
    requires FxInv(x) && x.running == Some(co)
    ensures co in x.rt.live
  {
    hide RtInv, Calls, Registry, SetterOk, Awake, Values, Passes, Wakers;
  }

  /** `co` has control inside create, before get_for, with its entry standing. */
  ghost predicate InRequest(x: Fx, co: CoId, call: Call) {
    && Runs(x, co) && x.frames[co] == Ready(call) && x.setter.Free? && co in x.rt.live
    && call.fut < |x.futs| && x.futs[call.fut].co == co
    && call.session in x.pmss && x.pmss[call.session] == call.fut
  }

  lemma Registered(x: Fx, co: CoId, session: SessionId, order: Msg)
    requires Runs(x, co) && x.frames[co].Elsewhere? && x.setter.Free? && co in x.rt.live
    ensures Enabled(x, EvRegister(co, session, order))
    ensures var y := Next(x, EvRegister(co, session, order));
      InRequest(y, co, Call(|x.futs|, session, order, 1)) && y.rt == x.rt
  {
  }

  lemma PostEffect(r: Rt, co: CoId)
    ensures Post(r, co).tokens[co] == r.tokens[co] + 1
  {
  }

  lemma OneResponse(x: Fx, co: CoId, call: Call, msg: Msg)
    requires InRequest(x, co, call)
    ensures Enabled(x, EvStore(call.session, msg)) && Enabled(Next(x, EvStore(call.session, msg)), EvPost)
    ensures var y := Next(Next(x, EvStore(call.session, msg)), EvPost);
      && InRequest(y, co, call) && y.rt == Post(x.rt, co)
      && y.futs[call.fut].value.Some? && y.futs[call.fut].value.value.msg == msg
  {
  }

  lemma ReadAndLeave(x: Fx, co: CoId, call: Call)
    requires InRequest(x, co, call) && x.rt.tokens[co] > 0 && x.futs[call.fut].value.Some?
    requires call.request.msgType == NEW_ORDER_SINGLE && x.futs[call.fut].value.value.msg.msgType == EXECUTION_REPORT
    ensures Feasible(x, ReadOnce(co))
    ensures var z := Exec(x, ReadOnce(co));
      && z.rt.tokens[co] == x.rt.tokens[co] - 1
      && co in z.frames && z.frames[co].Elsewhere? && z.running == Some(co) && z.setter.Free?
  {
    TokenReads(x, co, call);
    hide Next, Step, Enabled, Feasible, Exec;
    var y := Next(x, EvGetFor(co));
    var z := Next(y, EvToken(co));
    Nothing(Next(z, EvExit(co)));
    Prepend(z, EvExit(co), []);
    Prepend(y, EvToken(co), Then(EvExit(co), []));
    Prepend(x, EvGetFor(co), Then(EvToken(co), Then(EvExit(co), [])));
  }

  /** Create waits, with its token queued and its answer stored. */
  ghost predicate Answerable(y: Fx, co: CoId, call: Call) {
    && y.running == None && y.setter.Free? && co in y.rt.live && co in y.rt.tokens
    && co in y.frames && y.frames[co].Waiting? && y.frames[co].call == call
    && call.fut < |y.futs| && y.futs[call.fut].value.Some?
    && call.request.msgType == NEW_ORDER_SINGLE && y.futs[call.fut].value.value.msg.msgType == EXECUTION_REPORT
  }

  lemma WaitsAnswerable(x: Fx, co: CoId, call: Call)
    requires InRequest(x, co, call) && x.rt.tokens[co] > 0 && x.futs[call.fut].value.Some?
    requires call.request.msgType == NEW_ORDER_SINGLE && x.futs[call.fut].value.value.msg.msgType == EXECUTION_REPORT
    ensures Enabled(x, EvGetFor(co))
    ensures var y := Next(x, EvGetFor(co)); Answerable(y, co, call) && y.rt.tokens == x.rt.tokens
  {
    ArmAlone(x.rt, co);
    hide Arm;
  }

  lemma ReadsAnswer(y: Fx, co: CoId, call: Call)
    requires Answerable(y, co, call)
    ensures Enabled(y, EvToken(co))
    ensures var z := Next(y, EvToken(co));
      && Enabled(z, EvExit(co)) && z.rt.tokens == y.rt.tokens[co := y.rt.tokens[co] - 1]
      && co in z.frames && z.frames[co].Leaving? && z.running == Some(co) && z.setter.Free?
      && z.frames[co].ending == Response(y.futs[call.fut].value.value)
  {
    TakeAlone(y.rt, co);
    hide Take;
  }

  lemma TokenReads(x: Fx, co: CoId, call: Call)
    requires InRequest(x, co, call) && x.rt.tokens[co] > 0 && x.futs[call.fut].value.Some?
    requires call.request.msgType == NEW_ORDER_SINGLE && x.futs[call.fut].value.value.msg.msgType == EXECUTION_REPORT
    ensures Enabled(x, EvGetFor(co)) && Enabled(Next(x, EvGetFor(co)), EvToken(co))
    ensures var y := Next(Next(x, EvGetFor(co)), EvToken(co));
      && Enabled(y, EvExit(co))
      && var z := Next(y, EvExit(co));
         && z.rt.tokens[co] == x.rt.tokens[co] - 1
         && co in z.frames && z.frames[co].Elsewhere? && z.running == Some(co) && z.setter.Free?
  {
    hide Enabled, Next, Answerable, InRequest;
    WaitsAnswerable(x, co, call);
    var y := Next(x, EvGetFor(co));
    ReadsAnswer(y, co, call);
    ExitIs(Next(y, EvToken(co)), co);
  }

  lemma ExitIs(y: Fx, co: CoId)
    requires Enabled(y, EvExit(co))
    ensures var z := Next(y, EvExit(co));
      z.rt == y.rt && co in z.frames && z.frames[co].Elsewhere? && z.running == y.running && z.setter == y.setter
  {
  }

  lemma ArmAlone(r: Rt, co: CoId)
    ensures Arm(r, co).tokens == r.tokens && Arm(r, co).live == r.live && Arm(r, co).fired == r.fired
  {
  }

  lemma TakeAlone(r: Rt, co: CoId)
    ensures co in r.tokens ==> Take(r, co).tokens == r.tokens[co := r.tokens[co] - 1]
  {
  }

  lemma Nothing(x: Fx)
    ensures Feasible(x, []) && Exec(x, []) == x
  {
  }

  lemma Prepend(x: Fx, e: Event, rest: seq<Event>)
    requires Enabled(x, e) && Feasible(Next(x, e), rest)
    ensures Feasible(x, Then(e, rest)) && Exec(x, Then(e, rest)) == Exec(Next(x, e), rest)
  {
    hide Enabled, Next;
    assert ([e] + rest)[1..] == rest;
  }
}
