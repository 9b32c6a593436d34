/**
 What every step of the FIX protocol keeps, in every interleaving.
 Each part of the invariant reads only the components it is about.
 */
module FixInvariant {
  import opened Wrappers
  import opened Runtime
  import opened FixBuilder

  // ---------------------------------------------------------------------
  // The parts
  // ---------------------------------------------------------------------

  /** Who has control, and the scheduler's facts about it. */
  ghost predicate Control(rt: Rt, running: Option<CoId>, frames: map<CoId, Frame>) {
    && RtInv(rt)
    && (forall c: CoId :: c in frames <==> c < rt.next)
    && (forall c: CoId :: c in frames ==> (frames[c].Ended? <==> c !in rt.live))
    && (forall c: CoId :: c in frames && (frames[c].Ready? || frames[c].Leaving?) ==> running == Some(c))
    && (running.Some? ==>
          && running.value in frames && running.value in rt.live && running.value !in rt.armed
          && running.value in rt.resumed && !frames[running.value].Waiting?)
  }

  /** A call owns the future it registered. */
  ghost predicate Calls(frames: map<CoId, Frame>, futs: seq<Fut>) {
    forall c: CoId :: c in frames && frames[c].InCall() ==>
      && frames[c].call.fut < |futs|
      && futs[frames[c].call.fut].co == c
      && futs[frames[c].call.fut].session == frames[c].call.session
      && frames[c].call.pass > 0
  }

  /** The call that registered future `f` has not ended. */
  ghost predicate InFlight(frames: map<CoId, Frame>, futs: seq<Fut>, f: FutId) {
    f < |futs| && futs[f].co in frames && frames[futs[f].co].InCall() && frames[futs[f].co].call.fut == f
  }

  /** An entry belongs to a call in flight on its session, the last registered. */
  ghost predicate Registry(frames: map<CoId, Frame>, futs: seq<Fut>, pmss: map<SessionId, FutId>) {
    forall s: SessionId :: s in pmss ==>
      && InFlight(frames, futs, pmss[s])
      && futs[pmss[s]].session == s
      && (forall g: FutId :: pmss[s] < g < |futs| ==> futs[g].session != s)
  }

  /** While the FIX thread is between store and post, the entry stands. */
  ghost predicate SetterOk(setter: Setter, futs: seq<Fut>, pmss: map<SessionId, FutId>) {
    setter.Stored? ==>
      && setter.fut < |futs|
      && futs[setter.fut].value.Some?
      && futs[setter.fut].session in pmss
      && pmss[futs[setter.fut].session] == setter.fut
  }

  /** No lost wake-up. */
  ghost predicate Awake(frames: map<CoId, Frame>, futs: seq<Fut>, setter: Setter, tokens: multiset<CoId>) {
    forall f: FutId :: InFlight(frames, futs, f) && futs[f].value.Some? && !futs[f].seen ==>
      setter == Stored(f) || futs[f].co in tokens
  }

  ghost predicate OwnDelivery(fut: Fut, d: Delivery, now: nat) {
    d.session == fut.session && fut.registered < d.at < now
  }

  /** A value was delivered on its future's session after its registration; a
      response about to be returned is an ExecutionReport for an order. */
  ghost predicate Values(frames: map<CoId, Frame>, futs: seq<Fut>, now: nat) {
    && (forall f: FutId :: f < |futs| ==> futs[f].registered < now)
    && (forall f: FutId :: f < |futs| && futs[f].value.Some? ==> OwnDelivery(futs[f], futs[f].value.value, now))
    && (forall c: CoId :: c in frames && frames[c].Leaving? && frames[c].ending.Response? ==>
          && frames[c].call.fut < |futs|
          && OwnDelivery(futs[frames[c].call.fut], frames[c].ending.got, now)
          && frames[c].call.request.msgType == NEW_ORDER_SINGLE
          && frames[c].ending.got.msg.msgType == EXECUTION_REPORT)
  }

  /** A value once stored stays, so only the first pass can time out. */
  ghost predicate Passes(frames: map<CoId, Frame>, futs: seq<Fut>) {
    forall c: CoId :: c in frames && frames[c].InCall() && frames[c].call.fut < |futs| ==>
      && (frames[c].call.pass > 1 ==> futs[frames[c].call.fut].value.Some?)
      && (frames[c].Leaving? && frames[c].ending.Timeout? ==> frames[c].call.pass == 1)
  }

  /** Whoever wakes a clean wait is the future or the wait's timer. */
  ghost predicate Wakers(frames: map<CoId, Frame>, futs: seq<Fut>, fired: multiset<CoId>, tokens: multiset<CoId>, left: multiset<CoId>) {
    forall c: CoId :: c in frames ==>
      && (frames[c].Waiting? && frames[c].clean && frames[c].call.fut < |futs| ==>
            && c !in left
            && (c in fired ==> frames[c].expired)
            && (c in tokens && futs[frames[c].call.fut].value.None? ==> frames[c].expired))
      && (frames[c].Leaving? && frames[c].ending.Timeout? && frames[c].ending.clean ==> frames[c].ending.expired)
  }

  ghost predicate FxInv(x: Fx) {
    && Control(x.rt, x.running, x.frames)
    && Calls(x.frames, x.futs)
    && Registry(x.frames, x.futs, x.pmss)
    && SetterOk(x.setter, x.futs, x.pmss)
    && Awake(x.frames, x.futs, x.setter, x.rt.tokens)
    && Values(x.frames, x.futs, x.now)
    && Passes(x.frames, x.futs)
    && Wakers(x.frames, x.futs, x.rt.fired, x.rt.tokens, x.left)
    && Owned(x.frames, x.left)
  }

  /** An outstanding operation belongs to a coroutine. */
  ghost predicate Owned(frames: map<CoId, Frame>, left: multiset<CoId>) {
    forall c: CoId :: c in left ==> c in frames
  }

  lemma StartInv()
    ensures FxInv(START)
  {
    InvInit();
  }

  // ---------------------------------------------------------------------
  // Steps that neither begin nor end a call
  // ---------------------------------------------------------------------

  /** The same calls are in flight, each with its future and session. */
  ghost predicate SameCalls(frames: map<CoId, Frame>, after: map<CoId, Frame>) {
    && frames.Keys <= after.Keys
    && (forall c: CoId :: c in after && after[c].InCall() ==> c in frames && frames[c].InCall())
    && (forall c: CoId :: c in frames && frames[c].InCall() ==>
          && after[c].InCall()
          && after[c].call.fut == frames[c].call.fut
          && after[c].call.session == frames[c].call.session
          && after[c].call.pass >= frames[c].call.pass)
  }

  /** The same futures, each with its coroutine and registration. */
  ghost predicate SameOwners(futs: seq<Fut>, after: seq<Fut>) {
    && |after| == |futs|
    && (forall f: FutId :: f < |futs| ==>
          after[f].co == futs[f].co && after[f].session == futs[f].session && after[f].registered == futs[f].registered)
  }

  lemma CallsStay(frames: map<CoId, Frame>, futs: seq<Fut>, frames': map<CoId, Frame>, futs': seq<Fut>)
    requires Calls(frames, futs) && SameCalls(frames, frames') && SameOwners(futs, futs')
    ensures Calls(frames', futs')
  {
  }

  lemma FlightStays(frames: map<CoId, Frame>, futs: seq<Fut>, frames': map<CoId, Frame>, futs': seq<Fut>)
    requires SameCalls(frames, frames') && SameOwners(futs, futs')
    ensures forall f: FutId :: InFlight(frames, futs, f) <==> InFlight(frames', futs', f)
  {
  }

  lemma RegistryStays(frames: map<CoId, Frame>, futs: seq<Fut>, frames': map<CoId, Frame>, futs': seq<Fut>, pmss: map<SessionId, FutId>)
    requires Registry(frames, futs, pmss) && SameCalls(frames, frames') && SameOwners(futs, futs')
    ensures Registry(frames', futs', pmss)
  {
    FlightStays(frames, futs, frames', futs');
  }

  /** Time passes, values and endings stay. */
  lemma ValuesLater(frames: map<CoId, Frame>, futs: seq<Fut>, now: nat)
    requires Values(frames, futs, now)
    ensures Values(frames, futs, now + 1)
  {
  }

  /** One frame changes, and with it no call. */
  lemma OneFrame(frames: map<CoId, Frame>, co: CoId, g: Frame)
    requires co in frames ==> (g.InCall() <==> frames[co].InCall())
    requires co !in frames ==> !g.InCall()
    requires co in frames && g.InCall() ==>
      && g.call.fut == frames[co].call.fut && g.call.session == frames[co].call.session
      && g.call.pass >= frames[co].call.pass
    ensures SameCalls(frames, frames[co := g])
  {
  }

  lemma CallsOfToken(x: Fx, co: CoId)
    requires co in x.rt.tokens && Calls(x.frames, x.futs)
    ensures SameCalls(x.frames, DoToken(x, co).frames) && SameOwners(x.futs, DoToken(x, co).futs)
    ensures DoToken(x, co).pmss == x.pmss
  {
    hide Take, SameCalls, Calls;
    OneFrameOfNone(x.frames);
    if co in x.frames && x.frames[co].Waiting? && x.frames[co].call.fut < |x.futs| {
      var f := x.frames[co];
      OneFrame(x.frames, co, Observe(f.call, x.futs[f.call.fut].value, f.clean, f.expired));
    }
  }

  lemma OneFrameOfNone(frames: map<CoId, Frame>)
    ensures SameCalls(frames, frames)
  {
  }

  /** The other steps of the io thread change one frame, or none, and no future. */
  lemma CallsOfFrame(x: Fx, e: Event)
    requires Enabled(x, e) && (e.EvSpawn? ==> x.rt.next !in x.frames)
    requires e.EvSpawn? || e.EvExpire? || e.EvGetFor? || e.EvEnd? || e.EvForeign?
    ensures SameCalls(x.frames, Step(x, e).frames) && Step(x, e).futs == x.futs && Step(x, e).pmss == x.pmss
  {
    hide Expire, Arm, Finish, Spawn, Post, SameCalls;
    OneFrameOfNone(x.frames);
    match e
    case EvForeign(co) =>
      if x.frames[co].Waiting? {
        OneFrame(x.frames, co, x.frames[co].(clean := false));
      }
    case EvSpawn => OneFrame(x.frames, x.rt.next, Elsewhere);
    case EvGetFor(co) => OneFrame(x.frames, co, DoGetFor(x, co).frames[co]);
    case EvEnd(co) => OneFrame(x.frames, co, Ended);
    case EvExpire(co) =>
      if co in x.frames && x.frames[co].Waiting? {
        OneFrame(x.frames, co, x.frames[co].(expired := true));
      }
  }

  lemma CallsOfRest(x: Fx, e: Event)
    requires Enabled(x, e)
    requires e.EvStart? || e.EvComplete? || e.EvFired? || e.EvCancelled? || e.EvYield? || e.EvStore? || e.EvPost?
    ensures Step(x, e).frames == x.frames && SameOwners(x.futs, Step(x, e).futs) && Step(x, e).pmss == x.pmss
  {
    hide Arm, Post, RunFired, RunCancelled;
  }

  lemma NextIsNew(x: Fx)
    requires Control(x.rt, x.running, x.frames)
    ensures x.rt.next !in x.frames
  {
    hide RtInv;
  }

  lemma CallsOfStep(x: Fx, e: Event)
    requires FxInv(x) && Enabled(x, e) && !e.EvRegister? && !e.EvExit?
    ensures SameCalls(x.frames, Step(x, e).frames) && SameOwners(x.futs, Step(x, e).futs)
    ensures Step(x, e).pmss == x.pmss
  {
    hide Control, Calls, Registry, SetterOk, Awake, Values, Passes, Wakers, SameCalls, Enabled, Step;
    NextIsNew(x);
    match e
    case EvToken(co) =>
      assert co in x.rt.tokens && Step(x, e) == DoToken(x, co) by { StepOfToken(x, co); }
      CallsOfToken(x, co);
    case EvSpawn => CallsOfFrame(x, e);
    case EvExpire(_) => CallsOfFrame(x, e);
    case EvForeign(_) => CallsOfFrame(x, e);
    case EvGetFor(_) => CallsOfFrame(x, e);
    case EvEnd(_) => CallsOfFrame(x, e);
    case _ =>
      CallsOfRest(x, e);
      OneFrameOfNone(x.frames);
  }

  // ---------------------------------------------------------------------
  // Control
  // ---------------------------------------------------------------------

  lemma ControlOfSpawn(x: Fx)
    requires Control(x.rt, x.running, x.frames)
    ensures Control(Spawn(x.rt), x.running, DoSpawn(x).frames)
  {
    InvSpawn(x.rt);
    hide RtInv;
  }

  lemma ControlTaken(rt: Rt, rt': Rt, frames: map<CoId, Frame>, frames': map<CoId, Frame>, co: CoId)
    requires Control(rt, None, frames) && RtInv(rt') && co in rt.live && co in frames
    requires rt'.next == rt.next && rt'.live == rt.live && co !in rt'.armed && co in rt'.resumed
    requires co in frames' && frames' == frames[co := frames'[co]] && !frames'[co].Waiting? && !frames'[co].Ended?
    ensures Control(rt', Some(co), frames')
  {
    hide RtInv;
  }

  /** A token gives a live coroutine control, out of its wait if it had one. */
  lemma TokenShape(x: Fx, co: CoId)
    requires co in x.rt.tokens && co in x.frames && Calls(x.frames, x.futs)
    ensures var t := DoToken(x, co);
      && t.rt == Take(x.rt, co)
      && (co in x.rt.live ==>
            && t.running == Some(co)
            && co in t.frames && t.frames == x.frames[co := t.frames[co]]
            && (t.frames[co] == x.frames[co] || t.frames[co].Ready? || t.frames[co].Leaving?)
            && !t.frames[co].Waiting?)
      && (co !in x.rt.live ==> t.running == x.running && t.frames == x.frames)
  {
    hide Take;
  }

  lemma ControlOfToken(x: Fx, co: CoId)
    requires Control(x.rt, x.running, x.frames) && Calls(x.frames, x.futs)
    requires x.running == None && co in x.rt.tokens
    ensures var t := DoToken(x, co); Control(t.rt, t.running, t.frames)
  {
    assert RtInv(x.rt) && (co in x.rt.live ==> !x.frames[co].Ended?);
    assert co in x.frames by { InvTake(x.rt, co); }
    InvTake(x.rt, co);
    TakeEffect(x.rt, co);
    TokenShape(x, co);
    hide RtInv, Take, Control, Calls, DoToken;
    var t := DoToken(x, co);
    if co in x.rt.live {
      ControlTaken(x.rt, t.rt, x.frames, t.frames, co);
    } else {
      ControlKept(x.rt, t.rt, x.running, x.frames);
    }
  }

  /** Timers and foreign posts leave cos_ and the coroutine in control alone. */
  lemma ControlKept(rt: Rt, rt': Rt, running: Option<CoId>, frames: map<CoId, Frame>)
    requires Control(rt, running, frames) && RtInv(rt')
    requires rt'.next == rt.next && rt'.live == rt.live && rt'.armed <= rt.armed && rt'.resumed == rt.resumed
    ensures Control(rt', running, frames)
  {
    hide RtInv;
  }

  lemma ControlOfItem(x: Fx, e: Event)
    requires Control(x.rt, x.running, x.frames) && Owned(x.frames, x.left) && Enabled(x, e)
    requires e.EvComplete? || e.EvFired? || e.EvCancelled?
    ensures var t := Step(x, e); Control(t.rt, t.running, t.frames)
  {
    match e
    case EvComplete(co) => InvPost(x.rt, co);
    case EvFired(co) => InvRunFired(x.rt, co);
    case EvCancelled(co) =>
    ControlKept(x.rt, Step(x, e).rt, x.running, x.frames);
  }

  lemma ControlOfForeign(x: Fx, co: CoId)
    requires Control(x.rt, x.running, x.frames) && co in x.frames
    ensures var t := DoForeign(x, co); Control(t.rt, t.running, t.frames)
  {
    InvPost(x.rt, co);
    hide RtInv;
  }

  lemma ControlOfExpire(x: Fx, co: CoId)
    requires Control(x.rt, x.running, x.frames) && co in x.rt.armed
    ensures var t := DoExpire(x, co); Control(t.rt, t.running, t.frames)
  {
    InvExpire(x.rt, co);
    hide RtInv;
  }

  lemma ControlOfPost(x: Fx)
    requires Control(x.rt, x.running, x.frames)
    requires Registry(x.frames, x.futs, x.pmss) && SetterOk(x.setter, x.futs, x.pmss)
    requires Enabled(x, EvPost)
    ensures var t := DoPost(x); Control(t.rt, t.running, t.frames)
  {
    hide RtInv;
    assert InFlight(x.frames, x.futs, x.setter.fut);
    var co := x.futs[x.setter.fut].co;
    InvPost(x.rt, co);
    ControlKept(x.rt, Post(x.rt, co), x.running, x.frames);
  }

  lemma ControlYields(rt: Rt, rt': Rt, frames: map<CoId, Frame>, frames': map<CoId, Frame>, co: CoId)
    requires Control(rt, Some(co), frames) && RtInv(rt')
    requires co in frames' && frames' == frames[co := frames'[co]]
    requires !frames'[co].Ready? && !frames'[co].Leaving?
    requires rt'.next == rt.next && rt'.live == (if frames'[co].Ended? then rt.live - {co} else rt.live)
    ensures Control(rt', None, frames')
  {
    hide RtInv;
  }

  lemma ControlOfYield(x: Fx, e: Event)
    requires Control(x.rt, x.running, x.frames) && Enabled(x, e)
    requires e.EvGetFor? || e.EvYield? || e.EvEnd?
    ensures var t := Step(x, e); Control(t.rt, t.running, t.frames)
  {
    var co := e.co;
    assert RtInv(x.rt) && co in x.rt.live && co !in x.rt.armed && co in x.rt.resumed && !x.frames[co].Waiting?;
    ArmEffect(x.rt, co);
    InvFinish(x.rt, co);
    hide RtInv, Control, Arm;
    var t := Step(x, e);
    assert t.frames == x.frames[co := t.frames[co]];
    ControlYields(x.rt, t.rt, x.frames, t.frames, co);
  }

  lemma ControlOfCall(x: Fx, e: Event)
    requires Control(x.rt, x.running, x.frames) && Enabled(x, e)
    requires e.EvRegister? || e.EvExit? || e.EvStore? || e.EvStart?
    ensures var t := Step(x, e); Control(t.rt, t.running, t.frames)
  {
    hide RtInv;
  }

  lemma ControlOfStep(x: Fx, e: Event)
    requires FxInv(x) && Enabled(x, e)
    ensures var t := Step(x, e); Control(t.rt, t.running, t.frames)
  {
    hide Control, Calls, Registry, SetterOk, Awake, Values, Passes, Wakers;
    match e
    case EvSpawn => ControlOfSpawn(x);
    case EvToken(co) => ControlOfToken(x, co);
    case EvForeign(co) => ControlOfForeign(x, co);
    case EvComplete(_) => ControlOfItem(x, e);
    case EvStart(_) => ControlOfCall(x, e);
    case EvFired(_) => ControlOfItem(x, e);
    case EvCancelled(_) => ControlOfItem(x, e);
    case EvExpire(co) => ControlOfExpire(x, co);
    case EvPost => ControlOfPost(x);
    case EvGetFor(_) => ControlOfYield(x, e);
    case EvYield(_, _) => ControlOfYield(x, e);
    case EvEnd(_) => ControlOfYield(x, e);
    case EvRegister(_, _, _) => ControlOfCall(x, e);
    case EvExit(_) => ControlOfCall(x, e);
    case EvStore(_, _) => ControlOfCall(x, e);
  }

  // ---------------------------------------------------------------------
  // Calls and the registry
  // ---------------------------------------------------------------------

  lemma RegisterKeeps(x: Fx, co: CoId, session: SessionId, request: Msg)
    requires Calls(x.frames, x.futs) && Registry(x.frames, x.futs, x.pmss)
    requires Enabled(x, EvRegister(co, session, request))
    ensures var t := DoRegister(x, co, session, request);
      Calls(t.frames, t.futs) && Registry(t.frames, t.futs, t.pmss)
  {
    var t := DoRegister(x, co, session, request);
    assert InFlight(t.frames, t.futs, |x.futs|);
    forall s: SessionId | s in t.pmss && s != session
      ensures InFlight(t.frames, t.futs, t.pmss[s])
    {
      assert InFlight(x.frames, x.futs, x.pmss[s]);
    }
  }

  lemma ExitKeeps(x: Fx, co: CoId)
    requires Calls(x.frames, x.futs) && Registry(x.frames, x.futs, x.pmss)
    requires Enabled(x, EvExit(co))
    ensures var t := DoExit(x, co); Calls(t.frames, t.futs) && Registry(t.frames, t.futs, t.pmss)
  {
    var t := DoExit(x, co);
    forall s: SessionId | s in t.pmss
      ensures InFlight(t.frames, t.futs, t.pmss[s])
    {
      assert InFlight(x.frames, x.futs, x.pmss[s]);
    }
  }

  lemma CallsAndRegistry(x: Fx, e: Event)
    requires FxInv(x) && Enabled(x, e)
    ensures var t := Step(x, e); Calls(t.frames, t.futs) && Registry(t.frames, t.futs, t.pmss)
  {
    if e.EvRegister? {
      RegisterKeeps(x, e.co, e.session, e.request);
    } else if e.EvExit? {
      ExitKeeps(x, e.co);
    } else {
      CallsOfStep(x, e);
      hide Calls, Registry, Control, SetterOk, Awake, Values, Passes, Wakers, SameCalls, SameOwners;
      var t := Step(x, e);
      CallsStay(x.frames, x.futs, t.frames, t.futs);
      RegistryStays(x.frames, x.futs, t.frames, t.futs, x.pmss);
    }
  }

  lemma SetterKept(x: Fx, e: Event)
    requires SetterOk(x.setter, x.futs, x.pmss) && Calls(x.frames, x.futs) && Registry(x.frames, x.futs, x.pmss)
    requires Enabled(x, e)
    ensures var t := Step(x, e); SetterOk(t.setter, t.futs, t.pmss)
  {
    hide Take, Expire, Arm, Finish, RunFired, RunCancelled, Post, Calls;
  }

  // ---------------------------------------------------------------------
  // No lost wake-up
  // ---------------------------------------------------------------------

  /** More tokens, and no new unread value. */
  lemma AwakeWithMore(frames: map<CoId, Frame>, futs: seq<Fut>, setter: Setter, tokens: multiset<CoId>,
                      frames': map<CoId, Frame>, tokens': multiset<CoId>)
    requires Awake(frames, futs, setter, tokens)
    requires forall f: FutId :: InFlight(frames', futs, f) ==> InFlight(frames, futs, f)
    requires forall c: CoId :: c in tokens ==> c in tokens'
    ensures Awake(frames', futs, setter, tokens')
  {
  }

  /** The coroutine of the token reads its own future, and no other is touched. */
  lemma ReadsOwn(x: Fx, co: CoId, f: FutId)
    requires Control(x.rt, x.running, x.frames) && Calls(x.frames, x.futs)
    requires Enabled(x, EvToken(co)) && InFlight(x.frames, x.futs, f)
    ensures var t := DoToken(x, co);
      f < |t.futs| && t.futs[f].co == x.futs[f].co && if x.futs[f].co == co then t.futs[f].seen else t.futs[f] == x.futs[f]
  {
    hide RtInv, Take;
    assert co in x.frames && x.frames[co].InCall() ==> co in x.rt.live && x.frames[co].Waiting?;
  }

  lemma AwakeOfToken(x: Fx, co: CoId)
    requires Control(x.rt, x.running, x.frames) && Calls(x.frames, x.futs)
    requires Awake(x.frames, x.futs, x.setter, x.rt.tokens)
    requires Enabled(x, EvToken(co))
    ensures var t := DoToken(x, co); Awake(t.frames, t.futs, t.setter, t.rt.tokens)
  {
    hide RtInv, Take, Calls, SameCalls, InFlight, Control;
    assert RtInv(x.rt) by { ControlParts(x); }
    TakeEffect(x.rt, co);
    CallsOfToken(x, co);
    var t := DoToken(x, co);
    FlightStays(x.frames, x.futs, t.frames, t.futs);
    assert t.rt == Take(x.rt, co) && t.setter == x.setter;
    hide DoToken;
    forall f: FutId | InFlight(t.frames, t.futs, f) && f < |t.futs| && t.futs[f].value.Some? && !t.futs[f].seen
      ensures t.setter == Stored(f) || t.futs[f].co in t.rt.tokens
    {
      ReadsOwn(x, co, f);
    }
    FlightIsFuture(t.frames, t.futs);
  }

  lemma FlightIsFuture(frames: map<CoId, Frame>, futs: seq<Fut>)
    ensures forall f: FutId :: InFlight(frames, futs, f) ==> f < |futs|
  {
  }

  lemma ControlParts(x: Fx)
    requires Control(x.rt, x.running, x.frames)
    ensures RtInv(x.rt)
  {
    hide RtInv;
  }

  lemma AwakeOfStore(x: Fx, session: SessionId, msg: Msg)
    requires Registry(x.frames, x.futs, x.pmss) && Awake(x.frames, x.futs, x.setter, x.rt.tokens)
    requires x.setter.Free?
    ensures var t := DoStore(x, session, msg); Awake(t.frames, t.futs, t.setter, t.rt.tokens)
  {
    var t := DoStore(x, session, msg);
    forall f: FutId | InFlight(t.frames, t.futs, f) && t.futs[f].value.Some? && !t.futs[f].seen
      ensures t.setter == Stored(f) || t.futs[f].co in t.rt.tokens
    {
      assert InFlight(x.frames, x.futs, f);
    }
  }

  lemma AwakeOfRegister(x: Fx, co: CoId, session: SessionId, request: Msg)
    requires Calls(x.frames, x.futs) && Awake(x.frames, x.futs, x.setter, x.rt.tokens)
    requires Enabled(x, EvRegister(co, session, request))
    ensures var t := DoRegister(x, co, session, request); Awake(t.frames, t.futs, t.setter, t.rt.tokens)
  {
    var t := DoRegister(x, co, session, request);
    forall f: FutId | InFlight(t.frames, t.futs, f) && t.futs[f].value.Some? && !t.futs[f].seen
      ensures t.setter == Stored(f) || t.futs[f].co in t.rt.tokens
    {
      assert InFlight(x.frames, x.futs, f);
    }
  }

  /** The other steps only add tokens and keep the futures. */
  lemma TokensOnlyGrow(x: Fx, e: Event)
    requires Enabled(x, e) && !e.EvToken? && !e.EvStore? && !e.EvRegister?
    ensures Step(x, e).futs == x.futs
    ensures forall c: CoId :: c in x.rt.tokens ==> c in Step(x, e).rt.tokens
    ensures !e.EvPost? ==> Step(x, e).setter == x.setter
  {
  }

  lemma AwakeOfPost(x: Fx)
    requires Awake(x.frames, x.futs, x.setter, x.rt.tokens) && Enabled(x, EvPost)
    ensures var t := DoPost(x); Awake(t.frames, t.futs, t.setter, t.rt.tokens)
  {
    var t := DoPost(x);
    assert t.rt.tokens == x.rt.tokens + multiset{x.futs[x.setter.fut].co};
    forall f: FutId | InFlight(t.frames, t.futs, f) && t.futs[f].value.Some? && !t.futs[f].seen
      ensures t.setter == Stored(f) || t.futs[f].co in t.rt.tokens
    {
      assert InFlight(x.frames, x.futs, f);
    }
  }

  lemma FlightOfExit(x: Fx, co: CoId)
    requires Enabled(x, EvExit(co))
    ensures forall f: FutId :: InFlight(DoExit(x, co).frames, x.futs, f) ==> InFlight(x.frames, x.futs, f)
  {
  }

  lemma AwakeOfStep(x: Fx, e: Event)
    requires FxInv(x) && Enabled(x, e)
    ensures var t := Step(x, e); Awake(t.frames, t.futs, t.setter, t.rt.tokens)
  {
    if !e.EvRegister? && !e.EvExit? { CallsOfStep(x, e); }
    hide Control, Calls, Registry, SetterOk, Awake, Values, Passes, Wakers, SameCalls, SameOwners, InFlight;
    match e
    case EvToken(co) => AwakeOfToken(x, co);
    case EvStore(session, msg) => AwakeOfStore(x, session, msg);
    case EvRegister(co, session, request) => AwakeOfRegister(x, co, session, request);
    case EvPost => AwakeOfPost(x);
    case EvExit(co) =>
      FlightOfExit(x, co);
      AwakeWithMore(x.frames, x.futs, x.setter, x.rt.tokens, DoExit(x, co).frames, x.rt.tokens);
    case _ =>
      hide Step;
      var t := Step(x, e);
      TokensOnlyGrow(x, e);
      FlightStays(x.frames, x.futs, t.frames, t.futs);
      AwakeWithMore(x.frames, x.futs, x.setter, x.rt.tokens, t.frames, t.rt.tokens);
  }

  // ---------------------------------------------------------------------
  // Values and passes
  // ---------------------------------------------------------------------

  lemma ValuesOfToken(x: Fx, co: CoId)
    requires Values(x.frames, x.futs, x.now) && Calls(x.frames, x.futs) && co in x.rt.tokens
    ensures var t := DoToken(x, co); Values(t.frames, t.futs, x.now)
  {
    hide Take;
  }

  lemma ValuesOfStep(x: Fx, e: Event)
    requires FxInv(x) && Enabled(x, e)
    ensures var t := Step(x, e); Values(t.frames, t.futs, x.now + 1)
  {
    hide Control, SetterOk, Awake, Passes, Wakers, Take, Expire, Arm, Finish, RunFired, RunCancelled, Post;
    if e.EvToken? {
      ValuesOfToken(x, e.co);
      ValuesLater(Step(x, e).frames, Step(x, e).futs, x.now);
    } else {
      hide Calls, Registry;
      ValuesOfOther(x, e);
    }
  }

  lemma ValuesOfOther(x: Fx, e: Event)
    requires Values(x.frames, x.futs, x.now) && Calls(x.frames, x.futs) && Registry(x.frames, x.futs, x.pmss)
    requires Enabled(x, e) && !e.EvToken?
    ensures var t := Step(x, e); Values(t.frames, t.futs, x.now + 1)
  {
    hide Take, Expire, Arm, Finish, RunFired, RunCancelled, Post, Spawn;
    if e.EvStore? {
      ValuesOfStore(x, e.session, e.msg);
    } else if e.EvRegister? {
      ValuesOfRegister(x, e.co, e.session, e.request);
    } else {
      hide Calls, Registry;
    }
  }

  lemma ValuesOfStore(x: Fx, session: SessionId, msg: Msg)
    requires Values(x.frames, x.futs, x.now) && Registry(x.frames, x.futs, x.pmss)
    ensures var t := DoStore(x, session, msg); Values(t.frames, t.futs, x.now + 1)
  {
  }

  lemma ValuesOfRegister(x: Fx, co: CoId, session: SessionId, request: Msg)
    requires Values(x.frames, x.futs, x.now) && Calls(x.frames, x.futs)
    ensures var t := DoRegister(x, co, session, request); Values(t.frames, t.futs, x.now + 1)
  {
  }

  lemma PassesOfToken(x: Fx, co: CoId)
    requires Passes(x.frames, x.futs) && Calls(x.frames, x.futs) && co in x.rt.tokens
    ensures var t := DoToken(x, co); Passes(t.frames, t.futs)
  {
    hide Take;
  }

  lemma PassesOfOther(x: Fx, e: Event)
    requires Passes(x.frames, x.futs) && Calls(x.frames, x.futs) && Enabled(x, e) && !e.EvToken?
    ensures var t := Step(x, e); Passes(t.frames, t.futs)
  {
    hide Take, Expire, Arm, Finish, RunFired, RunCancelled, Post;
  }

  // ---------------------------------------------------------------------
  // Who wakes a clean wait
  // ---------------------------------------------------------------------

  lemma WakersOfToken(x: Fx, co: CoId)
    requires Control(x.rt, x.running, x.frames) && Calls(x.frames, x.futs)
    requires Wakers(x.frames, x.futs, x.rt.fired, x.rt.tokens, x.left)
    requires Enabled(x, EvToken(co))
    ensures var t := DoToken(x, co); Wakers(t.frames, t.futs, t.rt.fired, t.rt.tokens, t.left)
  {
    hide RtInv, Take, Control, Calls, DoToken, Observe;
    ControlParts(x);
    assert co in x.frames && (co in x.rt.live <==> !x.frames[co].Ended?) by { TokenFrame(x, co); }
    TakeEffect(x.rt, co);
    TokenShape(x, co);
    TokenOutcome(x, co);
    if co in x.rt.live && x.frames[co].Waiting? {
      WakersObserve(x.frames, x.futs, x.rt.fired, x.rt.tokens, x.left, co);
    }
  }

  lemma TokenFrame(x: Fx, co: CoId)
    requires Control(x.rt, x.running, x.frames) && co in x.rt.tokens
    ensures co in x.frames && (co in x.rt.live <==> !x.frames[co].Ended?)
  {
    assert co < x.rt.next;
  }

  lemma TokenOutcome(x: Fx, co: CoId)
    requires Calls(x.frames, x.futs) && Enabled(x, EvToken(co)) && co in x.frames
    ensures var t := DoToken(x, co);
      && t.left == x.left
      && |t.futs| == |x.futs| && (forall f: FutId :: f < |x.futs| ==> t.futs[f].value == x.futs[f].value)
      && (co in x.rt.live && x.frames[co].Waiting? ==>
            && x.frames[co].call.fut < |x.futs|
            && var f := x.frames[co];
               co in t.frames && t.frames[co] == Observe(f.call, x.futs[f.call.fut].value, f.clean, f.expired))
      && (co in x.rt.live && !x.frames[co].Waiting? ==> t.frames == x.frames)
  {
    hide Take, Observe;
  }

  /** get_for answers with the default only when the clean wait's timer expired. */
  lemma WakersObserve(frames: map<CoId, Frame>, futs: seq<Fut>, fired: multiset<CoId>, tokens: multiset<CoId>, left: multiset<CoId>, co: CoId)
    requires Wakers(frames, futs, fired, tokens, left) && co in tokens && co in frames && frames[co].Waiting?
    requires frames[co].call.fut < |futs|
    ensures var f := frames[co]; var o := Observe(f.call, futs[f.call.fut].value, f.clean, f.expired);
      o.Leaving? && o.ending.Timeout? && o.ending.clean ==> o.ending.expired
  {
  }

  lemma WakersOfPost(x: Fx)
    requires Calls(x.frames, x.futs) && Registry(x.frames, x.futs, x.pmss) && SetterOk(x.setter, x.futs, x.pmss)
    requires Wakers(x.frames, x.futs, x.rt.fired, x.rt.tokens, x.left)
    requires Enabled(x, EvPost)
    ensures var t := DoPost(x); Wakers(t.frames, t.futs, t.rt.fired, t.rt.tokens, t.left)
  {
    assert InFlight(x.frames, x.futs, x.setter.fut);
    hide Registry;
  }

  lemma WakersOfTimer(x: Fx, e: Event)
    requires Control(x.rt, x.running, x.frames) && Calls(x.frames, x.futs)
    requires Wakers(x.frames, x.futs, x.rt.fired, x.rt.tokens, x.left)
    requires Enabled(x, e) && (e.EvExpire? || e.EvFired? || e.EvForeign? || e.EvComplete? || e.EvCancelled?)
    ensures var t := Step(x, e); Wakers(t.frames, t.futs, t.rt.fired, t.rt.tokens, t.left)
  {
    hide RtInv;
  }

  lemma WakersOfSpawn(x: Fx)
    requires Control(x.rt, x.running, x.frames) && Wakers(x.frames, x.futs, x.rt.fired, x.rt.tokens, x.left)
    ensures var t := DoSpawn(x); Wakers(t.frames, t.futs, t.rt.fired, t.rt.tokens, t.left)
  {
    hide RtInv;
  }

  lemma WakersOfYield(x: Fx, e: Event)
    requires Control(x.rt, x.running, x.frames) && Calls(x.frames, x.futs)
    requires Wakers(x.frames, x.futs, x.rt.fired, x.rt.tokens, x.left)
    requires Enabled(x, e) && (e.EvGetFor? || e.EvYield? || e.EvEnd? || e.EvExit? || e.EvStore? || e.EvRegister? || e.EvStart?)
    ensures var t := Step(x, e); Wakers(t.frames, t.futs, t.rt.fired, t.rt.tokens, t.left)
  {
    hide RtInv;
  }

  lemma WakersOfStep(x: Fx, e: Event)
    requires FxInv(x) && Enabled(x, e)
    ensures var t := Step(x, e); Wakers(t.frames, t.futs, t.rt.fired, t.rt.tokens, t.left)
  {
    hide Control, Calls, Registry, SetterOk, Awake, Values, Passes, Wakers;
    match e
    case EvToken(co) => WakersOfToken(x, co);
    case EvPost => WakersOfPost(x);
    case EvSpawn => WakersOfSpawn(x);
    case EvExpire(_) => WakersOfTimer(x, e);
    case EvFired(_) => WakersOfTimer(x, e);
    case EvForeign(_) => WakersOfTimer(x, e);
    case EvComplete(_) => WakersOfTimer(x, e);
    case EvCancelled(_) => WakersOfTimer(x, e);
    case _ => WakersOfYield(x, e);
  }

  // ---------------------------------------------------------------------
  // Every run
  // ---------------------------------------------------------------------

  lemma NextInv(x: Fx, e: Event)
    requires FxInv(x) && Enabled(x, e)
    ensures FxInv(Next(x, e))
  {
    hide Control, Calls, Registry, SetterOk, Awake, Values, Passes, Wakers, Step;
    ControlOfStep(x, e);
    CallsAndRegistry(x, e);
    SetterKept(x, e);
    AwakeOfStep(x, e);
    ValuesOfStep(x, e);
    if e.EvToken? {
      PassesOfToken(x, e.co);
      assert Step(x, e) == DoToken(x, e.co) by { StepOfToken(x, e.co); }
    } else {
      PassesOfOther(x, e);
    }
    WakersOfStep(x, e);
    OwnedStep(x, e);
  }

  lemma OwnedStep(x: Fx, e: Event)
    requires FxInv(x) && Enabled(x, e)
    ensures Owned(Step(x, e).frames, Step(x, e).left)
  {
    if !e.EvRegister? && !e.EvExit? {
      CallsOfStep(x, e);
    }
    hide Control, Calls, Registry, SetterOk, Awake, Values, Passes, Wakers;
    LeftGrows(x, e);
  }

  lemma LeftGrows(x: Fx, e: Event)
    requires Enabled(x, e)
    ensures forall c: CoId :: c in Step(x, e).left ==> c in x.left || (e == EvStart(c) && c in x.frames)
    ensures e.EvRegister? || e.EvExit? ==> x.frames.Keys <= Step(x, e).frames.Keys
  {
    hide Take, Expire, Arm, Finish, RunFired, RunCancelled, Post, Spawn, Observe, MarkExpired, MarkDisturbed;
  }

  lemma StepOfToken(x: Fx, co: CoId)
    requires Enabled(x, EvToken(co))
    ensures co in x.rt.tokens && Step(x, EvToken(co)) == DoToken(x, co)
  {
  }

  lemma {:induction false} RunKeepsInv(x: Fx, es: seq<Event>)
    requires FxInv(x) && Feasible(x, es)
    ensures FxInv(Exec(x, es))
    decreases |es|
  {
    hide FxInv;
    if es != [] {
      NextInv(x, es[0]);
      RunKeepsInv(Next(x, es[0]), es[1..]);
    }
  }
}
