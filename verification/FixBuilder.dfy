/**
 The request/response protocol of src/plugin/fix_client/fix_builder.cpp over
 include/future.hpp, between the io thread and the FIX thread.

 The io thread runs one coroutine at a time, from a token to its next yield;
 inside `create` that stretch is cut at every point where the FIX thread can
 be seen: the registration, the yield in get_for, the read of the value, and
 the scope exit. The FIX thread runs on_recv, cut between the store of the
 value and the post of the token; it holds pmss_mtx_ across both.
 */
module FixBuilder {
  import opened Wrappers
  import opened Runtime

  type SessionId = nat
  type FutId = nat

  /** A FIX message, by identity and MsgType. */
  datatype Msg = Msg(id: nat, msgType: string)

  const NEW_ORDER_SINGLE := "D"
  const EXECUTION_REPORT := "8"

  /** A response as on_recv stored it: where it came from and when. */
  datatype Delivery = Delivery(msg: Msg, session: SessionId, at: nat)

  /** detail::Future: the coroutine it wakes and its value. `session` and
      `registered` say which registration it serves; `seen` says whether the
      value now stored has been read. */
  datatype Fut = Fut(co: CoId, session: SessionId, registered: nat, value: Option<Delivery>, seen: bool)

  /** A call of create that has registered. `pass` counts the calls of get_for. */
  datatype Call = Call(fut: FutId, session: SessionId, request: Msg, pass: nat)

  /** How create ends: it returns a response, or throws TimeoutException; the
      latter remembers how the last wait began and whether its timer expired. */
  datatype Ending = Response(got: Delivery) | Timeout(clean: bool, expired: bool)

  /** Elsewhere is any point outside create. A Waiting coroutine is `clean` if it
      entered get_for with none of its own tokens or expired timers queued and
      no operation of an earlier wait outstanding, and nobody but futures, timers
      and completions has resumed it since; `expired` says that the timer this wait armed has expired. */
  datatype Frame =
    | Elsewhere
    | Ready(call: Call)
    | Waiting(call: Call, clean: bool, expired: bool)
    | Leaving(call: Call, ending: Ending)
    | Ended
  {
    predicate InCall() { Ready? || Waiting? || Leaving? }
  }

  /** The FIX thread inside on_recv: between the store and the post. */
  datatype Setter = Free | Stored(fut: FutId)

  /** `left` counts the operations that each coroutine started in earlier waits,
      such as reads and writes on sockets, and whose completion handlers have
      not run. A completion posts a token, whatever its coroutine does by then. */
  datatype Fx = Fx(
    rt: Rt,
    now: nat,
    running: Option<CoId>,
    frames: map<CoId, Frame>,
    futs: seq<Fut>,
    pmss: map<SessionId, FutId>,
    setter: Setter,
    left: multiset<CoId>)

  const START := Fx(EMPTY, 0, None, map[], [], map[], Free, multiset{})

  /** EvForeign: somebody resumes the coroutine who is neither a future nor a
      timer nor a completion. EvStart, EvComplete: an operation of a wait outside
      create. */
  datatype Event =
    | EvSpawn
    | EvForeign(co: CoId)
    | EvStart(co: CoId)
    | EvComplete(co: CoId)
    | EvExpire(co: CoId)
    | EvFired(co: CoId)
    | EvCancelled(co: CoId)
    | EvToken(co: CoId)
    | EvRegister(co: CoId, session: SessionId, request: Msg)
    | EvGetFor(co: CoId)
    | EvExit(co: CoId)
    | EvYield(co: CoId, timed: bool)
    | EvEnd(co: CoId)
    | EvStore(session: SessionId, msg: Msg)
    | EvPost

  // ---------------------------------------------------------------------
  // The io thread
  // ---------------------------------------------------------------------

  /** spawn, by the running coroutine or another thread. */
  function DoSpawn(x: Fx): Fx {
    x.(rt := Spawn(x.rt), frames := x.frames[x.rt.next := Elsewhere])
  }

  /** The timer of `co` expires. */
  function DoExpire(x: Fx, co: CoId): Fx
    requires co in x.rt.armed
  {
    x.(rt := Expire(x.rt, co), frames := MarkExpired(x.frames, co))
  }

  function DoForeign(x: Fx, co: CoId): Fx {
    x.(rt := Post(x.rt, co), frames := MarkDisturbed(x.frames, co))
  }

  function MarkDisturbed(frames: map<CoId, Frame>, co: CoId): map<CoId, Frame> {
    if co in frames && frames[co].Waiting? then frames[co := frames[co].(clean := false)] else frames
  }

  /** The handler of an operation of an earlier wait runs. */
  function DoComplete(x: Fx, co: CoId): Fx
    requires co in x.left
  {
    x.(rt := Post(x.rt, co), left := x.left[co := x.left[co] - 1])
  }

  function MarkExpired(frames: map<CoId, Frame>, co: CoId): map<CoId, Frame> {
    if co in frames && frames[co].Waiting? then frames[co := frames[co].(expired := true)] else frames
  }

  /** get_for came back: the loop in create decides. */
  function Observe(call: Call, value: Option<Delivery>, clean: bool, expired: bool): Frame {
    match value
    case None => Leaving(call, Timeout(clean, expired))
    case Some(d) =>
      if call.request.msgType == NEW_ORDER_SINGLE && d.msg.msgType == EXECUTION_REPORT
      then Leaving(call, Response(d))
      else Ready(call.(pass := call.pass + 1))
  }

  /** A token runs: the coroutine, if it is still in cos_, gets control; when
      it was waiting in get_for it reads the value. */
  function DoToken(x: Fx, co: CoId): Fx
    requires co in x.rt.tokens
  {
    var t := x.(rt := Take(x.rt, co));
    if co !in x.rt.live || co !in x.frames then t
    else if x.frames[co].Waiting? && x.frames[co].call.fut < |x.futs| then
      var f, fut := x.frames[co], x.futs[x.frames[co].call.fut];
      t.(running := Some(co),
         frames := x.frames[co := Observe(f.call, fut.value, f.clean, f.expired)],
         futs := x.futs[f.call.fut := fut.(seen := true)])
    else t.(running := Some(co))
  }

  /** create registers its promise: insert_or_assign under the lock. */
  function DoRegister(x: Fx, co: CoId, session: SessionId, request: Msg): Fx {
    x.(futs := x.futs + [Fut(co, session, x.now, None, false)],
       pmss := x.pmss[session := |x.futs|],
       frames := x.frames[co := Ready(Call(|x.futs|, session, request, 1))])
  }

  /** get_for arms the timer and yields. */
  function DoGetFor(x: Fx, co: CoId): Fx
    requires co in x.frames && x.frames[co].Ready?
  {
    var clean := x.rt.tokens[co] == 0 && x.rt.fired[co] == 0 && x.left[co] == 0;
    x.(rt := Arm(x.rt, co), running := None,
       frames := x.frames[co := Waiting(x.frames[co].call, clean, false)])
  }

  /** The scope exit: erase the session's entry, whoever registered it. */
  function DoExit(x: Fx, co: CoId): Fx
    requires co in x.frames && x.frames[co].Leaving?
  {
    x.(pmss := x.pmss - {x.frames[co].call.session}, frames := x.frames[co := Elsewhere])
  }

  /** The coroutine yields, or yields with a timer, outside create. */
  function DoYield(x: Fx, co: CoId, timed: bool): Fx {
    x.(rt := if timed then Arm(x.rt, co) else x.rt, running := None)
  }

  function DoEnd(x: Fx, co: CoId): Fx {
    x.(rt := Finish(x.rt, co), running := None, frames := x.frames[co := Ended])
  }

  // ---------------------------------------------------------------------
  // The FIX thread: on_recv
  // ---------------------------------------------------------------------

  /** Lock, find the session, store the response; nothing for an unknown one. */
  function DoStore(x: Fx, session: SessionId, msg: Msg): Fx {
    if session in x.pmss && x.pmss[session] < |x.futs| then
      var f := x.pmss[session];
      x.(futs := x.futs[f := x.futs[f].(value := Some(Delivery(msg, session, x.now)), seen := false)],
         setter := Stored(f))
    else x
  }

  /** Future::set resumes the coroutine, on_recv unlocks. */
  function DoPost(x: Fx): Fx
    requires x.setter.Stored? && x.setter.fut < |x.futs|
  {
    x.(rt := Post(x.rt, x.futs[x.setter.fut].co), setter := Free)
  }

  // ---------------------------------------------------------------------
  // Steps and runs
  // ---------------------------------------------------------------------

  predicate Runs(x: Fx, co: CoId) {
    x.running == Some(co) && co in x.frames
  }

  /** Items of the io queue run only when no coroutine has control. */
  predicate Enabled(x: Fx, e: Event) {
    match e
    case EvSpawn => true
    case EvForeign(co) => co in x.frames
    case EvStart(co) => Runs(x, co) && x.frames[co].Elsewhere?
    case EvComplete(co) => x.running == None && co in x.left
    case EvExpire(co) => co in x.rt.armed
    case EvFired(co) => x.running == None && co in x.rt.fired
    case EvCancelled(co) => x.running == None && co in x.rt.cancelled
    case EvToken(co) => x.running == None && co in x.rt.tokens
    case EvRegister(co, _, _) => Runs(x, co) && x.frames[co].Elsewhere? && x.setter.Free?
    case EvGetFor(co) => Runs(x, co) && x.frames[co].Ready?
    case EvExit(co) => Runs(x, co) && x.frames[co].Leaving? && x.setter.Free?
    case EvYield(co, _) => Runs(x, co) && x.frames[co].Elsewhere?
    case EvEnd(co) => Runs(x, co) && x.frames[co].Elsewhere?
    case EvStore(_, _) => x.setter.Free?
    case EvPost => x.setter.Stored? && x.setter.fut < |x.futs|
  }

  function Step(x: Fx, e: Event): Fx
    requires Enabled(x, e)
  {
    match e
    case EvSpawn => DoSpawn(x)
    case EvForeign(co) => DoForeign(x, co)
    case EvStart(co) => x.(left := x.left + multiset{co})
    case EvComplete(co) => DoComplete(x, co)
    case EvExpire(co) => DoExpire(x, co)
    case EvFired(co) => x.(rt := RunFired(x.rt, co))
    case EvCancelled(co) => x.(rt := RunCancelled(x.rt, co))
    case EvToken(co) => DoToken(x, co)
    case EvRegister(co, session, request) => DoRegister(x, co, session, request)
    case EvGetFor(co) => DoGetFor(x, co)
    case EvExit(co) => DoExit(x, co)
    case EvYield(co, timed) => DoYield(x, co, timed)
    case EvEnd(co) => DoEnd(x, co)
    case EvStore(session, msg) => DoStore(x, session, msg)
    case EvPost => DoPost(x)
  }

  /** Every step takes time. */
  function Next(x: Fx, e: Event): Fx
    requires Enabled(x, e)
  {
    Step(x, e).(now := x.now + 1)
  }

  predicate Feasible(x: Fx, es: seq<Event>)
    decreases |es|
  {
    es == [] || (Enabled(x, es[0]) && Feasible(Next(x, es[0]), es[1..]))
  }

  function Exec(x: Fx, es: seq<Event>): Fx
    requires Feasible(x, es)
    decreases |es|
  {
    if es == [] then x else Exec(Next(x, es[0]), es[1..])
  }

  // ---------------------------------------------------------------------
  // The object
  // ---------------------------------------------------------------------

  /** FixBuilder with its futures, and the frames of the coroutines that call
      it. Each method is one uninterrupted stretch of create, get_for, set or
      on_recv; its precondition is the point the thread has reached. */
  class FixBuilder {
    const sched: Schedule
    var running: Option<CoId>
    var frames: map<CoId, Frame>
    var futs: seq<Fut>
    var pmss: map<SessionId, FutId>
    var setter: Setter
    var left: multiset<CoId>
    var now: nat

    ghost function View(): Fx
      reads this, sched
    {
      Fx(sched.View(), now, running, frames, futs, pmss, setter, left)
    }

    constructor (sched: Schedule)
      requires sched.View() == EMPTY
      ensures View() == START && this.sched == sched
    {
      this.sched := sched;
      running, frames, futs, pmss, setter, left, now := None, map[], [], map[], Free, multiset{}, 0;
    }

    /** create, from the promise to insert_or_assign under the lock. */
    method Register(co: CoId, session: SessionId, request: Msg)
      requires Enabled(View(), EvRegister(co, session, request))
      modifies this
      ensures View() == Next(old(View()), EvRegister(co, session, request))
    {
      var f := |futs|;
      futs := futs + [Fut(co, session, now, None, false)];
      pmss := pmss[session := f];
      frames := frames[co := Ready(Call(f, session, request, 1))];
      now := now + 1;
    }

    /** get_for up to the yield: arm the timer. */
    method GetFor(co: CoId)
      requires Enabled(View(), EvGetFor(co))
      modifies this, sched
      ensures View() == Next(old(View()), EvGetFor(co))
    {
      var clean := sched.tokens[co] == 0 && sched.fired[co] == 0 && left[co] == 0;
      sched.YieldFor(co);
      frames := frames[co := Waiting(frames[co].call, clean, false)];
      running := None;
      now := now + 1;
    }

    /** get_for from the yield on: read the value; the loop of create returns,
        throws or goes round again. */
    method Observed(co: CoId)
      requires co in frames && frames[co].Waiting? && frames[co].call.fut < |futs|
      modifies this`futs, this`frames
      ensures var f := old(frames[co]); var fut := old(futs)[f.call.fut];
        && futs == old(futs)[f.call.fut := fut.(seen := true)]
        && frames == old(frames)[co := Observe(f.call, fut.value, f.clean, f.expired)]
    {
      var f := frames[co];
      var call, fut := f.call, futs[f.call.fut];
      futs := futs[call.fut := fut.(seen := true)];
      if fut.value.None? {
        frames := frames[co := Leaving(call, Timeout(f.clean, f.expired))];
      } else if call.request.msgType == NEW_ORDER_SINGLE && fut.value.value.msg.msgType == EXECUTION_REPORT {
        frames := frames[co := Leaving(call, Response(fut.value.value))];
      } else {
        frames := frames[co := Ready(call.(pass := call.pass + 1))];
      }
    }

    /** A token runs: Schedule's part, then, inside get_for, the future's. */
    method Resumed(co: CoId)
      requires Enabled(View(), EvToken(co))
      modifies this, sched
      ensures View() == Next(old(View()), EvToken(co))
    {
      hide Take, Observe;
      var alive := sched.BeginToken(co);
      now := now + 1;
      if alive && co in frames {
        running := Some(co);
        if frames[co].Waiting? && frames[co].call.fut < |futs| {
          Observed(co);
        }
      }
    }

    /** BOOST_SCOPE_EXIT in create: erase by session under the lock. */
    method ScopeExit(co: CoId) returns (ending: Ending)
      requires Enabled(View(), EvExit(co))
      modifies this
      ensures View() == Next(old(View()), EvExit(co)) && ending == old(frames)[co].ending
    {
      var call := frames[co].call;
      ending := frames[co].ending;
      pmss := pmss - {call.session};
      frames := frames[co := Elsewhere];
      now := now + 1;
    }

    /** on_recv on the FIX thread: lock, find, store. */
    method OnRecv(session: SessionId, msg: Msg) returns (found: bool)
      requires Enabled(View(), EvStore(session, msg))
      modifies this
      ensures View() == Next(old(View()), EvStore(session, msg))
      ensures found ==> setter.Stored?
    {
      found := session in pmss && pmss[session] < |futs|;
      if found {
        var f := pmss[session];
        futs := futs[f := futs[f].(value := Some(Delivery(msg, session, now)), seen := false)];
        setter := Stored(f);
      }
      now := now + 1;
    }

    /** The second half of Future::set, then the unlock. */
    method WakeUp()
      requires Enabled(View(), EvPost)
      modifies this, sched
      ensures View() == Next(old(View()), EvPost)
    {
      sched.Resume(futs[setter.fut].co);
      setter := Free;
      now := now + 1;
    }
  }
}
