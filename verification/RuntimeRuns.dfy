/**
 Every run of the scheduler, whatever the coroutine bodies do: conservation of
 resume tokens, and the life of a coroutine in cos_.
 */
module RuntimeRuns {
  import opened Runtime

  /** One step of the world. A body is not fixed: every event of a coroutine
      may carry any actions, so a run ranges over all bodies. */
  datatype Event =
    | EvSpawn
    | EvPost(co: CoId)
    | EvToken(co: CoId, acts: seq<Act>, leave: Leave)
    | EvFired(co: CoId)
    | EvCancelled(co: CoId)
    | EvExpire(co: CoId)

  predicate Enabled(r: Rt, e: Event) {
    match e
    case EvSpawn => true
    case EvPost(co) => co < r.next
    case EvToken(co, acts, _) => co in r.tokens && ActsKnown(r, acts)
    case EvFired(co) => co in r.fired
    case EvCancelled(co) => co in r.cancelled
    case EvExpire(co) => co in r.armed
  }

  function Next(r: Rt, e: Event): Rt
    requires Enabled(r, e)
  {
    match e
    case EvSpawn => Spawn(r)
    case EvPost(co) => Post(r, co)
    case EvToken(co, acts, leave) => RunToken(r, co, acts, leave)
    case EvFired(co) => RunFired(r, co)
    case EvCancelled(co) => RunCancelled(r, co)
    case EvExpire(co) => Expire(r, co)
  }

  predicate Feasible(r: Rt, es: seq<Event>)
    decreases |es|
  {
    es == [] || (Enabled(r, es[0]) && Feasible(Next(r, es[0]), es[1..]))
  }

  function Exec(r: Rt, es: seq<Event>): Rt
    requires Feasible(r, es)
    decreases |es|
  {
    if es == [] then r else Exec(Next(r, es[0]), es[1..])
  }

  lemma InvNext(r: Rt, e: Event)
    requires RtInv(r) && Enabled(r, e)
    ensures RtInv(Next(r, e))
    ensures forall c :: c in r.finished ==> c in Next(r, e).finished && Next(r, e).resumed[c] == r.resumed[c]
  {
    match e
    case EvSpawn => InvSpawn(r);
    case EvPost(co) => InvPost(r, co);
    case EvFired(co) => InvRunFired(r, co);
    case EvCancelled(co) =>
    case EvExpire(co) => InvExpire(r, co);
    case EvToken(co, acts, leave) => InvRunToken(r, co, acts, leave);
  }

  // ---------------------------------------------------------------------
  // Main results: every run of every set of bodies
  // ---------------------------------------------------------------------

  /** Conservation and liveness over every run. */
  lemma {:induction false} RunKeepsInv(r: Rt, es: seq<Event>)
    requires RtInv(r) && Feasible(r, es)
    ensures RtInv(Exec(r, es))
    ensures forall c :: c in r.finished ==> c in Exec(r, es).finished && Exec(r, es).resumed[c] == r.resumed[c]
    decreases |es|
  {
    if es != [] {
      InvNext(r, es[0]);
      RunKeepsInv(Next(r, es[0]), es[1..]);
    }
  }

  /** Tokens posted = queued + resumes + dropped, for every coroutine, in
      every state the scheduler can reach. */
  lemma TokenConservation(es: seq<Event>, c: CoId)
    requires Feasible(EMPTY, es)
    ensures var r := Exec(EMPTY, es);
      && r.posted[c] == r.tokens[c] + r.resumed[c] + r.dropped[c]
      && (c in r.live <==> c < r.next && c !in r.finished)
      && (r.dropped[c] > 0 ==> c in r.finished)
      && (c in r.live && r.resumed[c] == 0 ==> r.tokens[c] > 0)
  {
    RunKeepsInv(EMPTY, es);
  }

  /** `assert(ps_)` in Coroutine::resume never fails: however many extra
      tokens are queued, a coroutine whose body returned is never resumed
      again, in any continuation. */
  lemma FinishedIsNeverResumed(es: seq<Event>, more: seq<Event>, c: CoId)
    requires Feasible(EMPTY, es) && c in Exec(EMPTY, es).finished
    requires Feasible(Exec(EMPTY, es), more)
    ensures var r := Exec(EMPTY, es);
      Exec(r, more).resumed[c] == r.resumed[c] && c !in Exec(r, more).live
  {
    RunKeepsInv(EMPTY, es);
    RunKeepsInv(Exec(EMPTY, es), more);
  }

  // ---------------------------------------------------------------------
  // What one token does
  // ---------------------------------------------------------------------

  function PostsTo(acts: seq<Act>, c: CoId): nat {
    if acts == [] then 0 else (if acts[0] == ActPost(c) then 1 else 0) + PostsTo(acts[1..], c)
  }

  function Spawns(acts: seq<Act>): nat {
    if acts == [] then 0 else (if acts[0] == ActSpawn then 1 else 0) + Spawns(acts[1..])
  }

  lemma {:induction false} CountSnoc(acts: seq<Act>, last: Act, c: CoId)
    ensures PostsTo(acts + [last], c) == PostsTo(acts, c) + if last == ActPost(c) then 1 else 0
    ensures Spawns(acts + [last]) == Spawns(acts) + if last == ActSpawn then 1 else 0
  {
    if acts == [] {
      assert acts + [last] == [last] && [last][1..] == [];
    } else {
      assert (acts + [last])[1..] == acts[1..] + [last];
      CountSnoc(acts[1..], last, c);
    }
  }

  lemma {:induction false} PerformCounts(r: Rt, acts: seq<Act>, c: CoId)
    requires c < r.next
    ensures var p := Perform(r, acts);
      && p.tokens[c] == r.tokens[c] + PostsTo(acts, c) && p.next == r.next + Spawns(acts)
      && p.armed == r.armed && p.resumed == r.resumed && p.finished == r.finished && (c in p.live <==> c in r.live)
  {
    if acts != [] {
      var init, last := acts[..|acts|-1], acts[|acts|-1];
      PerformCounts(r, init, c);
      CountSnoc(init, last, c);
      assert acts == init + [last];
    }
  }

  /** One token of a live coroutine, whatever its body does: it is resumed once;
      its timer is armed afterwards exactly if it yielded with one; it is over
      exactly if its body returned; and everybody's tokens are those it had,
      less the one that ran, plus those the body posted. */
  lemma OneToken(es: seq<Event>, co: CoId, acts: seq<Act>, leave: Leave, c: CoId)
    requires Feasible(EMPTY, es) && Enabled(Exec(EMPTY, es), EvToken(co, acts, leave))
    requires co in Exec(EMPTY, es).live && c < Exec(EMPTY, es).next
    ensures var r := Exec(EMPTY, es); var n := Next(r, EvToken(co, acts, leave));
      && n.resumed[co] == r.resumed[co] + 1
      && (co in n.armed <==> leave == YieldsFor) && (c != co ==> (c in n.armed <==> c in r.armed))
      && (co in n.live <==> leave != Returns) && (co in n.finished <==> leave == Returns)
      && n.tokens[c] == r.tokens[c] - (if c == co then 1 else 0) + PostsTo(acts, c)
      && n.next == r.next + Spawns(acts)
  {
    RunKeepsInv(EMPTY, es);
    var r := Exec(EMPTY, es);
    TokenStep(r, co, acts, leave, c);
  }

  lemma TokenStep(r: Rt, co: CoId, acts: seq<Act>, leave: Leave, c: CoId)
    requires RtInv(r) && co in r.tokens && co in r.live && c < r.next
    ensures var n := RunToken(r, co, acts, leave);
      && n.resumed[co] == r.resumed[co] + 1
      && (co in n.armed <==> leave == YieldsFor) && (c != co ==> (c in n.armed <==> c in r.armed))
      && (co in n.live <==> leave != Returns) && (co in n.finished <==> leave == Returns)
      && n.tokens[c] == r.tokens[c] - (if c == co then 1 else 0) + PostsTo(acts, c)
      && n.next == r.next + Spawns(acts)
  {
    assert co < r.next && co !in r.finished;
    hide RtInv, Perform;
    PerformCounts(Take(r, co), acts, c);
    PerformCounts(Take(r, co), acts, co);
  }

  /** An armed timer resumes its coroutine: it can expire, its handler can run
      and the token can run, from every reachable state. */
  lemma TimerResumes(es: seq<Event>, co: CoId)
    requires Feasible(EMPTY, es) && co in Exec(EMPTY, es).armed
    ensures var r := Exec(EMPTY, es); var timer := [EvExpire(co), EvFired(co), EvToken(co, [], Yields)];
      Feasible(r, timer) && Exec(r, timer).resumed[co] == r.resumed[co] + 1
  {
    RunKeepsInv(EMPTY, es);
    hide RtInv, Feasible, Exec;
    TimerRun(Exec(EMPTY, es), co);
  }

  lemma TimerRun(r: Rt, co: CoId)
    requires RtInv(r) && co in r.armed
    ensures var timer := [EvExpire(co), EvFired(co), EvToken(co, [], Yields)];
      Feasible(r, timer) && Exec(r, timer).resumed[co] == r.resumed[co] + 1
  {
    TimerQueues(r, co);
    var r1 := Expire(r, co);
    var r2 := RunFired(r1, co);
    hide RtInv, Expire, RunFired, RunToken;
    TokenStep(r2, co, [], Yields, co);
    ThreeSteps(r, EvExpire(co), EvFired(co), EvToken(co, [], Yields));
  }

  lemma TimerQueues(r: Rt, co: CoId)
    requires RtInv(r) && co in r.armed
    ensures co in Expire(r, co).fired
    ensures var t := RunFired(Expire(r, co), co);
      RtInv(t) && co in t.tokens && co in t.live && co < t.next && t.resumed == r.resumed
  {
    assert co in r.live && co < r.next;
    InvExpire(r, co);
    InvRunFired(Expire(r, co), co);
    hide RtInv;
  }

  lemma ThreeSteps(r: Rt, a: Event, b: Event, c: Event)
    requires Enabled(r, a) && Enabled(Next(r, a), b) && Enabled(Next(Next(r, a), b), c)
    ensures Feasible(r, [a, b, c]) && Exec(r, [a, b, c]) == Next(Next(Next(r, a), b), c)
  {
    hide Enabled, Next;
    var r1, r2 := Next(r, a), Next(Next(r, a), b);
    assert [a, b, c][1..] == [b, c] && [b, c][1..] == [c] && [c][1..] == [];
    assert Feasible(Next(r2, c), []);
    assert Feasible(r2, [c]) && Exec(r2, [c]) == Next(r2, c);
    assert Feasible(r1, [b, c]) && Exec(r1, [b, c]) == Exec(r2, [c]);
  }
}
