/**
 The cooperative scheduler of src/schedule.cpp over one io thread.

 `Rt` is the scheduler as a value; the class `Schedule` is the object the
 source has, each of whose methods is proved against a function on `Rt`.
 The io queue is a multiset: nothing below depends on the order in which
 the io thread picks its items.
 */
module Runtime {

  type CoId = nat

  /** The source's state: the next fresh coroutine, `cos_`, the items in the
      io queue by kind and owner (resume tokens posted by Schedule::resume,
      handlers of expired timers, handlers of cancelled timers), and the
      coroutines whose timer has a pending wait.
      The last four are history: coroutines whose body returned (for which
      `ps_` is false), and every token posted, turned into a resume, or found
      with a dead weak reference. */
  datatype Rt = Rt(
    next: CoId,
    live: set<CoId>,
    tokens: multiset<CoId>,
    fired: multiset<CoId>,
    cancelled: multiset<CoId>,
    armed: set<CoId>,
    finished: set<CoId>,
    posted: multiset<CoId>,
    resumed: multiset<CoId>,
    dropped: multiset<CoId>)

  const EMPTY := Rt(0, {}, multiset{}, multiset{}, multiset{}, {}, {}, multiset{}, multiset{}, multiset{})

  // ---------------------------------------------------------------------
  // Elementary effects
  // ---------------------------------------------------------------------

  /** Schedule::resume: only posts. */
  function Post(r: Rt, co: CoId): Rt {
    r.(tokens := r.tokens + multiset{co}, posted := r.posted + multiset{co})
  }

  /** Schedule::spawn: insert into cos_, then resume. */
  function Spawn(r: Rt): Rt {
    Post(r.(next := r.next + 1, live := r.live + {r.next}), r.next)
  }

  /** steady_timer::cancel: a pending wait is queued with operation_aborted;
      a wait that already expired is in the queue and out of reach. */
  function CancelTimer(r: Rt, co: CoId): Rt {
    if co in r.armed
    then r.(armed := r.armed - {co}, cancelled := r.cancelled + multiset{co})
    else r
  }

  /** The first half of Coroutine::yield_for: expires_from_now cancels a
      pending wait, async_wait starts a new one. */
  function Arm(r: Rt, co: CoId): Rt {
    var c := CancelTimer(r, co);
    c.(armed := c.armed + {co})
  }

  /** The timer of `co` expires: its handler is queued without an error. */
  function Expire(r: Rt, co: CoId): Rt
    requires co in r.armed
  {
    r.(armed := r.armed - {co}, fired := r.fired + multiset{co})
  }

  /** The handler of an expired timer runs: it posts a token. */
  function RunFired(r: Rt, co: CoId): Rt
    requires co in r.fired
  {
    Post(r.(fired := r.fired[co := r.fired[co] - 1]), co)
  }

  /** The handler of a cancelled timer runs: it returns at once. */
  function RunCancelled(r: Rt, co: CoId): Rt
    requires co in r.cancelled
  {
    r.(cancelled := r.cancelled[co := r.cancelled[co] - 1])
  }

  /** A token leaves the queue for a coroutine in cos_, or for none. */
  function Resumed(r: Rt, co: CoId): Rt
    requires co in r.tokens
  {
    r.(tokens := r.tokens[co := r.tokens[co] - 1], resumed := r.resumed + multiset{co})
  }

  function Dropped(r: Rt, co: CoId): Rt
    requires co in r.tokens
  {
    r.(tokens := r.tokens[co := r.tokens[co] - 1], dropped := r.dropped + multiset{co})
  }

  /** A resume token runs, up to the point where the coroutine has control.
      The weak reference locks exactly when `co` is in cos_. */
  function Take(r: Rt, co: CoId): Rt
    requires co in r.tokens
  {
    if co in r.live then CancelTimer(Resumed(r, co), co) else Dropped(r, co)
  }

  /** The body returned: Coroutine::resume answers true, cos_ drops `co`. */
  function Finish(r: Rt, co: CoId): Rt {
    r.(live := r.live - {co}, finished := r.finished + {co})
  }

  // ---------------------------------------------------------------------
  // One token and an arbitrary coroutine body
  // ---------------------------------------------------------------------

  /** What a body may do to the scheduler between two of its yields. */
  datatype Act = ActSpawn | ActPost(co: CoId)

  /** How a body gives control back. */
  datatype Leave = Yields | YieldsFor | Returns

  function PerformOne(r: Rt, a: Act): Rt {
    match a
    case ActSpawn => Spawn(r)
    case ActPost(co) => Post(r, co)
  }

  function Perform(r: Rt, acts: seq<Act>): Rt {
    if acts == [] then r
    else PerformOne(Perform(r, acts[..|acts|-1]), acts[|acts|-1])
  }

  function DoLeave(r: Rt, co: CoId, leave: Leave): Rt {
    match leave
    case Yields => r
    case YieldsFor => Arm(r, co)
    case Returns => Finish(r, co)
  }

  /** One token, run to completion: the lambda posted by Schedule::resume. */
  function RunToken(r: Rt, co: CoId, acts: seq<Act>, leave: Leave): Rt
    requires co in r.tokens
  {
    if co in r.live
    then DoLeave(Perform(Take(r, co), acts), co, leave)
    else Take(r, co)
  }

  /** References handed to resume() were obtained from a spawned coroutine. */
  predicate ActsKnown(r: Rt, acts: seq<Act>) {
    forall a :: a in acts && a.ActPost? ==> a.co < r.next
  }

  // ---------------------------------------------------------------------
  // The invariant
  // ---------------------------------------------------------------------

  /** cos_ holds exactly the spawned coroutines whose body has not returned. */
  ghost predicate Membership(r: Rt) {
    && r.live !! r.finished
    && r.armed <= r.live
    && forall c: CoId :: c < r.next <==> (c in r.live || c in r.finished)
  }

  /** Every token ever posted is queued, became a resume, or was dropped. */
  ghost predicate Conserved(r: Rt) {
    forall c: CoId :: r.posted[c] == r.tokens[c] + r.resumed[c] + r.dropped[c]
  }

  /** Tokens are dropped only for finished coroutines, every finished one ran,
      and a coroutine not yet started has a token queued. */
  ghost predicate NoneForgotten(r: Rt) {
    && (forall c: CoId :: c in r.dropped ==> c in r.finished)
    && (forall c: CoId :: c in r.live && c !in r.resumed ==> c in r.tokens)
    && (forall c: CoId :: c in r.finished ==> c in r.resumed)
  }

  /** Nothing refers to a coroutine that does not exist yet. */
  ghost predicate Known(r: Rt) {
    && (forall c: CoId :: c in r.tokens || c in r.fired || c in r.cancelled ==> c < r.next)
    && (forall c: CoId :: c in r.resumed ==> c < r.next)
  }

  ghost predicate RtInv(r: Rt) {
    Membership(r) && Conserved(r) && NoneForgotten(r) && Known(r)
  }

  lemma InvInit()
    ensures RtInv(EMPTY) && RtInv(Spawn(EMPTY))
    ensures Spawn(EMPTY).armed == {} && Spawn(EMPTY).next == 1 && Spawn(EMPTY).finished == {} && Spawn(EMPTY).live == {0}
  {
    InvSpawn(EMPTY);
  }

  lemma InvPost(r: Rt, co: CoId)
    requires RtInv(r) && co < r.next
    ensures RtInv(Post(r, co))
  {
  }

  lemma InvSpawn(r: Rt)
    requires RtInv(r)
    ensures RtInv(Spawn(r))
  {
  }

  lemma InvCancelTimer(r: Rt, co: CoId)
    requires RtInv(r)
    ensures RtInv(CancelTimer(r, co))
  {
  }

  lemma InvArm(r: Rt, co: CoId)
    requires RtInv(r) && co in r.live
    ensures RtInv(Arm(r, co))
  {
    InvCancelTimer(r, co);
  }

  lemma ArmEffect(r: Rt, co: CoId)
    requires RtInv(r) && co in r.live
    ensures var a := Arm(r, co);
      && RtInv(a)
      && a.next == r.next && a.live == r.live && a.resumed == r.resumed
      && a.tokens == r.tokens && a.fired == r.fired
  {
    InvArm(r, co);
    hide RtInv;
  }

  lemma InvExpire(r: Rt, co: CoId)
    requires RtInv(r) && co in r.armed
    ensures RtInv(Expire(r, co))
  {
  }

  lemma InvRunFired(r: Rt, co: CoId)
    requires RtInv(r) && co in r.fired
    ensures RtInv(RunFired(r, co))
  {
    InvPost(r.(fired := r.fired[co := r.fired[co] - 1]), co);
  }

  lemma InvRunCancelled(r: Rt, co: CoId)
    requires RtInv(r) && co in r.cancelled
    ensures RtInv(RunCancelled(r, co))
  {
  }

  lemma InvResumed(r: Rt, co: CoId)
    requires RtInv(r) && co in r.tokens && co in r.live
    ensures RtInv(Resumed(r, co))
  {
    var q := Resumed(r, co);
    assert NoneForgotten(q);
  }

  lemma InvDropped(r: Rt, co: CoId)
    requires RtInv(r) && co in r.tokens && co !in r.live
    ensures RtInv(Dropped(r, co))
  {
    var q := Dropped(r, co);
    assert NoneForgotten(q);
  }

  lemma InvTake(r: Rt, co: CoId)
    requires RtInv(r) && co in r.tokens
    ensures RtInv(Take(r, co))
  {
    if co in r.live {
      InvResumed(r, co);
      InvCancelTimer(Resumed(r, co), co);
    } else {
      InvDropped(r, co);
    }
  }

  lemma TakeEffect(r: Rt, co: CoId)
    requires RtInv(r) && co in r.tokens
    ensures var t := Take(r, co);
      && t.finished == r.finished && t.live == r.live && t.next == r.next
      && (co in r.live ==> co !in t.armed && co in t.resumed)
      && (co !in r.live ==> t.armed == r.armed && t.resumed == r.resumed)
      && t.fired == r.fired && t.tokens == r.tokens[co := r.tokens[co] - 1]
  {
    hide RtInv;
  }

  lemma InvFinish(r: Rt, co: CoId)
    requires RtInv(r) && co in r.live && co !in r.armed && co in r.resumed
    ensures RtInv(Finish(r, co))
  {
  }

  lemma {:induction false} InvPerform(r: Rt, acts: seq<Act>)
    requires RtInv(r) && ActsKnown(r, acts)
    ensures RtInv(Perform(r, acts))
    ensures var p := Perform(r, acts);
      && p.next >= r.next && p.live >= r.live && p.finished == r.finished
      && p.armed == r.armed && p.resumed == r.resumed
  {
    if acts != [] {
      var init, last := acts[..|acts|-1], acts[|acts|-1];
      InvPerform(r, init);
      var p := Perform(r, init);
      match last
      case ActSpawn => InvSpawn(p);
      case ActPost(co) =>
        assert last in acts;
        InvPost(p, co);
    }
  }

  lemma InvRunToken(r: Rt, co: CoId, acts: seq<Act>, leave: Leave)
    requires RtInv(r) && co in r.tokens && ActsKnown(r, acts)
    ensures var n := RunToken(r, co, acts, leave);
      RtInv(n) && forall c :: c in r.finished ==> c in n.finished && n.resumed[c] == r.resumed[c]
  {
    InvTake(r, co);
    TakeEffect(r, co);
    if co in r.live {
      var t := Take(r, co);
      InvPerform(t, acts);
      var p := Perform(t, acts);
      match leave
      case Yields =>
      case YieldsFor => InvArm(p, co);
      case Returns => InvFinish(p, co);
    }
  }

  // ---------------------------------------------------------------------
  // The object
  // ---------------------------------------------------------------------

  /** Schedule together with the io_service queue and the coroutines' timers. */
  class Schedule {
    var next: CoId
    var cos: set<CoId>
    var tokens: multiset<CoId>
    var fired: multiset<CoId>
    var cancelled: multiset<CoId>
    var armed: set<CoId>
    ghost var finished: set<CoId>
    ghost var posted: multiset<CoId>
    ghost var resumed: multiset<CoId>
    ghost var dropped: multiset<CoId>

    ghost function View(): Rt
      reads this
    {
      Rt(next, cos, tokens, fired, cancelled, armed, finished, posted, resumed, dropped)
    }

    constructor ()
      ensures View() == EMPTY
    {
      next, cos, armed := 0, {}, {};
      tokens, fired, cancelled := multiset{}, multiset{}, multiset{};
      finished, posted, resumed, dropped := {}, multiset{}, multiset{}, multiset{};
    }

    method Resume(co: CoId)
      modifies this
      ensures View() == Post(old(View()), co)
    {
      tokens := tokens + multiset{co};
      posted := posted + multiset{co};
    }

    method SpawnCo() returns (co: CoId)
      modifies this
      ensures co == old(next) && View() == Spawn(old(View()))
    {
      co := next;
      next := next + 1;
      cos := cos + {co};
      Resume(co);
    }

    /** Coroutine::resume up to `ps_()`, behind the weak lock. */
    method BeginToken(co: CoId) returns (alive: bool)
      requires co in tokens
      modifies this
      ensures alive == (co in old(cos)) && View() == Take(old(View()), co)
    {
      tokens := tokens[co := tokens[co] - 1];
      alive := co in cos;
      if alive {
        CancelWait(co);
        resumed := resumed + multiset{co};
      } else {
        dropped := dropped + multiset{co};
      }
    }

    method CancelWait(co: CoId)
      modifies this
      ensures View() == CancelTimer(old(View()), co)
    {
      if co in armed {
        armed := armed - {co};
        cancelled := cancelled + multiset{co};
      }
    }

    /** Coroutine::yield_for up to the yield itself. */
    method YieldFor(co: CoId)
      modifies this
      ensures View() == Arm(old(View()), co)
    {
      CancelWait(co);
      armed := armed + {co};
    }

    /** The body returned: erase from cos_. */
    method Erase(co: CoId)
      modifies this
      ensures View() == Finish(old(View()), co)
    {
      cos := cos - {co};
      finished := finished + {co};
    }

    /** The timer handler, run with or without an error code. */
    method TimerHandler(co: CoId, aborted: bool)
      requires co in if aborted then cancelled else fired
      modifies this
      ensures View() == if aborted then RunCancelled(old(View()), co) else RunFired(old(View()), co)
    {
      if aborted {
        cancelled := cancelled[co := cancelled[co] - 1];
        return;
      }
      fired := fired[co := fired[co] - 1];
      Resume(co);
    }

    /** One whole token with the body's actions given by a script. */
    method RunItem(co: CoId, acts: seq<Act>, leave: Leave)
      requires co in tokens
      modifies this
      ensures View() == RunToken(old(View()), co, acts, leave)
    {
      var alive := BeginToken(co);
      if !alive {
        return;
      }
      ghost var began := View();
      for i := 0 to |acts|
        invariant View() == Perform(began, acts[..i])
      {
        assert acts[..i+1][..i] == acts[..i];
        match acts[i]
        case ActSpawn => var _ := SpawnCo();
        case ActPost(c) => Resume(c);
      }
      assert acts[..|acts|] == acts;
      match leave
      case Yields =>
      case YieldsFor => YieldFor(co);
      case Returns => Erase(co);
    }
  }
}
