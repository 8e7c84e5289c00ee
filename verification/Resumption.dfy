/**
 The coroutine resume protocol of `co::Routine`: leaving a stack, registering a wake-up in the
 post-leave step, waking through a `Runner`, and awaiting another coroutine through its
 `mContinuation`, for any number of coroutines, threads and futures.

 One step is one atomic operation of the library. Between two steps of a thread every other
 thread may take any number of its own.
 */
module Resumption {
  import opened Options
  import opened Stacks
  import opened Wakeups

  datatype State = State(k: Control, w: Wakes)
  {
    function Co(c: Cid): Coroutine { w.Co(c) }
    function TopCo(t: Tid): Cid requires k.Runs(t) || k.AfterBody(t) { k.Top(t).c }
    function TopPc(t: Tid): Pc requires k.Runs(t) || k.AfterBody(t) { w.Co(TopCo(t)).pc }
    /**
     Thread `t` runs code of the program: a body, code outside of all coroutines, or the destructors
     of a callable whose body is over or of what a detached coroutine leaves behind.
     */
    predicate InCode(t: Tid) { k.Open(t) && (k.AfterBody(t) ==> Destructing(TopPc(t))) }
    function WordOf(on: Target): Word { match on case AtFuture(f) => w.Fut(f) case AtRoutine(b) => w.Co(b).result }
  }

  predicate Destructing(pc: Pc) { pc.Unwinding? || pc.FinReturn? }

  const Init := State(Stacks.Init, Wakeups.Init)

  /** The atomic operations; every one belongs to a thread. */
  datatype Step =
    | Construct(t: Tid, c: Cid)      // Data::Data: mPull starts the body
    | LeaveForFuture(t: Tid, f: Fid) // Data::leave with the PostLeave of an await on a future
    | LeaveForJoin(t: Tid, b: Cid)   // Data::leave with the PostLeave of an await on a routine
    | FinishBody(t: Tid)             // end of the lambda of buildExecutor, up to its destruction
    | Wait(t: Tid, on: Target)       // suspend() in wait(), which blocks the thread if it succeeds
    | Unblock(t: Tid)                // wait() returns
    | SetFuture(t: Tid, f: Fid)      // the exchange in on_ready of a plain future
    | TakePosted(t: Tid, r: Runner)  // an io_context runs a posted runner
    | CallRunner(t: Tid)             // Runner::operator()
    | PostLeave(t: Tid)              // what comes next after a body: mPull() returns, or an operation of runPostLeave

  /** What callers of the library have to respect; an await leaves the body on top of its thread. */
  predicate Enabled(s: State, a: Step) {
    match a
    case Construct(t, c) => s.InCode(t) && s.Co(c) == Fresh
    case LeaveForFuture(t, f) => s.k.Runs(t)
    case LeaveForJoin(t, b) => s.k.Runs(t) && s.Co(b).published
    case FinishBody(t) => s.k.Runs(t)
    case Wait(t, on) =>
      && s.InCode(t) && !s.WordOf(on).Taken()
      && (on.AtRoutine? ==> s.Co(on.b).published)
    case Unblock(t) => s.k.Blocks(t) && s.WordOf(s.k.Top(t).on) == Invalid
    case SetFuture(t, f) => s.InCode(t) && s.w.Fut(f) != Invalid
    case TakePosted(t, r) => s.InCode(t) && r in s.w.posted
    case CallRunner(t) => s.k.Calls(t)
    case PostLeave(t) => s.k.AfterBody(t) && SoleAwaiter(s, s.TopPc(t))
  }

  /** A future and a routine have at most one awaiter at a time: suspend() asserts it. */
  predicate SoleAwaiter(s: State, pc: Pc) {
    match pc
    case LeftFuture(f) => !s.w.Fut(f).Taken()
    case JoinSuspend(b) => !s.Co(b).result.Taken()
    case _ => true
  }

  /** Post-leave returned false. */
  function Again(s: State, t: Tid): State
    requires s.k.AfterBody(t)
  {
    State(Retry(s.k, t), s.w.SetPc(s.TopCo(t), InBody))
  }

  function Resume(s: State, t: Tid, c: Cid): State {
    State(Start(s.k, t, c, false), s.w.SetPc(c, InBody))
  }

  /** `Runner::operator()` of `r`, run by `t`. */
  function RunRunner(s: State, t: Tid, r: Runner): State {
    if s.k.Current(t).Some? then s.(w := s.w.Posts(r))
    else if s.Co(r.co).caller == Self then Resume(s.(w := s.w.TakeCaller(r.co)), t, r.co)
    else s.(w := s.w.TakeCaller(r.co))
  }

  /** suspend() in wait(), which blocks the thread even inside a coroutine. */
  function NextWait(s: State, t: Tid, on: Target): State {
    if s.WordOf(on) != Empty then s
    else
      var w := match on case AtFuture(f) => s.w.WaitAtFuture(f, t) case AtRoutine(b) => s.w.WaitAtRoutine(b, t);
      State(Push(s.k, t, Blocking(on)), w)
  }

  /** The atomic operation that comes next after the body that thread `t` has left. */
  function NextPostLeave(s: State, t: Tid): State
    requires s.k.AfterBody(t)
  {
    var c := s.TopCo(t);
    match s.TopPc(t)
    case LeftFuture(f) =>
      if s.w.Fut(f) == Empty then State(Return(s.k, t), s.w.ParkAtFuture(c, f)) else Again(s, t)
    case JoinTake(b) => s.(w := s.w.GiveUpCaller(c, b))
    case JoinSuspend(b) => if s.Co(b).result == Empty then s.(w := s.w.Register(c, b)) else Again(s, t)
    case JoinCas(b) =>
      if s.Co(b).cont == NoCont then State(Return(s.k, t), s.w.ParkAtRoutine(c, b))
      else s.(w := s.w.SetPc(c, JoinSpin(b)))
    case JoinSpin(b) => if s.Co(c).caller == One then Again(s, t) else s
    case Unwinding => s.(w := s.w.Unwound(c))
    case FinExchange => s.(w := s.w.ExchangeCont(c))
    case FinClose(res) => s.(w := s.w.CloseCont(c, res))
    case FinSet(res) => s.(w := s.w.SetResult(c, res))
    case FinCall(res, r) => RunRunner(s.(w := s.w.SetPc(c, FinReturn(res))), t, r)
    case FinReturn(res) =>
      // the constructor of Data ignores what resume() returns
      var s1 := State(Return(s.k, t), s.w.Finish(c));
      if res.Some? && !s.k.Top(t).byCtor then Resume(s1, t, res.value) else s1
    case _ => s
  }

  function Next(s: State, a: Step): State
    requires Enabled(s, a)
  {
    match a
    case Construct(t, c) => State(Start(s.k, t, c, true), s.w.SetPc(c, InBody))
    case LeaveForFuture(t, f) => State(Leave(s.k, t), s.w.NewAwait(s.TopCo(t), LeftFuture(f)))
    case LeaveForJoin(t, b) => State(Leave(s.k, t), s.w.NewAwait(s.TopCo(t), JoinTake(b)))
    case FinishBody(t) => State(Leave(s.k, t), s.w.SetPc(s.TopCo(t), Unwinding))
    case Wait(t, on) => NextWait(s, t, on)
    case Unblock(t) => s.(k := Return(s.k, t))
    case SetFuture(t, f) =>
      if s.w.Fut(f).Task? then State(Push(s.k, t, Calling(s.w.Fut(f).r)), s.w.SetAndCall(f, t))
      else s.(w := s.w.SetReady(f))
    case TakePosted(t, r) => State(Push(s.k, t, Calling(r)), s.w.TakePosted(r, t))
    case CallRunner(t) => RunRunner(State(Return(s.k, t), s.w.Called(t)), t, s.k.Top(t).r)
    case PostLeave(t) => NextPostLeave(s, t)
  }

  // ---------- the invariant ----------

  /**
   A coroutine has a frame exactly while it executes, on top of its thread unless its own code has
   called further. One still in its constructor is unknown to others.
   */
  ghost predicate PlaceOk(s: State, c: Cid) {
    && (c in s.k.running <==> Executing(s.Co(c).pc))
    && (c in s.k.running ==>
         var Slot(t, i, f) := s.k.running[c];
         && f.OfCo() && (f.Body? <==> s.Co(c).pc.InBody?) && (f.byCtor ==> !s.Co(c).published)
         && (i + 1 < |s.k.Stack(t)| ==> InCodeAt(s.Co(c).pc)))
  }

  predicate InCodeAt(pc: Pc) { pc.InBody? || Destructing(pc) }

  ghost predicate CallOk(s: State, t: Tid) {
    if t in s.w.calling then s.k.Calls(t) && s.k.Top(t) == Calling(s.w.calling[t]) else !s.k.Calls(t)
  }

  ghost predicate Coupled(s: State) {
    (forall c :: PlaceOk(s, c)) && (forall t :: CallOk(s, t))
  }

  ghost predicate Inv(s: State) {
    Stacks.Inv(s.k) && Wakeups.Inv(s.w) && Coupled(s)
  }

  /** A coroutine on top of a thread that runs code of the program may get frames above it. */
  lemma TopInCode(s: State, t: Tid, c: Cid)
    requires Inv(s) && s.InCode(t) && c in s.k.running
    ensures s.k.running[c].t == t && s.k.running[c].i + 1 == |s.k.Stack(t)| ==> InCodeAt(s.Co(c).pc)
  {
    assert SlotOk(s.k, c) && PlaceOk(s, c);
  }

  lemma ConstructStep(s: State, t: Tid, c: Cid)
    requires Inv(s) && Enabled(s, Construct(t, c))
    ensures Inv(Next(s, Construct(t, c)))
  {
    var s' := Next(s, Construct(t, c));
    assert PlaceOk(s, c);
    StartKeeps(s.k, t, c, true);
    ConstructKeeps(s.w, c);
    forall d ensures PlaceOk(s', d) {
      assert PlaceOk(s, d);
      if d in s.k.running { TopInCode(s, t, d); }
    }
    forall u ensures CallOk(s', u) { assert CallOk(s, u); }
  }

  lemma LeaveForFutureStep(s: State, t: Tid, f: Fid)
    requires Inv(s) && Enabled(s, LeaveForFuture(t, f))
    ensures Inv(Next(s, LeaveForFuture(t, f)))
  {
    var s' := Next(s, LeaveForFuture(t, f));
    var x := s.TopCo(t);
    TopFrame(s.k, t);
    assert PlaceOk(s, x);
    LeaveKeeps(s.k, t);
    NewAwaitKeeps(s.w, x, LeftFuture(f));
    forall c ensures PlaceOk(s', c) { assert PlaceOk(s, c); }
    forall u ensures CallOk(s', u) { assert CallOk(s, u); }
  }

  lemma LeaveForJoinStep(s: State, t: Tid, b: Cid)
    requires Inv(s) && Enabled(s, LeaveForJoin(t, b))
    ensures Inv(Next(s, LeaveForJoin(t, b)))
  {
    var s' := Next(s, LeaveForJoin(t, b));
    var x := s.TopCo(t);
    TopFrame(s.k, t);
    assert PlaceOk(s, x);
    LeaveKeeps(s.k, t);
    NewAwaitKeeps(s.w, x, JoinTake(b));
    forall c ensures PlaceOk(s', c) { assert PlaceOk(s, c); }
    forall u ensures CallOk(s', u) { assert CallOk(s, u); }
  }

  lemma FinishBodyStep(s: State, t: Tid)
    requires Inv(s) && Enabled(s, FinishBody(t))
    ensures Inv(Next(s, FinishBody(t)))
  {
    var s' := Next(s, FinishBody(t));
    var x := s.TopCo(t);
    TopFrame(s.k, t);
    assert PlaceOk(s, x);
    LeaveKeeps(s.k, t);
    EndBodyKeeps(s.w, x);
    forall c ensures PlaceOk(s', c) { assert PlaceOk(s, c); }
    forall u ensures CallOk(s', u) { assert CallOk(s, u); }
  }

  lemma WaitStep(s: State, t: Tid, on: Target)
    requires Inv(s) && Enabled(s, Wait(t, on))
    ensures Inv(Next(s, Wait(t, on)))
  {
    var s' := Next(s, Wait(t, on));
    PushKeeps(s.k, t, Blocking(on));
    if s.WordOf(on) == Empty {
      match on {
        case AtFuture(f) => WaitAtFutureKeeps(s.w, f, t);
        case AtRoutine(b) => WaitAtRoutineKeeps(s.w, b, t);
      }
      forall d ensures PlaceOk(s', d) {
        assert PlaceOk(s, d);
        if d in s.k.running { TopInCode(s, t, d); }
      }
      forall u ensures CallOk(s', u) { assert CallOk(s, u); }
    }
  }

  lemma UnblockStep(s: State, t: Tid)
    requires Inv(s) && Enabled(s, Unblock(t))
    ensures Inv(Next(s, Unblock(t)))
  {
    var s' := Next(s, Unblock(t));
    ReturnKeeps(s.k, t);
    forall d ensures PlaceOk(s', d) { assert PlaceOk(s, d); }
    forall u ensures CallOk(s', u) { assert CallOk(s, u); }
  }

  lemma SetFutureStep(s: State, t: Tid, f: Fid)
    requires Inv(s) && Enabled(s, SetFuture(t, f))
    ensures Inv(Next(s, SetFuture(t, f)))
  {
    var s' := Next(s, SetFuture(t, f));
    assert CallOk(s, t);
    if s.w.Fut(f).Task? {
      PushKeeps(s.k, t, Calling(s.w.Fut(f).r));
      SetAndCallKeeps(s.w, f, t);
    } else {
      SetReadyKeeps(s.w, f);
    }
    forall d ensures PlaceOk(s', d) {
      assert PlaceOk(s, d);
      if d in s.k.running { TopInCode(s, t, d); }
    }
    forall u ensures CallOk(s', u) { assert CallOk(s, u); }
  }

  lemma TakePostedStep(s: State, t: Tid, r: Runner)
    requires Inv(s) && Enabled(s, TakePosted(t, r))
    ensures Inv(Next(s, TakePosted(t, r)))
  {
    var s' := Next(s, TakePosted(t, r));
    assert CallOk(s, t);
    PushKeeps(s.k, t, Calling(r));
    TakePostedKeeps(s.w, r, t);
    forall d ensures PlaceOk(s', d) {
      assert PlaceOk(s, d);
      if d in s.k.running { TopInCode(s, t, d); }
    }
    forall u ensures CallOk(s', u) { assert CallOk(s, u); }
  }

  /** Post-leave returned false: the coroutine goes on in the frame it has just left. */
  lemma AgainStep(s: State, t: Tid)
    requires Inv(s) && s.k.AfterBody(t)
    requires var pc := s.TopPc(t);
      pc.LeftFuture? || pc.JoinSuspend? || (pc.JoinSpin? && s.Co(s.TopCo(t)).caller == One)
    ensures Inv(Again(s, t))
  {
    var s' := Again(s, t);
    TopFrame(s.k, t);
    assert PlaceOk(s, s.TopCo(t));
    RetryKeeps(s.k, t);
    AgainKeeps(s.w, s.TopCo(t));
    forall c ensures PlaceOk(s', c) { assert PlaceOk(s, c); }
    forall u ensures CallOk(s', u) { assert CallOk(s, u); }
  }

  /** The top frame returns because its coroutine is parked or done. */
  lemma ReturnStep(s: State, t: Tid, w: Wakes)
    requires Inv(s) && s.k.AfterBody(t) && Wakeups.Inv(w) && w.calling == s.w.calling
    requires !Executing(w.Co(s.TopCo(t)).pc)
    requires forall c | c != s.TopCo(t) :: w.Co(c).pc == s.Co(c).pc && w.Co(c).published == s.Co(c).published
    ensures Inv(State(Return(s.k, t), w))
  {
    var s' := State(Return(s.k, t), w);
    TopFrame(s.k, t);
    ReturnKeeps(s.k, t);
    forall c ensures PlaceOk(s', c) { assert PlaceOk(s, c); }
    forall u ensures CallOk(s', u) { assert CallOk(s, u); }
  }

  /** Only words change, and the place of the coroutine on top of `t`, which stays there. */
  lemma WordStep(s: State, t: Tid, w: Wakes)
    requires Inv(s) && s.k.AfterBody(t) && Wakeups.Inv(w) && w.calling == s.w.calling
    requires var x := s.TopCo(t); Executing(w.Co(x).pc) && !w.Co(x).pc.InBody?
    requires forall c | c != s.TopCo(t) :: w.Co(c).pc == s.Co(c).pc
    requires forall c :: w.Co(c).published == s.Co(c).published
    ensures Inv(s.(w := w))
  {
    var s' := s.(w := w);
    TopFrame(s.k, t);
    forall c ensures PlaceOk(s', c) { assert PlaceOk(s, c); }
    forall u ensures CallOk(s', u) { assert CallOk(s, u); }
  }

  /** A runner that cannot run its coroutine on this thread is posted. */
  lemma PostStep(s: State, t: Tid)
    requires Inv(s) && s.k.Calls(t) && t in s.w.calling
    ensures Inv(State(Return(s.k, t), s.w.Called(t).Posts(s.w.calling[t])))
  {
    var s' := State(Return(s.k, t), s.w.Called(t).Posts(s.w.calling[t]));
    ReturnKeeps(s.k, t);
    PostKeeps(s.w, t);
    forall c ensures PlaceOk(s', c) { assert PlaceOk(s, c); }
    forall u ensures CallOk(s', u) { assert CallOk(s, u); }
  }

  lemma WakeStep(s: State, t: Tid, c: Cid)
    requires Inv(s) && s.k.Calls(t) && s.k.Current(t) == None && t in s.w.calling && s.w.calling[t].co == c
    ensures Inv(State(Start(Return(s.k, t), t, c, false), s.w.Called(t).TakeCaller(c).SetPc(c, InBody)))
  {
    var s' := State(Start(Return(s.k, t), t, c, false), s.w.Called(t).TakeCaller(c).SetPc(c, InBody));
    assert CallOk(s, t) && PlaceOk(s, c);
    assert Held(s.w, s.w.calling[t], ViaCall(t));
    ReturnKeeps(s.k, t);
    StartKeeps(Return(s.k, t), t, c, false);
    WakeKeeps(s.w, t, c);
    forall d ensures PlaceOk(s', d) { assert PlaceOk(s, d); }
    forall u ensures CallOk(s', u) { assert CallOk(s, u); }
  }

  lemma CallRunnerStep(s: State, t: Tid)
    requires Inv(s) && Enabled(s, CallRunner(t))
    ensures Inv(Next(s, CallRunner(t)))
  {
    assert CallOk(s, t);
    if s.k.Current(t).Some? {
      PostStep(s, t);
    } else {
      assert Held(s.w, s.w.calling[t], ViaCall(t));
      WakeStep(s, t, s.w.calling[t].co);
    }
  }

  /** `t` goes on with `a` after the coroutine it has finished. */
  lemma HandOverCoupled(s: State, t: Tid, x: Cid, a: Cid)
    requires Coupled(s) && s.k.AfterBody(t) && s.TopCo(t) == x && x != a && !s.k.Calls(t)
    requires Executing(s.Co(x).pc) && s.Co(a).pc.Parked?
    ensures Coupled(State(Start(Return(s.k, t), t, a, false), s.w.Finish(x).SetPc(a, InBody)))
  {
    var s' := State(Start(Return(s.k, t), t, a, false), s.w.Finish(x).SetPc(a, InBody));
    forall d ensures PlaceOk(s', d) { assert PlaceOk(s, d); }
    forall u ensures CallOk(s', u) { assert CallOk(s, u); }
  }

  lemma HandOverStep(s: State, t: Tid, a: Cid)
    requires Inv(s) && s.k.AfterBody(t) && s.TopPc(t) == FinReturn(Some(a))
    ensures !s.k.Top(t).byCtor
    ensures Inv(State(Start(Return(s.k, t), t, a, false), s.w.Finish(s.TopCo(t)).SetPc(a, InBody)))
  {
    var x := s.TopCo(t);
    TopFrame(s.k, t);
    assert PlaceOk(s, x) && PlaceOk(s, a) && ContOk(s.w, x);
    NothingBelow(s.k, t, |s.k.Stack(t)| - 1);
    ReturnKeeps(s.k, t);
    StartKeeps(Return(s.k, t), t, a, false);
    HandOverKeeps(s.w, x, a);
    HandOverCoupled(s, t, x, a);
  }

  lemma SuspendStep(s: State, t: Tid)
    requires Inv(s) && Enabled(s, PostLeave(t)) && (s.TopPc(t).LeftFuture? || s.TopPc(t).JoinSuspend?)
    ensures Inv(NextPostLeave(s, t))
  {
    var x := s.TopCo(t);
    match s.TopPc(t)
    case LeftFuture(f) =>
      if s.w.Fut(f) == Empty { ParkAtFutureKeeps(s.w, x, f); ReturnStep(s, t, s.w.ParkAtFuture(x, f)); }
      else { AgainStep(s, t); }
    case JoinSuspend(b) =>
      if s.Co(b).result == Empty { RegisterKeeps(s.w, x, b); WordStep(s, t, s.w.Register(x, b)); }
      else { AgainStep(s, t); }
  }

  lemma JoinStep(s: State, t: Tid)
    requires Inv(s) && Enabled(s, PostLeave(t)) && Away(s.TopPc(t))
    ensures Inv(NextPostLeave(s, t))
  {
    var x := s.TopCo(t);
    match s.TopPc(t)
    case LeftFuture(_) => SuspendStep(s, t);
    case JoinTake(b) => GiveUpCallerKeeps(s.w, x, b); WordStep(s, t, s.w.GiveUpCaller(x, b));
    case JoinSuspend(_) => SuspendStep(s, t);
    case JoinCas(b) =>
      if s.Co(b).cont == NoCont { ParkAtRoutineKeeps(s.w, x, b); ReturnStep(s, t, s.w.ParkAtRoutine(x, b)); }
      else { SpinKeeps(s.w, x, b); WordStep(s, t, s.w.SetPc(x, JoinSpin(b))); }
    case JoinSpin(b) => if s.Co(x).caller == One { AgainStep(s, t); }
    case Parked =>
  }

  lemma AwaiterStep(s: State, t: Tid)
    requires Inv(s) && s.k.AfterBody(t) && s.TopPc(t).FinCall?
    ensures Inv(NextPostLeave(s, t))
  {
    var x, a := s.TopCo(t), s.TopPc(t).r.co;
    TopFrame(s.k, t);
    assert PlaceOk(s, x) && ResultOk(s.w, x);
    NothingBelow(s.k, t, |s.k.Stack(t)| - 1);
    CallAwaiterKeeps(s.w, x, a);
    WordStep(s, t, s.w.SetPc(x, FinReturn(s.TopPc(t).res)).TakeCaller(a));
  }

  lemma DoneStep(s: State, t: Tid)
    requires Inv(s) && s.k.AfterBody(t) && s.TopPc(t).FinReturn?
    ensures Inv(NextPostLeave(s, t))
  {
    var x, res := s.TopCo(t), s.TopPc(t).res;
    if res.Some? { HandOverStep(s, t, res.value); } else { FinishKeeps(s.w, x); ReturnStep(s, t, s.w.Finish(x)); }
  }

  lemma FinishStep(s: State, t: Tid)
    requires Inv(s) && s.k.AfterBody(t) && !Away(s.TopPc(t))
    ensures Inv(NextPostLeave(s, t))
  {
    var x := s.TopCo(t);
    match s.TopPc(t)
    case Unwinding => UnwoundKeeps(s.w, x); WordStep(s, t, s.w.Unwound(x));
    case FinExchange => ExchangeContKeeps(s.w, x); WordStep(s, t, s.w.ExchangeCont(x));
    case FinClose(res) => CloseContKeeps(s.w, x); WordStep(s, t, s.w.CloseCont(x, res));
    case FinSet(res) => SetResultKeeps(s.w, x); WordStep(s, t, s.w.SetResult(x, res));
    case FinCall(_, _) => AwaiterStep(s, t);
    case FinReturn(_) => DoneStep(s, t);
    case _ =>
  }

  /** The invariant is inductive. */
  lemma StepKeeps(s: State, a: Step)
    requires Inv(s) && Enabled(s, a)
    ensures Inv(Next(s, a))
  {
    match a
    case Construct(t, c) => ConstructStep(s, t, c);
    case LeaveForFuture(t, f) => LeaveForFutureStep(s, t, f);
    case LeaveForJoin(t, b) => LeaveForJoinStep(s, t, b);
    case FinishBody(t) => FinishBodyStep(s, t);
    case Wait(t, on) => WaitStep(s, t, on);
    case Unblock(t) => UnblockStep(s, t);
    case SetFuture(t, f) => SetFutureStep(s, t, f);
    case TakePosted(t, r) => TakePostedStep(s, t, r);
    case CallRunner(t) => CallRunnerStep(s, t);
    case PostLeave(t) => if Away(s.TopPc(t)) { JoinStep(s, t); } else { FinishStep(s, t); }
  }
}
