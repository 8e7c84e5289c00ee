/** What every step of `Resumption` does to the memory of the library, coroutine by coroutine. */
module RoutineViews {
  import opened Options
  import opened Stacks
  import opened Wakeups
  import opened Resumption

  /** What the protocol says about the memory of one coroutine. */
  datatype View = View(made: bool, away: bool, outer: Option<Cid>, cont: Cont, result: Word, caller: Caller)

  function ViewOf(s: State, c: Cid): View {
    var x := s.Co(c);
    View(!x.pc.Absent?, Away(x.pc), s.k.Outer(c), x.cont, x.result, x.caller)
  }

  /** From `s` to `s'` only the memory of `c` changes. */
  ghost predicate OnlyChanges(s: State, s': State, c: Cid) {
    (forall d | d != c :: ViewOf(s', d) == ViewOf(s, d)) && (forall f :: s'.w.Fut(f) == s.w.Fut(f))
  }

  ghost predicate SameCurrent(s: State, s': State) { forall u :: s'.k.Current(u) == s.k.Current(u) }

  ghost predicate SameMemory(s: State, s': State) {
    && (forall d :: ViewOf(s', d) == ViewOf(s, d)) && (forall f :: s'.w.Fut(f) == s.w.Fut(f))
    && SameCurrent(s, s')
  }

  ghost predicate SetsCurrent(s: State, s': State, t: Tid, x: Option<Cid>) {
    forall u :: s'.k.Current(u) == if u == t then x else s.k.Current(u)
  }

  ghost predicate SetsWord(s: State, s': State, f: Fid, x: Word) {
    forall g :: s'.w.Fut(g) == if g == f then x else s.w.Fut(g)
  }

  /** `c` goes on with its body on thread `t`. */
  ghost predicate GoesOn(s: State, s': State, t: Tid, c: Cid) {
    && OnlyChanges(s, s', c) && SetsCurrent(s, s', t, Some(c))
    && ViewOf(s', c) == ViewOf(s, c).(away := false, outer := s.k.Current(t))
    && s'.Co(c).pc == InBody
  }

  /** The next post-leave operation of `c` on thread `t`. */
  ghost predicate At(s: State, t: Tid, c: Cid) {
    Resumption.Inv(s) && s.k.AfterBody(t) && s.TopCo(t) == c && Enabled(s, PostLeave(t))
  }

  lemma PostLeaveKeeps(s: State, t: Tid, c: Cid) returns (s': State)
    requires At(s, t, c)
    ensures s' == Next(s, PostLeave(t)) == NextPostLeave(s, t) && Resumption.Inv(s')
  {
    s' := Next(s, PostLeave(t));
    StepKeeps(s, PostLeave(t));
  }

  lemma ConstructView(s: State, t: Tid, c: Cid) returns (s': State)
    requires Resumption.Inv(s) && Enabled(s, Construct(t, c))
    ensures s' == Next(s, Construct(t, c)) && Resumption.Inv(s')
    ensures OnlyChanges(s, s', c) && SetsCurrent(s, s', t, Some(c))
    ensures !ViewOf(s, c).made && ViewOf(s', c) == View(true, false, s.k.Current(t), NoCont, Empty, Null)
  {
    s' := Next(s, Construct(t, c));
    StepKeeps(s, Construct(t, c));
  }

  lemma LeaveForFutureView(s: State, t: Tid, c: Cid, f: Fid) returns (s': State)
    requires Resumption.Inv(s) && Enabled(s, LeaveForFuture(t, f)) && s.TopCo(t) == c
    ensures s' == Next(s, LeaveForFuture(t, f)) && Resumption.Inv(s')
    ensures OnlyChanges(s, s', c) && SetsCurrent(s, s', t, s.k.Outer(c)) && s.k.Current(t) == Some(c)
    ensures ViewOf(s, c).made && ViewOf(s', c) == ViewOf(s, c).(away := true, caller := Self)
  {
    TopFrame(s.k, t);
    assert PlaceOk(s, c);
    s' := Next(s, LeaveForFuture(t, f));
    StepKeeps(s, LeaveForFuture(t, f));
  }

  lemma LeaveForJoinView(s: State, t: Tid, c: Cid, b: Cid) returns (s': State)
    requires Resumption.Inv(s) && Enabled(s, LeaveForJoin(t, b)) && s.TopCo(t) == c
    ensures s' == Next(s, LeaveForJoin(t, b)) && Resumption.Inv(s')
    ensures OnlyChanges(s, s', c) && SetsCurrent(s, s', t, s.k.Outer(c)) && s.k.Current(t) == Some(c)
    ensures ViewOf(s, c).made && ViewOf(s', c) == ViewOf(s, c).(away := true, caller := Self)
  {
    TopFrame(s.k, t);
    assert PlaceOk(s, c);
    s' := Next(s, LeaveForJoin(t, b));
    StepKeeps(s, LeaveForJoin(t, b));
  }

  lemma FinishBodyView(s: State, t: Tid, c: Cid) returns (s': State)
    requires Resumption.Inv(s) && Enabled(s, FinishBody(t)) && s.TopCo(t) == c
    ensures s' == Next(s, FinishBody(t)) && Resumption.Inv(s')
    ensures OnlyChanges(s, s', c) && SetsCurrent(s, s', t, s.k.Outer(c)) && s.k.Current(t) == Some(c)
    ensures ViewOf(s, c).made && ViewOf(s', c) == ViewOf(s, c)
  {
    TopFrame(s.k, t);
    assert PlaceOk(s, c);
    s' := Next(s, FinishBody(t));
    StepKeeps(s, FinishBody(t));
  }

  lemma PullReturnsView(s: State, t: Tid, c: Cid) returns (s': State)
    requires At(s, t, c) && s.TopPc(t) == Unwinding
    ensures s' == Next(s, PostLeave(t)) && Resumption.Inv(s') && SameMemory(s, s')
    ensures s'.Co(c).pc == if s.Co(c).epoch == 0 then FinClose(None) else FinExchange
  {
    s' := PostLeaveKeeps(s, t, c);
  }

  lemma WaitAtFutureView(s: State, t: Tid, f: Fid) returns (s': State)
    requires Resumption.Inv(s) && Enabled(s, Wait(t, AtFuture(f))) && s.w.Fut(f) == Empty
    ensures s' == Next(s, Wait(t, AtFuture(f))) && Resumption.Inv(s')
    ensures (forall d :: ViewOf(s', d) == ViewOf(s, d)) && SameCurrent(s, s') && SetsWord(s, s', f, Waiter(t))
    ensures s'.k.Blocks(t) && s'.k.Top(t) == Stacks.Blocking(AtFuture(f))
  {
    s' := Next(s, Wait(t, AtFuture(f)));
    StepKeeps(s, Wait(t, AtFuture(f)));
  }

  lemma WaitAtRoutineView(s: State, t: Tid, b: Cid) returns (s': State)
    requires Resumption.Inv(s) && Enabled(s, Wait(t, AtRoutine(b))) && s.Co(b).result == Empty
    ensures s' == Next(s, Wait(t, AtRoutine(b))) && Resumption.Inv(s')
    ensures OnlyChanges(s, s', b) && SameCurrent(s, s') && ViewOf(s, b).made
    ensures ViewOf(s', b) == ViewOf(s, b).(result := Waiter(t))
    ensures s'.k.Blocks(t) && s'.k.Top(t) == Stacks.Blocking(AtRoutine(b))
  {
    assert AwaitOk(s.w, b);
    s' := Next(s, Wait(t, AtRoutine(b)));
    StepKeeps(s, Wait(t, AtRoutine(b)));
  }

  lemma UnblockView(s: State, t: Tid) returns (s': State)
    requires Resumption.Inv(s) && Enabled(s, Unblock(t))
    ensures s' == Next(s, Unblock(t)) && Resumption.Inv(s') && SameMemory(s, s')
  {
    s' := Next(s, Unblock(t));
    StepKeeps(s, Unblock(t));
  }

  lemma SuspendAtFutureView(s: State, t: Tid, c: Cid, f: Fid) returns (s': State)
    requires At(s, t, c) && s.TopPc(t) == LeftFuture(f)
    ensures s' == Next(s, PostLeave(t)) && Resumption.Inv(s')
    ensures s.w.Fut(f) == Empty ==> SameCurrent(s, s') && s'.Co(c).pc == Parked
    ensures s.w.Fut(f) == Empty ==> forall d :: ViewOf(s', d) == ViewOf(s, d)
    ensures s.w.Fut(f) == Empty ==> SetsWord(s, s', f, Task(s.w.RunnerOf(c)))
    ensures s.w.Fut(f) != Empty ==> s.w.Fut(f) == Invalid && GoesOn(s, s', t, c)
  {
    s' := PostLeaveKeeps(s, t, c);
  }

  lemma TakeCallerView(s: State, t: Tid, c: Cid, b: Cid) returns (s': State)
    requires At(s, t, c) && s.TopPc(t) == JoinTake(b)
    ensures s' == Next(s, PostLeave(t)) && Resumption.Inv(s')
    ensures OnlyChanges(s, s', c) && SameCurrent(s, s')
    ensures ViewOf(s', c) == ViewOf(s, c).(caller := Null)
  {
    s' := PostLeaveKeeps(s, t, c);
  }

  lemma AwaitedIsMade(s: State, t: Tid, c: Cid, b: Cid)
    requires At(s, t, c) && (s.TopPc(t) == JoinSuspend(b) || s.TopPc(t) == JoinCas(b))
    ensures ViewOf(s, b).made
  {
    assert AwaitOk(s.w, c) && ContOk(s.w, b) && ResultOk(s.w, b) && AwaitOk(s.w, b);
  }

  lemma RegisterView(s: State, t: Tid, c: Cid, b: Cid) returns (s': State)
    requires At(s, t, c) && s.TopPc(t) == JoinSuspend(b) && s.Co(b).result == Empty
    ensures s' == Next(s, PostLeave(t)) && Resumption.Inv(s')
    ensures OnlyChanges(s, s', b) && SameCurrent(s, s') && s'.Co(c).pc == JoinCas(b)
    ensures ViewOf(s', b) == ViewOf(s, b).(result := Task(s.w.RunnerOf(c)))
  {
    AwaitedIsMade(s, t, c, b);
    s' := PostLeaveKeeps(s, t, c);
  }

  lemma AlreadyFinishedView(s: State, t: Tid, c: Cid, b: Cid) returns (s': State)
    requires At(s, t, c) && s.TopPc(t) == JoinSuspend(b) && s.Co(b).result != Empty
    ensures s' == Next(s, PostLeave(t)) && Resumption.Inv(s')
    ensures s.Co(b).result == Invalid && GoesOn(s, s', t, c)
  {
    s' := PostLeaveKeeps(s, t, c);
  }

  lemma CasContinuationView(s: State, t: Tid, c: Cid, b: Cid) returns (s': State)
    requires At(s, t, c) && s.TopPc(t) == JoinCas(b)
    ensures s' == Next(s, PostLeave(t)) && Resumption.Inv(s')
    ensures ViewOf(s, b).made
    ensures s.Co(b).cont == NoCont ==> OnlyChanges(s, s', b) && s'.Co(c).pc == Parked
    ensures s.Co(b).cont == NoCont ==> ViewOf(s', b) == ViewOf(s, b).(cont := To(c))
    ensures s.Co(b).cont != NoCont ==> SameMemory(s, s')
    ensures s.Co(b).cont != NoCont ==> s.Co(b).cont == Closed && s'.Co(c).pc == JoinSpin(b)
    ensures SameCurrent(s, s')
  {
    AwaitedIsMade(s, t, c, b);
    assert AwaitOk(s.w, c) && ContOk(s.w, b) && ResultOk(s.w, b);
    s' := PostLeaveKeeps(s, t, c);
  }

  lemma SpinView(s: State, t: Tid, c: Cid, b: Cid) returns (s': State)
    requires At(s, t, c) && s.TopPc(t) == JoinSpin(b)
    ensures s' == Next(s, PostLeave(t)) && Resumption.Inv(s')
    ensures if s.Co(c).caller == One then GoesOn(s, s', t, c) else s' == s
  {
    s' := PostLeaveKeeps(s, t, c);
  }

  lemma ExchangeView(s: State, t: Tid, c: Cid) returns (s': State)
    requires At(s, t, c) && s.TopPc(t) == FinExchange
    ensures s' == Next(s, PostLeave(t)) && Resumption.Inv(s')
    ensures OnlyChanges(s, s', c) && SameCurrent(s, s')
    ensures ViewOf(s', c) == ViewOf(s, c).(cont := Closed)
    ensures s'.Co(c).pc == FinClose(if s.Co(c).cont.To? then Some(s.Co(c).cont.co) else None)
  {
    s' := PostLeaveKeeps(s, t, c);
  }

  lemma CloseView(s: State, t: Tid, c: Cid) returns (s': State)
    requires At(s, t, c) && s.TopPc(t).FinClose?
    ensures s' == Next(s, PostLeave(t)) && Resumption.Inv(s')
    ensures OnlyChanges(s, s', c) && SameCurrent(s, s')
    ensures ViewOf(s', c) == ViewOf(s, c).(cont := Closed)
    ensures s.Co(c).cont == NoCont || s.Co(c).cont == Closed
    ensures s'.Co(c).pc == FinSet(s.Co(c).pc.res)
  {
    assert ContOk(s.w, c);
    s' := PostLeaveKeeps(s, t, c);
  }

  lemma SetResultView(s: State, t: Tid, c: Cid) returns (s': State)
    requires At(s, t, c) && s.TopPc(t).FinSet?
    ensures s' == Next(s, PostLeave(t)) && Resumption.Inv(s')
    ensures OnlyChanges(s, s', c) && SameCurrent(s, s')
    ensures ViewOf(s', c) == ViewOf(s, c).(result := Invalid)
    ensures s.Co(c).result != Invalid
    ensures var res, result := s.Co(c).pc.res, s.Co(c).result;
      s'.Co(c).pc == if result.Task? then FinCall(res, result.r) else FinReturn(res)
  {
    assert ResultOk(s.w, c);
    s' := PostLeaveKeeps(s, t, c);
  }

  lemma CallAwaiterIs(s: State, t: Tid, c: Cid) returns (s': State)
    requires At(s, t, c) && s.TopPc(t).FinCall?
    ensures s' == Next(s, PostLeave(t)) && Resumption.Inv(s') && s.k.Current(t) == None
    ensures s' == s.(w := s.w.SetPc(c, FinReturn(s.TopPc(t).res)).TakeCaller(s.TopPc(t).r.co))
    ensures var a := s.TopPc(t).r.co; ViewOf(s, a).away && ViewOf(s, a).caller == Null
  {
    TopFrame(s.k, t);
    assert PlaceOk(s, c) && ResultOk(s.w, c);
    NothingBelow(s.k, t, |s.k.Stack(t)| - 1);
    s' := PostLeaveKeeps(s, t, c);
  }

  lemma CallAwaiterView(s: State, t: Tid, c: Cid, s': State)
    requires s.k.AfterBody(t) && s.TopCo(t) == c && s.TopPc(t).FinCall?
    requires s' == s.(w := s.w.SetPc(c, FinReturn(s.TopPc(t).res)).TakeCaller(s.TopPc(t).r.co))
    requires ViewOf(s, s.TopPc(t).r.co).away
    ensures OnlyChanges(s, s', s.TopPc(t).r.co) && SameCurrent(s, s')
    ensures var a := s.TopPc(t).r.co; ViewOf(s', a) == ViewOf(s, a).(caller := One)
    ensures s'.Co(c).pc == FinReturn(s.TopPc(t).res)
  {
  }

  lemma ReturnView(s: State, t: Tid, c: Cid) returns (s': State)
    requires At(s, t, c) && s.TopPc(t) == FinReturn(None)
    ensures s' == Next(s, PostLeave(t)) && Resumption.Inv(s')
    ensures SameMemory(s, s')
  {
    s' := PostLeaveKeeps(s, t, c);
  }

  lemma ContinueIs(s: State, t: Tid, c: Cid, a: Cid) returns (s': State)
    requires At(s, t, c) && s.TopPc(t) == FinReturn(Some(a))
    ensures s' == Next(s, PostLeave(t)) && Resumption.Inv(s')
    ensures s' == State(Start(Return(s.k, t), t, a, false), s.w.Finish(c).SetPc(a, InBody))
  {
    HandOverStep(s, t, a);
    s' := State(Start(Return(s.k, t), t, a, false), s.w.Finish(c).SetPc(a, InBody));
  }

  lemma ContinuedIsAway(s: State, t: Tid, c: Cid, a: Cid)
    requires At(s, t, c) && s.TopPc(t) == FinReturn(Some(a))
    ensures ViewOf(s, a).away && s.k.Current(t) == None
  {
    TopFrame(s.k, t);
    assert PlaceOk(s, c) && ContOk(s.w, c);
    NothingBelow(s.k, t, |s.k.Stack(t)| - 1);
  }

  lemma ContinueView(s: State, t: Tid, c: Cid, a: Cid, s': State)
    requires s.k.AfterBody(t) && s.TopCo(t) == c && s.TopPc(t).FinReturn? && ViewOf(s, a).away && s.k.Current(t) == None
    requires s' == State(Start(Return(s.k, t), t, a, false), s.w.Finish(c).SetPc(a, InBody))
    ensures GoesOn(s, s', t, a)
  {
  }

  lemma SetFutureView(s: State, t: Tid, f: Fid) returns (s': State)
    requires Resumption.Inv(s) && Enabled(s, SetFuture(t, f))
    ensures s' == Next(s, SetFuture(t, f)) && Resumption.Inv(s')
    ensures forall d :: ViewOf(s', d) == ViewOf(s, d)
    ensures SetsWord(s, s', f, Invalid)
    ensures SameCurrent(s, s')
    ensures if s.w.Fut(f).Task? then s'.k.Calls(t) && s'.k.Top(t) == Calling(s.w.Fut(f).r) else s'.k == s.k
  {
    s' := Next(s, SetFuture(t, f));
    StepKeeps(s, SetFuture(t, f));
  }

  lemma PostRunnerView(s: State, t: Tid, r: Runner) returns (s': State)
    requires Resumption.Inv(s) && Enabled(s, CallRunner(t)) && s.k.Top(t) == Calling(r) && s.k.Current(t).Some?
    ensures s' == Next(s, CallRunner(t)) && Resumption.Inv(s')
    ensures SameMemory(s, s')
    ensures r in s'.w.posted
  {
    s' := Next(s, CallRunner(t));
    StepKeeps(s, CallRunner(t));
  }

  lemma CalledRunner(s: State, t: Tid, r: Runner)
    requires Resumption.Inv(s) && Enabled(s, CallRunner(t)) && s.k.Top(t) == Calling(r)
    ensures ViewOf(s, r.co).away && ViewOf(s, r.co).caller == Self && s.w.RunnerOf(r.co) == r
  {
    assert CallOk(s, t) && Held(s.w, s.w.calling[t], ViaCall(t));
  }

  lemma WakeIs(s: State, t: Tid, r: Runner) returns (s': State)
    requires Resumption.Inv(s) && Enabled(s, CallRunner(t)) && s.k.Top(t) == Calling(r) && s.k.Current(t).None?
    ensures s' == Next(s, CallRunner(t)) && Resumption.Inv(s')
    ensures s' == State(Start(Return(s.k, t), t, r.co, false), s.w.Called(t).TakeCaller(r.co).SetPc(r.co, InBody))
  {
    CalledRunner(s, t, r);
    assert CallOk(s, t);
    WakeStep(s, t, r.co);
    s' := State(Start(Return(s.k, t), t, r.co, false), s.w.Called(t).TakeCaller(r.co).SetPc(r.co, InBody));
  }

  lemma WakeView(s: State, t: Tid, r: Runner, s': State)
    requires s.k.Calls(t) && s.k.Top(t) == Calling(r) && s.k.Current(t).None? && ViewOf(s, r.co).made
    requires s' == State(Start(Return(s.k, t), t, r.co, false), s.w.Called(t).TakeCaller(r.co).SetPc(r.co, InBody))
    ensures OnlyChanges(s, s', r.co) && SetsCurrent(s, s', t, Some(r.co)) && s'.Co(r.co).pc == InBody
    ensures ViewOf(s', r.co) == ViewOf(s, r.co).(away := false, outer := None, caller := One)
  {
  }

  /**
   Where code of the program runs, `current()` is the coroutine of the body on top of the thread, or,
   while destructors run, of a body below.
   */
  lemma CurrentInCode(s: State, t: Tid)
    requires Resumption.Inv(s) && s.InCode(t)
    ensures s.k.Runs(t) ==> s.k.Current(t) == Some(s.TopCo(t))
    ensures s.k.Stack(t) == [] ==> s.k.Current(t) == None
  {
    assert s.k.Current(t) == CurrentOf(s.k.Stack(t));
  }

  /** What `Runner::operator()` finds in `mCaller`, called by the setter of a future or by a finishing routine. */
  lemma FoundInCaller(s: State, t: Tid, r: Runner, a: Step)
    requires Resumption.Inv(s) && Enabled(s, a) && CallsRunner(s, t, r, a)
    ensures ViewOf(s, r.co).made && ViewOf(s, r.co).away
    ensures ViewOf(s, r.co).caller == if a.CallRunner? then Self else Null
    ensures a.PostLeave? ==> s.k.Current(t) == None
  {
    if a.CallRunner? { CalledRunner(s, t, r); } else { var _ := CallAwaiterIs(s, t, s.TopCo(t)); }
  }

  /** The next step of `t` is the call of `r`. */
  ghost predicate CallsRunner(s: State, t: Tid, r: Runner, a: Step) {
    || (a == CallRunner(t) && s.k.Calls(t) && s.k.Top(t) == Calling(r))
    || (a == PostLeave(t) && s.k.AfterBody(t) && s.TopPc(t).FinCall? && s.TopPc(t).r == r)
  }
}
