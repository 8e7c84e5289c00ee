/**
 `Routine::Data` and `Routine::Runner` as objects that are updated in place: one method for every
 atomic operation of the resume protocol, proved against the steps of `Resumption`.
 */
module Routines {
  import opened Options
  import opened Stacks
  import opened Wakeups
  import opened Resumption
  import opened RoutineViews

  class Data {
    ghost const id: Cid
    var mOuter: Option<Cid>
    var mContinuation: Cont
    var mResult: Word

    constructor (ghost c: Cid, outer: Option<Cid>)
      ensures id == c && mOuter == outer && mContinuation == NoCont && mResult == Empty
    {
      id := c;
      mOuter, mContinuation, mResult := outer, NoCont, Empty;
    }
  }

  class RunnerData {
    ghost const id: Cid
    var mCaller: Caller

    constructor (ghost c: Cid)
      ensures id == c && mCaller == Self
    {
      id := c;
      mCaller := Self;
    }
  }

  /** How await() proceeds: with the result at once, by blocking the thread, or by leaving the stack of a coroutine. */
  datatype Outcome = AtOnce | Blocks | Leaving(c: Cid)

  /** What a call of a runner does: it posts itself, resumes its coroutine, or finds nothing to resume. */
  datatype Called = Posted | Resumed | Nothing

  /** All coroutines, the runners of their latest awaits, and what `current()` is on every thread. */
  class Library {
    var data: map<Cid, Data>
    var runners: map<Cid, RunnerData>
    var current: map<Tid, Option<Cid>>
    var continuationPtr: map<Fid, Word>  // of the plain futures
    ghost var log: State                 // where everybody is

    ghost predicate Mirrored(c: Cid)
      reads this, data.Values, runners.Values
    {
      var v := ViewOf(log, c);
      && (c in data <==> v.made)
      && (c in data ==> data[c].id == c)
      && (c in runners ==> runners[c].id == c)
      && (c in data ==> data[c].mOuter == v.outer && data[c].mContinuation == v.cont && data[c].mResult == v.result)
      && (v.away ==> c in runners && runners[c].mCaller == v.caller)
    }

    /** The objects are what `log` says, and no two coroutines share one. */
    ghost predicate Objects()
      reads this, data.Values, runners.Values
    {
      && (forall c :: Mirrored(c))
      && (forall t :: Current(t) == log.k.Current(t))
      && (forall f :: Ptr(f) == log.w.Fut(f))
    }

    ghost predicate Valid()
      reads this, data.Values, runners.Values
    {
      Resumption.Inv(log) && Objects()
    }

    function Current(t: Tid): Option<Cid> reads this { if t in current then current[t] else None }
    function Ptr(f: Fid): Word reads this { if f in continuationPtr then continuationPtr[f] else Empty }

    constructor ()
      ensures Valid() && log == Resumption.Init
    {
      data, runners, current, continuationPtr := map[], map[], map[], map[];
      log := Resumption.Init;
    }

    /** A new object for `c`, whose body starts on top of what `t` is running. */
    method Create(t: Tid, c: Cid, ghost s': State)
      requires Objects() && OnlyChanges(log, s', c) && SetsCurrent(log, s', t, Some(c))
      requires !ViewOf(log, c).made && ViewOf(s', c) == View(true, false, log.k.Current(t), NoCont, Empty, Null)
      modifies this`data, this`current, this`log
      ensures Objects() && log == s' && c in data && fresh(data[c])
      ensures data[c].mOuter == old(Current(t)) && Current(t) == Some(c)
    {
      var d := new Data(c, Current(t));
      data, current := data[c := d], current[t := Some(c)];
      log := s';
      forall e ensures Mirrored(e) { assert old(Mirrored(e)); }
    }

    /** The constructor of Data, up to the first operation of the body. */
    method Construct(t: Tid, c: Cid)
      requires Valid() && Enabled(log, Step.Construct(t, c))
      modifies this
      ensures Valid() && log == Next(old(log), Step.Construct(t, c))
      ensures c in data && fresh(data[c]) && data[c].mOuter == old(Current(t)) && Current(t) == Some(c)
    {
      ghost var s' := ConstructView(log, t, c);
      Create(t, c, s');
    }

    /** The frame of an await holds a new runner, and Data::leave() gives the thread back. */
    method Leave(t: Tid, c: Cid, ghost s': State)
      requires Objects() && OnlyChanges(log, s', c) && SetsCurrent(log, s', t, log.k.Outer(c))
      requires ViewOf(log, c).made && ViewOf(s', c) == ViewOf(log, c).(away := true, caller := Self)
      modifies this`runners, this`current, this`log
      ensures Objects() && log == s' && c in runners && fresh(runners[c]) && runners[c].mCaller == Self
      ensures c in data && Current(t) == data[c].mOuter
    {
      assert Mirrored(c);
      var r := new RunnerData(c);
      runners, current := runners[c := r], current[t := data[c].mOuter];
      log := s';
      forall e ensures Mirrored(e) { assert old(Mirrored(e)); }
    }

    /** await() on the future `f` in the body of `c`, up to the end of leave(). */
    method LeaveForFuture(t: Tid, c: Cid, f: Fid)
      requires Valid() && Enabled(log, Step.LeaveForFuture(t, f)) && log.TopCo(t) == c
      modifies this
      ensures Valid() && log == Next(old(log), Step.LeaveForFuture(t, f)) && log.Co(c).pc == LeftFuture(f)
      ensures old(Current(t)) == Some(c) && data == old(data) && c in data && Current(t) == data[c].mOuter
      ensures c in runners && fresh(runners[c]) && runners[c].mCaller == Self
    {
      ghost var s' := LeaveForFutureView(log, t, c, f);
      Leave(t, c, s');
    }

    /** await() on the routine `b` in the body of `c`, up to the end of leave(). */
    method LeaveForJoin(t: Tid, c: Cid, b: Cid)
      requires Valid() && Enabled(log, Step.LeaveForJoin(t, b)) && log.TopCo(t) == c
      modifies this
      ensures Valid() && log == Next(old(log), Step.LeaveForJoin(t, b)) && log.Co(c).pc == JoinTake(b)
      ensures old(Current(t)) == Some(c) && data == old(data) && c in data && Current(t) == data[c].mOuter
      ensures c in runners && fresh(runners[c]) && runners[c].mCaller == Self
    {
      ghost var s' := LeaveForJoinView(log, t, c, b);
      Leave(t, c, s');
    }

    /** await() on a `LightFutureData`, called from a body or where nothing is current. */
    method AwaitFuture(t: Tid, f: Fid) returns (outcome: Outcome)
      requires Valid() && log.InCode(t) && (log.k.AfterBody(t) ==> log.k.Current(t) == None)
      modifies this
      ensures Valid() && data == old(data)
      ensures outcome == AtOnce <==> old(Ptr(f)) == Invalid
      ensures outcome == Blocks ==> old(log).k.Current(t) == None && !old(log).k.Runs(t)
      ensures match outcome
              case Leaving(c) =>
                && old(log).k.Runs(t) && old(log).TopCo(t) == c
                && log == Next(old(log), Step.LeaveForFuture(t, f)) && log.Co(c).pc == LeftFuture(f)
              case _ => log == old(log)
    {
      if Ptr(f) == Invalid { return AtOnce; }
      CurrentInCode(log, t);
      match Current(t) {
        case None => outcome := Blocks;
        case Some(c) =>
          LeaveForFuture(t, c, f);
          outcome := Leaving(c);
      }
    }

    /** await() on the routine `b`. */
    method AwaitRoutine(t: Tid, b: Cid) returns (outcome: Outcome)
      requires Valid() && log.InCode(t) && (log.k.AfterBody(t) ==> log.k.Current(t) == None)
      requires b in data && log.Co(b).published
      modifies this
      ensures Valid() && data == old(data)
      ensures outcome == AtOnce <==> old(data[b].mResult) == Invalid
      ensures outcome == Blocks ==> old(log).k.Current(t) == None && !old(log).k.Runs(t)
      ensures match outcome
              case Leaving(c) =>
                && old(log).k.Runs(t) && old(log).TopCo(t) == c
                && log == Next(old(log), Step.LeaveForJoin(t, b)) && log.Co(c).pc == JoinTake(b)
              case _ => log == old(log)
    {
      if data[b].mResult == Invalid { return AtOnce; }
      CurrentInCode(log, t);
      match Current(t) {
        case None => outcome := Blocks;
        case Some(c) =>
          LeaveForJoin(t, c, b);
          outcome := Leaving(c);
      }
    }

    /** suspend() in wait() on the future `f`: the thread blocks, or the future has become ready. */
    method WaitAtFuture(t: Tid, f: Fid) returns (res: bool)
      requires Valid() && Enabled(log, Wait(t, AtFuture(f)))
      modifies this
      ensures Valid() && data == old(data) && log == Next(old(log), Wait(t, AtFuture(f)))
      ensures res <==> log.k.Blocks(t)
      ensures if res then Ptr(f) == Waiter(t) else Ptr(f) == Invalid && log == old(log)
    {
      res := Ptr(f) == Empty;
      if res {
        ghost var s' := WaitAtFutureView(log, t, f);
        StoreWord(f, Waiter(t), s');
      }
    }

    /** suspend() in join() of the routine `b`. */
    method WaitAtRoutine(t: Tid, b: Cid) returns (res: bool)
      requires Valid() && Enabled(log, Wait(t, AtRoutine(b))) && b in data
      modifies this, data[b]
      ensures Valid() && data == old(data) && log == Next(old(log), Wait(t, AtRoutine(b)))
      ensures res <==> log.k.Blocks(t)
      ensures if res then data[b].mResult == Waiter(t) else data[b].mResult == Invalid && log == old(log)
    {
      assert Mirrored(b);
      res := data[b].mResult == Empty;
      if res {
        ghost var s' := WaitAtRoutineView(log, t, b);
        StoreResult(b, Waiter(t), s');
      }
    }

    /** wait() returns. */
    method ReturnFromWait(t: Tid)
      requires Valid() && Enabled(log, Unblock(t))
      modifies this`log
      ensures Valid() && log == Next(old(log), Unblock(t)) && log.k.Stack(t) == Front(old(log).k.Stack(t))
    {
      ghost var s' := UnblockView(log, t);
      NoWrite(s');
    }

    /** The end of the lambda of buildExecutor(). */
    method FinishBody(t: Tid, c: Cid)
      requires Valid() && Enabled(log, Step.FinishBody(t)) && log.TopCo(t) == c
      modifies this
      ensures Valid() && log == Next(old(log), Step.FinishBody(t)) && log.Co(c).pc == Unwinding
      ensures old(Current(t)) == Some(c) && data == old(data) && c in data && Current(t) == data[c].mOuter
    {
      ghost var s' := FinishBodyView(log, t, c);
      assert Mirrored(c);
      current := current[t := data[c].mOuter];
      log := s';
      forall e ensures Mirrored(e) { assert old(Mirrored(e)); }
    }

    /** The callable has been destroyed and mPull() returns. */
    method PullReturns(t: Tid, c: Cid)
      requires Valid() && At(log, t, c) && log.TopPc(t) == Unwinding
      modifies this`log
      ensures Valid() && log == Next(old(log), PostLeave(t))
      ensures log.Co(c).pc == FinExchange || log.Co(c).pc == FinClose(None)
    {
      ghost var s' := PullReturnsView(log, t, c);
      NoWrite(s');
    }

    /** A step that writes nothing. */
    ghost method NoWrite(s': State)
      requires Objects() && SameMemory(log, s')
      modifies this`log
      ensures Objects() && log == s'
    {
      log := s';
      forall e ensures Mirrored(e) { assert old(Mirrored(e)); }
    }

    /** The write of an atomic operation on the word of the plain future `f`. */
    method StoreWord(f: Fid, x: Word, ghost s': State)
      requires Objects() && (forall d :: ViewOf(s', d) == ViewOf(log, d))
      requires SameCurrent(log, s') && SetsWord(log, s', f, x)
      modifies this`continuationPtr, this`log
      ensures Objects() && log == s' && Ptr(f) == x
    {
      continuationPtr := continuationPtr[f := x];
      log := s';
      forall e ensures Mirrored(e) { assert old(Mirrored(e)); }
    }

    /** The beginning of resume(), or of the next round of its loop: `c` becomes current on `t`. */
    method MakeCurrent(t: Tid, c: Cid, ghost s': State)
      requires Objects() && c in data && GoesOn(log, s', t, c)
      modifies this`current, this`log, data[c]
      ensures Objects() && log == s' && current == old(current)[t := Some(c)]
      ensures data[c].mResult == old(data[c].mResult) && data[c].mContinuation == old(data[c].mContinuation)
    {
      assert Mirrored(c);
      data[c].mOuter, current := Current(t), current[t := Some(c)];
      log := s';
      forall e ensures Mirrored(e) { assert old(Mirrored(e)); }
    }

    /** The write of an atomic operation on `mContinuation`. */
    method StoreContinuation(c: Cid, x: Cont, ghost s': State)
      requires Objects() && c in data && ViewOf(log, c).made
      requires OnlyChanges(log, s', c) && SameCurrent(log, s') && ViewOf(s', c) == ViewOf(log, c).(cont := x)
      modifies this`log, data[c]
      ensures Objects() && log == s' && data[c].mContinuation == x
    {
      assert Mirrored(c);
      data[c].mContinuation := x;
      log := s';
      forall e ensures Mirrored(e) { assert old(Mirrored(e)); }
    }

    /** The write of an atomic operation on the word of `mResult`. */
    method StoreResult(c: Cid, x: Word, ghost s': State)
      requires Objects() && c in data && ViewOf(log, c).made
      requires OnlyChanges(log, s', c) && SameCurrent(log, s') && ViewOf(s', c) == ViewOf(log, c).(result := x)
      modifies this`log, data[c]
      ensures Objects() && log == s' && data[c].mResult == x
    {
      assert Mirrored(c);
      data[c].mResult := x;
      log := s';
      forall e ensures Mirrored(e) { assert old(Mirrored(e)); }
    }

    /** The write of an atomic operation on `mCaller`. */
    method StoreCaller(c: Cid, x: Caller, ghost s': State)
      requires Objects() && c in runners && ViewOf(log, c).away
      requires OnlyChanges(log, s', c) && SameCurrent(log, s') && ViewOf(s', c) == ViewOf(log, c).(caller := x)
      modifies this`log, runners[c]
      ensures Objects() && log == s' && runners[c].mCaller == x
    {
      assert Mirrored(c);
      runners[c].mCaller := x;
      log := s';
      forall e ensures Mirrored(e) { assert old(Mirrored(e)); }
    }

    /** suspend() of the future `f`; when it fails, the loop in resume() makes `c` current again. */
    method SuspendAtFuture(t: Tid, c: Cid, f: Fid, cb: Runner) returns (res: bool)
      requires Valid() && At(log, t, c) && log.TopPc(t) == LeftFuture(f) && cb == log.w.RunnerOf(c) && c in data
      modifies this, data[c]
      ensures Valid() && log == Next(old(log), PostLeave(t)) && data == old(data)
      ensures log.Co(c).pc == if res then Parked else InBody
      ensures res <==> old(Ptr(f)) == Empty
      ensures Ptr(f) == if res then Task(cb) else Invalid
    {
      assert Mirrored(c);
      ghost var s' := SuspendAtFutureView(log, t, c, f);
      res := Ptr(f) == Empty;
      if res {
        StoreWord(f, Task(cb), s');
      } else {
        MakeCurrent(t, c, s');
      }
    }

    /** `cb.mCaller.exchange(nullptr)` in await_suspend(). */
    method TakeCaller(t: Tid, c: Cid, b: Cid)
      requires Valid() && At(log, t, c) && log.TopPc(t) == JoinTake(b) && c in runners
      modifies this, runners[c]
      ensures Valid() && log == Next(old(log), PostLeave(t)) && data == old(data) && runners == old(runners)
      ensures runners[c].mCaller == Null && log.Co(c).pc == JoinSuspend(b)
    {
      ghost var s' := TakeCallerView(log, t, c, b);
      StoreCaller(c, Null, s');
    }

    /** `d->mResult.suspend(cb)` in await_suspend(); when it fails, the loop in resume() makes `c` current again. */
    method SuspendAtRoutine(t: Tid, c: Cid, b: Cid, cb: Runner) returns (res: bool)
      requires Valid() && At(log, t, c) && log.TopPc(t) == JoinSuspend(b) && b in data && c in data
      requires cb == log.w.RunnerOf(c)
      modifies this, data[b], data[c]
      ensures Valid() && log == Next(old(log), PostLeave(t)) && data == old(data)
      ensures log.Co(c).pc == if res then JoinCas(b) else InBody
      ensures res <==> old(data[b].mResult) == Empty
      ensures data[b].mResult == if res then Task(cb) else Invalid
    {
      assert Mirrored(b);
      AwaitedIsMade(log, t, c, b);
      res := data[b].mResult == Empty;
      if res {
        ghost var s' := RegisterView(log, t, c, b);
        StoreResult(b, Task(cb), s');
      } else {
        ghost var s' := AlreadyFinishedView(log, t, c, b);
        MakeCurrent(t, c, s');
      }
    }

    /** The CAS on `mContinuation` in await_suspend(); false means that the spin has to follow. */
    method CasContinuation(t: Tid, c: Cid, b: Cid) returns (res: bool)
      requires Valid() && At(log, t, c) && log.TopPc(t) == JoinCas(b) && b in data
      modifies this, data[b]
      ensures Valid() && log == Next(old(log), PostLeave(t)) && data == old(data)
      ensures log.Co(c).pc == if res then Parked else JoinSpin(b)
      ensures res <==> old(data[b].mContinuation) == NoCont
      ensures data[b].mContinuation == if res then To(c) else Closed
    {
      assert Mirrored(b);
      ghost var s' := CasContinuationView(log, t, c, b);
      res := data[b].mContinuation == NoCont;
      if res {
        StoreContinuation(b, To(c), s');
      } else {
        NoWrite(s');
      }
    }

    /** One look at `mCaller` in the spin; when it is over, the loop in resume() makes `c` current again. */
    method Spin(t: Tid, c: Cid, b: Cid) returns (over: bool)
      requires Valid() && At(log, t, c) && log.TopPc(t) == JoinSpin(b) && c in data && c in runners
      modifies this, data[c]
      ensures Valid() && log == Next(old(log), PostLeave(t)) && data == old(data)
      ensures over <==> old(runners[c].mCaller) == One
      ensures log.Co(c).pc == if over then InBody else JoinSpin(b)
    {
      assert Mirrored(c);
      ghost var s' := SpinView(log, t, c, b);
      over := runners[c].mCaller == One;
      if over { MakeCurrent(t, c, s'); }
    }

    /** `mContinuation.exchange(1)` in resume(): the coroutine that resume() is going to return. */
    method ExchangeContinuation(t: Tid, c: Cid) returns (res: Option<Cid>)
      requires Valid() && At(log, t, c) && log.TopPc(t) == FinExchange && c in data
      modifies this, data[c]
      ensures Valid() && log == Next(old(log), PostLeave(t)) && data == old(data)
      ensures match old(data[c].mContinuation) case To(a) => res == Some(a) case _ => res == None
      ensures data[c].mContinuation == Closed && log.Co(c).pc == FinClose(res)
    {
      assert Mirrored(c);
      ghost var s' := ExchangeView(log, t, c);
      res := match data[c].mContinuation case To(a) => Some(a) case _ => None;
      StoreContinuation(c, Closed, s');
    }

    /** The CAS on `mContinuation` in ResultSetter, which never finds an awaiter there. */
    method CloseContinuation(t: Tid, c: Cid)
      requires Valid() && At(log, t, c) && log.TopPc(t).FinClose? && c in data
      modifies this, data[c]
      ensures Valid() && log == Next(old(log), PostLeave(t)) && data == old(data)
      ensures !old(data[c].mContinuation).To? && data[c].mContinuation == Closed
    {
      assert Mirrored(c);
      ghost var s' := CloseView(log, t, c);
      if data[c].mContinuation == NoCont {
        StoreContinuation(c, Closed, s');
      } else {
        NoWrite(s');
      }
    }

    /** The exchange in `mResult.set_value()`: the runner to call, if somebody has registered. */
    method SetResult(t: Tid, c: Cid) returns (continuation: Option<Runner>)
      requires Valid() && At(log, t, c) && log.TopPc(t).FinSet? && c in data
      modifies this, data[c]
      ensures Valid() && log == Next(old(log), PostLeave(t)) && data == old(data)
      ensures data[c].mResult == Invalid
      ensures match old(data[c].mResult) case Task(r) => continuation == Some(r) case _ => continuation == None
      ensures match continuation
              case Some(r) => log.Co(c).pc.FinCall? && log.Co(c).pc.r == r
              case None => log.Co(c).pc.FinReturn?
    {
      assert Mirrored(c);
      ghost var s' := SetResultView(log, t, c);
      continuation := match data[c].mResult case Task(r) => Some(r) case _ => None;
      StoreResult(c, Invalid, s');
    }

    /** resume() returns null. */
    method ReturnNull(t: Tid, c: Cid)
      requires Valid() && At(log, t, c) && log.TopPc(t) == FinReturn(None)
      modifies this
      ensures Valid() && log == Next(old(log), PostLeave(t)) && data == old(data)
    {
      ghost var s' := ReturnView(log, t, c);
      NoWrite(s');
    }

    /** resume() returns `a`, and the loop in `Runner::operator()` resumes it. */
    method Continue(t: Tid, c: Cid, a: Cid)
      requires Valid() && At(log, t, c) && log.TopPc(t) == FinReturn(Some(a)) && a in data
      modifies this, data[a]
      ensures Valid() && log == Next(old(log), PostLeave(t)) && data == old(data)
      ensures old(Current(t)) == None && Current(t) == Some(a) && log.Co(a).pc == InBody
    {
      assert Mirrored(a);
      ghost var s' := ContinueIs(log, t, c, a);
      ContinuedIsAway(log, t, c, a);
      ContinueView(log, t, c, a, s');
      MakeCurrent(t, a, s');
    }

    /** The exchange in on_ready() of the plain future `f`: the runner to call. */
    method SetFuture(t: Tid, f: Fid) returns (continuation: Option<Runner>)
      requires Valid() && Enabled(log, Step.SetFuture(t, f))
      modifies this
      ensures Valid() && log == Next(old(log), Step.SetFuture(t, f)) && data == old(data)
      ensures Ptr(f) == Invalid && forall g | g != f :: Ptr(g) == old(Ptr(g))
      ensures match old(Ptr(f)) case Task(r) => continuation == Some(r) case _ => continuation == None
      ensures match continuation
              case Some(r) => log.k.Calls(t) && log.k.Top(t) == Calling(r)
              case None => log.k == old(log).k
    {
      ghost var s' := SetFutureView(log, t, f);
      continuation := match Ptr(f) case Task(r) => Some(r) case _ => None;
      StoreWord(f, Invalid, s');
    }

    /** `mCaller.exchange(1)` in `Runner::operator()` and the resume() that follows. */
    method Wake(t: Tid, r: Runner, ghost s': State)
      requires Objects() && r.co in data && r.co in runners && log.k.Current(t) == None && ViewOf(log, r.co).away
      requires OnlyChanges(log, s', r.co) && SetsCurrent(log, s', t, Some(r.co))
      requires ViewOf(s', r.co) == ViewOf(log, r.co).(away := false, outer := None, caller := One)
      modifies this`current, this`log, data[r.co], runners[r.co]
      ensures Objects() && log == s' && current == old(current)[t := Some(r.co)]
      ensures runners[r.co].mCaller == One
    {
      assert Mirrored(r.co);
      runners[r.co].mCaller := One;
      data[r.co].mOuter, current := Current(t), current[t := Some(r.co)];
      log := s';
      forall e ensures Mirrored(e) { assert old(Mirrored(e)); }
    }

    /**
     `Runner::operator()` of `r` up to the first operation of the body it resumes. `a` is the step of
     its caller: the setter of a future or an io_context, or the finishing routine that `r` awaits.
     */
    method RunnerCall(t: Tid, r: Runner, ghost a: Step) returns (called: Called)
      requires Valid() && Enabled(log, a) && CallsRunner(log, t, r, a) && r.co in data && r.co in runners
      modifies this`current, this`log, data[r.co], runners[r.co]
      ensures Valid() && log == Next(old(log), a)
      ensures called == Posted <==> old(Current(t)).Some?
      ensures called == Nothing <==> a.PostLeave?
      ensures match called
              case Posted => r in log.w.posted && runners[r.co].mCaller == Self
              case Resumed => Current(t) == Some(r.co) && log.Co(r.co).pc == InBody && runners[r.co].mCaller == One
              case Nothing => Current(t) == old(Current(t)) && runners[r.co].mCaller == One
    {
      FoundInCaller(log, t, r, a);
      assert Mirrored(r.co);
      var curr := Current(t);
      if curr.Some? {
        ghost var s' := PostRunnerView(log, t, r);
        NoWrite(s');
        return Posted;
      }
      match runners[r.co].mCaller {
        case Self =>
          ghost var s' := WakeIs(log, t, r);
          WakeView(log, t, r, s');
          Wake(t, r, s');
          called := Resumed;
        case Null =>
          ghost var s' := CallAwaiterIs(log, t, log.TopCo(t));
          CallAwaiterView(log, t, log.TopCo(t), s');
          StoreCaller(r.co, One, s');
          called := Nothing;
        case One => assert false;
      }
    }
  }
}
