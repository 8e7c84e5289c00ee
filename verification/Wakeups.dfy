/**
 The wake-up words of `co::Routine`: futures, runners, `mContinuation` and `mResult`, and the
 rule that every right to resume a coroutine has exactly one holder.
 */
module Wakeups {
  import opened Options
  import opened Stacks

  type Fid = nat

  /** `LightFutureData::continuationPtr`: empty, a runner, the task of a blocked thread, or ready. */
  datatype Word = Empty | Task(r: Runner) | Waiter(t: Tid) | Invalid
  {
    predicate Taken() { Task? || Waiter? }
  }

  /** `Runner::mCaller`: the coroutine itself, null, or the sentinel 1. */
  datatype Caller = Self | Null | One

  /** `Data::mContinuation`: null, a coroutine to resume, or the sentinel 1. */
  datatype Cont = NoCont | To(co: Cid) | Closed

  /** Who holds the right to resume a coroutine: a word, a runner call, an io_context, or the routine it awaits. */
  datatype Via = ViaFuture(f: Fid) | ViaCall(t: Tid) | ViaPost | ViaJoin(b: Cid)

  /** Where a coroutine is between two atomic operations. */
  datatype Pc =
    | Absent
    | InBody
    | LeftFuture(f: Fid)          // stack left, registration at a future pending
    | JoinTake(b: Cid)            // stack left, before mCaller.exchange(nullptr)
    | JoinSuspend(b: Cid)         // before mResult.suspend(cb)
    | JoinCas(b: Cid)             // before the CAS on mContinuation
    | JoinSpin(b: Cid)            // waiting for mCaller to become 1
    | Parked
    | Unwinding                   // body over, the callable is being destroyed, before mPull() returns
    | FinExchange                 // mPull() has returned, before mContinuation.exchange(1) in resume()
    | FinClose(res: Option<Cid>)  // before the CAS null -> 1 in ResultSetter
    | FinSet(res: Option<Cid>)    // before the exchange in mResult.set_value
    | FinCall(res: Option<Cid>, r: Runner) // before the call of the awaiter's runner
    | FinReturn(res: Option<Cid>) // resume() returns res
    | Done

  predicate Executing(pc: Pc) { !pc.Absent? && !pc.Parked? && !pc.Done? }
  /** The coroutine is inside an await: the frame that holds its runner is alive. */
  predicate Away(pc: Pc) {
    pc.LeftFuture? || pc.JoinTake? || pc.JoinSuspend? || pc.JoinCas? || pc.JoinSpin? || pc.Parked?
  }
  predicate Finished(pc: Pc) { pc.FinCall? || pc.FinReturn? || pc.Done? }
  function Res(pc: Pc): Option<Cid> {
    if pc.FinClose? || pc.FinSet? || pc.FinCall? || pc.FinReturn? then pc.res else None
  }

  /** `Routine::Data` and the runner of its latest await. */
  datatype Coroutine = Coroutine(
    pc: Pc,
    cont: Cont,       // mContinuation
    result: Word,     // the word of mResult
    caller: Caller,   // mCaller of the runner of the latest await
    epoch: nat,       // number of times the coroutine has left its stack
    published: bool,  // the constructor has returned
    via: Via)         // holder of a registered coroutine, for the proofs only

  const Fresh := Coroutine(Absent, NoCont, Empty, Null, 0, false, ViaPost)

  datatype Wakes = Wakes(
    cos: map<Cid, Coroutine>,
    futs: map<Fid, Word>,      // the words of the plain futures
    posted: set<Runner>,       // runners handed to an io_context
    calling: map<Tid, Runner>) // runners being called
  {
    function Co(c: Cid): Coroutine { if c in cos then cos[c] else Fresh }
    function Fut(f: Fid): Word { if f in futs then futs[f] else Empty }
    function RunnerOf(c: Cid): Runner { Runner(c, Co(c).epoch) }

    function Put(c: Cid, x: Coroutine): Wakes { this.(cos := cos[c := x]) }
    function SetPc(c: Cid, pc: Pc): Wakes { Put(c, Co(c).(pc := pc)) }
    function SetVia(c: Cid, via: Via): Wakes { Put(c, Co(c).(via := via)) }

    /** The stack of `c` is left for an await, with a new runner in the frame it leaves. */
    function NewAwait(c: Cid, pc: Pc): Wakes {
      Put(c, Co(c).(pc := pc, epoch := Co(c).epoch + 1, caller := Self))
    }

    /** The callable is destroyed; in its first run that ends inside the constructor of mPull, not in resume(). */
    function Unwound(c: Cid): Wakes { SetPc(c, if Co(c).epoch == 0 then FinClose(None) else FinExchange) }

    // await on a future: suspend(func) succeeded, the last resume() or the constructor returns
    function ParkAtFuture(c: Cid, f: Fid): Wakes {
      this.(futs := futs[f := Task(RunnerOf(c))])
          .Put(c, Co(c).(pc := Parked, via := ViaFuture(f), published := true))
    }

    // a thread suspends in wait()
    function WaitAtFuture(f: Fid, t: Tid): Wakes { this.(futs := futs[f := Waiter(t)]) }
    function WaitAtRoutine(b: Cid, t: Tid): Wakes { Put(b, Co(b).(result := Waiter(t))) }

    // await on a routine, operation by operation
    function GiveUpCaller(c: Cid, b: Cid): Wakes { Put(c, Co(c).(caller := Null, pc := JoinSuspend(b))) }
    function Register(c: Cid, b: Cid): Wakes {
      var w := Put(b, Co(b).(result := Task(RunnerOf(c))));
      w.Put(c, w.Co(c).(pc := JoinCas(b), via := ViaJoin(b)))
    }
    function ParkAtRoutine(c: Cid, b: Cid): Wakes {
      var w := Put(b, Co(b).(cont := To(c)));
      w.Put(c, w.Co(c).(pc := Parked, published := true))
    }

    // the end of a routine, operation by operation
    function ExchangeCont(c: Cid): Wakes {
      Put(c, Co(c).(cont := Closed, pc := FinClose(if Co(c).cont.To? then Some(Co(c).cont.co) else None)))
    }
    function CloseCont(c: Cid, res: Option<Cid>): Wakes {
      Put(c, Co(c).(cont := if Co(c).cont == NoCont then Closed else Co(c).cont, pc := FinSet(res)))
    }
    function SetResult(c: Cid, res: Option<Cid>): Wakes {
      Put(c, Co(c).(result := Invalid,
                    pc := if Co(c).result.Task? then FinCall(res, Co(c).result.r) else FinReturn(res)))
    }
    function Finish(c: Cid): Wakes { Put(c, Co(c).(pc := Done, published := true)) }

    // set_value of a plain future
    function SetReady(f: Fid): Wakes { this.(futs := futs[f := Invalid]) }
    function SetAndCall(f: Fid, t: Tid): Wakes
      requires Fut(f).Task?
    {
      SetReady(f).(calling := calling[t := Fut(f).r]).SetVia(Fut(f).r.co, ViaCall(t))
    }

    // Runner::operator()
    function TakePosted(r: Runner, t: Tid): Wakes {
      this.(posted := posted - {r}, calling := calling[t := r]).SetVia(r.co, ViaCall(t))
    }
    function Called(t: Tid): Wakes { this.(calling := calling - {t}) }
    function Posts(r: Runner): Wakes { this.(posted := posted + {r}).SetVia(r.co, ViaPost) }
    function TakeCaller(c: Cid): Wakes { Put(c, Co(c).(caller := One)) }
  }

  const Init := Wakes(map[], map[], {}, map[])

  // ---------- the invariant ----------

  /** `r` is the runner of a parked coroutine, and `via` holds it. */
  ghost predicate Held(w: Wakes, r: Runner, via: Via) {
    var x := w.Co(r.co);
    x.pc.Parked? && x.via == via && x.epoch == r.epoch && x.caller == Self
  }

  /** The one holder of a parked coroutine really holds it. */
  ghost predicate Holder(w: Wakes, c: Cid) {
    match w.Co(c).via
    case ViaFuture(f) => w.Fut(f) == Task(w.RunnerOf(c))
    case ViaCall(t) => t in w.calling && w.calling[t] == w.RunnerOf(c)
    case ViaPost => w.RunnerOf(c) in w.posted
    case ViaJoin(b) => w.Co(b).cont == To(c) || Res(w.Co(b).pc) == Some(c)
  }

  /** The runner of `a` is in the word of `b`, is about to be called by `b`, or has been called. */
  ghost predicate Awaits(w: Wakes, a: Cid, b: Cid) {
    var x, y := w.Co(a), w.Co(b);
    && x.via == ViaJoin(b)
    && (if x.caller == One then y.pc.FinReturn? || y.pc.Done?
        else x.caller == Null && (y.result == Task(w.RunnerOf(a)) || (y.pc.FinCall? && y.pc.r == w.RunnerOf(a))))
  }

  ghost predicate AwaitOk(w: Wakes, c: Cid) {
    var x := w.Co(c);
    match x.pc
    case Absent => x == Fresh
    case Parked => Holder(w, c)
    case LeftFuture(_) => x.caller == Self
    case JoinTake(b) => w.Co(b).published
    case JoinSuspend(b) => w.Co(b).published && x.caller == Null
    case JoinCas(b) => Awaits(w, c, b)
    case JoinSpin(b) => Awaits(w, c, b) && w.Co(b).cont == Closed
    case _ => true
  }

  /** `r` is registered at the routine `b` and cannot resume its coroutine itself. */
  ghost predicate Registered(w: Wakes, r: Runner, b: Cid) {
    var x := w.Co(r.co);
    x.epoch == r.epoch && x.caller == Null && x.via == ViaJoin(b) && (x.pc.JoinCas? || x.pc.JoinSpin? || x.pc.Parked?)
  }

  ghost predicate ResultOk(w: Wakes, b: Cid) {
    var y := w.Co(b);
    && (y.result == Invalid <==> Finished(y.pc))
    && (y.result.Task? ==> y.published && Registered(w, y.result.r, b))
    && (y.pc.FinCall? ==> y.published && Registered(w, y.pc.r, b))
  }

  ghost predicate ContOk(w: Wakes, b: Cid) {
    var y := w.Co(b);
    && (y.cont.To? ==> y.published && w.Co(y.cont.co).pc.Parked? && y.result == Task(w.RunnerOf(y.cont.co)))
    && (y.cont == Closed ==> Finished(y.pc) || y.pc.FinClose? || y.pc.FinSet?)
    && (Finished(y.pc) || y.pc.FinSet? ==> y.cont == Closed)
    && (y.pc.FinClose? ==> y.cont == Closed || (y.cont == NoCont && !y.published))
    && (Res(y.pc).Some? ==> y.published && HandsOver(w, b, Res(y.pc).value))
    && (y.published || Away(y.pc) ==> y.pc.Done? || y.epoch > 0)
  }

  /** The finishing `b` will resume `a`, whose runner it can no longer use for that. */
  ghost predicate HandsOver(w: Wakes, b: Cid, a: Cid) {
    w.Co(a).pc.Parked? && w.Co(a).via == ViaJoin(b) && w.Co(a).caller != Self
  }

  /** Every right to resume has one holder, and every parked or waiting coroutine has one such right. */
  ghost predicate Inv(w: Wakes) {
    && (forall f | w.Fut(f).Task? :: Held(w, w.Fut(f).r, ViaFuture(f)))
    && (forall r | r in w.posted :: Held(w, r, ViaPost))
    && (forall t | t in w.calling :: Held(w, w.calling[t], ViaCall(t)))
    && (forall c :: AwaitOk(w, c))
    && (forall b :: ResultOk(w, b))
    && (forall b :: ContOk(w, b))
  }

  // ---------- every operation keeps the invariant ----------

  lemma ConstructKeeps(w: Wakes, c: Cid)
    requires Inv(w)
    requires w.Co(c) == Fresh
    ensures Inv(w.SetPc(c, InBody))
  {
    var w' := w.SetPc(c, InBody);
    forall d ensures AwaitOk(w', d) { assert AwaitOk(w, d); }
    forall d ensures ResultOk(w', d) { assert ResultOk(w, d); }
    forall d ensures ContOk(w', d) { assert ContOk(w, d); }
  }

  lemma NewAwaitKeepsAwait(w: Wakes, c: Cid, pc: Pc, d: Cid)
    requires Inv(w)
    requires w.Co(c).pc.InBody?
    requires pc.LeftFuture? || (pc.JoinTake? && w.Co(pc.b).published)
    ensures AwaitOk(w.NewAwait(c, pc), d)
  {
    assert AwaitOk(w, d);
  }

  lemma NewAwaitKeepsResult(w: Wakes, c: Cid, pc: Pc, d: Cid)
    requires Inv(w)
    requires w.Co(c).pc.InBody?
    requires pc.LeftFuture? || (pc.JoinTake? && w.Co(pc.b).published)
    ensures ResultOk(w.NewAwait(c, pc), d)
  {
    assert ResultOk(w, c);
    assert ResultOk(w, d);
  }

  lemma NewAwaitKeepsCont(w: Wakes, c: Cid, pc: Pc, d: Cid)
    requires Inv(w)
    requires w.Co(c).pc.InBody?
    requires pc.LeftFuture? || (pc.JoinTake? && w.Co(pc.b).published)
    ensures ContOk(w.NewAwait(c, pc), d)
  {
    assert ContOk(w, c);
    assert ContOk(w, d);
  }

  lemma NewAwaitKeeps(w: Wakes, c: Cid, pc: Pc)
    requires Inv(w)
    requires w.Co(c).pc.InBody?
    requires pc.LeftFuture? || (pc.JoinTake? && w.Co(pc.b).published)
    ensures Inv(w.NewAwait(c, pc))
  {
    var w' := w.NewAwait(c, pc);
    forall d ensures AwaitOk(w', d) { NewAwaitKeepsAwait(w, c, pc, d); }
    forall d ensures ResultOk(w', d) { NewAwaitKeepsResult(w, c, pc, d); }
    forall d ensures ContOk(w', d) { NewAwaitKeepsCont(w, c, pc, d); }
  }

  lemma EndBodyKeeps(w: Wakes, c: Cid)
    requires Inv(w)
    requires w.Co(c).pc.InBody?
    ensures Inv(w.SetPc(c, Unwinding))
  {
    var w' := w.SetPc(c, Unwinding);
    forall d ensures AwaitOk(w', d) { assert AwaitOk(w, d); }
    forall d ensures ResultOk(w', d) { assert ResultOk(w, c); assert ResultOk(w, d); }
    forall d ensures ContOk(w', d) { assert ContOk(w, c); assert ContOk(w, d); }
  }

  lemma UnwoundKeepsAwait(w: Wakes, c: Cid, d: Cid)
    requires Inv(w)
    requires w.Co(c).pc.Unwinding?
    ensures AwaitOk(w.Unwound(c), d)
  {
    assert AwaitOk(w, d);
  }

  lemma UnwoundKeepsResult(w: Wakes, c: Cid, d: Cid)
    requires Inv(w)
    requires w.Co(c).pc.Unwinding?
    ensures ResultOk(w.Unwound(c), d)
  {
    assert ResultOk(w, c);
    assert ResultOk(w, d);
  }

  lemma UnwoundKeepsCont(w: Wakes, c: Cid, d: Cid)
    requires Inv(w)
    requires w.Co(c).pc.Unwinding?
    ensures ContOk(w.Unwound(c), d)
  {
    assert ContOk(w, c);
    assert ContOk(w, d);
  }

  lemma UnwoundKeeps(w: Wakes, c: Cid)
    requires Inv(w)
    requires w.Co(c).pc.Unwinding?
    ensures Inv(w.Unwound(c))
  {
    var w' := w.Unwound(c);
    forall d ensures AwaitOk(w', d) { UnwoundKeepsAwait(w, c, d); }
    forall d ensures ResultOk(w', d) { UnwoundKeepsResult(w, c, d); }
    forall d ensures ContOk(w', d) { UnwoundKeepsCont(w, c, d); }
  }

  lemma WaitAtFutureKeeps(w: Wakes, f: Fid, t: Tid)
    requires Inv(w)
    requires w.Fut(f) == Empty
    ensures Inv(w.WaitAtFuture(f, t))
  {
    var w' := w.WaitAtFuture(f, t);
    forall d ensures AwaitOk(w', d) { assert AwaitOk(w, d); }
    forall d ensures ResultOk(w', d) { assert ResultOk(w, d); }
    forall d ensures ContOk(w', d) { assert ContOk(w, d); }
  }

  lemma WaitAtRoutineKeepsAwait(w: Wakes, b: Cid, t: Tid, d: Cid)
    requires Inv(w)
    requires w.Co(b).result == Empty && w.Co(b).published
    ensures AwaitOk(w.WaitAtRoutine(b, t), d)
  {
    assert AwaitOk(w, b);
    assert ContOk(w, b);
    assert AwaitOk(w, d);
  }

  lemma WaitAtRoutineKeepsResult(w: Wakes, b: Cid, t: Tid, d: Cid)
    requires Inv(w)
    requires w.Co(b).result == Empty && w.Co(b).published
    ensures ResultOk(w.WaitAtRoutine(b, t), d)
  {
    assert ResultOk(w, b);
    assert ResultOk(w, d);
  }

  lemma WaitAtRoutineKeepsCont(w: Wakes, b: Cid, t: Tid, d: Cid)
    requires Inv(w)
    requires w.Co(b).result == Empty && w.Co(b).published
    ensures ContOk(w.WaitAtRoutine(b, t), d)
  {
    assert ContOk(w, b);
    assert ContOk(w, d);
  }

  lemma WaitAtRoutineKeeps(w: Wakes, b: Cid, t: Tid)
    requires Inv(w)
    requires w.Co(b).result == Empty && w.Co(b).published
    ensures Inv(w.WaitAtRoutine(b, t))
  {
    var w' := w.WaitAtRoutine(b, t);
    forall d ensures AwaitOk(w', d) { WaitAtRoutineKeepsAwait(w, b, t, d); }
    forall d ensures ResultOk(w', d) { WaitAtRoutineKeepsResult(w, b, t, d); }
    forall d ensures ContOk(w', d) { WaitAtRoutineKeepsCont(w, b, t, d); }
  }

  lemma AgainKeepsAwait(w: Wakes, c: Cid, d: Cid)
    requires Inv(w)
    requires w.Co(c).pc.LeftFuture? || w.Co(c).pc.JoinSuspend? || (w.Co(c).pc.JoinSpin? && w.Co(c).caller == One)
    ensures AwaitOk(w.SetPc(c, InBody), d)
  {
    assert AwaitOk(w, c);
    assert AwaitOk(w, d);
  }

  lemma AgainKeepsResult(w: Wakes, c: Cid, d: Cid)
    requires Inv(w)
    requires w.Co(c).pc.LeftFuture? || w.Co(c).pc.JoinSuspend? || (w.Co(c).pc.JoinSpin? && w.Co(c).caller == One)
    ensures ResultOk(w.SetPc(c, InBody), d)
  {
    assert AwaitOk(w, c);
    assert ResultOk(w, c);
    assert ResultOk(w, d);
  }

  lemma AgainKeepsCont(w: Wakes, c: Cid, d: Cid)
    requires Inv(w)
    requires w.Co(c).pc.LeftFuture? || w.Co(c).pc.JoinSuspend? || (w.Co(c).pc.JoinSpin? && w.Co(c).caller == One)
    ensures ContOk(w.SetPc(c, InBody), d)
  {
    assert ContOk(w, c);
    assert ContOk(w, d);
  }

  lemma AgainKeeps(w: Wakes, c: Cid)
    requires Inv(w)
    requires w.Co(c).pc.LeftFuture? || w.Co(c).pc.JoinSuspend? || (w.Co(c).pc.JoinSpin? && w.Co(c).caller == One)
    ensures Inv(w.SetPc(c, InBody))
  {
    var w' := w.SetPc(c, InBody);
    forall d ensures AwaitOk(w', d) { AgainKeepsAwait(w, c, d); }
    forall d ensures ResultOk(w', d) { AgainKeepsResult(w, c, d); }
    forall d ensures ContOk(w', d) { AgainKeepsCont(w, c, d); }
  }

  lemma ParkAtFutureKeepsAwait(w: Wakes, c: Cid, f: Fid, d: Cid)
    requires Inv(w)
    requires w.Co(c).pc == LeftFuture(f) && w.Fut(f) == Empty
    ensures AwaitOk(w.ParkAtFuture(c, f), d)
  {
    assert AwaitOk(w, c);
    assert AwaitOk(w, d);
  }

  lemma ParkAtFutureKeepsResult(w: Wakes, c: Cid, f: Fid, d: Cid)
    requires Inv(w)
    requires w.Co(c).pc == LeftFuture(f) && w.Fut(f) == Empty
    ensures ResultOk(w.ParkAtFuture(c, f), d)
  {
    assert ResultOk(w, c);
    assert ResultOk(w, d);
  }

  lemma ParkAtFutureKeepsCont(w: Wakes, c: Cid, f: Fid, d: Cid)
    requires Inv(w)
    requires w.Co(c).pc == LeftFuture(f) && w.Fut(f) == Empty
    ensures ContOk(w.ParkAtFuture(c, f), d)
  {
    assert ContOk(w, c);
    assert ContOk(w, d);
  }

  lemma ParkAtFutureKeeps(w: Wakes, c: Cid, f: Fid)
    requires Inv(w)
    requires w.Co(c).pc == LeftFuture(f) && w.Fut(f) == Empty
    ensures Inv(w.ParkAtFuture(c, f))
  {
    var w' := w.ParkAtFuture(c, f);
    assert AwaitOk(w, c);
    forall d ensures AwaitOk(w', d) { ParkAtFutureKeepsAwait(w, c, f, d); }
    forall d ensures ResultOk(w', d) { ParkAtFutureKeepsResult(w, c, f, d); }
    forall d ensures ContOk(w', d) { ParkAtFutureKeepsCont(w, c, f, d); }
  }

  lemma GiveUpCallerKeeps(w: Wakes, c: Cid, b: Cid)
    requires Inv(w)
    requires w.Co(c).pc == JoinTake(b)
    ensures Inv(w.GiveUpCaller(c, b))
  {
    var w' := w.GiveUpCaller(c, b);
    forall d ensures AwaitOk(w', d) { assert AwaitOk(w, c); assert AwaitOk(w, d); }
    forall d ensures ResultOk(w', d) { assert ResultOk(w, c); assert ResultOk(w, d); }
    forall d ensures ContOk(w', d) { assert ContOk(w, c); assert ContOk(w, d); }
  }

  lemma RegisterKeepsAwait(w: Wakes, c: Cid, b: Cid, d: Cid)
    requires Inv(w)
    requires w.Co(c).pc == JoinSuspend(b) && w.Co(b).result == Empty
    ensures AwaitOk(w.Register(c, b), d)
  {
    assert AwaitOk(w, c);
    assert AwaitOk(w, b);
    assert AwaitOk(w, d);
  }

  lemma RegisterKeepsResult(w: Wakes, c: Cid, b: Cid, d: Cid)
    requires Inv(w)
    requires w.Co(c).pc == JoinSuspend(b) && w.Co(b).result == Empty
    ensures ResultOk(w.Register(c, b), d)
  {
    assert AwaitOk(w, c);
    assert ResultOk(w, b);
    assert ResultOk(w, c);
    assert ResultOk(w, d);
  }

  lemma RegisterKeepsCont(w: Wakes, c: Cid, b: Cid, d: Cid)
    requires Inv(w)
    requires w.Co(c).pc == JoinSuspend(b) && w.Co(b).result == Empty
    ensures ContOk(w.Register(c, b), d)
  {
    assert ContOk(w, b);
    assert ContOk(w, c);
    assert ContOk(w, d);
  }

  lemma RegisterKeeps(w: Wakes, c: Cid, b: Cid)
    requires Inv(w)
    requires w.Co(c).pc == JoinSuspend(b) && w.Co(b).result == Empty
    ensures Inv(w.Register(c, b))
  {
    var w' := w.Register(c, b);
    forall d ensures AwaitOk(w', d) { RegisterKeepsAwait(w, c, b, d); }
    forall d ensures ResultOk(w', d) { RegisterKeepsResult(w, c, b, d); }
    forall d ensures ContOk(w', d) { RegisterKeepsCont(w, c, b, d); }
  }

  lemma ParkAtRoutineKeepsAwait(w: Wakes, c: Cid, b: Cid, d: Cid)
    requires Inv(w)
    requires w.Co(c).pc == JoinCas(b) && w.Co(b).cont == NoCont
    ensures AwaitOk(w.ParkAtRoutine(c, b), d)
  {
    assert AwaitOk(w, c);
    if d != c { ParkAtRoutineKeepsOther(w, c, b, d); }
  }

  lemma ParkAtRoutineKeepsOther(w: Wakes, c: Cid, b: Cid, d: Cid)
    requires Inv(w) && d != c
    requires w.Co(c).pc == JoinCas(b) && w.Co(b).cont == NoCont
    ensures AwaitOk(w.ParkAtRoutine(c, b), d)
  {
    assert AwaitOk(w, c) && ResultOk(w, b);
    assert AwaitOk(w, d);
  }

  lemma ParkAtRoutineKeepsResult(w: Wakes, c: Cid, b: Cid, d: Cid)
    requires Inv(w)
    requires w.Co(c).pc == JoinCas(b) && w.Co(b).cont == NoCont
    ensures ResultOk(w.ParkAtRoutine(c, b), d)
  {
    assert ResultOk(w, c);
    assert ResultOk(w, b);
    assert ResultOk(w, d);
  }

  lemma ParkAtRoutineKeepsCont(w: Wakes, c: Cid, b: Cid, d: Cid)
    requires Inv(w)
    requires w.Co(c).pc == JoinCas(b) && w.Co(b).cont == NoCont
    ensures ContOk(w.ParkAtRoutine(c, b), d)
  {
    assert AwaitOk(w, c);
    assert ResultOk(w, b);
    assert ContOk(w, b);
    assert ContOk(w, c);
    assert ContOk(w, d);
  }

  lemma ParkAtRoutineKeeps(w: Wakes, c: Cid, b: Cid)
    requires Inv(w)
    requires w.Co(c).pc == JoinCas(b) && w.Co(b).cont == NoCont
    ensures Inv(w.ParkAtRoutine(c, b))
  {
    var w' := w.ParkAtRoutine(c, b);
    forall d ensures AwaitOk(w', d) { ParkAtRoutineKeepsAwait(w, c, b, d); }
    forall d ensures ResultOk(w', d) { ParkAtRoutineKeepsResult(w, c, b, d); }
    forall d ensures ContOk(w', d) { ParkAtRoutineKeepsCont(w, c, b, d); }
  }

  lemma SpinKeepsAwait(w: Wakes, c: Cid, b: Cid, d: Cid)
    requires Inv(w)
    requires w.Co(c).pc == JoinCas(b) && w.Co(b).cont != NoCont
    ensures AwaitOk(w.SetPc(c, JoinSpin(b)), d)
  {
    assert AwaitOk(w, c);
    assert ContOk(w, b);
    assert AwaitOk(w, d);
  }

  lemma SpinKeepsResult(w: Wakes, c: Cid, b: Cid, d: Cid)
    requires Inv(w)
    requires w.Co(c).pc == JoinCas(b) && w.Co(b).cont != NoCont
    ensures ResultOk(w.SetPc(c, JoinSpin(b)), d)
  {
    assert ResultOk(w, c);
    assert ResultOk(w, d);
  }

  lemma SpinKeepsCont(w: Wakes, c: Cid, b: Cid, d: Cid)
    requires Inv(w)
    requires w.Co(c).pc == JoinCas(b) && w.Co(b).cont != NoCont
    ensures ContOk(w.SetPc(c, JoinSpin(b)), d)
  {
    assert ContOk(w, c);
    assert ContOk(w, d);
  }

  lemma SpinKeeps(w: Wakes, c: Cid, b: Cid)
    requires Inv(w)
    requires w.Co(c).pc == JoinCas(b) && w.Co(b).cont != NoCont
    ensures Inv(w.SetPc(c, JoinSpin(b)))
  {
    var w' := w.SetPc(c, JoinSpin(b));
    forall d ensures AwaitOk(w', d) { SpinKeepsAwait(w, c, b, d); }
    forall d ensures ResultOk(w', d) { SpinKeepsResult(w, c, b, d); }
    forall d ensures ContOk(w', d) { SpinKeepsCont(w, c, b, d); }
  }

  lemma ExchangeContKeepsAwait(w: Wakes, c: Cid, d: Cid)
    requires Inv(w)
    requires w.Co(c).pc == FinExchange
    ensures AwaitOk(w.ExchangeCont(c), d)
  {
    assert ContOk(w, c);
    assert AwaitOk(w, d);
  }

  lemma ExchangeContKeepsResult(w: Wakes, c: Cid, d: Cid)
    requires Inv(w)
    requires w.Co(c).pc == FinExchange
    ensures ResultOk(w.ExchangeCont(c), d)
  {
    assert ContOk(w, c);
    assert ResultOk(w, c);
    assert ResultOk(w, d);
  }

  lemma ExchangeContKeepsCont(w: Wakes, c: Cid, d: Cid)
    requires Inv(w)
    requires w.Co(c).pc == FinExchange
    ensures ContOk(w.ExchangeCont(c), d)
  {
    assert ContOk(w, c);
    assert ResultOk(w, c);
    assert ContOk(w, d);
  }

  lemma ExchangeContKeeps(w: Wakes, c: Cid)
    requires Inv(w)
    requires w.Co(c).pc == FinExchange
    ensures Inv(w.ExchangeCont(c))
  {
    var w' := w.ExchangeCont(c);
    assert ContOk(w, c);
    forall d ensures AwaitOk(w', d) { ExchangeContKeepsAwait(w, c, d); }
    forall d ensures ResultOk(w', d) { ExchangeContKeepsResult(w, c, d); }
    forall d ensures ContOk(w', d) { ExchangeContKeepsCont(w, c, d); }
  }

  lemma CloseContKeeps(w: Wakes, c: Cid)
    requires Inv(w)
    requires w.Co(c).pc.FinClose?
    ensures Inv(w.CloseCont(c, w.Co(c).pc.res))
  {
    var w' := w.CloseCont(c, w.Co(c).pc.res);
    forall d ensures AwaitOk(w', d) { assert AwaitOk(w, c); assert AwaitOk(w, d); }
    forall d ensures ResultOk(w', d) { assert ResultOk(w, c); assert ResultOk(w, d); }
    forall d ensures ContOk(w', d) { assert ContOk(w, c); assert ContOk(w, d); }
  }

  lemma SetResultKeeps(w: Wakes, c: Cid)
    requires Inv(w)
    requires w.Co(c).pc.FinSet?
    ensures Inv(w.SetResult(c, w.Co(c).pc.res))
  {
    var w' := w.SetResult(c, w.Co(c).pc.res);
    forall d ensures AwaitOk(w', d) { assert ResultOk(w, c); assert AwaitOk(w, d); }
    forall d ensures ResultOk(w', d) { assert ResultOk(w, c); assert ResultOk(w, d); }
    forall d ensures ContOk(w', d) { assert ContOk(w, c); assert ContOk(w, d); }
  }

  lemma CallAwaiterKeepsAwait(w: Wakes, c: Cid, a: Cid, d: Cid)
    requires Inv(w)
    requires w.Co(c).pc.FinCall? && w.Co(c).pc.r.co == a
    ensures AwaitOk(w.SetPc(c, FinReturn(w.Co(c).pc.res)).TakeCaller(a), d)
  {
    assert ResultOk(w, c);
    assert AwaitOk(w, a);
    assert AwaitOk(w, d);
  }

  lemma CallAwaiterKeepsResult(w: Wakes, c: Cid, a: Cid, d: Cid)
    requires Inv(w)
    requires w.Co(c).pc.FinCall? && w.Co(c).pc.r.co == a
    ensures ResultOk(w.SetPc(c, FinReturn(w.Co(c).pc.res)).TakeCaller(a), d)
  {
    assert ResultOk(w, c);
    assert ResultOk(w, a);
    assert ResultOk(w, d);
  }

  lemma CallAwaiterKeepsCont(w: Wakes, c: Cid, a: Cid, d: Cid)
    requires Inv(w)
    requires w.Co(c).pc.FinCall? && w.Co(c).pc.r.co == a
    ensures ContOk(w.SetPc(c, FinReturn(w.Co(c).pc.res)).TakeCaller(a), d)
  {
    assert ResultOk(w, c);
    assert ContOk(w, c);
    assert ContOk(w, a);
    assert ContOk(w, d);
  }

  lemma CallAwaiterKeeps(w: Wakes, c: Cid, a: Cid)
    requires Inv(w)
    requires w.Co(c).pc.FinCall? && w.Co(c).pc.r.co == a
    ensures Inv(w.SetPc(c, FinReturn(w.Co(c).pc.res)).TakeCaller(a))
  {
    var w' := w.SetPc(c, FinReturn(w.Co(c).pc.res)).TakeCaller(a);
    assert ResultOk(w, c);
    forall d ensures AwaitOk(w', d) { CallAwaiterKeepsAwait(w, c, a, d); }
    forall d ensures ResultOk(w', d) { CallAwaiterKeepsResult(w, c, a, d); }
    forall d ensures ContOk(w', d) { CallAwaiterKeepsCont(w, c, a, d); }
  }

  lemma FinishKeeps(w: Wakes, c: Cid)
    requires Inv(w)
    requires w.Co(c).pc == FinReturn(None)
    ensures Inv(w.Finish(c))
  {
    var w' := w.Finish(c);
    forall d ensures AwaitOk(w', d) { assert AwaitOk(w, c); assert AwaitOk(w, d); }
    forall d ensures ResultOk(w', d) { assert ResultOk(w, c); assert ResultOk(w, d); }
    forall d ensures ContOk(w', d) { assert ContOk(w, c); assert ContOk(w, d); }
  }

  lemma HandOverKeepsAwait(w: Wakes, c: Cid, a: Cid, d: Cid)
    requires Inv(w)
    requires w.Co(c).pc == FinReturn(Some(a))
    ensures AwaitOk(w.Finish(c).SetPc(a, InBody), d)
  {
    assert ContOk(w, c);
    assert AwaitOk(w, a);
    assert AwaitOk(w, d);
  }

  lemma HandOverKeepsResult(w: Wakes, c: Cid, a: Cid, d: Cid)
    requires Inv(w)
    requires w.Co(c).pc == FinReturn(Some(a))
    ensures ResultOk(w.Finish(c).SetPc(a, InBody), d)
  {
    assert ContOk(w, c);
    assert ResultOk(w, c);
    assert ResultOk(w, a);
    assert ResultOk(w, d);
  }

  lemma HandOverKeepsCont(w: Wakes, c: Cid, a: Cid, d: Cid)
    requires Inv(w)
    requires w.Co(c).pc == FinReturn(Some(a))
    ensures ContOk(w.Finish(c).SetPc(a, InBody), d)
  {
    assert ContOk(w, c);
    assert ContOk(w, a);
    assert ResultOk(w, d);
    assert ContOk(w, d);
  }

  lemma HandOverKeeps(w: Wakes, c: Cid, a: Cid)
    requires Inv(w)
    requires w.Co(c).pc == FinReturn(Some(a))
    ensures Inv(w.Finish(c).SetPc(a, InBody))
  {
    var w' := w.Finish(c).SetPc(a, InBody);
    assert ContOk(w, c);
    forall d ensures AwaitOk(w', d) { HandOverKeepsAwait(w, c, a, d); }
    forall d ensures ResultOk(w', d) { HandOverKeepsResult(w, c, a, d); }
    forall d ensures ContOk(w', d) { HandOverKeepsCont(w, c, a, d); }
  }

  lemma SetReadyKeeps(w: Wakes, f: Fid)
    requires Inv(w)
    requires !w.Fut(f).Task?
    ensures Inv(w.SetReady(f))
  {
    var w' := w.SetReady(f);
    forall d ensures AwaitOk(w', d) { assert AwaitOk(w, d); }
    forall d ensures ResultOk(w', d) { assert ResultOk(w, d); }
    forall d ensures ContOk(w', d) { assert ContOk(w, d); }
  }

  lemma SetAndCallKeeps(w: Wakes, f: Fid, t: Tid)
    requires Inv(w)
    requires t !in w.calling && w.Fut(f).Task?
    ensures Inv(w.SetAndCall(f, t))
  {
    var w' := w.SetAndCall(f, t);
    forall d ensures AwaitOk(w', d) { assert AwaitOk(w, w.Fut(f).r.co); assert AwaitOk(w, d); }
    forall d ensures ResultOk(w', d) { assert ResultOk(w, w.Fut(f).r.co); assert ResultOk(w, d); }
    forall d ensures ContOk(w', d) { assert ContOk(w, w.Fut(f).r.co); assert ContOk(w, d); }
  }

  lemma TakePostedKeepsAwait(w: Wakes, r: Runner, t: Tid, d: Cid)
    requires Inv(w)
    requires t !in w.calling && r in w.posted
    ensures AwaitOk(w.TakePosted(r, t), d)
  {
    assert AwaitOk(w, r.co);
    assert AwaitOk(w, d);
  }

  lemma TakePostedKeepsResult(w: Wakes, r: Runner, t: Tid, d: Cid)
    requires Inv(w)
    requires t !in w.calling && r in w.posted
    ensures ResultOk(w.TakePosted(r, t), d)
  {
    assert ResultOk(w, r.co);
    assert ResultOk(w, d);
  }

  lemma TakePostedKeepsCont(w: Wakes, r: Runner, t: Tid, d: Cid)
    requires Inv(w)
    requires t !in w.calling && r in w.posted
    ensures ContOk(w.TakePosted(r, t), d)
  {
    assert ContOk(w, r.co);
    assert ContOk(w, d);
  }

  lemma TakePostedKeeps(w: Wakes, r: Runner, t: Tid)
    requires Inv(w)
    requires t !in w.calling && r in w.posted
    ensures Inv(w.TakePosted(r, t))
  {
    var w' := w.TakePosted(r, t);
    forall d ensures AwaitOk(w', d) { TakePostedKeepsAwait(w, r, t, d); }
    forall d ensures ResultOk(w', d) { TakePostedKeepsResult(w, r, t, d); }
    forall d ensures ContOk(w', d) { TakePostedKeepsCont(w, r, t, d); }
  }

  lemma PostKeeps(w: Wakes, t: Tid)
    requires Inv(w)
    requires t in w.calling
    ensures Inv(w.Called(t).Posts(w.calling[t]))
  {
    var w' := w.Called(t).Posts(w.calling[t]);
    forall d ensures AwaitOk(w', d) { assert AwaitOk(w, w.calling[t].co); assert AwaitOk(w, d); }
    forall d ensures ResultOk(w', d) { assert ResultOk(w, w.calling[t].co); assert ResultOk(w, d); }
    forall d ensures ContOk(w', d) { assert ContOk(w, w.calling[t].co); assert ContOk(w, d); }
  }

  lemma WakeKeepsAwait(w: Wakes, t: Tid, c: Cid, d: Cid)
    requires Inv(w)
    requires t in w.calling && w.calling[t].co == c
    ensures AwaitOk(w.Called(t).TakeCaller(c).SetPc(c, InBody), d)
  {
    assert AwaitOk(w, c);
    assert AwaitOk(w, d);
  }

  lemma WakeKeepsResult(w: Wakes, t: Tid, c: Cid, d: Cid)
    requires Inv(w)
    requires t in w.calling && w.calling[t].co == c
    ensures ResultOk(w.Called(t).TakeCaller(c).SetPc(c, InBody), d)
  {
    assert ResultOk(w, c);
    assert ResultOk(w, d);
  }

  lemma WakeKeepsCont(w: Wakes, t: Tid, c: Cid, d: Cid)
    requires Inv(w)
    requires t in w.calling && w.calling[t].co == c
    ensures ContOk(w.Called(t).TakeCaller(c).SetPc(c, InBody), d)
  {
    assert ContOk(w, c);
    assert ResultOk(w, d);
    assert ContOk(w, d);
  }

  lemma WakeKeeps(w: Wakes, t: Tid, c: Cid)
    requires Inv(w)
    requires t in w.calling && w.calling[t].co == c
    ensures Inv(w.Called(t).TakeCaller(c).SetPc(c, InBody))
  {
    var w' := w.Called(t).TakeCaller(c).SetPc(c, InBody);
    forall d ensures AwaitOk(w', d) { WakeKeepsAwait(w, t, c, d); }
    forall d ensures ResultOk(w', d) { WakeKeepsResult(w, t, c, d); }
    forall d ensures ContOk(w', d) { WakeKeepsCont(w, t, c, d); }
  }
}
