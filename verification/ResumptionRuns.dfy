/** What the resume protocol guarantees in every run, whatever the interleaving. */
module ResumptionRuns {
  import opened Options
  import opened Stacks
  import opened Wakeups
  import opened Resumption

  ghost predicate IsRun(s: State, run: seq<Step>)
    decreases |run|
  {
    run == [] || (Enabled(s, run[0]) && IsRun(Next(s, run[0]), run[1..]))
  }

  ghost function After(s: State, run: seq<Step>): State
    requires IsRun(s, run)
    decreases |run|
  {
    if run == [] then s else After(Next(s, run[0]), run[1..])
  }

  lemma InitInv()
    ensures Resumption.Inv(Resumption.Init)
  {
  }

  lemma {:induction false} RunKeeps(s: State, run: seq<Step>)
    requires Resumption.Inv(s) && IsRun(s, run)
    ensures Resumption.Inv(After(s, run))
    decreases |run|
  {
    if run != [] {
      StepKeeps(s, run[0]);
      RunKeeps(Next(s, run[0]), run[1..]);
    }
  }

  /** No coroutine is executed by two threads at once, or twice by one thread. */
  lemma OneExecutor(run: seq<Step>, t: Tid, i: nat, u: Tid, j: nat)
    requires IsRun(Resumption.Init, run)
    requires var k := After(Resumption.Init, run).k;
      i < |k.Stack(t)| && j < |k.Stack(u)| && k.Stack(t)[i].OfCo() && k.Stack(u)[j].OfCo()
      && k.Stack(t)[i].c == k.Stack(u)[j].c
    ensures t == u && i == j
  {
    InitInv();
    RunKeeps(Resumption.Init, run);
    var k := After(Resumption.Init, run).k;
    assert FrameOk(k, t, i) && FrameOk(k, u, j);
  }

  /** `outer` is the innermost body below frame `i`, however many other frames are in between, or there is none. */
  ghost predicate Innermost(st: seq<Frame>, i: nat, outer: Option<Cid>)
    requires i <= |st|
  {
    match outer
    case None => forall j | 0 <= j < i :: !st[j].Body?
    case Some(c) => exists j | 0 <= j < i :: st[j].Body? && st[j].c == c && forall l | j < l < i :: !st[l].Body?
  }

  /**
   `current()` is the innermost body on the stack of its thread, and the `mOuter` of every body is
   the innermost body below it: what was current when the body was entered, since the frames below
   have not moved. So the chain of `mOuter` links from `current()` goes strictly down the stack.
   */
  lemma StackDiscipline(run: seq<Step>, t: Tid)
    requires IsRun(Resumption.Init, run)
    ensures var k := After(Resumption.Init, run).k;
      && Innermost(k.Stack(t), |k.Stack(t)|, k.Current(t))
      && forall i | 0 <= i < |k.Stack(t)| && k.Stack(t)[i].Body? :: Innermost(k.Stack(t), i, k.Outer(k.Stack(t)[i].c))
  {
    InitInv();
    RunKeeps(Resumption.Init, run);
    var k := After(Resumption.Init, run).k;
    assert k.Current(t) == CurrentOf(k.Stack(t));
    CurrentAtFinds(k.Stack(t), |k.Stack(t)|);
    forall i | 0 <= i < |k.Stack(t)| && k.Stack(t)[i].Body?
      ensures Innermost(k.Stack(t), i, k.Outer(k.Stack(t)[i].c))
    {
      assert FrameOk(k, t, i);
      CurrentAtFinds(k.Stack(t), i);
    }
  }

  /** The coroutine that a step resumes after an await, by the post-leave loop or by resume(). */
  function Resumes(s: State, a: Step): Option<Cid>
    requires Enabled(s, a)
  {
    match a
    case CallRunner(t) => RunnerResumes(s, t, s.k.Top(t).r)
    case PostLeave(t) =>
      var c := s.TopCo(t);
      (match s.TopPc(t)
       case LeftFuture(f) => if s.w.Fut(f) == Empty then None else Some(c)
       case JoinSuspend(b) => if s.Co(b).result == Empty then None else Some(c)
       case JoinSpin(b) => if s.Co(c).caller == One then Some(c) else None
       case FinCall(res, r) => RunnerResumes(s, t, r)
       case FinReturn(res) => if s.k.Top(t).byCtor then None else res
       case _ => None)
    case _ => None
  }

  /** Runner::operator() calls resume() when the thread has no current coroutine and mCaller was untouched. */
  function RunnerResumes(s: State, t: Tid, r: Runner): Option<Cid> {
    if s.k.Current(t).None? && s.Co(r.co).caller == Self then Some(r.co) else None
  }

  /** The coroutine whose body a step enters or goes on with. */
  function Enters(s: State, a: Step): Option<Cid>
    requires Enabled(s, a)
  {
    if a.Construct? then Some(a.c) else Resumes(s, a)
  }

  /** The coroutine whose body a step leaves. */
  function Leaves(s: State, a: Step): Option<Cid>
    requires Enabled(s, a)
  {
    if a.LeaveForFuture? || a.LeaveForJoin? || a.FinishBody? then Some(s.TopCo(a.t)) else None
  }

  /** From `k` to `k'` thread `t` enters a body, leaves a body, or does neither. */
  ghost predicate Switches(k: Control, k': Control, t: Tid, enters: Option<Cid>, leaves: Option<Cid>) {
    && (enters.Some? ==> k'.Current(t) == enters && k'.Outer(enters.value) == k.Current(t))
    && (leaves.Some? ==> k.Current(t) == leaves && k'.Current(t) == k.Outer(leaves.value))
    && (enters.None? && leaves.None? ==> k'.Current(t) == k.Current(t))
    && (forall u | u != t :: k'.Current(u) == k.Current(u))
    && (forall c: Cid | enters != Some(c) :: k'.Outer(c) == k.Outer(c))
  }

  /** Entering a body records in `mOuter` what was current, leaving it brings that back; nothing else changes either. */
  lemma EnterAndLeave(run: seq<Step>, a: Step)
    requires IsRun(Resumption.Init, run) && Enabled(After(Resumption.Init, run), a)
    ensures var s := After(Resumption.Init, run); Switches(s.k, Next(s, a).k, a.t, Enters(s, a), Leaves(s, a))
  {
    InitInv();
    RunKeeps(Resumption.Init, run);
    StepSwitches(After(Resumption.Init, run), a);
  }

  lemma StepSwitches(s: State, a: Step)
    requires Resumption.Inv(s) && Enabled(s, a)
    ensures Switches(s.k, Next(s, a).k, a.t, Enters(s, a), Leaves(s, a))
  {
    match a
    case PostLeave(t) => if Away(s.TopPc(t)) { AwaySwitches(s, t); } else { FinishSwitches(s, t); }
    case CallRunner(t) => CallSwitches(s, t);
    case Wait(t, on) => WaitSwitches(s, t, on);
    case _ => OtherSwitches(s, a);
  }

  lemma WaitSwitches(s: State, t: Tid, on: Target)
    requires Enabled(s, Wait(t, on))
    ensures Switches(s.k, NextWait(s, t, on).k, t, None, None)
  {
  }

  lemma OtherSwitches(s: State, a: Step)
    requires Resumption.Inv(s) && Enabled(s, a) && !a.PostLeave? && !a.CallRunner? && !a.Wait?
    ensures Switches(s.k, Next(s, a).k, a.t, Enters(s, a), Leaves(s, a))
  {
    if s.k.Runs(a.t) { TopFrame(s.k, a.t); }
  }

  lemma CallSwitches(s: State, t: Tid)
    requires Resumption.Inv(s) && Enabled(s, CallRunner(t))
    ensures Switches(s.k, Next(s, CallRunner(t)).k, t, Resumes(s, CallRunner(t)), None)
  {
  }

  lemma AwaySwitches(s: State, t: Tid)
    requires Enabled(s, PostLeave(t)) && Away(s.TopPc(t))
    ensures Switches(s.k, NextPostLeave(s, t).k, t, Resumes(s, PostLeave(t)), None)
  {
  }

  lemma FinishSwitches(s: State, t: Tid)
    requires Resumption.Inv(s) && Enabled(s, PostLeave(t)) && !Away(s.TopPc(t))
    ensures Switches(s.k, NextPostLeave(s, t).k, t, Resumes(s, PostLeave(t)), None)
  {
    if s.TopPc(t).FinReturn? { ReturnSwitches(s, t); }
    else if s.TopPc(t).FinCall? { FinCallSwitches(s, t); }
  }

  lemma ReturnSwitches(s: State, t: Tid)
    requires Enabled(s, PostLeave(t)) && s.TopPc(t).FinReturn?
    ensures Switches(s.k, NextPostLeave(s, t).k, t, Resumes(s, PostLeave(t)), None)
  {
  }

  lemma FinCallSwitches(s: State, t: Tid)
    requires Enabled(s, PostLeave(t)) && s.TopPc(t).FinCall?
    ensures Switches(s.k, NextPostLeave(s, t).k, t, Resumes(s, PostLeave(t)), None)
  {
  }

  ghost function Resumptions(s: State, run: seq<Step>, c: Cid): nat
    requires IsRun(s, run)
    decreases |run|
  {
    if run == [] then 0
    else (if Resumes(s, run[0]) == Some(c) then 1 else 0) + Resumptions(Next(s, run[0]), run[1..], c)
  }

  /** Awaits of `c` that are over. */
  function Ended(s: State, c: Cid): int { s.Co(c).epoch - if Away(s.Co(c).pc) then 1 else 0 }

  lemma AwaitEnds(s: State, t: Tid, c: Cid)
    requires Resumption.Inv(s) && Enabled(s, PostLeave(t)) && Away(s.TopPc(t))
    ensures Ended(NextPostLeave(s, t), c) == Ended(s, c) + if Resumes(s, PostLeave(t)) == Some(c) then 1 else 0
  {
    TopFrame(s.k, t);
    assert PlaceOk(s, s.TopCo(t));
  }

  lemma FinCallEnds(s: State, t: Tid, c: Cid)
    requires Resumption.Inv(s) && Enabled(s, PostLeave(t)) && s.TopPc(t).FinCall?
    ensures Ended(NextPostLeave(s, t), c) == Ended(s, c) && Resumes(s, PostLeave(t)) == None
  {
    TopFrame(s.k, t);
    assert PlaceOk(s, s.TopCo(t)) && ResultOk(s.w, s.TopCo(t));
  }

  /** The constructor of `Data` drops no coroutine that resume() returned to it. */
  lemma FinReturnEnds(s: State, t: Tid, c: Cid)
    requires Resumption.Inv(s) && Enabled(s, PostLeave(t)) && s.TopPc(t).FinReturn?
    ensures Resumes(s, PostLeave(t)) == s.TopPc(t).res
    ensures Ended(NextPostLeave(s, t), c) == Ended(s, c) + if s.TopPc(t).res == Some(c) then 1 else 0
  {
    TopFrame(s.k, t);
    assert PlaceOk(s, s.TopCo(t)) && ContOk(s.w, s.TopCo(t));
  }

  lemma FinishEnds(s: State, t: Tid, c: Cid)
    requires Resumption.Inv(s) && Enabled(s, PostLeave(t)) && !Away(s.TopPc(t))
    ensures Ended(NextPostLeave(s, t), c) == Ended(s, c) + if Resumes(s, PostLeave(t)) == Some(c) then 1 else 0
  {
    if s.TopPc(t).FinCall? { FinCallEnds(s, t, c); }
    else if s.TopPc(t).FinReturn? { FinReturnEnds(s, t, c); }
    else { TopFrame(s.k, t); assert PlaceOk(s, s.TopCo(t)); }
  }

  lemma StepEnds(s: State, a: Step, c: Cid)
    requires Resumption.Inv(s) && Enabled(s, a)
    ensures Ended(Next(s, a), c) == Ended(s, c) + if Resumes(s, a) == Some(c) then 1 else 0
  {
    match a
    case CallRunner(t) => assert CallOk(s, t); assert Held(s.w, s.w.calling[t], ViaCall(t));
    case PostLeave(t) => if Away(s.TopPc(t)) { AwaitEnds(s, t, c); } else { FinishEnds(s, t, c); }
    case _ => OtherEnds(s, a, c);
  }

  lemma OtherEnds(s: State, a: Step, c: Cid)
    requires Resumption.Inv(s) && Enabled(s, a) && !a.CallRunner? && !a.PostLeave?
    ensures Ended(Next(s, a), c) == Ended(s, c)
  {
    if s.k.Runs(a.t) {
      TopFrame(s.k, a.t);
      assert PlaceOk(s, s.TopCo(a.t));
    }
  }

  /** Every await of every coroutine is ended by exactly one resumption, and nothing else resumes it. */
  lemma {:induction false} ExactlyOneResumption(run: seq<Step>, c: Cid)
    requires IsRun(Resumption.Init, run)
    ensures Resumptions(Resumption.Init, run, c) == Ended(After(Resumption.Init, run), c)
  {
    InitInv();
    RunEnds(Resumption.Init, run, c);
  }

  lemma {:induction false} RunEnds(s: State, run: seq<Step>, c: Cid)
    requires Resumption.Inv(s) && IsRun(s, run)
    ensures Ended(After(s, run), c) == Ended(s, c) + Resumptions(s, run, c)
    decreases |run|
  {
    if run != [] {
      StepEnds(s, run[0], c);
      StepKeeps(s, run[0]);
      RunEnds(Next(s, run[0]), run[1..], c);
    }
  }

  /** The runner whose memory a step reads or writes. */
  function Touches(s: State, a: Step): Option<Runner>
    requires Enabled(s, a)
  {
    match a
    case CallRunner(t) => Some(s.k.Top(t).r)
    case PostLeave(t) =>
      var pc := s.TopPc(t);
      if pc.FinCall? then Some(pc.r)
      else if Away(pc) then Some(s.w.RunnerOf(s.TopCo(t)))
      else None
    case _ => None
  }

  /** A runner is touched only while its coroutine is still inside the await whose frame holds it. */
  lemma RunnerAlive(run: seq<Step>, a: Step)
    requires IsRun(Resumption.Init, run)
    requires var s := After(Resumption.Init, run); Enabled(s, a) && Touches(s, a).Some?
    ensures var s := After(Resumption.Init, run); var r := Touches(s, a).value;
      Away(s.Co(r.co).pc) && s.Co(r.co).epoch == r.epoch
  {
    InitInv();
    RunKeeps(Resumption.Init, run);
    var s := After(Resumption.Init, run);
    if a.CallRunner? {
      assert CallOk(s, a.t);
      assert Held(s.w, s.w.calling[a.t], ViaCall(a.t));
    } else {
      assert ResultOk(s.w, s.TopCo(a.t));
    }
  }

  /** Frame `i` of `u` does not execute `c`, unless it is the frame in which `t` has just left `c`. */
  ghost predicate ElsewhereFree(k: Control, c: Cid, t: Tid, u: Tid, i: nat)
    requires i < |k.Stack(u)|
  {
    var f := k.Stack(u)[i];
    f.OfCo() && f.c == c ==> u == t && i == |k.Stack(t)| - 1 && f.After?
  }

  /**
   resume() continues a coroutine only while it is inside an await and executed nowhere else. If
   it is not an inline retry, the thread had no current coroutine.
   */
  lemma ResumedFromAwait(run: seq<Step>, a: Step)
    requires IsRun(Resumption.Init, run)
    requires var s := After(Resumption.Init, run); Enabled(s, a) && Resumes(s, a).Some?
    ensures var s := After(Resumption.Init, run); var c := Resumes(s, a).value;
      && Away(s.Co(c).pc)
      && (forall u, i | 0 <= i < |s.k.Stack(u)| :: ElsewhereFree(s.k, c, a.t, u, i))
      && s.k.Current(a.t) != Some(c)
      && (s.Co(c).pc.Parked? ==> s.k.Current(a.t) == None)
  {
    InitInv();
    RunKeeps(Resumption.Init, run);
    var s := After(Resumption.Init, run);
    ResumedIsAway(s, a);
    var c, n := Resumes(s, a).value, |s.k.Stack(a.t)|;
    if s.Co(c).pc.Parked? && a.PostLeave? { NothingBelow(s.k, a.t, n - 1); }
    assert PlaceOk(s, c);
    if s.k.Current(a.t).Some? { CurrentIsBody(s.k, a.t); }
    assert FrameOk(s.k, a.t, n - 1);
    forall u, i | 0 <= i < |s.k.Stack(u)| ensures ElsewhereFree(s.k, c, a.t, u, i) { assert FrameOk(s.k, u, i); }
  }

  lemma CurrentIsBody(k: Control, t: Tid)
    requires Stacks.Inv(k) && k.Current(t).Some?
    ensures var c := k.Current(t).value; c in k.running && k.running[c].frame.Body?
  {
    var st := k.Stack(t);
    assert k.Current(t) == CurrentOf(st);
    CurrentAtFinds(st, |st|);
    var j :| 0 <= j < |st| && st[j].Body? && st[j].c == k.Current(t).value;
    assert FrameOk(k, t, j);
  }

  /** A resumed coroutine is parked, or it is the one its thread has just left. */
  lemma ResumedIsAway(s: State, a: Step)
    requires Resumption.Inv(s) && Enabled(s, a) && Resumes(s, a).Some?
    ensures var c := Resumes(s, a).value;
      && (s.Co(c).pc.Parked? ==> a.CallRunner? || (s.TopPc(a.t).FinReturn? && !s.k.Top(a.t).byCtor))
      && (s.Co(c).pc.Parked? || (s.k.AfterBody(a.t) && c == s.TopCo(a.t) && Away(s.Co(c).pc)))
  {
    if a.CallRunner? {
      assert CallOk(s, a.t);
      assert Held(s.w, s.w.calling[a.t], ViaCall(a.t));
    } else {
      var x := s.TopCo(a.t);
      TopFrame(s.k, a.t);
      assert PlaceOk(s, x) && ResultOk(s.w, x) && ContOk(s.w, x);
    }
  }

  /** The operations the finishing `b` has left before the spin of its awaiter ends. */
  function Remaining(pc: Pc): nat {
    match pc
    case FinExchange => 4
    case FinClose(_) => 3
    case FinSet(_) => 2
    case FinCall(_, _) => 1
    case _ => 0
  }

  /** Where a routine is while its awaiter spins. */
  lemma SpinState(s: State, a: Cid, b: Cid)
    requires Resumption.Inv(s) && s.Co(a).pc == JoinSpin(b) && s.Co(a).caller != One
    ensures b in s.k.running && var t := s.k.running[b].t;
      && s.k.AfterBody(t) && s.TopCo(t) == b
      && (s.Co(b).pc.FinClose? || s.Co(b).pc.FinSet? || s.Co(b).pc.FinCall?)
      && (s.Co(b).pc.FinCall? ==> s.Co(b).pc.r == s.w.RunnerOf(a) && s.k.Current(t) == None)
      && (s.Co(b).pc.FinSet? ==> s.Co(b).result == Task(s.w.RunnerOf(a)))
      && s.Co(a).caller == Null
  {
    assert AwaitOk(s.w, a) && ContOk(s.w, b) && ResultOk(s.w, b) && PlaceOk(s, b);
    assert SlotOk(s.k, b);
    var Slot(t, i, f) := s.k.running[b];
    assert FrameOk(s.k, t, i);
    if !f.byCtor { NothingBelow(s.k, t, i); }
  }

  lemma FinisherAdvances(s: State, t: Tid, a: Cid, b: Cid)
    requires s.k.AfterBody(t) && s.TopCo(t) == b && a != b && s.Co(a).caller == Null
    requires s.Co(b).pc.FinClose? || s.Co(b).pc.FinSet? || s.Co(b).pc.FinCall?
    requires s.Co(b).pc.FinCall? ==> s.Co(b).pc.r == s.w.RunnerOf(a) && s.k.Current(t) == None
    requires s.Co(b).pc.FinSet? ==> s.Co(b).result == Task(s.w.RunnerOf(a))
    ensures var s' := NextPostLeave(s, t);
      && Remaining(s'.Co(b).pc) < Remaining(s.Co(b).pc)
      && (Remaining(s'.Co(b).pc) == 0 ==> s'.Co(a).caller == One)
  {
  }

  /** Only its own thread moves a routine on that is in its finish step. */
  lemma OthersLeaveFinisher(s: State, a: Step, b: Cid)
    requires Resumption.Inv(s) && Enabled(s, a)
    requires s.Co(b).pc.FinClose? || s.Co(b).pc.FinSet? || s.Co(b).pc.FinCall?
    requires b in s.k.running && a != PostLeave(s.k.running[b].t)
    ensures Next(s, a).Co(b).pc == s.Co(b).pc
  {
    assert PlaceOk(s, b) && SlotOk(s.k, b);
    match a
    case Construct(_, _) =>
    case SetFuture(_, _) =>
    case Wait(_, _) =>
    case Unblock(_) =>
    case TakePosted(_, _) =>
    case CallRunner(t) => assert CallOk(s, t); assert Held(s.w, s.w.calling[t], ViaCall(t));
    case PostLeave(t) => OthersPostLeave(s, t, b);
    case LeaveForFuture(t, _) => TopFrame(s.k, t); assert PlaceOk(s, s.TopCo(t));
    case LeaveForJoin(t, _) => TopFrame(s.k, t); assert PlaceOk(s, s.TopCo(t));
    case FinishBody(t) => TopFrame(s.k, t); assert PlaceOk(s, s.TopCo(t));
  }

  lemma OthersPostLeave(s: State, t: Tid, b: Cid)
    requires Resumption.Inv(s) && Enabled(s, PostLeave(t))
    requires s.Co(b).pc.FinClose? || s.Co(b).pc.FinSet? || s.Co(b).pc.FinCall?
    requires b in s.k.running && t != s.k.running[b].t
    ensures NextPostLeave(s, t).Co(b).pc == s.Co(b).pc
  {
    assert FrameOk(s.k, t, |s.k.Stack(t)| - 1);
    var x := s.TopCo(t);
    assert PlaceOk(s, x) && ContOk(s.w, x) && ResultOk(s.w, x);
    PostLeaveMoves(s, t, b);
  }

  lemma PostLeaveMoves(s: State, t: Tid, b: Cid)
    requires s.k.AfterBody(t) && s.TopCo(t) != b
    requires s.TopPc(t).FinReturn? ==> s.TopPc(t).res != Some(b)
    requires s.TopPc(t).FinCall? ==> s.TopPc(t).r.co != b
    ensures NextPostLeave(s, t).Co(b).pc == s.Co(b).pc
  {
    if Away(s.TopPc(t)) { AwayMoves(s, t, b); }
  }

  lemma AwayMoves(s: State, t: Tid, b: Cid)
    requires s.k.AfterBody(t) && s.TopCo(t) != b && Away(s.TopPc(t))
    ensures NextPostLeave(s, t).Co(b).pc == s.Co(b).pc
  {
  }

  /**
   The spin in await_suspend ends: as long as it has to wait, the awaited routine is in its finish
   step on top of some thread, and every operation of that thread brings the end nearer.
   */
  lemma SpinEnds(run: seq<Step>, a: Cid, b: Cid)
    requires IsRun(Resumption.Init, run)
    requires var s := After(Resumption.Init, run); s.Co(a).pc == JoinSpin(b) && s.Co(a).caller != One
    ensures var s := After(Resumption.Init, run);
      && b in s.k.running
      && var t := s.k.running[b].t;
      && s.k.AfterBody(t) && s.TopCo(t) == b && Enabled(s, PostLeave(t))
      && Remaining(NextPostLeave(s, t).Co(b).pc) < Remaining(s.Co(b).pc)
      && (Remaining(NextPostLeave(s, t).Co(b).pc) == 0 ==> NextPostLeave(s, t).Co(a).caller == One)
  {
    InitInv();
    RunKeeps(Resumption.Init, run);
    var s := After(Resumption.Init, run);
    SpinState(s, a, b);
    FinisherAdvances(s, s.k.running[b].t, a, b);
  }

  /** No awaiter is forgotten: when a routine is done, nobody is parked at it and every spinner may go on. */
  lemma NoForgottenAwaiter(run: seq<Step>, a: Cid, b: Cid)
    requires IsRun(Resumption.Init, run)
    requires After(Resumption.Init, run).Co(b).pc.Done?
    ensures var x := After(Resumption.Init, run).Co(a);
      && !(x.pc.Parked? && x.via == ViaJoin(b))
      && (x.pc == JoinCas(b) || x.pc == JoinSpin(b) ==> x.caller == One)
  {
    InitInv();
    RunKeeps(Resumption.Init, run);
    var w := After(Resumption.Init, run).w;
    assert AwaitOk(w, a) && ContOk(w, b) && ResultOk(w, b);
  }

  /**
   A parked coroutine can still be resumed: its runner is in the word of a future, is being called,
   waits in an io_context, or the routine it awaits holds it, or will return it from resume().
   */
  lemma ParkedIsHeld(run: seq<Step>, c: Cid)
    requires IsRun(Resumption.Init, run)
    requires After(Resumption.Init, run).Co(c).pc.Parked?
    ensures var w := After(Resumption.Init, run).w; var r := w.RunnerOf(c);
      || (exists f :: w.Fut(f) == Task(r))
      || (exists t :: t in w.calling && w.calling[t] == r)
      || r in w.posted
      || (exists b :: w.Co(b).cont == To(c) || Res(w.Co(b).pc) == Some(c))
  {
    InitInv();
    RunKeeps(Resumption.Init, run);
    assert AwaitOk(After(Resumption.Init, run).w, c);
  }

  /** The assertion in await_suspend: a failed CAS on mContinuation finds the sentinel 1. */
  lemma FailedCasFindsOne(run: seq<Step>, t: Tid, b: Cid)
    requires IsRun(Resumption.Init, run)
    requires var s := After(Resumption.Init, run);
      s.k.AfterBody(t) && s.TopPc(t) == JoinCas(b) && s.Co(b).cont != NoCont
    ensures After(Resumption.Init, run).Co(b).cont == Closed
  {
    InitInv();
    RunKeeps(Resumption.Init, run);
    var w := After(Resumption.Init, run).w;
    assert AwaitOk(w, After(Resumption.Init, run).TopCo(t)) && ContOk(w, b) && ResultOk(w, b);
  }

  // ---------- threads that block ----------

  /** A thread blocks with its own task in the word, until the word says ready. */
  ghost predicate WaitOk(s: State, t: Tid) {
    s.k.Blocks(t) ==> s.WordOf(s.k.Top(t).on) == Waiter(t) || s.WordOf(s.k.Top(t).on) == Invalid
  }

  /** A step leaves a word as it is, registers at an empty one, or makes it ready. */
  ghost predicate Moves(x: Word, x': Word) {
    x' == x || (x == Empty && x'.Taken()) || (x != Invalid && x' == Invalid)
  }

  lemma WordMoves(s: State, a: Step, on: Target)
    requires Resumption.Inv(s) && Enabled(s, a)
    ensures Moves(s.WordOf(on), Next(s, a).WordOf(on))
  {
    if a.PostLeave? {
      if Away(s.TopPc(a.t)) { AwayWord(s, a.t, on); } else { FinishWord(s, a.t, on); }
    } else {
      OtherWord(s, a, on);
    }
  }

  lemma OtherWord(s: State, a: Step, on: Target)
    requires Enabled(s, a) && !a.PostLeave?
    ensures Moves(s.WordOf(on), Next(s, a).WordOf(on))
  {
  }

  lemma AwayWord(s: State, t: Tid, on: Target)
    requires Enabled(s, PostLeave(t)) && Away(s.TopPc(t))
    ensures Moves(s.WordOf(on), NextPostLeave(s, t).WordOf(on))
  {
  }

  lemma FinishWord(s: State, t: Tid, on: Target)
    requires Resumption.Inv(s) && Enabled(s, PostLeave(t)) && !Away(s.TopPc(t))
    ensures Moves(s.WordOf(on), NextPostLeave(s, t).WordOf(on))
  {
    if s.TopPc(t).FinSet? { assert ResultOk(s.w, s.TopCo(t)); SetResultWord(s, t, on); }
    else { KeepsWord(s, t, on); }
  }

  lemma SetResultWord(s: State, t: Tid, on: Target)
    requires Enabled(s, PostLeave(t)) && s.TopPc(t).FinSet? && s.Co(s.TopCo(t)).result != Invalid
    ensures Moves(s.WordOf(on), NextPostLeave(s, t).WordOf(on))
  {
  }

  lemma KeepsWord(s: State, t: Tid, on: Target)
    requires Enabled(s, PostLeave(t)) && !Away(s.TopPc(t)) && !s.TopPc(t).FinSet?
    ensures NextPostLeave(s, t).WordOf(on) == s.WordOf(on)
  {
    if s.TopPc(t).FinReturn? { ReturnKeepsWord(s, t, on); }
  }

  lemma ReturnKeepsWord(s: State, t: Tid, on: Target)
    requires Enabled(s, PostLeave(t)) && s.TopPc(t).FinReturn?
    ensures NextPostLeave(s, t).WordOf(on) == s.WordOf(on)
  {
  }

  /** A step makes no other thread block, and its own only by a wait that finds an empty word. */
  lemma BlockingStays(s: State, a: Step, t: Tid)
    requires Resumption.Inv(s) && Enabled(s, a) && Next(s, a).k.Blocks(t)
    ensures if s.k.Blocks(t) then Next(s, a).k.Top(t) == s.k.Top(t)
            else a == Wait(t, Next(s, a).k.Top(t).on) && s.WordOf(a.on) == Empty
  {
    var n := |s.k.Stack(t)|;
    if n > 1 { assert FrameOk(s.k, t, n - 2); }
    if a.PostLeave? { PostLeaveBlocks(s, a.t, t); }
    else if a.CallRunner? { CallRunnerBlocks(s, a.t, t); }
    else { OtherBlocks(s, a, t); }
  }

  lemma PostLeaveBlocks(s: State, u: Tid, t: Tid)
    requires Enabled(s, PostLeave(u)) && NextPostLeave(s, u).k.Blocks(t)
    requires |s.k.Stack(t)| > 1 ==> s.k.Stack(t)[|s.k.Stack(t)| - 2].OfCo()
    ensures s.k.Blocks(t) && NextPostLeave(s, u).k.Top(t) == s.k.Top(t)
  {
    if u != t && Away(s.TopPc(u)) { AwayBlocks(s, u, t); }
  }

  lemma AwayBlocks(s: State, u: Tid, t: Tid)
    requires Enabled(s, PostLeave(u)) && Away(s.TopPc(u)) && u != t
    ensures NextPostLeave(s, u).k.Stack(t) == s.k.Stack(t)
  {
  }

  lemma CallRunnerBlocks(s: State, u: Tid, t: Tid)
    requires Enabled(s, CallRunner(u)) && Next(s, CallRunner(u)).k.Blocks(t)
    requires |s.k.Stack(t)| > 1 ==> s.k.Stack(t)[|s.k.Stack(t)| - 2].OfCo()
    ensures s.k.Blocks(t) && Next(s, CallRunner(u)).k.Top(t) == s.k.Top(t)
  {
  }

  lemma OtherBlocks(s: State, a: Step, t: Tid)
    requires Enabled(s, a) && !a.PostLeave? && !a.CallRunner? && Next(s, a).k.Blocks(t)
    requires |s.k.Stack(t)| > 1 ==> s.k.Stack(t)[|s.k.Stack(t)| - 2].OfCo()
    ensures if s.k.Blocks(t) then Next(s, a).k.Top(t) == s.k.Top(t)
            else a == Wait(t, Next(s, a).k.Top(t).on) && s.WordOf(a.on) == Empty
  {
  }

  lemma StepKeepsWait(s: State, a: Step, t: Tid)
    requires Resumption.Inv(s) && Enabled(s, a) && WaitOk(s, t)
    ensures WaitOk(Next(s, a), t)
  {
    if Next(s, a).k.Blocks(t) {
      BlockingStays(s, a, t);
      if s.k.Blocks(t) { WordMoves(s, a, s.k.Top(t).on); }
    }
  }

  lemma {:induction false} RunKeepsWait(s: State, run: seq<Step>, t: Tid)
    requires Resumption.Inv(s) && IsRun(s, run) && WaitOk(s, t)
    ensures WaitOk(After(s, run), t)
    decreases |run|
  {
    if run != [] {
      StepKeeps(s, run[0]);
      StepKeepsWait(s, run[0], t);
      RunKeepsWait(Next(s, run[0]), run[1..], t);
    }
  }

  /** No blocked thread is forgotten: its task is in the word, and it may go on as soon as the word says ready. */
  lemma NoForgottenWaiter(run: seq<Step>, t: Tid)
    requires IsRun(Resumption.Init, run) && After(Resumption.Init, run).k.Blocks(t)
    ensures var s := After(Resumption.Init, run); var on := s.k.Top(t).on;
      && (s.WordOf(on) == Waiter(t) <==> !Enabled(s, Unblock(t)))
      && (on.AtRoutine? ==> (Enabled(s, Unblock(t)) <==> Finished(s.Co(on.b).pc)))
  {
    InitInv();
    RunKeeps(Resumption.Init, run);
    RunKeepsWait(Resumption.Init, run, t);
    var s := After(Resumption.Init, run);
    if s.k.Top(t).on.AtRoutine? { assert ResultOk(s.w, s.k.Top(t).on.b); }
  }

  // ---------- code of a coroutine after its body ----------

  /**
   The destructors of a finished callable may set a future, as the last receiver of a channel does.
   With nothing current, that resumes the waiting coroutine on top of the unfinished frame.
   */
  lemma DestructorResumes(run: seq<Step>, t: Tid, f: Fid)
    requires IsRun(Resumption.Init, run)
    requires var s := After(Resumption.Init, run);
      s.k.AfterBody(t) && s.TopPc(t) == Unwinding && s.k.Current(t) == None && s.w.Fut(f).Task?
    ensures var s := After(Resumption.Init, run); var c := s.w.Fut(f).r.co;
      && Enabled(s, SetFuture(t, f)) && Enabled(Next(s, SetFuture(t, f)), CallRunner(t))
      && var s' := Next(Next(s, SetFuture(t, f)), CallRunner(t));
      && s'.k.Stack(t) == s.k.Stack(t) + [Body(c, false)] && s'.k.Current(t) == Some(c) && s'.k.Outer(c) == None
  {
    InitInv();
    RunKeeps(Resumption.Init, run);
    var s := After(Resumption.Init, run);
    assert Held(s.w, s.w.Fut(f).r, ViaFuture(f));
  }
}
