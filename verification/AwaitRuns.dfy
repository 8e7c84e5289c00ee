/**
 What an await waits for, told from the steps of a run: a coroutine registers at the future or the
 routine that its latest await names, and is resumed only once that is ready.
 */
module AwaitRuns {
  import opened Options
  import opened Stacks
  import opened Wakeups
  import opened Resumption
  import R = ResumptionRuns

  /** What the await of `c` that a step begins waits for. */
  function Awaited(s: State, a: Step, c: Cid): Option<Target>
    requires Enabled(s, a)
  {
    match a
    case LeaveForFuture(t, f) => if s.TopCo(t) == c then Some(AtFuture(f)) else None
    case LeaveForJoin(t, b) => if s.TopCo(t) == c then Some(AtRoutine(b)) else None
    case _ => None
  }

  /** What the latest await of `c` waits for; `before` is what it was before the run. */
  ghost function TargetOf(s: State, run: seq<Step>, c: Cid, before: Option<Target>): Option<Target>
    requires R.IsRun(s, run)
    decreases |run|
  {
    if run == [] then before else TargetOf(Next(s, run[0]), run[1..], c, Latest(s, run[0], c, before))
  }

  function Latest(s: State, a: Step, c: Cid, before: Option<Target>): Option<Target>
    requires Enabled(s, a)
  {
    if Awaited(s, a, c).Some? then Awaited(s, a, c) else before
  }

  /** The number of awaits that `c` begins. */
  ghost function Awaits(s: State, run: seq<Step>, c: Cid): nat
    requires R.IsRun(s, run)
    decreases |run|
  {
    if run == [] then 0
    else (if Awaited(s, run[0], c).Some? then 1 else 0) + Awaits(Next(s, run[0]), run[1..], c)
  }

  /** The place of `c` inside an await, and who holds it, agree with `x`, or `x` is ready and the wake-up under way. */
  ghost predicate Names(s: State, c: Cid, x: Target) {
    match s.Co(c).pc
    case LeftFuture(f) => x == AtFuture(f)
    case JoinTake(b) => x == AtRoutine(b)
    case JoinSuspend(b) => x == AtRoutine(b)
    case JoinCas(b) => x == AtRoutine(b)
    case JoinSpin(b) => x == AtRoutine(b)
    case Parked =>
      (match s.Co(c).via
       case ViaFuture(f) => x == AtFuture(f)
       case ViaJoin(b) => x == AtRoutine(b)
       case _ => s.WordOf(x) == Invalid)
    case _ => true
  }

  ghost predicate Knows(s: State, c: Cid, x: Option<Target>) {
    Away(s.Co(c).pc) ==> x.Some? && Names(s, c, x.value)
  }

  lemma CallKnows(s: State, t: Tid, c: Cid, x: Option<Target>)
    requires Resumption.Inv(s) && Enabled(s, CallRunner(t)) && Knows(s, c, x)
    ensures Knows(Next(s, CallRunner(t)), c, x)
  {
    assert CallOk(s, t);
    var r := s.w.calling[t];
    assert Held(s.w, r, ViaCall(t));
    if r.co == c && s.k.Current(t).Some? { R.WordMoves(s, CallRunner(t), x.value); }
    if x.Some? { R.WordMoves(s, CallRunner(t), x.value); }
  }

  lemma SetFutureKnows(s: State, t: Tid, f: Fid, c: Cid, x: Option<Target>)
    requires Resumption.Inv(s) && Enabled(s, SetFuture(t, f)) && Knows(s, c, x)
    ensures Knows(Next(s, SetFuture(t, f)), c, x)
  {
    if s.w.Fut(f).Task? { assert Held(s.w, s.w.Fut(f).r, ViaFuture(f)); }
  }

  lemma TakePostedKnows(s: State, t: Tid, r: Runner, c: Cid, x: Option<Target>)
    requires Resumption.Inv(s) && Enabled(s, TakePosted(t, r)) && Knows(s, c, x)
    ensures Knows(Next(s, TakePosted(t, r)), c, x)
  {
    assert Held(s.w, r, ViaPost);
  }

  lemma AwayKnows(s: State, t: Tid, c: Cid, x: Option<Target>)
    requires Resumption.Inv(s) && Enabled(s, PostLeave(t)) && Away(s.TopPc(t)) && Knows(s, c, x)
    ensures Knows(NextPostLeave(s, t), c, x)
  {
    if x.Some? { R.AwayWord(s, t, x.value); }
    TopFrame(s.k, t);
    assert PlaceOk(s, s.TopCo(t)) && AwaitOk(s.w, s.TopCo(t));
    ParkKnows(s, t, c, x);
  }

  lemma ParkKnows(s: State, t: Tid, c: Cid, x: Option<Target>)
    requires Enabled(s, PostLeave(t)) && Away(s.TopPc(t)) && !s.TopPc(t).Parked? && Knows(s, c, x)
    requires s.TopPc(t).JoinCas? ==> s.Co(s.TopCo(t)).via == ViaJoin(s.TopPc(t).b)
    requires x.Some? ==> R.Moves(s.WordOf(x.value), NextPostLeave(s, t).WordOf(x.value))
    ensures Knows(NextPostLeave(s, t), c, x)
  {
  }

  lemma FinishKnows(s: State, t: Tid, c: Cid, x: Option<Target>)
    requires Resumption.Inv(s) && Enabled(s, PostLeave(t)) && !Away(s.TopPc(t)) && Knows(s, c, x)
    ensures Knows(NextPostLeave(s, t), c, x)
  {
    if x.Some? { R.FinishWord(s, t, x.value); }
    TopFrame(s.k, t);
    var y := s.TopCo(t);
    assert PlaceOk(s, y) && ResultOk(s.w, y) && ContOk(s.w, y);
    if s.TopPc(t).FinReturn? { ReturnKnows(s, t, c, x); }
    else if s.TopPc(t).FinCall? { NothingBelow(s.k, t, |s.k.Stack(t)| - 1); FinCallKnows(s, t, c, x); }
  }

  lemma ReturnKnows(s: State, t: Tid, c: Cid, x: Option<Target>)
    requires Enabled(s, PostLeave(t)) && s.TopPc(t).FinReturn? && Knows(s, c, x)
    requires x.Some? ==> R.Moves(s.WordOf(x.value), NextPostLeave(s, t).WordOf(x.value))
    ensures Knows(NextPostLeave(s, t), c, x)
  {
    if s.TopPc(t).res == None || s.k.Top(t).byCtor { ReturnNullKnows(s, t, c, x); }
  }

  lemma ReturnNullKnows(s: State, t: Tid, c: Cid, x: Option<Target>)
    requires Enabled(s, PostLeave(t)) && s.TopPc(t).FinReturn? && Knows(s, c, x)
    requires s.TopPc(t).res == None || s.k.Top(t).byCtor
    requires x.Some? ==> R.Moves(s.WordOf(x.value), NextPostLeave(s, t).WordOf(x.value))
    ensures Knows(NextPostLeave(s, t), c, x)
  {
  }

  lemma FinCallKnows(s: State, t: Tid, c: Cid, x: Option<Target>)
    requires Enabled(s, PostLeave(t)) && s.TopPc(t).FinCall? && Knows(s, c, x)
    requires s.k.Current(t) == None && s.Co(s.TopPc(t).r.co).caller == Null && s.TopCo(t) != s.TopPc(t).r.co
    requires x.Some? ==> R.Moves(s.WordOf(x.value), NextPostLeave(s, t).WordOf(x.value))
    ensures Knows(NextPostLeave(s, t), c, x)
  {
  }

  lemma OtherKnows(s: State, a: Step, c: Cid, x: Option<Target>)
    requires Resumption.Inv(s) && Enabled(s, a) && Knows(s, c, x)
    requires !a.PostLeave? && !a.CallRunner? && !a.SetFuture? && !a.TakePosted?
    ensures Knows(Next(s, a), c, Latest(s, a, c, x))
  {
    if s.k.Runs(a.t) { TopFrame(s.k, a.t); assert PlaceOk(s, s.TopCo(a.t)); }
    if x.Some? { R.WordMoves(s, a, x.value); }
  }

  lemma StepKnows(s: State, a: Step, c: Cid, x: Option<Target>)
    requires Resumption.Inv(s) && Enabled(s, a) && Knows(s, c, x)
    ensures Knows(Next(s, a), c, Latest(s, a, c, x))
  {
    match a
    case CallRunner(t) => CallKnows(s, t, c, x);
    case SetFuture(t, f) => SetFutureKnows(s, t, f, c, x);
    case TakePosted(t, r) => TakePostedKnows(s, t, r, c, x);
    case PostLeave(t) => if Away(s.TopPc(t)) { AwayKnows(s, t, c, x); } else { FinishKnows(s, t, c, x); }
    case _ => OtherKnows(s, a, c, x);
  }

  lemma {:induction false} RunKnows(s: State, run: seq<Step>, c: Cid, x: Option<Target>)
    requires Resumption.Inv(s) && R.IsRun(s, run) && Knows(s, c, x)
    ensures Knows(R.After(s, run), c, TargetOf(s, run, c, x))
    decreases |run|
  {
    if run != [] {
      StepKeeps(s, run[0]);
      StepKnows(s, run[0], c, x);
      RunKnows(Next(s, run[0]), run[1..], c, Latest(s, run[0], c, x));
    }
  }

  /** `c` is in the word of a future, or in `mContinuation` of a routine, which may have taken it out to resume it. */
  ghost predicate RegisteredAt(s: State, c: Cid, x: Target) {
    match x
    case AtFuture(f) => s.w.Fut(f) == Task(s.w.RunnerOf(c))
    case AtRoutine(b) => s.Co(b).cont == To(c) || Res(s.Co(b).pc) == Some(c)
  }

  /**
   While `c` is inside an await, its place and its registration are those of what its latest await
   names, until that is ready: `c` is never registered at another future or routine.
   */
  lemma RegistersWhereItAwaits(run: seq<Step>, c: Cid)
    requires R.IsRun(Resumption.Init, run) && Away(R.After(Resumption.Init, run).Co(c).pc)
    ensures var s := R.After(Resumption.Init, run); var x := TargetOf(Resumption.Init, run, c, None);
      && x.Some? && Names(s, c, x.value)
      && (s.Co(c).pc.Parked? ==> RegisteredAt(s, c, x.value) || s.WordOf(x.value) == Invalid)
  {
    R.InitInv();
    R.RunKeeps(Resumption.Init, run);
    RunKnows(Resumption.Init, run, c, None);
    assert AwaitOk(R.After(Resumption.Init, run).w, c);
  }

  /** An await returns only when what it names is ready. */
  lemma ResumedWhenReady(run: seq<Step>, a: Step, c: Cid)
    requires R.IsRun(Resumption.Init, run) && Enabled(R.After(Resumption.Init, run), a)
    requires R.Resumes(R.After(Resumption.Init, run), a) == Some(c)
    ensures var s := R.After(Resumption.Init, run); var x := TargetOf(Resumption.Init, run, c, None);
      x.Some? && s.WordOf(x.value) == Invalid
  {
    R.InitInv();
    R.RunKeeps(Resumption.Init, run);
    RunKnows(Resumption.Init, run, c, None);
    ReadyAtResumption(R.After(Resumption.Init, run), a, c, TargetOf(Resumption.Init, run, c, None));
  }

  lemma ReadyAtResumption(s: State, a: Step, c: Cid, x: Option<Target>)
    requires Resumption.Inv(s) && Enabled(s, a) && Knows(s, c, x) && R.Resumes(s, a) == Some(c)
    ensures x.Some? && s.WordOf(x.value) == Invalid
  {
    R.ResumedIsAway(s, a);
    if a.CallRunner? {
      assert CallOk(s, a.t);
      assert Held(s.w, s.w.calling[a.t], ViaCall(a.t));
    } else {
      var y := s.TopCo(a.t);
      assert AwaitOk(s.w, y) && ResultOk(s.w, y) && ContOk(s.w, y);
      if s.TopPc(a.t).JoinSpin? { assert ResultOk(s.w, s.TopPc(a.t).b); }
    }
  }

  // ---------- what ready means ----------

  ghost predicate SetIn(run: seq<Step>, f: Fid) { exists i :: 0 <= i < |run| && run[i].SetFuture? && run[i].f == f }

  lemma SetInFrom(run: seq<Step>, f: Fid)
    requires run != []
    ensures SetIn(run, f) <==> (run[0].SetFuture? && run[0].f == f) || SetIn(run[1..], f)
  {
    if SetIn(run[1..], f) {
      var i :| 0 <= i < |run| - 1 && run[1..][i].SetFuture? && run[1..][i].f == f;
      assert run[i + 1].SetFuture? && run[i + 1].f == f;
    }
    if SetIn(run, f) {
      var i :| 0 <= i < |run| && run[i].SetFuture? && run[i].f == f;
      assert i > 0 ==> run[1..][i - 1] == run[i];
    }
  }

  lemma SetFutureWord(s: State, a: Step, f: Fid)
    requires Enabled(s, a)
    ensures Next(s, a).w.Fut(f) == Invalid <==> s.w.Fut(f) == Invalid || (a.SetFuture? && a.f == f)
  {
    if a.PostLeave? { if Away(s.TopPc(a.t)) { R.AwayWord(s, a.t, AtFuture(f)); } else { FinishFuture(s, a.t, f); } }
  }

  lemma FinishFuture(s: State, t: Tid, f: Fid)
    requires Enabled(s, PostLeave(t)) && !Away(s.TopPc(t))
    ensures NextPostLeave(s, t).w.Fut(f) == s.w.Fut(f)
  {
    if !s.TopPc(t).FinSet? { R.KeepsWord(s, t, AtFuture(f)); }
  }

  lemma {:induction false} SetSince(s: State, run: seq<Step>, f: Fid)
    requires R.IsRun(s, run)
    ensures R.After(s, run).w.Fut(f) == Invalid <==> s.w.Fut(f) == Invalid || SetIn(run, f)
    decreases |run|
  {
    if run != [] {
      SetFutureWord(s, run[0], f);
      SetInFrom(run, f);
      SetSince(Next(s, run[0]), run[1..], f);
    }
  }

  /** In `run` the body of `b` comes to its end. */
  ghost predicate BodyEnds(s: State, run: seq<Step>, b: Cid)
    requires R.IsRun(s, run)
    decreases |run|
  {
    run != [] && (EndsBody(s, run[0], b) || BodyEnds(Next(s, run[0]), run[1..], b))
  }

  predicate EndsBody(s: State, a: Step, b: Cid)
    requires Enabled(s, a)
  {
    a.FinishBody? && s.TopCo(a.t) == b
  }

  predicate Over(pc: Pc) {
    pc.Unwinding? || pc.FinExchange? || pc.FinClose? || pc.FinSet? || pc.FinCall? || pc.FinReturn? || pc.Done?
  }

  lemma OverStep(s: State, a: Step, b: Cid)
    requires Resumption.Inv(s) && Enabled(s, a)
    ensures Over(Next(s, a).Co(b).pc) <==> Over(s.Co(b).pc) || EndsBody(s, a, b)
  {
    match a
    case CallRunner(t) => assert CallOk(s, t); assert Held(s.w, s.w.calling[t], ViaCall(t));
    case PostLeave(t) => if Away(s.TopPc(t)) { AwayOver(s, t, b); } else { FinishOver(s, t, b); }
    case _ => OtherOver(s, a, b);
  }

  lemma OtherOver(s: State, a: Step, b: Cid)
    requires Resumption.Inv(s) && Enabled(s, a) && !a.CallRunner? && !a.PostLeave?
    ensures Over(Next(s, a).Co(b).pc) <==> Over(s.Co(b).pc) || EndsBody(s, a, b)
  {
    if s.k.Runs(a.t) { TopFrame(s.k, a.t); assert PlaceOk(s, s.TopCo(a.t)); }
  }

  lemma AwayOver(s: State, t: Tid, b: Cid)
    requires Enabled(s, PostLeave(t)) && Away(s.TopPc(t))
    ensures Over(NextPostLeave(s, t).Co(b).pc) <==> Over(s.Co(b).pc)
  {
    if b != s.TopCo(t) { R.AwayMoves(s, t, b); } else { AwayStays(s, t); }
  }

  lemma AwayStays(s: State, t: Tid)
    requires Enabled(s, PostLeave(t)) && Away(s.TopPc(t))
    ensures var pc := NextPostLeave(s, t).Co(s.TopCo(t)).pc; Away(pc) || pc == InBody
  {
  }

  lemma FinishOver(s: State, t: Tid, b: Cid)
    requires Resumption.Inv(s) && Enabled(s, PostLeave(t)) && !Away(s.TopPc(t))
    ensures Over(NextPostLeave(s, t).Co(b).pc) <==> Over(s.Co(b).pc)
  {
    TopFrame(s.k, t);
    var y := s.TopCo(t);
    assert PlaceOk(s, y) && ResultOk(s.w, y) && ContOk(s.w, y);
    if s.TopPc(t).FinReturn? { ReturnOver(s, t, b); }
    else { FinOver(s, t, b); }
  }

  lemma ReturnOver(s: State, t: Tid, b: Cid)
    requires Enabled(s, PostLeave(t)) && s.TopPc(t).FinReturn?
    requires s.TopPc(t).res.Some? ==> s.Co(s.TopPc(t).res.value).pc.Parked?
    ensures Over(NextPostLeave(s, t).Co(b).pc) <==> Over(s.Co(b).pc)
  {
  }

  lemma FinOver(s: State, t: Tid, b: Cid)
    requires Enabled(s, PostLeave(t)) && Over(s.TopPc(t)) && !s.TopPc(t).FinReturn?
    requires s.TopPc(t).FinCall? ==> Away(s.Co(s.TopPc(t).r.co).pc)
    ensures Over(NextPostLeave(s, t).Co(b).pc) <==> Over(s.Co(b).pc)
  {
  }

  lemma {:induction false} OverSince(s: State, run: seq<Step>, b: Cid)
    requires Resumption.Inv(s) && R.IsRun(s, run)
    ensures Over(R.After(s, run).Co(b).pc) <==> Over(s.Co(b).pc) || BodyEnds(s, run, b)
    decreases |run|
  {
    if run != [] {
      StepKeeps(s, run[0]);
      OverStep(s, run[0], b);
      OverSince(Next(s, run[0]), run[1..], b);
    }
  }

  /** A future is ready exactly if it has been set, and a routine only if its body has ended. */
  lemma ReadyMeans(run: seq<Step>, on: Target)
    requires R.IsRun(Resumption.Init, run)
    ensures var x := R.After(Resumption.Init, run).WordOf(on);
      && (on.AtFuture? ==> (x == Invalid <==> SetIn(run, on.f)))
      && (on.AtRoutine? ==> (x == Invalid ==> BodyEnds(Resumption.Init, run, on.b)))
  {
    R.InitInv();
    R.RunKeeps(Resumption.Init, run);
    match on
    case AtFuture(f) => SetSince(Resumption.Init, run, f);
    case AtRoutine(b) =>
      OverSince(Resumption.Init, run, b);
      assert ResultOk(R.After(Resumption.Init, run).w, b);
  }

  /** An await returns only after the future it names has been set, or the body of the routine has ended. */
  lemma AwaitReturnsDuly(run: seq<Step>, a: Step, c: Cid)
    requires R.IsRun(Resumption.Init, run) && Enabled(R.After(Resumption.Init, run), a)
    requires R.Resumes(R.After(Resumption.Init, run), a) == Some(c)
    ensures var x := TargetOf(Resumption.Init, run, c, None);
      && x.Some?
      && (x.value.AtFuture? ==> SetIn(run, x.value.f))
      && (x.value.AtRoutine? ==> BodyEnds(Resumption.Init, run, x.value.b))
  {
    ResumedWhenReady(run, a, c);
    ReadyMeans(run, TargetOf(Resumption.Init, run, c, None).value);
  }

  // ---------- how often ----------

  lemma EpochStep(s: State, a: Step, c: Cid)
    requires Enabled(s, a)
    ensures Next(s, a).Co(c).epoch == s.Co(c).epoch + if Awaited(s, a, c).Some? then 1 else 0
  {
    if a.PostLeave? { if Away(s.TopPc(a.t)) { AwayEpoch(s, a.t, c); } else { FinishEpoch(s, a.t, c); } }
  }

  lemma AwayEpoch(s: State, t: Tid, c: Cid)
    requires Enabled(s, PostLeave(t)) && Away(s.TopPc(t))
    ensures NextPostLeave(s, t).Co(c).epoch == s.Co(c).epoch
  {
  }

  lemma FinishEpoch(s: State, t: Tid, c: Cid)
    requires Enabled(s, PostLeave(t)) && !Away(s.TopPc(t))
    ensures NextPostLeave(s, t).Co(c).epoch == s.Co(c).epoch
  {
    if s.TopPc(t).FinReturn? { ReturnEpoch(s, t, c); }
    else if s.TopPc(t).FinCall? { FinCallEpoch(s, t, c); }
    else { FinEpoch(s, t, c); }
  }

  lemma ReturnEpoch(s: State, t: Tid, c: Cid)
    requires Enabled(s, PostLeave(t)) && s.TopPc(t).FinReturn?
    ensures NextPostLeave(s, t).Co(c).epoch == s.Co(c).epoch
  {
  }

  lemma FinCallEpoch(s: State, t: Tid, c: Cid)
    requires Enabled(s, PostLeave(t)) && s.TopPc(t).FinCall?
    ensures NextPostLeave(s, t).Co(c).epoch == s.Co(c).epoch
  {
  }

  lemma FinEpoch(s: State, t: Tid, c: Cid)
    requires Enabled(s, PostLeave(t)) && !Away(s.TopPc(t)) && !s.TopPc(t).FinReturn? && !s.TopPc(t).FinCall?
    ensures NextPostLeave(s, t).Co(c).epoch == s.Co(c).epoch
  {
  }

  lemma {:induction false} EpochSince(s: State, run: seq<Step>, c: Cid)
    requires R.IsRun(s, run)
    ensures R.After(s, run).Co(c).epoch == s.Co(c).epoch + Awaits(s, run, c)
    decreases |run|
  {
    if run != [] {
      EpochStep(s, run[0], c);
      EpochSince(Next(s, run[0]), run[1..], c);
    }
  }

  /** The awaits that a coroutine begins are those that it is resumed from, and the one it may still be in. */
  lemma EveryAwaitIsEndedOnce(run: seq<Step>, c: Cid)
    requires R.IsRun(Resumption.Init, run)
    ensures Awaits(Resumption.Init, run, c) ==
      R.Resumptions(Resumption.Init, run, c) + if Away(R.After(Resumption.Init, run).Co(c).pc) then 1 else 0
  {
    R.ExactlyOneResumption(run, c);
    EpochSince(Resumption.Init, run, c);
  }

  // ---------- blocking ----------

  /** What the latest wait of `t` waits for. */
  function LastWait(run: seq<Step>, t: Tid, before: Option<Target>): Option<Target>
    decreases |run|
  {
    if run == [] then before
    else LastWait(run[1..], t, if run[0].Wait? && run[0].t == t then Some(run[0].on) else before)
  }

  ghost predicate BlocksOn(s: State, t: Tid, x: Option<Target>) { s.k.Blocks(t) ==> x == Some(s.k.Top(t).on) }

  lemma BlocksStep(s: State, a: Step, t: Tid, x: Option<Target>)
    requires Resumption.Inv(s) && Enabled(s, a) && BlocksOn(s, t, x)
    ensures BlocksOn(Next(s, a), t, if a.Wait? && a.t == t then Some(a.on) else x)
  {
    if Next(s, a).k.Blocks(t) { R.BlockingStays(s, a, t); }
  }

  lemma {:induction false} BlocksSince(s: State, run: seq<Step>, t: Tid, x: Option<Target>)
    requires Resumption.Inv(s) && R.IsRun(s, run) && BlocksOn(s, t, x)
    ensures BlocksOn(R.After(s, run), t, LastWait(run, t, x))
    decreases |run|
  {
    if run != [] {
      StepKeeps(s, run[0]);
      BlocksStep(s, run[0], t, x);
      BlocksSince(Next(s, run[0]), run[1..], t, if run[0].Wait? && run[0].t == t then Some(run[0].on) else x);
    }
  }

  /** A blocked thread has its task where its latest wait says, and may go on exactly when that is ready. */
  lemma BlocksWhereItWaits(run: seq<Step>, t: Tid)
    requires R.IsRun(Resumption.Init, run) && R.After(Resumption.Init, run).k.Blocks(t)
    ensures var s := R.After(Resumption.Init, run); var x := LastWait(run, t, None);
      && x.Some?
      && (s.WordOf(x.value) == Waiter(t) || s.WordOf(x.value) == Invalid)
      && (Enabled(s, Unblock(t)) <==> s.WordOf(x.value) == Invalid)
  {
    R.InitInv();
    BlocksSince(Resumption.Init, run, t, None);
    R.NoForgottenWaiter(run, t);
  }

  // ---------- nothing stands still ----------

  /** An operation that has no effect: a wait that finds the word ready, or a look in the spin that comes too early. */
  predicate Idles(s: State, a: Step)
    requires Enabled(s, a)
  {
    || (a.Wait? && s.WordOf(a.on) == Invalid)
    || (a.PostLeave? && s.TopPc(a.t).JoinSpin? && s.Co(s.TopCo(a.t)).caller != One)
  }

  /** A posted runner that an io_context runs is called, and every step but the two idle ones changes something. */
  lemma StepsMove(s: State, a: Step)
    requires Resumption.Inv(s) && Enabled(s, a)
    ensures var s' := Next(s, a);
      a.TakePosted? ==> s'.k.Calls(a.t) && s'.k.Top(a.t) == Calling(a.r) && a.r !in s'.w.posted
    ensures Idles(s, a) <==> Next(s, a) == s
  {
    if a.PostLeave? { PostLeaveChanges(s, a.t); }
    if a.CallRunner? { assert CallOk(s, a.t); }
    if a.Construct? { assert AwaitOk(s.w, a.c); }
    if s.k.Runs(a.t) { TopFrame(s.k, a.t); assert PlaceOk(s, s.TopCo(a.t)); }
  }

  lemma PostLeaveChanges(s: State, t: Tid)
    requires Resumption.Inv(s) && Enabled(s, PostLeave(t))
    ensures NextPostLeave(s, t) == s <==> s.TopPc(t).JoinSpin? && s.Co(s.TopCo(t)).caller != One
  {
    var c := s.TopCo(t);
    TopFrame(s.k, t);
    assert PlaceOk(s, c);
    if Away(s.TopPc(t)) { AwayChanges(s, t); } else { FinishChanges(s, t); }
  }

  lemma AwayChanges(s: State, t: Tid)
    requires Enabled(s, PostLeave(t)) && Away(s.TopPc(t)) && !s.TopPc(t).Parked?
    ensures var c := s.TopCo(t);
      NextPostLeave(s, t).Co(c).pc == s.Co(c).pc <==> s.TopPc(t).JoinSpin? && s.Co(c).caller != One
    ensures s.TopPc(t).JoinSpin? && s.Co(s.TopCo(t)).caller != One ==> NextPostLeave(s, t) == s
  {
  }

  lemma FinishChanges(s: State, t: Tid)
    requires Resumption.Inv(s) && Enabled(s, PostLeave(t)) && !Away(s.TopPc(t)) && !s.TopPc(t).InBody?
    requires !s.TopPc(t).Absent? && !s.TopPc(t).Done?
    ensures NextPostLeave(s, t).Co(s.TopCo(t)).pc != s.TopPc(t)
  {
    var c := s.TopCo(t);
    assert ContOk(s.w, c) && ResultOk(s.w, c);
    if s.TopPc(t).FinReturn? { ReturnChanges(s, t); }
  }

  lemma ReturnChanges(s: State, t: Tid)
    requires Enabled(s, PostLeave(t)) && s.TopPc(t).FinReturn?
    ensures NextPostLeave(s, t).Co(s.TopCo(t)).pc != s.TopPc(t)
  {
  }
}
