/** A run in which a coroutine is resumed on top of another one whose callable is being destroyed. */
module ResumptionExample {
  import opened Options
  import opened Stacks
  import opened Wakeups
  import opened Resumption
  import R = ResumptionRuns

  ghost predicate Leads(s: State, run: seq<Step>, s': State) { R.IsRun(s, run) && R.After(s, run) == s' }

  lemma First(s: State, a: Step, s1: State, rest: seq<Step>, s': State)
    requires Enabled(s, a) && s1 == Next(s, a) && Leads(s1, rest, s')
    ensures Leads(s, [a] + rest, s')
  {
    assert ([a] + rest)[1..] == rest;
  }

  lemma {:induction false} Append(s: State, run: seq<Step>, s1: State, more: seq<Step>, s': State)
    requires Leads(s, run, s1) && Leads(s1, more, s')
    ensures Leads(s, run + more, s')
    decreases |run|
  {
    if run == [] {
      assert run + more == more;
    } else {
      Append(Next(s, run[0]), run[1..], s1, more, s');
      assert run + more == [run[0]] + (run[1..] + more);
      First(s, run[0], Next(s, run[0]), run[1..] + more, s');
    }
  }

  /** Thread `t` is outside of all coroutines. */
  predicate Outside(s: State, t: Tid) { s.k.Stack(t) == [] && s.k.Current(t) == None }

  /** A new coroutine `c` that awaits the future `f` at once. */
  function Park(t: Tid, c: Cid, f: Fid): seq<Step> {
    [Construct(t, c)] + ([LeaveForFuture(t, f)] + ([PostLeave(t)] + []))
  }

  lemma ParkRun(s: State, t: Tid, c: Cid, f: Fid)
    requires Outside(s, t) && s.Co(c) == Fresh && s.w.Fut(f) == Empty
    ensures R.IsRun(s, Park(t, c, f))
    ensures var s' := R.After(s, Park(t, c, f));
      && s'.w.Fut(f) == Task(Runner(c, 1)) && s'.Co(c).caller == Self
      && (forall g | g != f :: s'.w.Fut(g) == s.w.Fut(g)) && (forall d | d != c :: s'.Co(d) == s.Co(d))
      && (forall u | Outside(s, u) :: Outside(s', u))
  {
    var s1 := Next(s, Construct(t, c));
    var s2 := Next(s1, LeaveForFuture(t, f));
    var s' := Next(s2, PostLeave(t));
    First(s2, PostLeave(t), s', [], s');
    First(s1, LeaveForFuture(t, f), s2, [PostLeave(t)] + [], s');
    First(s, Construct(t, c), s1, [LeaveForFuture(t, f)] + ([PostLeave(t)] + []), s');
  }

  /** The future `f` is set, and the body of the coroutine it resumes comes to its end. */
  function Finish(t: Tid, f: Fid): seq<Step> {
    [SetFuture(t, f)] + ([CallRunner(t)] + ([FinishBody(t)] + []))
  }

  lemma FinishRun(s: State, t: Tid, f: Fid)
    requires Outside(s, t) && s.w.Fut(f).Task? && s.Co(s.w.Fut(f).r.co).caller == Self
    ensures R.IsRun(s, Finish(t, f))
    ensures var s' := R.After(s, Finish(t, f));
      && s'.k.AfterBody(t) && s'.TopPc(t) == Unwinding && s'.k.Current(t) == None
      && s'.k.Stack(t) == [Stacks.After(s.w.Fut(f).r.co, false)]
      && (forall g | g != f :: s'.w.Fut(g) == s.w.Fut(g))
  {
    var s1 := Next(s, SetFuture(t, f));
    var s2 := Next(s1, CallRunner(t));
    var s' := Next(s2, FinishBody(t));
    First(s2, FinishBody(t), s', [], s');
    First(s1, CallRunner(t), s2, [FinishBody(t)] + [], s');
    First(s, SetFuture(t, f), s1, [CallRunner(t)] + ([FinishBody(t)] + []), s');
  }

  /** Coroutine 1 is woken by thread 1 and ends, while coroutine 3 is parked at future 7. */
  function Prologue(): seq<Step> { Park(0, 1, 0) + (Park(0, 3, 7) + Finish(1, 0)) }

  lemma PrologueRun()
    ensures R.IsRun(Resumption.Init, Prologue())
    ensures var s := R.After(Resumption.Init, Prologue());
      && s.k.AfterBody(1) && s.TopPc(1) == Unwinding && s.k.Current(1) == None
      && s.k.Stack(1) == [Stacks.After(1, false)] && s.w.Fut(7) == Task(Runner(3, 1))
  {
    var s := Resumption.Init;
    ParkRun(s, 0, 1, 0);
    var s1 := R.After(s, Park(0, 1, 0));
    ParkRun(s1, 0, 3, 7);
    var s2 := R.After(s1, Park(0, 3, 7));
    assert Outside(s, 1) && Outside(s1, 1);
    FinishRun(s2, 1, 0);
    var s' := R.After(s2, Finish(1, 0));
    Append(s1, Park(0, 3, 7), s2, Finish(1, 0), s');
    Append(s, Park(0, 1, 0), s1, Park(0, 3, 7) + Finish(1, 0), s');
  }

  /** The destructors of coroutine 1 set future 7, and coroutine 3 runs on top of the unfinished frame. */
  lemma NestedResumption()
    ensures R.IsRun(Resumption.Init, Prologue())
    ensures var s := R.After(Resumption.Init, Prologue());
      && Enabled(s, SetFuture(1, 7)) && Enabled(Next(s, SetFuture(1, 7)), CallRunner(1))
      && Next(Next(s, SetFuture(1, 7)), CallRunner(1)).k.Stack(1) == [Stacks.After(1, false), Body(3, false)]
  {
    PrologueRun();
    R.DestructorResumes(Prologue(), 1, 7);
  }
}
