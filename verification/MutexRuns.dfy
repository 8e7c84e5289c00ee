/** What `co::BaseMutex` guarantees in every run, for any number of threads and any interleaving. */
module MutexRuns {
  import opened Options
  import opened Mutex

  ghost predicate IsRun(s: State, run: seq<Step>)
    decreases |run|
  {
    run == [] || (Enabled(s, run[0]) && IsRun(Next(s, run[0]), run[1..]))
  }

  ghost function After(s: State, run: seq<Step>): State
    requires IsRun(s, run)
    decreases |run|
  {
    if run == [] then s else After(Next(s, run[0]), run[1..])
  }

  lemma InitInv(policy: Policy)
    ensures InvWith(Init(policy), None)
  {
    assert Pushers(Init(policy)) == {};
  }

  lemma {:induction false} RunKeeps(s: State, run: seq<Step>, owner: Option<Tid>) returns (owner': Option<Tid>)
    requires InvWith(s, owner) && IsRun(s, run)
    ensures InvWith(After(s, run), owner')
    decreases |run|
  {
    if run == [] {
      owner' := owner;
    } else {
      StepKeeps(s, run[0], owner);
      owner' := RunKeeps(Next(s, run[0]), run[1..], OwnerAfter(s, run[0], owner));
    }
  }

  /** At most one thread has the mutex, counting waiters that have been given it and unlockers still in unlock(). */
  lemma MutualExclusion(policy: Policy, run: seq<Step>, t: Tid, u: Tid)
    requires IsRun(Init(policy), run)
    requires var s := After(Init(policy), run); Owns(s.At(t)) && Owns(s.At(u))
    ensures t == u
  {
    InitInv(policy);
    var owner := RunKeeps(Init(policy), run, None);
    var s := After(Init(policy), run);
    assert ThreadOk(s, owner, t) && ThreadOk(s, owner, u);
  }

  /** A holder exists, or a waiter has been selected to become the holder. */
  ghost predicate HeldOrSelected(s: State) {
    exists t :: s.At(t).Holding? || s.At(t).Granted? || s.At(t).Setting?
  }

  /** What the counter counts, and when it is positive. */
  lemma CountLaw(policy: Policy, run: seq<Step>)
    requires IsRun(Init(policy), run)
    ensures var s := After(Init(policy), run);
      && s.count == |Pushers(s)| + |s.waiters| + (if HeldOrSelected(s) then 1 else 0)
      && (s.count > 0 <==> exists t :: Owns(s.At(t)))
  {
    InitInv(policy);
    var owner := RunKeeps(Init(policy), run, None);
    CountOf(After(Init(policy), run), owner);
  }

  lemma CountOf(s: State, owner: Option<Tid>)
    requires InvWith(s, owner)
    ensures s.count == |Pushers(s)| + |s.waiters| + (if HeldOrSelected(s) then 1 else 0)
    ensures s.count > 0 <==> exists t :: Owns(s.At(t))
  {
    if owner.Some? { assert ThreadOk(s, owner, owner.value); }
    if HeldOrSelected(s) {
      var t :| s.At(t).Holding? || s.At(t).Granted? || s.At(t).Setting?;
      assert ThreadOk(s, owner, t);
    }
    if t :| Owns(s.At(t)) { assert ThreadOk(s, owner, t); }
  }

  /** With the counter at 0, as the destructor asserts, nobody holds the mutex and nobody waits for it. */
  lemma NobodyAtZero(policy: Policy, run: seq<Step>, t: Tid)
    requires IsRun(Init(policy), run) && After(Init(policy), run).count == 0
    ensures var s := After(Init(policy), run);
      s.waiters == [] && (s.At(t) == Idle || s.At(t).Trying? || s.At(t) == Adding)
  {
    InitInv(policy);
    var owner := RunKeeps(Init(policy), run, None);
    var s := After(Init(policy), run);
    assert ThreadOk(s, owner, t);
    assert t in Pushers(s) <==> s.At(t).Pushing?;
  }

  /** The assertions in lock(), try_lock() and unlock(): the counter is never negative. */
  lemma CountNeverNegative(policy: Policy, run: seq<Step>)
    requires IsRun(Init(policy), run)
    ensures After(Init(policy), run).count >= 0
  {
    InitInv(policy);
    var owner := RunKeeps(Init(policy), run, None);
  }

  /** lock() and try_lock() take the mutex by a CAS or a fetch_add only when nobody has it. */
  predicate Grabs(s: State, a: Step)
    requires Enabled(s, a)
  {
    match a
    case Cas(_, spurious) => s.count == 0 && !spurious
    case TryLock(_, spurious) => s.count == 0 && !spurious
    case FetchAdd(_) => s.count == 0
    case _ => false
  }

  lemma GrabbedWasFree(policy: Policy, run: seq<Step>, a: Step, t: Tid)
    requires IsRun(Init(policy), run) && Enabled(After(Init(policy), run), a)
    ensures var s := After(Init(policy), run);
      && (Grabs(s, a) <==> Next(s, a).At(a.t).Holding? && !s.At(a.t).Granted?)
      && (Grabs(s, a) ==> !Owns(s.At(t)) && s.At(t) != Waiting)
  {
    InitInv(policy);
    var owner := RunKeeps(Init(policy), run, None);
    var s := After(Init(policy), run);
    assert ThreadOk(s, owner, t) && ThreadOk(s, owner, a.t);
  }

  // ---------- what lock() and unlock() do ----------

  /** Inside lock(), not yet in possession of the mutex. */
  predicate InLock(pc: Pc) { pc.Trying? || pc.Adding? || pc.Pushing? || pc.Waiting? || pc.Granted? }

  /** Inside unlock(), with somebody still to be given the mutex. */
  predicate InUnlock(pc: Pc) { pc.Popping? || pc.Setting? }

  /** Every call of lock() enters the first attempt and ends only in possession of the mutex, whoever takes a step. */
  lemma LockEndsInHolding(policy: Policy, run: seq<Step>, a: Step, t: Tid)
    requires IsRun(Init(policy), run) && Enabled(After(Init(policy), run), a)
    ensures var s := After(Init(policy), run); var s' := Next(s, a);
      && (a == Lock(t) ==> s'.At(t) == Trying(0))
      && (a == FetchAdd(t) ==> s'.At(t) == if s.count == 0 then Holding else Pushing)
      && (a == Push(t) ==> s'.At(t) == Waiting) && (a == AwaitReturns(t) ==> s'.At(t) == Holding)
      && (InLock(s.At(t)) ==> InLock(s'.At(t)) || s'.At(t) == Holding)
      && (s.At(t) == Adding && s'.At(t) != Adding ==> a == FetchAdd(t) && s'.count == s.count + 1)
      && (s.At(t) == Pushing && s'.At(t) != Pushing ==> a == Push(t) && t in s'.waiters)
      && (s.At(t) == Waiting && s'.At(t) != Waiting ==> a.Set? && s.At(a.t) == Setting(t) && s'.At(t) == Granted)
  {
    InitInv(policy);
    var owner := RunKeeps(Init(policy), run, None);
    var s := After(Init(policy), run);
    assert ThreadOk(s, owner, t) && ThreadOk(s, owner, a.t);
    if a.Set? { assert ThreadOk(s, owner, s.At(a.t).next); }
  }

  /**
   Only unlock() or leaving that to another thread gives the mutex up, and unlock() ends at once if
   nobody else is counted, else only by giving the mutex to the waiter it has selected.
   */
  lemma UnlockEndsInHandOver(policy: Policy, run: seq<Step>, a: Step, t: Tid)
    requires IsRun(Init(policy), run) && Enabled(After(Init(policy), run), a)
    ensures var s := After(Init(policy), run); var s' := Next(s, a);
      && (s.At(t) == Holding && s'.At(t) != Holding ==>
            if a.FetchSub? then a.t == t && s'.At(t) == if s.count == 1 then Idle else Popping
            else a.Transfer? && a.t == t && s'.At(a.u) == Holding)
      && (s.At(t) == Popping && s'.At(t) != Popping ==>
            a == Pop(t) && s.waiters != [] && s'.At(t) == Setting(SelectedBy(s, a)[0]))
      && (s.At(t).Setting? && s'.At(t) != s.At(t) ==>
            a == Set(t) && s'.At(t) == Idle && s'.At(s.At(t).next) == Granted)
  {
    InitInv(policy);
    var owner := RunKeeps(Init(policy), run, None);
    var s := After(Init(policy), run);
    assert ThreadOk(s, owner, t) && ThreadOk(s, owner, a.t);
    if a.Set? { assert ThreadOk(s, owner, s.At(a.t).next); }
  }

  /** How an operation changes a counter that holds `c`. */
  function Counts(c: int, a: Step): int {
    match a
    case Cas(_, spurious) => if c == 0 && !spurious then 1 else 0
    case TryLock(_, spurious) => if c == 0 && !spurious then 1 else 0
    case FetchAdd(_) => 1
    case FetchSub(_) => -1
    case _ => 0
  }

  /** The counter, told from the operations alone. */
  function Counter(c: int, run: seq<Step>): int
    decreases |run|
  {
    if run == [] then c else Counter(c + Counts(c, run[0]), run[1..])
  }

  /** The queue, told from the operations alone. */
  function Queue(policy: Policy, q: seq<Tid>, run: seq<Step>): seq<Tid>
    decreases |run|
  {
    if run == [] then q
    else
      var q' := if run[0].Push? then q + [run[0].t]
                else if run[0].Pop? && q != [] then (if policy == Fair then q[1..] else q[..|q| - 1])
                else q;
      Queue(policy, q', run[1..])
  }

  lemma {:induction false} CounterSince(s: State, run: seq<Step>)
    requires IsRun(s, run)
    ensures After(s, run).count == Counter(s.count, run)
    decreases |run|
  {
    if run != [] { CounterSince(Next(s, run[0]), run[1..]); }
  }

  lemma {:induction false} QueueSince(s: State, run: seq<Step>)
    requires IsRun(s, run)
    ensures After(s, run).waiters == Queue(s.policy, s.waiters, run)
    decreases |run|
  {
    if run != [] {
      QueueStep(s, run[0]);
      QueueSince(Next(s, run[0]), run[1..]);
    }
  }

  lemma QueueStep(s: State, a: Step)
    requires Enabled(s, a)
    ensures Next(s, a).policy == s.policy && Next(s, a).waiters == Queue(s.policy, s.waiters, [a])
  {
    assert [a][1..] == [];
    if a.Pop? && s.waiters != [] {
      assert Without(s.waiters, 0) == s.waiters[1..];
      assert Without(s.waiters, |s.waiters| - 1) == s.waiters[..|s.waiters| - 1];
    }
  }

  /**
   The counter is what the successful CASes, the fetch_adds and the fetch_subs of a run make it, and
   the queue is first in first out under the fair policy, last in first out under the other.
   */
  lemma CounterAndQueue(policy: Policy, run: seq<Step>)
    requires IsRun(Init(policy), run)
    ensures After(Init(policy), run).count == Counter(0, run)
    ensures After(Init(policy), run).waiters == Queue(policy, [], run)
  {
    CounterSince(Init(policy), run);
    QueueSince(Init(policy), run);
  }

  // ---------- hand-over ----------

  /** How far the mutex is from the next holder. */
  function Rank(s: State, t: Tid): nat {
    match s.At(t)
    case Popping => if s.waiters == [] then 3 else 2
    case Setting(_) => 1
    case _ => 0
  }

  /** The step that brings the hand-over by `t` nearer to its end. */
  ghost predicate Advances(s: State, t: Tid, a: Step) {
    match s.At(t)
    case Popping => if s.waiters == [] then a.Push? else a == Pop(t)
    case Setting(_) => a == Set(t)
    case _ => false
  }

  /**
   No hand-over is lost: an unlocker that has not yet given the mutex away can always be brought
   nearer to it, by itself or, while it finds the queue empty, by a thread that is about to enqueue.
   Every such step counts and no step of anyone undoes it, so the spin loop ends under fairness.
   */
  lemma HandOverAdvances(policy: Policy, run: seq<Step>, t: Tid)
    requires IsRun(Init(policy), run)
    requires var s := After(Init(policy), run); s.At(t) == Popping || s.At(t).Setting?
    ensures var s := After(Init(policy), run);
      && (exists a :: Advances(s, t, a) && Enabled(s, a))
      && (forall a | Enabled(s, a) :: Rank(Next(s, a), t) <= Rank(s, t))
      && (forall a | Enabled(s, a) && Advances(s, t, a) :: Rank(Next(s, a), t) < Rank(s, t))
  {
    InitInv(policy);
    var owner := RunKeeps(Init(policy), run, None);
    var s := After(Init(policy), run);
    assert ThreadOk(s, owner, t);
    if s.At(t) == Popping && s.waiters == [] {
      var u :| u in Pushers(s);
      assert Advances(s, t, Push(u)) && Enabled(s, Push(u));
    } else if s.At(t) == Popping {
      assert Advances(s, t, Pop(t)) && Enabled(s, Pop(t));
    } else {
      assert Advances(s, t, Set(t)) && Enabled(s, Set(t));
    }
    forall a | Enabled(s, a)
      ensures Rank(Next(s, a), t) <= Rank(s, t)
      ensures Advances(s, t, a) ==> Rank(Next(s, a), t) < Rank(s, t)
    {
      assert ThreadOk(s, owner, a.t);
      if a.Set? { assert ThreadOk(s, owner, s.At(a.t).next); }
    }
  }

  // ---------- fairness ----------

  /** The waiters that are selected in a run, in order. */
  ghost function Selected(s: State, run: seq<Step>): seq<Tid>
    requires IsRun(s, run)
    decreases |run|
  {
    if run == [] then []
    else SelectedBy(s, run[0]) + Selected(Next(s, run[0]), run[1..])
  }

  /** The waiters that are enqueued in a run, in order. */
  ghost function Enqueued(s: State, run: seq<Step>): seq<Tid>
    requires IsRun(s, run)
    decreases |run|
  {
    if run == [] then []
    else EnqueuedBy(run[0]) + Enqueued(Next(s, run[0]), run[1..])
  }

  /** The number of times somebody takes the mutex without having waited. */
  ghost function Grabbed(s: State, run: seq<Step>): nat
    requires IsRun(s, run)
    decreases |run|
  {
    if run == [] then 0 else (if Grabs(s, run[0]) then 1 else 0) + Grabbed(Next(s, run[0]), run[1..])
  }

  function SelectedBy(s: State, a: Step): seq<Tid> {
    if a.Pop? && s.waiters != [] then [s.waiters[NextIndex(s.policy, s.waiters)]] else []
  }

  function EnqueuedBy(a: Step): seq<Tid> { if a.Push? then [a.t] else [] }

  lemma FairStep(s: State, a: Step)
    requires Enabled(s, a) && s.policy == Fair
    ensures SelectedBy(s, a) + Next(s, a).waiters == s.waiters + EnqueuedBy(a)
  {
  }

  /** Under the fair policy the queue is first in, first out over any run. */
  lemma {:induction false} FairQueue(s: State, run: seq<Step>)
    requires IsRun(s, run) && s.policy == Fair
    ensures Selected(s, run) + After(s, run).waiters == s.waiters + Enqueued(s, run)
    decreases |run|
  {
    if run != [] {
      var s1, rest := Next(s, run[0]), run[1..];
      FairQueue(s1, rest);
      FairStep(s, run[0]);
      Regroup(SelectedBy(s, run[0]), Selected(s1, rest), After(s1, rest).waiters,
              s.waiters, EnqueuedBy(run[0]), Enqueued(s1, rest), s1.waiters);
    }
  }

  lemma Regroup(x: seq<Tid>, xs: seq<Tid>, q2: seq<Tid>, q0: seq<Tid>, y: seq<Tid>, ys: seq<Tid>, q1: seq<Tid>)
    requires x + q1 == q0 + y && xs + q2 == q1 + ys
    ensures (x + xs) + q2 == q0 + (y + ys)
  {
    assert (x + xs) + q2 == x + (xs + q2) == (x + q1) + ys == q0 + (y + ys);
  }

  /** While a waiter is enqueued nobody takes the mutex past it by a CAS or a fetch_add. */
  lemma {:induction false} NoGrabPastWaiter(s: State, run: seq<Step>, owner: Option<Tid>, k: nat)
    requires IsRun(s, run) && s.policy == Fair && InvWith(s, owner)
    requires |Selected(s, run)| <= k < |s.waiters|
    ensures Grabbed(s, run) == 0
    decreases |run|
  {
    if run != [] {
      assert s.count > 0;
      StepKeeps(s, run[0], owner);
      var popped := if run[0].Pop? then 1 else 0;
      NoGrabPastWaiter(Next(s, run[0]), run[1..], OwnerAfter(s, run[0], owner), k - popped);
    }
  }

  /**
   The exact bypass bound of the fair policy. A waiter at index `k` of the queue is selected after
   exactly the `k` waiters before it; until then it moves up with every selection and nobody else
   gets the mutex.
   */
  lemma BypassBound(prefix: seq<Step>, run: seq<Step>, k: nat)
    requires IsRun(Init(Fair), prefix)
    requires var s := After(Init(Fair), prefix); IsRun(s, run) && k < |s.waiters|
    ensures var s := After(Init(Fair), prefix); var n := |Selected(s, run)|;
      if n <= k
      then && Selected(s, run) == s.waiters[..n]
           && k - n < |After(s, run).waiters| && After(s, run).waiters[k - n] == s.waiters[k]
           && Grabbed(s, run) == 0
      else Selected(s, run)[..k + 1] == s.waiters[..k + 1]
  {
    InitInv(Fair);
    var s := After(Init(Fair), prefix);
    var owner := RunKeeps(Init(Fair), prefix, None);
    PolicyFixed(Init(Fair), prefix);
    FairQueue(s, run);
    SplitQueue(Selected(s, run), After(s, run).waiters, s.waiters, Enqueued(s, run), k);
    if |Selected(s, run)| <= k { NoGrabPastWaiter(s, run, owner, k); }
  }

  lemma SplitQueue(out: seq<Tid>, left: seq<Tid>, q: seq<Tid>, more: seq<Tid>, k: nat)
    requires out + left == q + more && k < |q|
    ensures if |out| <= k then out == q[..|out|] && k - |out| < |left| && left[k - |out|] == q[k]
            else out[..k + 1] == q[..k + 1]
  {
    var all, n := q + more, |out|;
    assert out == all[..n] && left == all[n..];
    if n <= k { assert all[n..][k - n] == all[k]; }
  }

  lemma {:induction false} PolicyFixed(s: State, run: seq<Step>)
    requires IsRun(s, run)
    ensures After(s, run).policy == s.policy
    decreases |run|
  {
    if run != [] { PolicyFixed(Next(s, run[0]), run[1..]); }
  }

  // ---------- the high-throughput policy ----------

  /** Thread `b` waits, is given the mutex by `a`, and becomes the holder. */
  function Overtake(a: Tid, b: Tid): seq<Step> {
    [Lock(b), Cas(b, false), FetchAdd(b), Push(b), FetchSub(a), Pop(a), Set(a), AwaitReturns(b)]
  }

  function Overtakes(a: Tid, b: Tid, n: nat): seq<Step>
    decreases n
  {
    if n == 0 then [] else Overtake(a, b) + Overtakes(b, a, n - 1)
  }

  ghost predicate Starved(s: State, w: Tid, a: Tid, b: Tid) {
    && s.policy == HighThroughput && s.count == 2 && s.waiters == [w]
    && w != a && w != b && a != b && s.At(a) == Holding && s.At(b) == Idle
  }

  lemma {:induction false} RunAppend(s: State, run: seq<Step>, more: seq<Step>)
    requires IsRun(s, run) && IsRun(After(s, run), more)
    ensures IsRun(s, run + more) && After(s, run + more) == After(After(s, run), more)
    decreases |run|
  {
    if run == [] {
      assert run + more == more;
    } else {
      RunAppend(Next(s, run[0]), run[1..], more);
      assert (run + more)[0] == run[0] && (run + more)[1..] == run[1..] + more;
    }
  }

  lemma {:induction false} SelectedAppend(s: State, run: seq<Step>, more: seq<Step>)
    requires IsRun(s, run) && IsRun(After(s, run), more) && IsRun(s, run + more)
    ensures Selected(s, run + more) == Selected(s, run) + Selected(After(s, run), more)
    decreases |run|
  {
    if run == [] {
      assert run + more == more;
    } else {
      assert (run + more)[0] == run[0] && (run + more)[1..] == run[1..] + more;
      SelectedAppend(Next(s, run[0]), run[1..], more);
    }
  }

  lemma RunFirst(s: State, a: Step, rest: seq<Step>)
    requires Enabled(s, a) && IsRun(Next(s, a), rest)
    ensures IsRun(s, [a] + rest) && After(s, [a] + rest) == After(Next(s, a), rest)
    ensures Selected(s, [a] + rest) == SelectedBy(s, a) + Selected(Next(s, a), rest)
  {
    assert ([a] + rest)[1..] == rest;
  }

  lemma OvertakeOnce(s: State, w: Tid, a: Tid, b: Tid)
    requires Starved(s, w, a, b)
    ensures IsRun(s, Overtake(a, b)) && Starved(After(s, Overtake(a, b)), w, b, a)
    ensures Selected(s, Overtake(a, b)) == [b]
  {
    var s1 := Next(s, Lock(b));
    var s2 := Next(s1, Cas(b, false));
    var s3 := Next(s2, FetchAdd(b));
    var s4 := Next(s3, Push(b));
    var r := Overtake(a, b);
    Given(s4, w, a, b);
    RunFirst(s3, Push(b), r[4..]);
    assert [Push(b)] + r[4..] == r[3..];
    RunFirst(s2, FetchAdd(b), r[3..]);
    assert [FetchAdd(b)] + r[3..] == r[2..];
    RunFirst(s1, Cas(b, false), r[2..]);
    assert [Cas(b, false)] + r[2..] == r[1..];
    RunFirst(s, Lock(b), r[1..]);
    assert [Lock(b)] + r[1..] == r;
  }

  /** The second half: `a` unlocks, finds `b` at the back of the queue and gives it the mutex. */
  lemma Given(s: State, w: Tid, a: Tid, b: Tid)
    requires s.policy == HighThroughput && s.count == 3 && s.waiters == [w, b] && w != a && w != b && a != b
    requires s.At(a) == Holding && s.At(b) == Waiting
    ensures var r := Overtake(a, b)[4..];
      IsRun(s, r) && Starved(After(s, r), w, b, a) && Selected(s, r) == [b]
  {
    var s1 := Next(s, FetchSub(a));
    var s2 := Next(s1, Pop(a));
    var s3 := Next(s2, Set(a));
    var r := Overtake(a, b);
    RunFirst(s3, AwaitReturns(b), []);
    assert [AwaitReturns(b)] + [] == r[7..];
    RunFirst(s2, Set(a), r[7..]);
    assert [Set(a)] + r[7..] == r[6..];
    RunFirst(s1, Pop(a), r[6..]);
    assert [Pop(a)] + r[6..] == r[5..];
    RunFirst(s, FetchSub(a), r[5..]);
    assert [FetchSub(a)] + r[5..] == r[4..];
  }

  lemma {:induction false} OvertakeMany(s: State, w: Tid, a: Tid, b: Tid, n: nat)
    requires Starved(s, w, a, b)
    ensures IsRun(s, Overtakes(a, b, n)) && After(s, Overtakes(a, b, n)).waiters == [w]
    ensures |Selected(s, Overtakes(a, b, n))| == n && w !in Selected(s, Overtakes(a, b, n))
    decreases n
  {
    if n > 0 {
      OvertakeOnce(s, w, a, b);
      OvertakeMany(After(s, Overtake(a, b)), w, b, a, n - 1);
      RunAppend(s, Overtake(a, b), Overtakes(b, a, n - 1));
      SelectedAppend(s, Overtake(a, b), Overtakes(b, a, n - 1));
    }
  }

  /** The CAS attempts of lock() left at attempt `i`. */
  function Tries(t: Tid, i: nat): seq<Step>
    requires i <= MAX_TRIES
    decreases MAX_TRIES - i
  {
    if i == MAX_TRIES then [] else [Cas(t, false)] + Tries(t, i + 1)
  }

  /** While one thread holds the mutex and nobody waits, lock() uses up all its eight attempts. */
  lemma {:induction false} TriesFail(s: State, t: Tid, i: nat)
    requires i < MAX_TRIES && s.count == 1 && s.At(t) == Trying(i)
    ensures |Tries(t, i)| == 8 - i && IsRun(s, Tries(t, i)) && After(s, Tries(t, i)).At(t) == Adding
    ensures var s' := After(s, Tries(t, i));
      s'.(pcs := s.pcs) == s && forall u | u != t :: s'.At(u) == s.At(u)
    decreases MAX_TRIES - i
  {
    var s1 := Next(s, Cas(t, false));
    if i + 1 < MAX_TRIES { TriesFail(s1, t, i + 1); }
    RunFirst(s, Cas(t, false), Tries(t, i + 1));
  }

  /** Thread 1 takes the mutex and thread 0 comes to wait for it. */
  function OneWaits(): seq<Step> { [TryLock(1, false)] + ([Lock(0)] + (Tries(0, 0) + Enqueue(0))) }
  function Enqueue(t: Tid): seq<Step> { [FetchAdd(t)] + ([Push(t)] + []) }

  lemma TriesThenWaits(s: State, t: Tid)
    requires s.count == 1 && s.At(t) == Trying(0) && s.waiters == []
    ensures IsRun(s, Tries(t, 0) + Enqueue(t))
    ensures var s' := After(s, Tries(t, 0) + Enqueue(t));
      && s'.policy == s.policy && s'.count == 2 && s'.waiters == [t] && s'.At(t) == Waiting
      && forall u | u != t :: s'.At(u) == s.At(u)
  {
    TriesFail(s, t, 0);
    var s1 := After(s, Tries(t, 0));
    var s2 := Next(s1, FetchAdd(t));
    RunFirst(s2, Push(t), []);
    RunFirst(s1, FetchAdd(t), [Push(t)] + []);
    RunAppend(s, Tries(t, 0), Enqueue(t));
  }

  lemma OneWaitsRun()
    ensures IsRun(Init(HighThroughput), OneWaits())
    ensures Starved(After(Init(HighThroughput), OneWaits()), 0, 1, 2)
  {
    var s := Init(HighThroughput);
    var s1 := Next(s, TryLock(1, false));
    TriesThenWaits(Next(s1, Lock(0)), 0);
    RunFirst(s1, Lock(0), Tries(0, 0) + Enqueue(0));
    RunFirst(s, TryLock(1, false), [Lock(0)] + (Tries(0, 0) + Enqueue(0)));
  }

  /** The high-throughput policy has no bypass bound: the first waiter can be overtaken any number of times. */
  lemma HighThroughputStarves(n: nat)
    ensures IsRun(Init(HighThroughput), OneWaits())
    ensures var s := After(Init(HighThroughput), OneWaits()); var run := Overtakes(1, 2, n);
      && s.waiters == [0] && IsRun(s, run) && After(s, run).waiters == [0]
      && |Selected(s, run)| == n && 0 !in Selected(s, run)
  {
    OneWaitsRun();
    OvertakeMany(After(Init(HighThroughput), OneWaits()), 0, 1, 2, n);
  }
}
