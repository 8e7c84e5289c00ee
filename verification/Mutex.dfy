/**
 `co::BaseMutex`: a counter and a queue of waiters that are updated in separate atomic steps, and
 an unlocker that hands the mutex over to a waiter. Any number of threads (or coroutines) take
 part; one step is one atomic operation or one section under the lock of `mWaiter`.
 */
module Mutex {
  import opened Options

  type Tid = nat

  datatype Policy = Fair | HighThroughput

  /** Where a thread is inside lock() and unlock(). */
  datatype Pc =
    | Idle
    | Trying(i: nat)      // lock(): before CAS number i of at most 8
    | Adding              // lock(): before fetch_add
    | Pushing             // lock(): fetch_add found the mutex taken; before addToWaiter
    | Waiting             // lock(): in await(p)
    | Granted             // lock(): p is set, await(p) may return
    | Holding
    | Popping             // unlock(): others wait; in the loop around getNextWaiter
    | Setting(next: Tid)  // unlock(): before next->set_value

  datatype State = State(policy: Policy, count: int, waiters: seq<Tid>, pcs: map<Tid, Pc>)
  {
    function At(t: Tid): Pc { if t in pcs then pcs[t] else Idle }
    function Put(t: Tid, pc: Pc): State { this.(pcs := pcs[t := pc]) }
  }

  function Init(policy: Policy): State { State(policy, 0, [], map[]) }

  const MAX_TRIES := 8

  datatype Step =
    | Lock(t: Tid)                     // a thread calls lock()
    | Cas(t: Tid, spurious: bool)      // compare_exchange_weak in the loop of lock()
    | TryLock(t: Tid, spurious: bool)  // try_lock()
    | FetchAdd(t: Tid)
    | Push(t: Tid)                     // addToWaiter
    | AwaitReturns(t: Tid)             // await(p) returns
    | FetchSub(t: Tid)                 // a thread calls unlock()
    | Transfer(t: Tid, u: Tid)         // the holder leaves it to another thread to unlock
    | Pop(t: Tid)                      // one round of the loop of unlock()
    | Set(t: Tid)                      // next->set_value

  /** unlock() is for whoever has been left the mutex; lock() and try_lock() are not for a thread in the mutex. */
  predicate Enabled(s: State, a: Step) {
    match a
    case Lock(t) => s.At(t) == Idle
    case Cas(t, _) => s.At(t).Trying?
    case TryLock(t, _) => s.At(t) == Idle
    case FetchAdd(t) => s.At(t) == Adding
    case Push(t) => s.At(t) == Pushing
    case AwaitReturns(t) => s.At(t) == Granted
    case FetchSub(t) => s.At(t) == Holding
    case Transfer(t, u) => s.At(t) == Holding && s.At(u) == Idle
    case Pop(t) => s.At(t) == Popping
    case Set(t) => s.At(t).Setting?
  }

  function NextIndex(policy: Policy, waiters: seq<Tid>): nat
    requires waiters != []
  {
    match policy case Fair => 0 case HighThroughput => |waiters| - 1
  }

  function Without(waiters: seq<Tid>, i: nat): seq<Tid>
    requires i < |waiters|
  {
    waiters[..i] + waiters[i + 1..]
  }

  function Next(s: State, a: Step): State
    requires Enabled(s, a)
  {
    match a
    case Lock(t) => s.Put(t, Trying(0))
    case Cas(t, spurious) =>
      if s.count == 0 && !spurious then s.(count := 1).Put(t, Holding)
      else if s.count > 1 || s.At(t).i + 1 >= MAX_TRIES then s.Put(t, Adding)
      else s.Put(t, Trying(s.At(t).i + 1))
    case TryLock(t, spurious) =>
      if s.count == 0 && !spurious then s.(count := 1).Put(t, Holding) else s.Put(t, Idle)
    case FetchAdd(t) => s.(count := s.count + 1).Put(t, if s.count + 1 == 1 then Holding else Pushing)
    case Push(t) => s.(waiters := s.waiters + [t]).Put(t, Waiting)
    case AwaitReturns(t) => s.Put(t, Holding)
    case FetchSub(t) => s.(count := s.count - 1).Put(t, if s.count - 1 == 0 then Idle else Popping)
    case Transfer(t, u) => s.Put(t, Idle).Put(u, Holding)
    case Pop(t) =>
      if s.waiters == [] then s
      else
        var i := NextIndex(s.policy, s.waiters);
        s.(waiters := Without(s.waiters, i)).Put(t, Setting(s.waiters[i]))
    case Set(t) => s.Put(s.At(t).next, Granted).Put(t, Idle)
  }

  // ---------- the invariant ----------

  /** The mutex is in the hands of `t`: it holds it, has been given it, or is handing it over. */
  predicate Owns(pc: Pc) { pc.Granted? || pc.Holding? || pc.Popping? || pc.Setting? }

  /** Threads between their fetch_add and their addToWaiter. */
  function Pushers(s: State): set<Tid> { set t | t in s.pcs && s.pcs[t].Pushing? }

  /** The holder, or the waiter that has been selected to become the holder. */
  function HolderCount(s: State, owner: Option<Tid>): nat {
    if owner.Some? && !s.At(owner.value).Popping? then 1 else 0
  }

  ghost predicate ThreadOk(s: State, owner: Option<Tid>, t: Tid) {
    && (Owns(s.At(t)) <==> owner == Some(t))
    && (s.At(t) == Waiting <==> (t in s.waiters || (owner.Some? && s.At(owner.value) == Setting(t))))
  }

  ghost predicate Distinct(q: seq<Tid>) { forall i, j | 0 <= i < j < |q| :: q[i] != q[j] }

  ghost predicate InvWith(s: State, owner: Option<Tid>) {
    && (s.count > 0 <==> owner.Some?)
    && s.count == |Pushers(s)| + |s.waiters| + HolderCount(s, owner)
    && Distinct(s.waiters)
    && (forall t :: ThreadOk(s, owner, t))
    && (owner.Some? && s.At(owner.value).Setting? ==> s.At(owner.value).next !in s.waiters)
  }

  ghost predicate Inv(s: State) { exists owner :: InvWith(s, owner) }

  lemma PushersAfter(s: State, t: Tid, pc: Pc)
    ensures pc.Pushing? ==> Pushers(s.Put(t, pc)) == Pushers(s) + {t}
    ensures !pc.Pushing? ==> Pushers(s.Put(t, pc)) == Pushers(s) - {t}
  {
  }

  /** The owner after a step. */
  function OwnerAfter(s: State, a: Step, owner: Option<Tid>): Option<Tid>
    requires Enabled(s, a)
  {
    match a
    case Cas(t, spurious) => if s.count == 0 && !spurious then Some(t) else owner
    case TryLock(t, spurious) => if s.count == 0 && !spurious then Some(t) else owner
    case FetchAdd(t) => if s.count == 0 then Some(t) else owner
    case FetchSub(t) => if s.count == 1 then None else owner
    case Transfer(_, u) => Some(u)
    case Set(t) => Some(s.At(t).next)
    case _ => owner
  }

  lemma WithoutOne(q: seq<Tid>, i: nat)
    requires Distinct(q) && i < |q|
    ensures Distinct(Without(q, i)) && |Without(q, i)| == |q| - 1
    ensures forall t :: t in Without(q, i) <==> t in q && t != q[i]
  {
    forall t | t in q && t != q[i] ensures t in Without(q, i) {
      var j :| 0 <= j < |q| && q[j] == t;
      assert Without(q, i)[if j < i then j else j - 1] == t;
    }
  }

  lemma LockKeeps(s: State, t: Tid, owner: Option<Tid>)
    requires InvWith(s, owner) && Enabled(s, Lock(t))
    ensures InvWith(Next(s, Lock(t)), OwnerAfter(s, Lock(t), owner))
  {
    var s', owner' := Next(s, Lock(t)), OwnerAfter(s, Lock(t), owner);
    PushersAfter(s, t, s'.At(t));
    assert ThreadOk(s, owner, t);
    forall u ensures ThreadOk(s', owner', u) { assert ThreadOk(s, owner, u); }
  }

  lemma CasKeeps(s: State, t: Tid, spurious: bool, owner: Option<Tid>)
    requires InvWith(s, owner) && Enabled(s, Cas(t, spurious))
    ensures InvWith(Next(s, Cas(t, spurious)), OwnerAfter(s, Cas(t, spurious), owner))
  {
    var s', owner' := Next(s, Cas(t, spurious)), OwnerAfter(s, Cas(t, spurious), owner);
    PushersAfter(s, t, s'.At(t));
    assert ThreadOk(s, owner, t);
    forall u ensures ThreadOk(s', owner', u) { assert ThreadOk(s, owner, u); }
  }

  lemma TryLockKeeps(s: State, t: Tid, spurious: bool, owner: Option<Tid>)
    requires InvWith(s, owner) && Enabled(s, TryLock(t, spurious))
    ensures InvWith(Next(s, TryLock(t, spurious)), OwnerAfter(s, TryLock(t, spurious), owner))
  {
    var s', owner' := Next(s, TryLock(t, spurious)), OwnerAfter(s, TryLock(t, spurious), owner);
    PushersAfter(s, t, s'.At(t));
    assert ThreadOk(s, owner, t);
    forall u ensures ThreadOk(s', owner', u) { assert ThreadOk(s, owner, u); }
  }

  lemma FetchAddKeeps(s: State, t: Tid, owner: Option<Tid>)
    requires InvWith(s, owner) && Enabled(s, FetchAdd(t))
    ensures InvWith(Next(s, FetchAdd(t)), OwnerAfter(s, FetchAdd(t), owner))
  {
    var s', owner' := Next(s, FetchAdd(t)), OwnerAfter(s, FetchAdd(t), owner);
    PushersAfter(s, t, s'.At(t));
    assert ThreadOk(s, owner, t);
    forall u ensures ThreadOk(s', owner', u) { assert ThreadOk(s, owner, u); }
  }

  lemma PushKeeps(s: State, t: Tid, owner: Option<Tid>)
    requires InvWith(s, owner) && Enabled(s, Push(t))
    ensures InvWith(Next(s, Push(t)), OwnerAfter(s, Push(t), owner))
  {
    var s', owner' := Next(s, Push(t)), OwnerAfter(s, Push(t), owner);
    PushersAfter(s, t, s'.At(t));
    assert ThreadOk(s, owner, t);
    forall u ensures ThreadOk(s', owner', u) { assert ThreadOk(s, owner, u); }
  }

  lemma AwaitReturnsKeeps(s: State, t: Tid, owner: Option<Tid>)
    requires InvWith(s, owner) && Enabled(s, AwaitReturns(t))
    ensures InvWith(Next(s, AwaitReturns(t)), OwnerAfter(s, AwaitReturns(t), owner))
  {
    var s', owner' := Next(s, AwaitReturns(t)), OwnerAfter(s, AwaitReturns(t), owner);
    PushersAfter(s, t, s'.At(t));
    assert ThreadOk(s, owner, t);
    forall u ensures ThreadOk(s', owner', u) { assert ThreadOk(s, owner, u); }
  }

  lemma FetchSubKeeps(s: State, t: Tid, owner: Option<Tid>)
    requires InvWith(s, owner) && Enabled(s, FetchSub(t))
    ensures InvWith(Next(s, FetchSub(t)), OwnerAfter(s, FetchSub(t), owner))
  {
    var s', owner' := Next(s, FetchSub(t)), OwnerAfter(s, FetchSub(t), owner);
    PushersAfter(s, t, s'.At(t));
    assert ThreadOk(s, owner, t);
    forall u ensures ThreadOk(s', owner', u) { assert ThreadOk(s, owner, u); }
  }

  lemma PopKeeps(s: State, t: Tid, owner: Option<Tid>)
    requires InvWith(s, owner) && Enabled(s, Pop(t))
    ensures InvWith(Next(s, Pop(t)), OwnerAfter(s, Pop(t), owner))
  {
    var s', owner' := Next(s, Pop(t)), OwnerAfter(s, Pop(t), owner);
    PushersAfter(s, t, s'.At(t));
    assert ThreadOk(s, owner, t);
    if s.waiters != [] { WithoutOne(s.waiters, NextIndex(s.policy, s.waiters)); }
    forall u ensures ThreadOk(s', owner', u) { assert ThreadOk(s, owner, u); }
  }

  lemma SetKeeps(s: State, t: Tid, owner: Option<Tid>)
    requires InvWith(s, owner) && Enabled(s, Set(t))
    ensures InvWith(Next(s, Set(t)), OwnerAfter(s, Set(t), owner))
  {
    var s', owner' := Next(s, Set(t)), OwnerAfter(s, Set(t), owner);
    PushersAfter(s, t, s'.At(t));
    assert ThreadOk(s, owner, t);
    var n := s.At(t).next;
    PushersAfter(s, n, Granted);
    PushersAfter(s.Put(n, Granted), t, Idle);
    assert ThreadOk(s, owner, n);
    forall u ensures ThreadOk(s', owner', u) { assert ThreadOk(s, owner, u); }
  }

  lemma TransferKeeps(s: State, t: Tid, u: Tid, owner: Option<Tid>)
    requires InvWith(s, owner) && Enabled(s, Transfer(t, u))
    ensures InvWith(Next(s, Transfer(t, u)), OwnerAfter(s, Transfer(t, u), owner))
  {
    var s', owner' := Next(s, Transfer(t, u)), OwnerAfter(s, Transfer(t, u), owner);
    PushersAfter(s, t, Idle);
    PushersAfter(s.Put(t, Idle), u, Holding);
    assert ThreadOk(s, owner, t) && ThreadOk(s, owner, u);
    forall v ensures ThreadOk(s', owner', v) { assert ThreadOk(s, owner, v); }
  }

  lemma StepKeeps(s: State, a: Step, owner: Option<Tid>)
    requires InvWith(s, owner) && Enabled(s, a)
    ensures InvWith(Next(s, a), OwnerAfter(s, a, owner))
  {
    match a
    case Lock(t) => LockKeeps(s, t, owner);
    case Cas(t, spurious) => CasKeeps(s, t, spurious, owner);
    case TryLock(t, spurious) => TryLockKeeps(s, t, spurious, owner);
    case FetchAdd(t) => FetchAddKeeps(s, t, owner);
    case Push(t) => PushKeeps(s, t, owner);
    case AwaitReturns(t) => AwaitReturnsKeeps(s, t, owner);
    case FetchSub(t) => FetchSubKeeps(s, t, owner);
    case Pop(t) => PopKeeps(s, t, owner);
    case Transfer(t, u) => TransferKeeps(s, t, u, owner);
    case Set(t) => SetKeeps(s, t, owner);
  }

  lemma StepKeepsInv(s: State, a: Step)
    requires Inv(s) && Enabled(s, a)
    ensures Inv(Next(s, a))
  {
    var owner :| InvWith(s, owner);
    StepKeeps(s, a, owner);
  }

  /** The mutex itself; every method is one atomic step of one thread, with all others free in between. */
  class BaseMutex {
    const policy: Policy
    var mCountOfWaiter: int
    var mWaiter: seq<Tid>
    ghost var pcs: map<Tid, Pc>

    ghost function Abs(): State reads this { State(policy, mCountOfWaiter, mWaiter, pcs) }
    ghost predicate Valid() reads this { Inv(Abs()) }

    constructor (policy: Policy)
      ensures Valid() && Abs() == Init(policy)
    {
      this.policy := policy;
      mCountOfWaiter, mWaiter, pcs := 0, [], map[];
      new;
      assert Pushers(Abs()) == {};
      assert InvWith(Abs(), None);
    }

    /** `spurious` is the choice of compare_exchange_weak to fail although the counter is 0. */
    method CompareExchangeWeak(spurious: bool) returns (res: bool, expected: int)
      modifies this`mCountOfWaiter
      ensures res == (old(mCountOfWaiter) == 0 && !spurious) && expected == old(mCountOfWaiter)
      ensures mCountOfWaiter == if res then 1 else old(mCountOfWaiter)
    {
      expected := mCountOfWaiter;
      res := mCountOfWaiter == 0 && !spurious;
      if res { mCountOfWaiter := 1; }
    }

    method StartLock(t: Tid)
      requires Valid() && Enabled(Abs(), Lock(t))
      modifies this
      ensures Valid() && Abs() == Next(old(Abs()), Lock(t))
    {
      StepKeepsInv(Abs(), Lock(t));
      pcs := pcs[t := Trying(0)];
    }

    /** Round `i` of the loop of lock(); true if the caller has the mutex, and whether another round follows. */
    method TryInLock(t: Tid, i: nat, spurious: bool) returns (locked: bool, again: bool)
      requires Valid() && Abs().At(t) == Trying(i)
      modifies this
      ensures Valid() && Abs() == Next(old(Abs()), Cas(t, spurious))
      ensures locked <==> old(mCountOfWaiter) == 0 && !spurious
      ensures again <==> !locked && old(mCountOfWaiter) <= 1 && i < 7
      ensures mCountOfWaiter == (if locked then 1 else old(mCountOfWaiter)) && mWaiter == old(mWaiter)
      ensures Abs().At(t) == if locked then Holding else if again then Trying(i + 1) else Adding
    {
      StepKeepsInv(Abs(), Cas(t, spurious));
      var expected;
      locked, expected := CompareExchangeWeak(spurious);
      again := !locked && !(expected > 1) && i + 1 < MAX_TRIES;
      pcs := pcs[t := if locked then Holding else if again then Trying(i + 1) else Adding];
    }

    method DoTryLock(t: Tid, spurious: bool) returns (res: bool)
      requires Valid() && Enabled(Abs(), TryLock(t, spurious))
      modifies this
      ensures Valid() && Abs() == Next(old(Abs()), TryLock(t, spurious))
      ensures res <==> old(mCountOfWaiter) == 0 && !spurious
      ensures mCountOfWaiter == (if res then 1 else old(mCountOfWaiter)) && mWaiter == old(mWaiter)
      ensures Abs().At(t) == if res then Holding else Idle
    {
      StepKeepsInv(Abs(), TryLock(t, spurious));
      var expected;
      res, expected := CompareExchangeWeak(spurious);
      pcs := pcs[t := if res then Holding else Idle];
    }

    method AddInLock(t: Tid) returns (locked: bool)
      requires Valid() && Enabled(Abs(), FetchAdd(t))
      modifies this
      ensures Valid() && Abs() == Next(old(Abs()), FetchAdd(t))
      ensures mCountOfWaiter == old(mCountOfWaiter) + 1 && mWaiter == old(mWaiter)
      ensures locked <==> mCountOfWaiter == 1
      ensures Abs().At(t) == if locked then Holding else Pushing
    {
      StepKeepsInv(Abs(), FetchAdd(t));
      mCountOfWaiter := mCountOfWaiter + 1;
      locked := mCountOfWaiter == 1;
      pcs := pcs[t := if locked then Holding else Pushing];
    }

    method AddToWaiter(t: Tid)
      requires Valid() && Enabled(Abs(), Push(t))
      modifies this
      ensures Valid() && Abs() == Next(old(Abs()), Push(t))
      ensures mWaiter == old(mWaiter) + [t] && mCountOfWaiter == old(mCountOfWaiter) && Abs().At(t) == Waiting
    {
      StepKeepsInv(Abs(), Push(t));
      mWaiter := mWaiter + [t];
      pcs := pcs[t := Waiting];
    }

    method ReturnFromAwait(t: Tid)
      requires Valid() && Enabled(Abs(), AwaitReturns(t))
      modifies this
      ensures Valid() && Abs() == Next(old(Abs()), AwaitReturns(t))
      ensures mWaiter == old(mWaiter) && mCountOfWaiter == old(mCountOfWaiter) && Abs().At(t) == Holding
    {
      StepKeepsInv(Abs(), AwaitReturns(t));
      pcs := pcs[t := Holding];
    }

    method SubInUnlock(t: Tid) returns (done: bool)
      requires Valid() && Enabled(Abs(), FetchSub(t))
      modifies this
      ensures Valid() && Abs() == Next(old(Abs()), FetchSub(t))
      ensures mCountOfWaiter == old(mCountOfWaiter) - 1 && mWaiter == old(mWaiter)
      ensures (done <==> mCountOfWaiter == 0) && mCountOfWaiter >= 0
      ensures Abs().At(t) == if done then Idle else Popping
    {
      StepKeepsInv(Abs(), FetchSub(t));
      mCountOfWaiter := mCountOfWaiter - 1;
      done := mCountOfWaiter == 0;
      pcs := pcs[t := if done then Idle else Popping];
    }

    /** The holder `t` leaves it to `u` to call unlock(). */
    ghost method LeaveTo(t: Tid, u: Tid)
      requires Valid() && Enabled(Abs(), Transfer(t, u))
      modifies this`pcs
      ensures Valid() && Abs() == Next(old(Abs()), Transfer(t, u))
    {
      StepKeepsInv(Abs(), Transfer(t, u));
      pcs := pcs[t := Idle][u := Holding];
    }

    method GetNextWaiter() returns (next: Tid)
      requires mWaiter != []
      modifies this`mWaiter
      ensures var i := NextIndex(policy, old(mWaiter));
        next == old(mWaiter)[i] && mWaiter == Without(old(mWaiter), i)
      ensures old(mWaiter) == if policy == Fair then [next] + mWaiter else mWaiter + [next]
    {
      match policy
      case Fair => next, mWaiter := mWaiter[0], mWaiter[1..];
      case HighThroughput => next, mWaiter := mWaiter[|mWaiter| - 1], mWaiter[..|mWaiter| - 1];
    }

    /** One round of the loop of unlock(). */
    method PopInUnlock(t: Tid) returns (next: Option<Tid>)
      requires Valid() && Enabled(Abs(), Pop(t))
      modifies this
      ensures Valid() && Abs() == Next(old(Abs()), Pop(t))
      ensures mCountOfWaiter == old(mCountOfWaiter)
      ensures match next
              case Some(n) =>
                && Abs().At(t) == Setting(n)
                && old(mWaiter) == if policy == Fair then [n] + mWaiter else mWaiter + [n]
              case None => old(mWaiter) == mWaiter == [] && Abs().At(t) == Popping
    {
      StepKeepsInv(Abs(), Pop(t));
      next := None;
      if mWaiter != [] {
        var n := GetNextWaiter();
        next := Some(n);
        pcs := pcs[t := Setting(n)];
      }
    }

    method SetInUnlock(t: Tid, next: Tid)
      requires Valid() && Abs().At(t) == Setting(next)
      modifies this
      ensures Valid() && Abs() == Next(old(Abs()), Set(t))
      ensures mWaiter == old(mWaiter) && mCountOfWaiter == old(mCountOfWaiter)
      ensures Abs().At(next) == Granted && Abs().At(t) == Idle
    {
      StepKeepsInv(Abs(), Set(t));
      assert exists owner :: InvWith(Abs(), owner) && ThreadOk(Abs(), owner, t) && ThreadOk(Abs(), owner, next);
      pcs := pcs[next := Granted][t := Idle];
    }
  }
}
