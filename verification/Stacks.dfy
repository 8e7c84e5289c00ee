/**
 The nesting of coroutine bodies on threads: the thread-local `current()` and the `mOuter` links
 of `co::Routine::Data`, next to the call stacks they are meant to mirror.
 */
module Stacks {
  import opened Options

  type Tid = nat
  type Cid = nat

  /** The `Runner` object in the stack frame of the `epoch`-th await of coroutine `co`. */
  datatype Runner = Runner(co: Cid, epoch: nat)

  /** What a thread can block on, in wait(), get() or join(): a plain future or a routine. */
  datatype Target = AtFuture(f: nat) | AtRoutine(b: Cid)

  /**
   What a thread is doing, innermost last: running a coroutine body, running the destructors, the
   post-leave or the finish step of a coroutine it has just left, calling a runner, or blocking.
   `byCtor` tells an episode started by the constructor of `Data` from one started by the loop in
   `Runner::operator()`.
   */
  datatype Frame = Body(c: Cid, byCtor: bool) | After(c: Cid, byCtor: bool) | Calling(r: Runner) | Blocking(on: Target)
  {
    /** A frame of a coroutine. */
    predicate OfCo() { Body? || After? }
  }

  datatype Slot = Slot(t: Tid, i: nat, frame: Frame)

  datatype Control = Control(
    outer: map<Cid, Option<Cid>>,    // mOuter
    current: map<Tid, Option<Cid>>,  // the thread-local current()
    stack: map<Tid, seq<Frame>>,
    running: map<Cid, Slot>)         // index into stack, for the proofs only
  {
    function Outer(c: Cid): Option<Cid> { if c in outer then outer[c] else None }
    function Current(t: Tid): Option<Cid> { if t in current then current[t] else None }
    function Stack(t: Tid): seq<Frame> { if t in stack then stack[t] else [] }

    predicate Runs(t: Tid) { Stack(t) != [] && Last(Stack(t)).Body? }
    predicate AfterBody(t: Tid) { Stack(t) != [] && Last(Stack(t)).After? }
    predicate Calls(t: Tid) { Stack(t) != [] && Last(Stack(t)).Calling? }
    predicate Blocks(t: Tid) { Stack(t) != [] && Last(Stack(t)).Blocking? }
    /** A further frame may come on top of what `t` is doing. */
    predicate Open(t: Tid) { !Calls(t) && !Blocks(t) }
    function Top(t: Tid): Frame requires Stack(t) != [] { Last(Stack(t)) }
  }

  const Init := Control(map[], map[], map[], map[])

  function Last<T>(s: seq<T>): T requires s != [] { s[|s| - 1] }
  function Front<T>(s: seq<T>): seq<T> requires s != [] { s[..|s| - 1] }

  /** The proof index without the top frame of `t`. */
  function Forget(k: Control, t: Tid): Control
    requires k.Stack(t) != []
  {
    if k.Top(t).OfCo() then k.(running := k.running - {k.Top(t).c}) else k
  }

  /** `t` starts or continues the body of `c` in frame `i`: exchange(current(), this). */
  function Switch(k: Control, t: Tid, i: nat, c: Cid, byCtor: bool): Control {
    k.(outer := k.outer[c := k.Current(t)],
       current := k.current[t := Some(c)],
       running := k.running[c := Slot(t, i, Body(c, byCtor))])
  }

  /** The constructor of `Data` starts the body of `c`, or the loop of a runner resumes it. */
  function Start(k: Control, t: Tid, c: Cid, byCtor: bool): Control {
    Switch(k, t, |k.Stack(t)|, c, byCtor).(stack := k.stack[t := k.Stack(t) + [Body(c, byCtor)]])
  }

  /** Post-leave returned false: the loop in resume() continues the coroutine it has just left. */
  function Retry(k: Control, t: Tid): Control
    requires k.AfterBody(t)
  {
    var i, After(c, byCtor) := |k.Stack(t)| - 1, k.Top(t);
    Switch(k, t, i, c, byCtor).(stack := k.stack[t := k.Stack(t)[i := Body(c, byCtor)]])
  }

  /** The body on top of `t` is left: exchange(current(), mOuter). */
  function Leave(k: Control, t: Tid): Control
    requires k.Runs(t)
  {
    var i, Body(c, byCtor) := |k.Stack(t)| - 1, k.Top(t);
    k.(current := k.current[t := k.Outer(c)],
       stack := k.stack[t := k.Stack(t)[i := After(c, byCtor)]],
       running := k.running[c := Slot(t, i, After(c, byCtor))])
  }

  /** `t` starts to call a runner, or to block. */
  function Push(k: Control, t: Tid, f: Frame): Control {
    k.(stack := k.stack[t := k.Stack(t) + [f]])
  }

  /** The top frame of `t` returns. */
  function Return(k: Control, t: Tid): Control
    requires k.Stack(t) != []
  {
    Forget(k, t).(stack := k.stack[t := Front(k.Stack(t))])
  }

  /** The innermost of the bodies below frame `i` of a stack. */
  function CurrentAt(st: seq<Frame>, i: nat): Option<Cid>
    requires i <= |st|
  {
    if i == 0 then None else if st[i - 1].Body? then Some(st[i - 1].c) else CurrentAt(st, i - 1)
  }

  function CurrentOf(st: seq<Frame>): Option<Cid> { CurrentAt(st, |st|) }

  lemma {:induction false} SameBelow(st: seq<Frame>, st': seq<Frame>, i: nat)
    requires i <= |st| && i <= |st'| && forall j | 0 <= j < i :: st[j] == st'[j]
    ensures CurrentAt(st, i) == CurrentAt(st', i)
  {
    if i > 0 { SameBelow(st, st', i - 1); }
  }

  /** What CurrentAt finds: a body with no other body in between, or there is none. */
  lemma {:induction false} CurrentAtFinds(st: seq<Frame>, i: nat)
    requires i <= |st|
    ensures match CurrentAt(st, i)
            case None => forall j | 0 <= j < i :: !st[j].Body?
            case Some(c) =>
              exists j | 0 <= j < i :: st[j].Body? && st[j].c == c && forall l | j < l < i :: !st[l].Body?
  {
    if i > 0 && !st[i - 1].Body? { CurrentAtFinds(st, i - 1); }
  }

  ghost predicate FrameOk(k: Control, t: Tid, i: nat)
    requires i < |k.Stack(t)|
  {
    var f := k.Stack(t)[i];
    if f.OfCo() then
      && f.c in k.running && k.running[f.c] == Slot(t, i, f)
      && (f.byCtor || CurrentAt(k.Stack(t), i) == None)
      && (f.Body? ==> k.Outer(f.c) == CurrentAt(k.Stack(t), i))
    else i == |k.Stack(t)| - 1
  }

  ghost predicate SlotOk(k: Control, c: Cid)
    requires c in k.running
  {
    var Slot(t, i, f) := k.running[c];
    i < |k.Stack(t)| && k.Stack(t)[i] == f && f.OfCo() && f.c == c
  }

  ghost predicate Inv(k: Control) {
    && (forall t, i | 0 <= i < |k.Stack(t)| :: FrameOk(k, t, i))
    && (forall c | c in k.running :: SlotOk(k, c))
    && (forall t :: k.Current(t) == CurrentOf(k.Stack(t)))
  }

  ghost predicate Untouched(k: Control, k': Control, c: Cid) {
    c in k.running && c in k'.running && k'.running[c] == k.running[c] && k'.Outer(c) == k.Outer(c)
  }

  /** Up to frame `n` the stack of `t` stays as it was, and so does what lies below each of its frames. */
  lemma KeepsFrame(k: Control, k': Control, t: Tid, n: nat, i: nat)
    requires Inv(k) && i < n <= |k.Stack(t)| && n <= |k'.Stack(t)|
    requires forall j | 0 <= j < n :: k'.Stack(t)[j] == k.Stack(t)[j]
    requires k.Stack(t)[i].OfCo() && Untouched(k, k', k.Stack(t)[i].c)
    ensures FrameOk(k', t, i)
  {
    assert FrameOk(k, t, i);
    SameBelow(k.Stack(t), k'.Stack(t), i);
  }

  lemma StartKeeps(k: Control, t: Tid, c: Cid, byCtor: bool)
    requires Inv(k) && k.Open(t) && c !in k.running && (byCtor || k.Current(t) == None)
    ensures Inv(Start(k, t, c, byCtor))
  {
    var k' := Start(k, t, c, byCtor);
    var n := |k.Stack(t)|;
    assert k.Current(t) == CurrentOf(k.Stack(t));
    SameBelow(k.Stack(t), k'.Stack(t), n);
    forall u, i | 0 <= i < |k'.Stack(u)| ensures FrameOk(k', u, i) {
      if i < |k.Stack(u)| {
        assert FrameOk(k, u, i);
        if u == t { KeepsFrame(k, k', t, n, i); }
      }
    }
    forall d | d in k'.running ensures SlotOk(k', d) { assert d in k.running ==> SlotOk(k, d); }
    forall u ensures k'.Current(u) == CurrentOf(k'.Stack(u)) { assert k.Current(u) == CurrentOf(k.Stack(u)); }
  }

  /** Only the top frame of `t` has changed, and it is not the frame of `d`. */
  lemma KeepsSlot(k: Control, k': Control, t: Tid, d: Cid)
    requires Inv(k) && d in k.running && d in k'.running && k'.running[d] == k.running[d]
    requires k.Stack(t) != [] && (k.Top(t).OfCo() ==> k.Top(t).c != d)
    requires forall u | u != t :: k'.Stack(u) == k.Stack(u)
    requires forall i | 0 <= i < |k.Stack(t)| - 1 :: i < |k'.Stack(t)| && k'.Stack(t)[i] == k.Stack(t)[i]
    ensures SlotOk(k', d)
  {
    assert SlotOk(k, d);
  }

  lemma RetryKeeps(k: Control, t: Tid)
    requires Inv(k) && k.AfterBody(t)
    ensures Inv(Retry(k, t))
  {
    var k' := Retry(k, t);
    var n := |k.Stack(t)| - 1;
    assert k.Current(t) == CurrentOf(k.Stack(t)) == CurrentAt(k.Stack(t), n);
    assert FrameOk(k, t, n);
    SameBelow(k.Stack(t), k'.Stack(t), n);
    forall u, i | 0 <= i < |k'.Stack(u)| ensures FrameOk(k', u, i) {
      assert FrameOk(k, u, i);
      if u == t && i < n { KeepsFrame(k, k', t, n, i); }
    }
    forall d | d in k'.running ensures SlotOk(k', d) { if d != k.Top(t).c { KeepsSlot(k, k', t, d); } }
    forall u ensures k'.Current(u) == CurrentOf(k'.Stack(u)) { assert k.Current(u) == CurrentOf(k.Stack(u)); }
  }

  lemma LeaveKeeps(k: Control, t: Tid)
    requires Inv(k) && k.Runs(t)
    ensures Inv(Leave(k, t))
  {
    var k' := Leave(k, t);
    var n := |k.Stack(t)| - 1;
    assert FrameOk(k, t, n);
    SameBelow(k.Stack(t), k'.Stack(t), n);
    forall u, i | 0 <= i < |k'.Stack(u)| ensures FrameOk(k', u, i) {
      assert FrameOk(k, u, i);
      if u == t && i < n { KeepsFrame(k, k', t, n, i); }
    }
    forall d | d in k'.running ensures SlotOk(k', d) { if d != k.Top(t).c { KeepsSlot(k, k', t, d); } }
    forall u ensures k'.Current(u) == CurrentOf(k'.Stack(u)) { assert k.Current(u) == CurrentOf(k.Stack(u)); }
  }

  lemma PushKeeps(k: Control, t: Tid, f: Frame)
    requires Inv(k) && k.Open(t) && !f.OfCo()
    ensures Inv(Push(k, t, f))
  {
    var k' := Push(k, t, f);
    var n := |k.Stack(t)|;
    SameBelow(k.Stack(t), k'.Stack(t), n);
    forall u, i | 0 <= i < |k'.Stack(u)| ensures FrameOk(k', u, i) {
      if i < |k.Stack(u)| {
        assert FrameOk(k, u, i);
        if u == t { KeepsFrame(k, k', t, n, i); }
      }
    }
    forall d | d in k'.running ensures SlotOk(k', d) { assert SlotOk(k, d); }
    forall u ensures k'.Current(u) == CurrentOf(k'.Stack(u)) { assert k.Current(u) == CurrentOf(k.Stack(u)); }
  }

  lemma ReturnKeeps(k: Control, t: Tid)
    requires Inv(k) && k.Stack(t) != [] && !k.Runs(t)
    ensures Inv(Return(k, t)) && Return(k, t).Open(t)
  {
    var k' := Return(k, t);
    var n := |k.Stack(t)| - 1;
    assert FrameOk(k, t, n);
    assert n > 0 ==> FrameOk(k, t, n - 1);
    SameBelow(k.Stack(t), k'.Stack(t), n);
    forall u, i | 0 <= i < |k'.Stack(u)| ensures FrameOk(k', u, i) {
      assert FrameOk(k, u, i);
      if u == t { KeepsFrame(k, k', t, n, i); }
    }
    forall d | d in k'.running ensures SlotOk(k', d) { KeepsSlot(k, k', t, d); }
    forall u ensures k'.Current(u) == CurrentOf(k'.Stack(u)) { assert k.Current(u) == CurrentOf(k.Stack(u)); }
  }

  lemma TopFrame(k: Control, t: Tid)
    requires Inv(k) && (k.Runs(t) || k.AfterBody(t))
    ensures k.Top(t).c in k.running && k.running[k.Top(t).c] == Slot(t, |k.Stack(t)| - 1, k.Top(t))
    ensures k.Runs(t) ==> k.Current(t) == Some(k.Top(t).c)
  {
    assert FrameOk(k, t, |k.Stack(t)| - 1);
    assert k.Current(t) == CurrentOf(k.Stack(t));
  }

  /**
   The loop of a runner runs a coroutine only where nothing is current: no body is below its frame,
   and nothing is current again once the body is left.
   */
  lemma NothingBelow(k: Control, t: Tid, i: nat)
    requires Inv(k) && i < |k.Stack(t)| && k.Stack(t)[i].OfCo() && !k.Stack(t)[i].byCtor
    ensures forall j | 0 <= j < i :: !k.Stack(t)[j].Body?
    ensures i == |k.Stack(t)| - 1 && k.AfterBody(t) ==> k.Current(t) == None
  {
    assert FrameOk(k, t, i);
    CurrentAtFinds(k.Stack(t), i);
    assert k.Current(t) == CurrentOf(k.Stack(t));
  }
}
