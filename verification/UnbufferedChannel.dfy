/**
 `co::UnbufferedChannel`: one sender and one receiver meet over two futures that both sides
 re-create in every round. One step is one access to a future; setting a future takes two, the
 write of the value and the exchange that makes it ready.
 */
module UnbufferedChannel {
  import opened Options

  /** `std::optional<LightFutureData<...>>`: the stored value and whether the word says ready. */
  datatype Cell<A> = Cell(stored: Option<A>, ready: bool)

  function Fresh<A>(): Cell<A> { Cell(None, false) }

  /** A `T*`: null, or the address of the parameter `val` of push number `n`. */
  datatype Ptr = Null | AddressOf(n: nat)

  datatype SenderPc =
    | SIdle
    | SWritten        // push(): value written, before the exchange
    | SAwait          // push(): in await(*valueRead)
    | SGot(ok: bool)  // push(): before valueRead.emplace()
    | SStopped        // push() has returned false
    | SClosing        // closeSender(): null written, before the exchange
    | SClosed

  datatype ReceiverPc =
    | RIdle
    | RGot(n: nat)           // pop(): await(*value) returned the address of val of push n
    | REmplacing(ans: bool)  // before value.emplace(), in pop() (true) or closeReceiver() (false)
    | RAnswering(ans: bool)  // before the write of the answer
    | RWritten(ans: bool)    // answer written, before the exchange
    | RClosed

  datatype State<T> = State(
    value: Cell<Ptr>,
    valueRead: Cell<bool>,
    snd: SenderPc,
    rcv: ReceiverPc,
    pushed: seq<T>,      // the values of all pushes
    results: seq<bool>,  // what push() has returned
    popped: seq<T>)      // the values taken by pop()

  function Init<T>(): State<T> { State(Fresh(), Fresh(), SIdle, RIdle, [], [], []) }

  datatype Step<T> =
    | PushWrite(v: T) | PushExchange | PushAwait | PushEmplace
    | CloseWrite | CloseExchange
    | PopAwait | PopCopy
    | CloseAwait
    | Emplace | AnswerWrite | AnswerExchange

  /** One sender, one receiver, no push after false, no call after a close; an await needs a ready future. */
  predicate Enabled<T>(s: State<T>, a: Step<T>) {
    match a
    case PushWrite(_) => s.snd == SIdle
    case PushExchange => s.snd == SWritten
    case PushAwait => s.snd == SAwait && s.valueRead.ready
    case PushEmplace => s.snd.SGot?
    case CloseWrite => s.snd == SIdle || s.snd == SStopped
    case CloseExchange => s.snd == SClosing
    case PopAwait => s.rcv == RIdle && s.value.ready
    case PopCopy => s.rcv.RGot?
    case CloseAwait => s.rcv == RIdle && s.value.ready
    case Emplace => s.rcv.REmplacing?
    case AnswerWrite => s.rcv.RAnswering?
    case AnswerExchange => s.rcv.RWritten?
  }

  /** The frame of push `n`, which holds its parameter, exists. */
  predicate FrameAlive<T>(s: State<T>, n: nat) {
    n + 1 == |s.pushed| && (s.snd == SWritten || s.snd == SAwait || s.snd.SGot?)
  }

  /**
   What a step relies on: a future is read only if it holds a value, set only once, re-created only
   after it has been read and while nobody is setting it, and a pointer is followed only while its
   frame exists.
   */
  predicate Safe<T>(s: State<T>, a: Step<T>) {
    match a
    case PushWrite(_) => !s.value.ready && s.value.stored == None
    case CloseWrite => !s.value.ready && s.value.stored == None
    case PushExchange => !s.value.ready
    case CloseExchange => !s.value.ready
    case AnswerWrite => !s.valueRead.ready && s.valueRead.stored == None
    case AnswerExchange => !s.valueRead.ready
    case PushAwait => s.valueRead.stored.Some?
    case PopAwait => s.value.stored.Some?
    case CloseAwait => s.value.stored.Some?
    case PopCopy => s.rcv.RGot? && FrameAlive(s, s.rcv.n)
    case PushEmplace => s.valueRead.ready && !s.rcv.RWritten?
    case Emplace => s.value.ready && s.snd != SWritten && s.snd != SClosing
  }

  function Next<T>(s: State<T>, a: Step<T>): State<T>
    requires Enabled(s, a) && Safe(s, a)
  {
    match a
    case PushWrite(v) =>
      s.(value := s.value.(stored := Some(AddressOf(|s.pushed|))), snd := SWritten, pushed := s.pushed + [v])
    case PushExchange => s.(value := s.value.(ready := true), snd := SAwait)
    case PushAwait => s.(snd := SGot(s.valueRead.stored.value))
    case PushEmplace =>
      s.(valueRead := Fresh(), results := s.results + [s.snd.ok], snd := if s.snd.ok then SIdle else SStopped)
    case CloseWrite => s.(value := s.value.(stored := Some(Null)), snd := SClosing)
    case CloseExchange => s.(value := s.value.(ready := true), snd := SClosed)
    case PopAwait => if s.value.stored.value == Null then s else s.(rcv := RGot(s.value.stored.value.n))
    case PopCopy => s.(popped := s.popped + [s.pushed[s.rcv.n]], rcv := REmplacing(true))
    case CloseAwait => s.(rcv := REmplacing(false))
    case Emplace => s.(value := Fresh(), rcv := RAnswering(s.rcv.ans))
    case AnswerWrite => s.(valueRead := s.valueRead.(stored := Some(s.rcv.ans)), rcv := RWritten(s.rcv.ans))
    case AnswerExchange =>
      s.(valueRead := s.valueRead.(ready := true), rcv := if s.rcv.ans then RIdle else RClosed)
  }

  // ---------- the invariant ----------

  /** The receiver has taken the value of the current round and not yet answered. */
  predicate Taking(rcv: ReceiverPc) { rcv.REmplacing? || rcv.RAnswering? || rcv.RWritten? }

  /** The state of the future `value`. */
  ghost predicate ValueOk<T>(s: State<T>) {
    var n := |s.pushed|;
    match s.snd
    case SWritten => n > 0 && s.value == Cell(Some(AddressOf(n - 1)), false) && s.rcv == RIdle
    case SAwait =>
      n > 0 &&
      if s.rcv == RGot(n - 1) || s.rcv.REmplacing? || (s.rcv == RIdle && !s.valueRead.ready)
      then s.value == Cell(Some(AddressOf(n - 1)), true)
      else s.value == Fresh()
    case SClosing => s.value == Cell(Some(Null), false) && (s.rcv == RIdle || s.rcv == RClosed)
    case SClosed =>
      if s.rcv == RIdle || s.rcv == REmplacing(false) then s.value == Cell(Some(Null), true)
      else s.value == Fresh() || (s.rcv == RClosed && s.value == Cell(Some(Null), true))
    case _ => s.value == Fresh()
  }

  /** The state of the future `valueRead`. */
  ghost predicate ReadOk<T>(s: State<T>) {
    match s.snd
    case SAwait =>
      if s.rcv.RWritten? then s.valueRead == Cell(Some(s.rcv.ans), false)
      else if s.rcv == RClosed then s.valueRead == Cell(Some(false), true)
      else s.valueRead == Fresh() || (s.rcv == RIdle && s.valueRead == Cell(Some(true), true))
    case SGot(ok) => s.valueRead == Cell(Some(ok), true) && s.rcv == (if ok then RIdle else RClosed)
    case SClosed =>
      if s.rcv.RWritten? then s.valueRead == Cell(Some(false), false)
      else s.valueRead == Fresh() || (s.rcv == RClosed && s.valueRead == Cell(Some(false), true))
    case _ => s.valueRead == Fresh()
  }

  ghost predicate ReceiverOk<T>(s: State<T>) {
    match s.snd
    case SIdle => s.rcv == RIdle
    case SStopped => s.rcv == RClosed
    case SAwait => s.rcv.RGot? ==> s.rcv.n == |s.pushed| - 1
    case SClosed => !s.rcv.RGot? && (Taking(s.rcv) ==> !s.rcv.ans)
    case _ => true
  }

  /** How far the receiver and the answers are behind the pushes. */
  ghost predicate CountOk<T>(s: State<T>) {
    var n, p, r := |s.pushed|, |s.popped|, |s.results|;
    match s.snd
    case SIdle => r == n == p
    case SWritten => r == p == n - 1
    case SAwait =>
      r == n - 1 && p == if (Taking(s.rcv) && s.rcv.ans) || (s.rcv == RIdle && s.valueRead.ready) then n else n - 1
    case SGot(ok) => r == n - 1 && p == if ok then n else n - 1
    case SStopped => r == n == p + 1
    case _ => r == n && (p == n || (p == n - 1 && s.rcv == RClosed))
  }

  ghost predicate Inv<T>(s: State<T>) {
    && ValueOk(s) && ReadOk(s) && ReceiverOk(s) && CountOk(s)
    && s.popped == s.pushed[..|s.popped|]
    && (forall i | 0 <= i < |s.results| :: s.results[i] <==> i < |s.popped|)
  }

  lemma InitInv<T>()
    ensures Inv(Init<T>())
  {
  }

  lemma EnabledIsSafe<T>(s: State<T>, a: Step<T>)
    requires Inv(s) && Enabled(s, a)
    ensures Safe(s, a)
  {
  }

  lemma StepKeeps<T>(s: State<T>, a: Step<T>)
    requires Inv(s) && Enabled(s, a) && Safe(s, a)
    ensures Inv(Next(s, a))
  {
  }

  // ---------- whole runs ----------

  ghost predicate IsRun<T>(s: State<T>, run: seq<Step<T>>)
    decreases |run|
  {
    run == [] || (Enabled(s, run[0]) && Safe(s, run[0]) && IsRun(Next(s, run[0]), run[1..]))
  }

  ghost function After<T>(s: State<T>, run: seq<Step<T>>): State<T>
    requires IsRun(s, run)
    decreases |run|
  {
    if run == [] then s else After(Next(s, run[0]), run[1..])
  }

  lemma {:induction false} RunKeeps<T>(s: State<T>, run: seq<Step<T>>)
    requires Inv(s) && IsRun(s, run)
    ensures Inv(After(s, run))
    decreases |run|
  {
    if run != [] {
      StepKeeps(s, run[0]);
      RunKeeps(Next(s, run[0]), run[1..]);
    }
  }

  /** In every run each step is safe: futures are set once per round and never re-created while needed. */
  lemma AlwaysSafe<T>(run: seq<Step<T>>, a: Step<T>)
    requires IsRun(Init(), run) && Enabled(After(Init(), run), a)
    ensures Safe(After(Init(), run), a)
  {
    InitInv<T>();
    RunKeeps(Init(), run);
    EnabledIsSafe(After(Init(), run), a);
  }

  /** The arguments of the pushes, in order. */
  function Values<T>(run: seq<Step<T>>): seq<T> {
    if run == [] then [] else (if run[0].PushWrite? then [run[0].v] else []) + Values(run[1..])
  }

  /** How often `a` is done. */
  function Count<T(==)>(a: Step<T>, run: seq<Step<T>>): nat {
    if run == [] then 0 else (if run[0] == a then 1 else 0) + Count(a, run[1..])
  }

  lemma {:induction false} PushedSince<T>(s: State<T>, run: seq<Step<T>>)
    requires IsRun(s, run)
    ensures After(s, run).pushed == s.pushed + Values(run)
    decreases |run|
  {
    if run != [] { PushedSince(Next(s, run[0]), run[1..]); }
  }

  lemma {:induction false} AnswersSince<T>(s: State<T>, run: seq<Step<T>>)
    requires IsRun(s, run)
    ensures |After(s, run).popped| == |s.popped| + Count(PopCopy, run)
    ensures |After(s, run).results| == |s.results| + Count(PushEmplace, run)
    decreases |run|
  {
    if run != [] { AnswersSince(Next(s, run[0]), run[1..]); }
  }

  /**
   The values that the pops have taken are the arguments of the first pushes, in order, and a push
   returns true exactly if a pop has taken its value.
   */
  lemma Rendezvous<T>(run: seq<Step<T>>)
    requires IsRun(Init(), run)
    ensures var s := After(Init(), run);
      && s.popped <= Values(run) && |s.popped| == Count(PopCopy, run) && |s.results| == Count(PushEmplace, run)
      && |Values(run)| <= |s.popped| + 1 && |s.results| <= |Values(run)| <= |s.results| + 1
      && (forall i | 0 <= i < |s.results| :: s.results[i] <==> i < |s.popped|)
  {
    InitInv<T>();
    RunKeeps(Init(), run);
    PushedSince(Init(), run);
    AnswersSince(Init(), run);
  }

  /** A pop that finds null, or a push that returns false, comes after the close of the other side. */
  lemma OnlyACloseEndsIt<T>(run: seq<Step<T>>)
    requires IsRun(Init(), run)
    ensures var s := After(Init(), run);
      && (s.rcv == RIdle && s.value == Cell(Some(Null), true) ==> s.snd == SClosed && |s.popped| == |s.pushed|)
      && (s.snd == SGot(false) || s.snd == SStopped ==> s.rcv == RClosed)
  {
    InitInv<T>();
    RunKeeps(Init(), run);
  }

  /** Every step changes something, but for a pop that finds null. */
  lemma StepsMove<T>(run: seq<Step<T>>, a: Step<T>)
    requires IsRun(Init(), run) && Enabled(After(Init(), run), a)
    ensures var s := After(Init(), run);
      Safe(s, a) && (Next(s, a) == s <==> a == PopAwait && s.value == Cell(Some(Null), true))
  {
    AlwaysSafe(run, a);
    InitInv<T>();
    RunKeeps(Init(), run);
  }

  /** A waiting push is never stuck: its answer is there, the receiver is about to give it, or it may call pop(). */
  lemma PushNeverStuck<T>(run: seq<Step<T>>)
    requires IsRun(Init(), run) && After(Init(), run).snd == SAwait
    ensures var s := After(Init(), run);
      || Enabled(s, PushAwait) || Enabled(s, PopAwait)
      || Enabled(s, PopCopy) || Enabled(s, Emplace) || Enabled(s, AnswerWrite) || Enabled(s, AnswerExchange)
  {
    InitInv<T>();
    RunKeeps(Init(), run);
  }

  /** The channel itself; every method is one access to a future. `log` holds where the two peers are. */
  class Channel<T> {
    var value: Cell<Ptr>
    var valueRead: Cell<bool>
    var vals: seq<T>  // the parameters `val` of the pushes
    ghost var log: State<T>

    ghost function Abs(): State<T> reads this { log.(value := value, valueRead := valueRead, pushed := vals) }
    ghost predicate Valid() reads this { Inv(Abs()) }

    constructor ()
      ensures Valid() && Abs() == Init()
    {
      value, valueRead, vals, log := Fresh(), Fresh(), [], Init();
      new;
      InitInv<T>();
    }

    /** push(), first half: `value->set_value(&val)` stores the address. */
    method StoreAddress(self: nat, val: T)
      requires Valid() && Enabled(Abs(), PushWrite(val)) && self == |Abs().pushed|
      modifies this
      ensures Valid() && Abs() == Next(old(Abs()), PushWrite(val))
      ensures value == Cell(Some(AddressOf(self)), false) && valueRead == old(valueRead)
      ensures vals == old(vals) + [val]
    {
      EnabledIsSafe(Abs(), PushWrite(val));
      StepKeeps(Abs(), PushWrite(val));
      log := Next(Abs(), PushWrite(val));
      vals := vals + [val];
      value := value.(stored := Some(AddressOf(self)));
    }

    /** The exchange in `value->set_value`, in push() or closeSender(). */
    method PublishValue(ghost a: Step<T>)
      requires Valid() && Enabled(Abs(), a) && (a == PushExchange || a == CloseExchange)
      modifies this
      ensures Valid() && Abs() == Next(old(Abs()), a)
      ensures value == old(value).(ready := true) && valueRead == old(valueRead) && vals == old(vals)
    {
      EnabledIsSafe(Abs(), a);
      StepKeeps(Abs(), a);
      log := Next(Abs(), a);
      value := value.(ready := true);
    }

    /** push(): `co::await(*valueRead)` returns. */
    method AwaitAnswer() returns (ok: bool)
      requires Valid() && Enabled(Abs(), PushAwait)
      modifies this
      ensures Valid() && Abs() == Next(old(Abs()), PushAwait) && Abs().snd == SGot(ok)
      ensures ok <==> |Abs().popped| == |Abs().pushed|
      ensures valueRead == Cell(Some(ok), true)
      ensures value == old(value) && valueRead == old(valueRead) && vals == old(vals)
    {
      EnabledIsSafe(Abs(), PushAwait);
      StepKeeps(Abs(), PushAwait);
      log := Next(Abs(), PushAwait);
      ok := valueRead.stored.value;
    }

    method RenewValueRead()
      requires Valid() && Enabled(Abs(), PushEmplace)
      modifies this
      ensures Valid() && Abs() == Next(old(Abs()), PushEmplace)
      ensures valueRead == Fresh() && value == old(value) && vals == old(vals)
    {
      EnabledIsSafe(Abs(), PushEmplace);
      StepKeeps(Abs(), PushEmplace);
      log := Next(Abs(), PushEmplace);
      valueRead := Fresh();
    }

    /** closeSender(): `value->set_value(nullptr)` stores null. */
    method StoreNull()
      requires Valid() && Enabled(Abs(), CloseWrite)
      modifies this
      ensures Valid() && Abs() == Next(old(Abs()), CloseWrite)
      ensures value == Cell(Some(Null), false) && valueRead == old(valueRead) && vals == old(vals)
    {
      EnabledIsSafe(Abs(), CloseWrite);
      StepKeeps(Abs(), CloseWrite);
      log := Next(Abs(), CloseWrite);
      value := value.(stored := Some(Null));
    }

    /** pop(): `co::await(*value)` returns. */
    method AwaitValue() returns (ptr: Ptr)
      requires Valid() && Enabled(Abs(), PopAwait)
      modifies this
      ensures Valid() && Abs() == Next(old(Abs()), PopAwait)
      ensures value == Cell(Some(ptr), true)
      ensures value == old(value) && valueRead == old(valueRead) && vals == old(vals)
      ensures ptr == Null <==> Abs().rcv == RIdle
      ensures ptr.AddressOf? ==> Abs().rcv == RGot(ptr.n) && FrameAlive(Abs(), ptr.n)
    {
      EnabledIsSafe(Abs(), PopAwait);
      StepKeeps(Abs(), PopAwait);
      log := Next(Abs(), PopAwait);
      ptr := value.stored.value;
    }

    /** closeReceiver(): `co::await(*value)` returns, whatever the sender has put there. */
    method AwaitValueToClose()
      requires Valid() && Enabled(Abs(), CloseAwait)
      modifies this`log
      ensures Valid() && Abs() == Next(old(Abs()), CloseAwait) && Abs().rcv == REmplacing(false)
    {
      EnabledIsSafe(Abs(), CloseAwait);
      StepKeeps(Abs(), CloseAwait);
      log := Next(Abs(), CloseAwait);
    }

    /** pop(): `std::move(*ptr)`. */
    method CopyValue(ptr: Ptr) returns (res: T)
      requires Valid() && ptr.AddressOf? && Abs().rcv == RGot(ptr.n)
      modifies this
      ensures Valid() && Abs() == Next(old(Abs()), PopCopy)
      ensures ptr.n + 1 == |vals| && res == vals[ptr.n] && Abs().popped == old(Abs()).popped + [res]
      ensures value == old(value) && valueRead == old(valueRead) && vals == old(vals)
    {
      EnabledIsSafe(Abs(), PopCopy);
      StepKeeps(Abs(), PopCopy);
      log := Next(Abs(), PopCopy);
      res := vals[ptr.n];
    }

    method RenewValue()
      requires Valid() && Enabled(Abs(), Emplace)
      modifies this
      ensures Valid() && Abs() == Next(old(Abs()), Emplace)
      ensures value == Fresh() && valueRead == old(valueRead) && vals == old(vals)
    {
      EnabledIsSafe(Abs(), Emplace);
      StepKeeps(Abs(), Emplace);
      log := Next(Abs(), Emplace);
      value := Fresh();
    }

    /** `valueRead->set_value(ans)`, first half. */
    method StoreAnswer(ans: bool)
      requires Valid() && Abs().rcv == RAnswering(ans)
      modifies this
      ensures Valid() && Abs() == Next(old(Abs()), AnswerWrite)
      ensures valueRead == Cell(Some(ans), false) && value == old(value) && vals == old(vals)
    {
      EnabledIsSafe(Abs(), AnswerWrite);
      StepKeeps(Abs(), AnswerWrite);
      log := Next(Abs(), AnswerWrite);
      valueRead := valueRead.(stored := Some(ans));
    }

    method PublishAnswer()
      requires Valid() && Enabled(Abs(), AnswerExchange)
      modifies this
      ensures Valid() && Abs() == Next(old(Abs()), AnswerExchange)
      ensures valueRead == old(valueRead).(ready := true) && value == old(value) && vals == old(vals)
    {
      EnabledIsSafe(Abs(), AnswerExchange);
      StepKeeps(Abs(), AnswerExchange);
      log := Next(Abs(), AnswerExchange);
      valueRead := valueRead.(ready := true);
    }
  }
}
