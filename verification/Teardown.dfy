/** `free_executor` frees the stack of `frames[0]` and `frames[0]`, `free_io_context` frees
    `available_tokens[0]`. These are the bases of their blocks exactly when the pool has at
    least as many tokens as there are frames. */
module Teardown {
  import opened Types
  import opened Scheduler
  import opened Requests
  import opened Machine
  import opened Invariant
  import opened RunLoopInvariant
  import opened Refinement
  import opened Theorems
  import opened Termination
  import A = AbstractLoop
  import AbstractRuns

  /** Both arrays still start with the first element of their block, and the stack of the
      first frame is the base of the block of stacks. */
  predicate BasesInPlace(w: World) {
    && w.exec.slots != [] && w.exec.slots[0] == 0 && StackOf(w.exec.slots[0]) == 0
    && w.ioc.avail != [] && w.ioc.avail[0] == 0
  }

  // ---- Enough tokens ----

  /** The pool is short by one token for each waiting task. */
  lemma TailBound(w: World)
    requires WorldShape(w) && WellFormed(w.exec) && PoolInv(w.ioc) && Links(w)
    ensures w.ioc.capacity - w.ioc.tail <= w.exec.size - 1
    ensures w.cpu.Task? && CurrentFrame(w.exec) in Live(w.exec) && w.exec.mem[CurrentFrame(w.exec)].ready
      ==> w.ioc.capacity - w.ioc.tail <= w.exec.size - 2
  {
    WaitersMatchFlight(w);
    LiveCount(w.exec);
    SubsetSize(WaitingFrames(w), Live(w.exec));
    if w.cpu.Task? && CurrentFrame(w.exec) in Live(w.exec) && w.exec.mem[CurrentFrame(w.exec)].ready {
      SubsetSize(WaitingFrames(w), Live(w.exec) - {CurrentFrame(w.exec)});
    }
  }

  lemma {:induction false} SubsetSize<T>(a: set<T>, b: set<T>)
    requires a <= b
    ensures |a| <= |b|
  {
    assert b == a + (b - a);
  }

  /** With a token left in the pool a delivery does not write slot 0 of the pool. */
  lemma {:induction false} DeliverKeepsBase(w: World, n: nat)
    requires WorldShape(w) && n <= |w.ioc.ring.cq| && !w.cpu.Task? && w.ioc.tail >= 1
    ensures Deliver(w, n).ioc.avail[0] == w.ioc.avail[0] && Deliver(w, n).ioc.tail >= 1
  {
    if n > 0 {
      DeliverKeepsBase(w, n - 1);
    }
  }

  lemma TaskKeepsBase(p: Program, w: World)
    requires WorldShape(w) && PoolInv(w.ioc) && w.cpu.Task? && w.ioc.tail >= 1
    ensures StepTask(p, w).ioc.avail == w.ioc.avail
  {
    hide Suspend, Finish, AsyncExec, Load, Flight;
    if p.act(w.cpu.code).Request? {
      RequestEffect(w.ioc, p.act(w.cpu.code).kind, p.act(w.cpu.code).io, CurrentFrame(w.exec));
    }
  }

  lemma StepKeepsBase(p: Program, w: World, l: Label)
    requires Inv(w) && Enabled(w, l) && w.ioc.tail >= 1
    ensures Apply(p, w, l).ioc.avail != [] && Apply(p, w, l).ioc.avail[0] == w.ioc.avail[0]
  {
    hide StepTask, Load, Advance, Contexts, Links, Names, Serials, Family, Pass, WellFormed;
    if l.Go? && w.cpu.Task? {
      TaskKeepsBase(p, w);
    } else if l.Go? && w.cpu == Main(Poll) {
      DeliverKeepsBase(w.(cpu := Main(Top)), BatchCount(BATCH_SIZE, |w.ioc.ring.cq|));
    } else if l.Go? && w.cpu == Main(Waiting) {
      DeliverKeepsBase(w.(cpu := Main(Top)), 1);
    }
  }

  lemma {:induction false} RunSizes(p: Program, r: seq<World>, frames: nat, tokens: nat, codes: seq<Code>, k: nat)
    requires IsRun(p, r, frames, tokens, codes) && k < |r|
    ensures |r[k].exec.slots| == frames && r[k].ioc.capacity == tokens
  {
    if k == 0 {
      StartSizes(frames, tokens, codes);
    } else {
      RunSizes(p, r, frames, tokens, codes, k - 1);
      RunRefines(p, r, frames, tokens, codes, k - 1);
      CapacitiesFixed(p, Meaning(r[k - 1]), Meaning(r[k]));
    }
  }

  lemma CapacitiesFixed(p: Program, a: A.Abs, a': A.Abs)
    requires A.AbsStep(p, a, a')
    ensures a'.maxTasks == a.maxTasks && a'.maxRequests == a.maxRequests
  {
  }

  lemma {:induction false} StartSizes(frames: nat, tokens: nat, codes: seq<Code>)
    requires frames >= 1
    ensures |Start(frames, tokens, codes).exec.slots| == frames
    ensures Start(frames, tokens, codes).ioc == InitIoc(tokens)
  {
    if codes != [] {
      StartSizes(frames, tokens, codes[..|codes| - 1]);
    }
  }

  /** With a token for every frame the pool is never empty, and a running task can always
      take a token. */
  lemma TokensSuffice(p: Program, r: seq<World>, frames: nat, tokens: nat, codes: seq<Code>, k: nat)
    requires IsRun(p, r, frames, tokens, codes) && k < |r| && tokens >= frames
    ensures r[k].ioc.tail >= 1 && (r[k].cpu.Task? ==> r[k].ioc.tail >= 2)
    ensures r[k].exec.slots != [] && r[k].exec.slots[0] == 0
  {
    RunInv(p, r, frames, tokens, codes, k);
    RunSizes(p, r, frames, tokens, codes, k);
    TailBound(r[k]);
    if r[k].cpu.Task? {
      assert CurrentFrame(r[k].exec) in Live(r[k].exec);
    }
  }

  lemma NextBase(p: Program, r: seq<World>, frames: nat, tokens: nat, codes: seq<Code>, k: nat)
    requires IsRun(p, r, frames, tokens, codes) && k + 1 < |r|
    requires r[k].ioc.tail >= 1 && r[k].ioc.avail != []
    ensures r[k + 1].ioc.avail != [] && r[k + 1].ioc.avail[0] == r[k].ioc.avail[0]
  {
    RunInv(p, r, frames, tokens, codes, k);
    assert Step(p, r[k], r[k + 1]);
    var l :| Enabled(r[k], l) && r[k + 1] == Apply(p, r[k], l);
    StepKeepsBase(p, r[k], l);
  }

  /** With a token for every frame, the block bases are in place in every state of every
      run, so teardown frees each of them. */
  lemma {:induction false} TeardownSafe(p: Program, r: seq<World>, frames: nat, tokens: nat, codes: seq<Code>, k: nat)
    requires IsRun(p, r, frames, tokens, codes) && k < |r| && tokens >= frames
    ensures BasesInPlace(r[k])
  {
    TokensSuffice(p, r, frames, tokens, codes, k);
    if k == 0 {
      StartSizes(frames, tokens, codes);
    } else {
      TeardownSafe(p, r, frames, tokens, codes, k - 1);
      TokensSuffice(p, r, frames, tokens, codes, k - 1);
      NextBase(p, r, frames, tokens, codes, k - 1);
    }
  }

  // ---- Too few tokens ----

  /** Every task makes one read request and ends. */
  function OneRead(): Program {
    Program(c => if c == 0 then Request(Read, Operands(0, 0, 0, 0)) else End, (c, ret) => 1)
  }

  function OneReadRank(): Code -> nat {
    c => if c == 0 then 1 else 0
  }

  lemma OneReadFinite()
    ensures Finite(OneRead(), OneReadRank())
  {
  }

  lemma Extend(p: Program, r: seq<World>, frames: nat, tokens: nat, codes: seq<Code>, l: Label) returns (r': seq<World>)
    requires IsRun(p, r, frames, tokens, codes)
    requires WorldShape(r[|r| - 1]) && Enabled(r[|r| - 1], l)
    ensures r' == r + [Apply(p, r[|r| - 1], l)]
    ensures IsRun(p, r', frames, tokens, codes)
  {
    r' := r + [Apply(p, r[|r| - 1], l)];
    forall i | 0 <= i < |r'| - 1
      ensures Step(p, r'[i], r'[i + 1])
    {
      if i < |r| - 1 {
        assert Step(p, r[i], r[i + 1]);
      } else {
        assert r'[i] == r[|r| - 1];
      }
    }
  }

  /** The first pass: tasks are unstarted or wait for their read. */
  predicate FirstPass(a: A.Abs, n: nat) {
    && (a.cpu == A.MainAt(Top) || a.cpu == A.MainAt(Check) || (a.cpu.Runs? && a.cpu.code == 0 && a.cpu.tid !in a.tasks))
    && |a.tasks| + (if a.cpu.Runs? then 1 else 0) == n
    && (forall t <- a.tasks :: a.tasks[t] == A.New(0) || (a.tasks[t].Blocked? && a.tasks[t].code == 0))
    && a.pending == [] && a.posted == []
  }

  lemma SwitchKeepsFirstPass(b: A.Abs, a': A.Abs, n: nat)
    requires A.Switched(OneRead(), b, a')
    requires b.cpu == A.Between || b.cpu == A.MainAt(Top)
    requires |b.tasks| == n && b.pending == [] && b.posted == []
    requires forall t <- b.tasks :: b.tasks[t] == A.New(0) || (b.tasks[t].Blocked? && b.tasks[t].code == 0)
    ensures FirstPass(a', n)
  {
    if a'.cpu != A.MainAt(Check) {
      var t :| A.Runnable(b, t) &&
        a' == b.(tasks := b.tasks - {t}, cpu := A.Runs(t, A.Continue(OneRead(), b.tasks[t])));
      assert b.tasks.Keys == a'.tasks.Keys + {t};
    }
  }

  lemma AbsFirstPass(a: A.Abs, a': A.Abs, n: nat)
    requires FirstPass(a, n) && a.cpu != A.MainAt(Check)
    requires a.cpu.MainAt? ==> A.MainStep(OneRead(), a, a')
    requires a.cpu.Runs? ==> A.TaskStep(OneRead(), a, a') && A.InFlight(a) < a.maxRequests
    ensures FirstPass(a', n)
  {
    if a.cpu.MainAt? {
      SwitchKeepsFirstPass(a, a', n);
    } else {
      var b := A.Block(a, Read);
      assert b.tasks.Keys == a.tasks.Keys + {a.cpu.tid};
      SwitchKeepsFirstPass(b, a', n);
    }
  }

  /** `Apply` on `Go`, in the bag. */
  lemma GoRefines(p: Program, w: World)
    requires Inv(w) && Enabled(w, Go)
    ensures var a, a' := Meaning(w), Meaning(Apply(p, w, Go));
      && (w.cpu.Task? ==> a.cpu.Runs? && A.TaskStep(p, a, a'))
      && (w.cpu.Main? ==> a.cpu.MainAt? && a.cpu.pc == w.cpu.pc && A.MainStep(p, a, a'))
  {
    if w.cpu.Task? {
      TaskRefines(p, w);
    } else {
      MainRefines(p, w);
    }
  }

  lemma FirstPassStep(w: World, n: nat)
    requires Inv(w) && w.ioc.capacity == n && w.exec.size <= n + 1 && w.cpu != Main(Check)
    requires Enabled(w, Go)
    requires FirstPass(Meaning(w), n)
    ensures FirstPass(Meaning(Apply(OneRead(), w, Go)), n)
  {
    GoRefines(OneRead(), w);
    if w.cpu.Task? {
      TokenForRunner(w);
    }
    AbsFirstPass(Meaning(w), Meaning(Apply(OneRead(), w, Go)), n);
  }

  lemma TokenForRunner(w: World)
    requires Inv(w) && w.cpu.Task? && w.ioc.capacity + 1 >= w.exec.size
    ensures A.InFlight(Meaning(w)) < Meaning(w).maxRequests
  {
    assert CurrentFrame(w.exec) in Live(w.exec);
    TailBound(w);
    InFlightCount(w);
  }

  /** Nothing but the last pass is left: answered reads, whose tasks end. */
  predicate OnlyEnds(a: A.Abs) {
    && (forall t <- a.tasks :: !a.tasks[t].New? && a.tasks[t].code == 0)
    && (a.cpu.Runs? ==> a.cpu.code == 1)
  }

  lemma OnlyEndsStep(a: A.Abs, a': A.Abs)
    requires A.AbsStep(OneRead(), a, a') && OnlyEnds(a)
    ensures OnlyEnds(a')
  {
    if a.cpu.MainAt? && A.MainStep(OneRead(), a, a') {
      if n: nat :| n <= |a.posted| && a' == A.Receive(a, n) {
        AbstractRuns.HandAllKeys(a.tasks, a.posted, n);
        forall t | t in a.tasks
          ensures !a'.tasks[t].New? && a'.tasks[t].code == 0
        {
          AbstractRuns.HandAllEffect(a.tasks, a.posted, n, t);
        }
      }
    }
  }

  // ---- A run that moves the base ----

  lemma {:induction false} StartZeros(frames: nat, tokens: nat, n: nat)
    requires n < frames
    ensures var w := Start(frames, tokens, seq(n, _ => 0));
      && WellFormed(w.exec) && w.exec.size == n + 1
      && forall f <- Live(w.exec) :: w.exec.mem[f].exe == Fresh(0)
  {
    hide NoHistory, Register, WorldShape;
    if n > 0 {
      var v := Start(frames, tokens, seq(n - 1, _ => 0));
      assert seq(n, _ => 0)[..n - 1] == seq(n - 1, _ => 0);
      StartZeros(frames, tokens, n - 1);
      StartSizes(frames, tokens, seq(n - 1, _ => 0));
      AsyncExecEffect(v.exec, 0);
    }
  }

  lemma StartFirstPass(frames: nat, n: nat)
    requires n < frames
    ensures var w := Start(frames, n, seq(n, _ => 0));
      w.exec.size == n + 1 && FirstPass(Meaning(w), n)
  {
    var w := Start(frames, n, seq(n, _ => 0));
    StartZeros(frames, n, n);
    StartMeaning(frames, n, seq(n, _ => 0));
    IdleTaskCount(w);
  }

  lemma FirstPassSize(w: World, n: nat)
    requires Inv(w) && FirstPass(Meaning(w), n)
    ensures w.exec.size == n + 1
    ensures w.cpu != Main(Check) ==> Enabled(w, Go)
  {
    if w.cpu.Task? {
      assert CurrentFrame(w.exec) in Live(w.exec);
    }
    IdleTaskCount(w);
  }

  /** Goes on to the end of the first pass. */
  lemma {:induction false} RunFirstPass(r: seq<World>, frames: nat, n: nat, codes: seq<Code>) returns (r': seq<World>)
    requires IsRun(OneRead(), r, frames, n, codes) && FirstPass(Meaning(r[|r| - 1]), n)
    ensures IsRun(OneRead(), r', frames, n, codes) && FirstPass(Meaning(r'[|r'| - 1]), n)
    ensures r'[|r'| - 1].cpu == Main(Check)
    decreases Measure(OneReadRank(), Meaning(r[|r| - 1]))
  {
    var w := r[|r| - 1];
    RunInv(OneRead(), r, frames, n, codes, |r| - 1);
    if w.cpu == Main(Check) {
      return r;
    }
    RunSizes(OneRead(), r, frames, n, codes, |r| - 1);
    FirstPassSize(w, n);
    FirstPassStep(w, n);
    r' := Extend(OneRead(), r, frames, n, codes, Go);
    OneReadFinite();
    RunLightens(OneRead(), OneReadRank(), r', frames, n, codes, |r| - 1);
    r' := RunFirstPass(r', frames, n, codes);
  }

  /** The pool is empty, and the kernel holds a request with another token than token 0. */
  predicate Drained(w: World, i: nat) {
    && Inv(w) && w.cpu == Main(Poll) && w.ioc.tail == 0 && w.ioc.capacity > 0
    && w.ioc.ring.cq == [] && i < |w.ioc.ring.pending| && w.ioc.ring.pending[i].user != 0
    && OnlyEnds(Meaning(w))
  }

  /** Two tokens in flight are not both token 0. */
  lemma OtherToken(c: Ioc) returns (i: nat)
    requires PoolInv(c) && c.tail == 0 && c.capacity >= 2 && c.ring.cq == [] && c.ring.sq == []
    ensures i < |c.ring.pending| && c.ring.pending[i].user != 0
  {
    PoolFacts(c);
    var flight, pending := Flight(c.ring), c.ring.pending;
    assert flight == SqUsers(pending);
    assert flight[0] != flight[1];
    i := if pending[0].user != 0 then 0 else 1;
  }

  lemma CheckSubmitsAll(w: World)
    requires w.exec.size > 1
    ensures StepCheck(w) == w.(ioc := w.ioc.(ring := Submit(w.ioc.ring)), cpu := Main(Poll))
  {
  }

  lemma PoolDrains(w: World, n: nat) returns (i: nat)
    requires Inv(w) && w.cpu == Main(Check) && FirstPass(Meaning(w), n) && w.ioc.capacity == n >= 2
    ensures Drained(StepCheck(w), i)
  {
    hide StepCheck, FirstPass, Contexts, Links, Names, Serials, Family, Pass, WellFormed, PoolInv;
    FirstPassSize(w, n);
    CheckSubmitsAll(w);
    CheckKeepsInv(w);
    GoRefines(OneRead(), w);
    var w' := StepCheck(w);
    AllBlocked(w);
    NothingPosted(w, n);
    IdleCounts(w');
    i := OtherToken(w'.ioc);
    BlockedThenPolled(w, w', n);
  }

  lemma BlockedThenPolled(w: World, w': World, n: nat)
    requires Inv(w) && Inv(w') && w.cpu == Main(Check) && w'.cpu == Main(Poll) && FirstPass(Meaning(w), n)
    requires forall t <- Meaning(w).tasks :: Meaning(w).tasks[t].Blocked?
    requires A.AbsStep(OneRead(), Meaning(w), Meaning(w'))
    ensures OnlyEnds(Meaning(w'))
  {
    hide Inv, Meaning;
  }

  lemma NothingPosted(w: World, n: nat)
    requires Inv(w) && FirstPass(Meaning(w), n)
    ensures w.ioc.ring.cq == []
  {
    hide Contexts, Links, Serials, Family, Pass, PoolInv, WellFormed, TasksOf, CpuOf;
    assert |Meaning(w).posted| == |w.ioc.ring.cq|;
  }

  lemma AllBlocked(w: World)
    requires Inv(w) && w.cpu == Main(Check)
    ensures forall t <- Meaning(w).tasks :: Meaning(w).tasks[t].Blocked?
  {
    IdleCounts(w);
  }

  lemma PollsOne(p: Program, v: World)
    requires WorldShape(v) && v.cpu == Main(Poll) && |v.ioc.ring.cq| == 1
    ensures WorldShape(v.(cpu := Main(Top)))
    ensures Apply(p, v, Go).ioc == Deliver(v.(cpu := Main(Top)), 1).ioc
  {
    hide Deliver;
  }

  /** Completing that request first puts its token in slot 0 of the pool. */
  lemma BaseMoves(w: World, i: nat)
    requires Drained(w, i)
    ensures var v := Apply(OneRead(), w, Complete(i, 0));
      && Inv(v) && Enabled(v, Go)
      && var u := Apply(OneRead(), v, Go);
        && Inv(u) && OnlyEnds(Meaning(u)) && u.ioc.tail >= 1 && u.ioc.avail[0] != 0
  {
    hide Contexts, Links, Names, Serials, Family, Pass, PoolInv, WellFormed, StepPoll, StepDeliver,
      Deliver, AbsOf, OnlyEnds;
    var p := OneRead();
    var v := Apply(p, w, Complete(i, 0));
    StepKeepsInv(p, w, Complete(i, 0));
    StepRefines(p, w, Complete(i, 0));
    OnlyEndsStep(Meaning(w), Meaning(v));
    StepKeepsInv(p, v, Go);
    StepRefines(p, v, Go);
    OnlyEndsStep(Meaning(v), Meaning(Apply(p, v, Go)));
    PollsOne(p, v);
    ReleasedFirst(v.(cpu := Main(Top)), w.ioc.ring.pending[i].user);
  }

  lemma ReleasedFirst(v: World, t: TokenId)
    requires WorldShape(v) && !v.cpu.Task? && v.ioc.tail == 0 && v.ioc.capacity > 0
    requires v.ioc.ring.cq != [] && v.ioc.ring.cq[0].user == t
    ensures Deliver(v, 1).ioc.tail == 1 && Deliver(v, 1).ioc.avail[0] == t
  {
    assert Deliver(v, 1) == DeliverOne(Deliver(v, 0));
  }

  lemma OnlyEndsKeepsTail(w: World, l: Label)
    requires Inv(w) && Enabled(w, l) && OnlyEnds(Meaning(w)) && w.ioc.tail >= 1
    ensures Apply(OneRead(), w, l).ioc.tail >= 1
  {
    CodeOf(w);
    if w.cpu == Main(Poll) {
      DeliverKeepsBase(w.(cpu := Main(Top)), BatchCount(BATCH_SIZE, |w.ioc.ring.cq|));
    } else if l.Go? && w.cpu == Main(Waiting) {
      DeliverKeepsBase(w.(cpu := Main(Top)), 1);
    }
  }

  /** Goes on until `run` returns. */
  lemma {:induction false} RunToExit(r: seq<World>, frames: nat, n: nat, codes: seq<Code>) returns (r': seq<World>)
    requires IsRun(OneRead(), r, frames, n, codes)
    requires var w := r[|r| - 1];
      OnlyEnds(Meaning(w)) && w.ioc.tail >= 1 && w.ioc.avail != [] && w.ioc.avail[0] != 0 && w.cpu != Main(Failed)
    ensures IsRun(OneRead(), r', frames, n, codes)
    ensures var w := r'[|r'| - 1]; w.cpu == Main(Exited) && w.ioc.avail != [] && w.ioc.avail[0] != 0
    decreases Measure(OneReadRank(), Meaning(r[|r| - 1]))
  {
    hide Step, Start, Contexts, Links, Names, Serials, Family, Pass, PoolInv, WellFormed;
    var w := r[|r| - 1];
    RunInv(OneRead(), r, frames, n, codes, |r| - 1);
    if w.cpu == Main(Exited) {
      return r;
    }
    NeverStuck(w);
    var l := if w.cpu == Main(Waiting) && w.ioc.ring.cq == [] then Complete(0, 0) else Go;
    OnlyEndsKeepsTail(w, l);
    StepRefines(OneRead(), w, l);
    OnlyEndsStep(Meaning(w), Meaning(Apply(OneRead(), w, l)));
    StepKeepsBase(OneRead(), w, l);
    NoFailure(w, l);
    r' := Extend(OneRead(), r, frames, n, codes, l);
    OneReadFinite();
    RunLightens(OneRead(), OneReadRank(), r', frames, n, codes, |r| - 1);
    r' := RunToExit(r', frames, n, codes);
  }

  lemma NoFailure(w: World, l: Label)
    requires WorldShape(w) && Enabled(w, l) && !l.RingError? && w.cpu != Main(Failed)
    ensures Apply(OneRead(), w, l).cpu != Main(Failed)
  {
  }

  lemma RunToDrained(frames: nat, n: nat, codes: seq<Code>) returns (r: seq<World>, i: nat)
    requires 2 <= n < frames && codes == seq(n, _ => 0)
    ensures IsRun(OneRead(), r, frames, n, codes) && Drained(r[|r| - 1], i)
  {
    hide Step, Start, WorldShape, Meaning, Contexts, Links, Names, Serials, Family, Pass, PoolInv, WellFormed;
    StartFirstPass(frames, n);
    r := RunFirstPass([Start(frames, n, codes)], frames, n, codes);
    RunInv(OneRead(), r, frames, n, codes, |r| - 1);
    RunSizes(OneRead(), r, frames, n, codes, |r| - 1);
    i := PoolDrains(r[|r| - 1], n);
    r := Extend(OneRead(), r, frames, n, codes, Go);
  }

  lemma RunToMoved(r: seq<World>, frames: nat, n: nat, codes: seq<Code>, i: nat) returns (r': seq<World>)
    requires IsRun(OneRead(), r, frames, n, codes) && Drained(r[|r| - 1], i)
    ensures IsRun(OneRead(), r', frames, n, codes)
    ensures var w := r'[|r'| - 1];
      OnlyEnds(Meaning(w)) && w.ioc.tail >= 1 && w.ioc.avail != [] && w.ioc.avail[0] != 0 && w.cpu != Main(Failed)
  {
    var w := r[|r| - 1];
    BaseMoves(w, i);
    NoFailure(w, Complete(i, 0));
    r' := Extend(OneRead(), r, frames, n, codes, Complete(i, 0));
    NoFailure(r'[|r'| - 1], Go);
    r' := Extend(OneRead(), r', frames, n, codes, Go);
  }

  /** With fewer tokens than frames some run returns with another token in slot 0 of the
      pool, and teardown frees an address inside the block of tokens. */
  lemma TeardownUnsafe(frames: nat, n: nat) returns (r: seq<World>, codes: seq<Code>)
    requires 2 <= n < frames
    ensures IsRun(OneRead(), r, frames, n, codes)
    ensures r[|r| - 1].cpu == Main(Exited) && !BasesInPlace(r[|r| - 1])
  {
    codes := seq(n, _ => 0);
    var i;
    r, i := RunToDrained(frames, n, codes);
    r := RunToMoved(r, frames, n, codes, i);
    r := RunToExit(r, frames, n, codes);
  }

  /** After every run that returns, `free_executor` frees the bases of the three blocks. */
  ghost predicate FreesBases(frames: nat, tokens: nat) {
    forall p: Program, r: seq<World>, codes: seq<Code> ::
      IsRun(p, r, frames, tokens, codes) && r[|r| - 1].cpu == Main(Exited) ==> BasesInPlace(r[|r| - 1])
  }

  /** The exact condition: for the capacities that `init_executor` can make, teardown
      frees the block bases after every run of every program if and only if the pool has
      a token for every frame. */
  lemma TeardownIff(frames: nat, tokens: nat)
    requires frames >= 1 && tokens >= 2
    ensures FreesBases(frames, tokens) <==> tokens >= frames
  {
    if tokens >= frames {
      forall p: Program, r: seq<World>, codes: seq<Code> |
        IsRun(p, r, frames, tokens, codes) && r[|r| - 1].cpu == Main(Exited)
        ensures BasesInPlace(r[|r| - 1])
      {
        TeardownSafe(p, r, frames, tokens, codes, |r| - 1);
      }
    } else {
      var r, codes := TeardownUnsafe(frames, tokens);
      assert IsRun(OneRead(), r, frames, tokens, codes);
    }
  }
}
