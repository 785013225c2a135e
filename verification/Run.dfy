/** `run` itself: the loop, the tasks it switches to and the kernel, as one imperative
    program. Every execution of it is a run in the sense of `Machine.IsRun`. */
module Run {
  import opened Types
  import opened Scheduler
  import opened Requests
  import opened Machine
  import opened Invariant
  import opened RunLoopInvariant
  import opened Theorems
  import opened Termination
  import opened Delivery
  import opened Structs
  import opened EventLoop
  import Refinement
  import Teardown
  import Rounding

  /** One call of `run`: the code of the tasks, a bound on their work, the capacities of
      the executor and the tasks spawned before. */
  datatype Job = Job(p: Program, rank: Code -> nat, frames: nat, tokens: nat, codes: seq<Code>)

  /** `trace` is a run that has reached state `w`. */
  ghost predicate Traced(job: Job, trace: seq<World>, w: World) {
    && IsRun(job.p, trace, job.frames, job.tokens, job.codes)
    && trace[|trace| - 1] == w
  }

  /** How much is left to do. */
  ghost function Left(job: Job, w: World): nat {
    Measure(job.rank, Refinement.Meaning(w))
  }

  /** The tasks do no more than the bound says. */
  ghost predicate Bounded(job: Job) {
    Finite(job.p, job.rank)
  }

  /** The run `trace`, in state `w`, goes on to the run `after`, in state `w'`; with a bound
      on the work each of the new steps leaves less to do. */
  ghost predicate Goes(job: Job, trace: seq<World>, w: World, after: seq<World>, w': World) {
    && Traced(job, after, w')
    && trace <= after
    && (Bounded(job) ==> |after| + Left(job, w') <= |trace| + Left(job, w))
  }

  lemma TracedInv(job: Job, trace: seq<World>, w: World)
    requires Traced(job, trace, w)
    ensures Inv(w)
  {
    RunInv(job.p, trace, job.frames, job.tokens, job.codes, |trace| - 1);
  }

  /** What a task and the main context need to step. */
  lemma TracedStep(job: Job, trace: seq<World>, w: World)
    requires Traced(job, trace, w)
    ensures WorldShape(w) && WellFormed(w.exec) && (w.cpu.Task? ==> OnFirstReady(w.exec))
  {
    TracedInv(job, trace, w);
  }

  lemma OneMore(job: Job, trace: seq<World>, w: World, l: Label, w': World)
    requires Traced(job, trace, w) && WorldShape(w) && Enabled(w, l) && w' == Apply(job.p, w, l)
    ensures Goes(job, trace, w, trace + [w'], w')
  {
    hide Step, WorldShape, Apply, Enabled, Measure, Finite, Start, Refinement.Meaning;
    var r := Teardown.Extend(job.p, trace, job.frames, job.tokens, job.codes, l);
    assert r[|trace| - 1] == w;
    if Bounded(job) {
      RunLightens(job.p, job.rank, r, job.frames, job.tokens, job.codes, |trace| - 1);
    }
  }

  /** A step of a task, or of the run loop at its top, ends in one of three places. */
  lemma StepLands(p: Program, w: World)
    requires WorldShape(w) && (w.cpu.Task? || w.cpu == Main(Top))
    ensures var cpu' := if w.cpu.Task? then StepTask(p, w).cpu else StepTop(p, w).cpu;
      cpu'.Task? || cpu' == Main(Check) || cpu' == Crashed
  {
    hide RequestIo, Suspend, Finish, Scheduler.AsyncExec, Advance;
  }

  /** A task keeps running, or the run loop gets control at its size check. */
  lemma GoLands(p: Program, w: World)
    requires Inv(w) && (w.cpu.Task? || w.cpu == Main(Top))
    ensures WorldShape(w)
    ensures var cpu' := if w.cpu.Task? then StepTask(p, w).cpu else StepTop(p, w).cpu;
      cpu'.Task? || cpu' == Main(Check)
  {
    hide StepTask, StepTop, Contexts, Links, Names, Serials, Family, Pass, PoolInv, WorldShape;
    StepLands(p, w);
    StepKeepsInv(p, w, Go);
  }

  // ---- The kernel ----

  /** The kernel completes one of the requests it holds, with any result. */
  method KernelCompletes(executor: Executor, ghost job: Job, ghost trace: seq<World>)
    returns (ghost after: seq<World>)
    requires executor.Valid() && executor.ioc.ring.pending != [] && Traced(job, trace, executor.View())
    modifies executor.ioc`ring
    ensures executor.Valid() && |after| > |trace|
    ensures Goes(job, trace, old(executor.View()), after, executor.View())
    ensures |executor.ioc.ring.pending| == |old(executor.ioc.ring.pending)| - 1
    ensures executor.ioc.ring.cq != []
  {
    hide Traced, Left, Bounded, WorldShape, WellFormed, OnFirstReady;
    ghost var w := executor.View();
    TracedStep(job, trace, w);
    var i: nat, res: int :| i < |executor.ioc.ring.pending|;
    executor.ioc.Complete(i, res);
    OneMore(job, trace, w, Complete(i, res), executor.View());
    after := trace + [executor.View()];
  }

  /** While the program does something else, the kernel completes any number of requests. */
  method KernelWorks(executor: Executor, ghost job: Job, ghost trace: seq<World>)
    returns (ghost after: seq<World>)
    requires executor.Valid() && Traced(job, trace, executor.View())
    modifies executor.ioc`ring
    ensures executor.Valid() && Goes(job, trace, old(executor.View()), after, executor.View())
    ensures old(executor.ioc.ring.cq) != [] ==> executor.ioc.ring.cq != []
  {
    hide Traced, Left, Bounded, Executor.View, Executor.Valid;
    after := trace;
    var more: bool := *;
    while more && executor.ioc.ring.pending != []
      invariant executor.Valid() && Goes(job, trace, old(executor.View()), after, executor.View())
      invariant old(executor.ioc.ring.cq) != [] ==> executor.ioc.ring.cq != []
      decreases |executor.ioc.ring.pending|
    {
      after := KernelCompletes(executor, job, after);
      more := *;
    }
  }

  // ---- The tasks ----

  /** One action of the running task. */
  method TaskTurn(executor: Executor, job: Job, ghost trace: seq<World>) returns (ghost after: seq<World>)
    requires executor.Valid() && executor.cpu.Task? && Traced(job, trace, executor.View())
    modifies executor, executor.frames, executor.block, executor.ioc, executor.ioc.available, executor.ioc.tokens
    ensures executor.Valid() && |after| > |trace|
    ensures Goes(job, trace, old(executor.View()), after, executor.View())
    ensures executor.cpu.Task? || executor.cpu == Main(Check)
  {
    hide Traced, Left, Bounded, WorldShape, WellFormed, OnFirstReady, StepTask;
    ghost var w := executor.View();
    TracedStep(job, trace, w);
    TracedInv(job, trace, w);
    GoLands(job.p, w);
    executor.TaskStep(job.p);
    OneMore(job, trace, w, Go, executor.View());
    after := trace + [executor.View()];
  }

  /** One action less to watch; `None` watches without end. */
  function Less(limit: Option<nat>): Option<nat>
    requires limit != Some(0)
  {
    if limit.None? then None else Some(limit.value - 1)
  }

  /** The switch at the top of the loop in `run`, and all that happens until the main
      context is resumed, or until `limit` actions have been watched. */
  method SwitchToTasks(executor: Executor, job: Job, limit: Option<nat>, ghost trace: seq<World>)
    returns (rest: Option<nat>, ghost after: seq<World>)
    requires executor.Valid() && executor.cpu == Main(Top) && Traced(job, trace, executor.View())
    requires limit != Some(0) && (limit.None? ==> Bounded(job))
    modifies executor, executor.frames, executor.block, executor.ioc, executor.ioc.available, executor.ioc.tokens
    ensures executor.Valid() && |after| > |trace|
    ensures Goes(job, trace, old(executor.View()), after, executor.View())
    ensures executor.cpu == Main(Check) || (executor.cpu.Task? && rest == Some(0))
    ensures Watched(limit, rest, |trace|, |after|) && (limit.Some? ==> rest.value < limit.value)
  {
    hide Traced, Left, Bounded, WorldShape, WellFormed, OnFirstReady, StepTop, Inv, Executor.Valid, Frames, FrameIds;
    ghost var w := executor.View();
    TracedStep(job, trace, w);
    TracedInv(job, trace, w);
    GoLands(job.p, w);
    executor.RunTop(job.p);
    OneMore(job, trace, w, Go, executor.View());
    after := trace + [executor.View()];
    rest := Less(limit);
    while executor.cpu.Task? && rest != Some(0)
      invariant executor.Valid() && Goes(job, trace, w, after, executor.View()) && |after| > |trace|
      invariant executor.cpu.Task? || executor.cpu == Main(Check)
      invariant Watched(limit, rest, |trace|, |after|) && (limit.Some? ==> rest.value < limit.value)
      decreases if limit.None? then Left(job, executor.View()) else rest.value
    {
      after := KernelWorks(executor, job, after);
      after := TaskTurn(executor, job, after);
      rest := Less(rest);
    }
  }

  /** At least as many steps were made as actions were watched. */
  ghost predicate Watched(limit: Option<nat>, rest: Option<nat>, before: nat, after: nat) {
    && (limit.None? <==> rest.None?)
    && (limit.Some? ==> rest.value <= limit.value && before + limit.value <= after + rest.value)
  }

  // ---- `process` ----

  /** What the main context does by itself: it moves to `cpu'`. */
  method MainMoves(executor: Executor, job: Job, cpu': Cpu, l: Label, ghost trace: seq<World>)
    returns (ghost after: seq<World>)
    requires executor.Valid() && Traced(job, trace, executor.View())
    requires WorldShape(executor.View()) && Enabled(executor.View(), l)
    requires Apply(job.p, executor.View(), l) == executor.View().(cpu := cpu')
    modifies executor`cpu
    ensures executor.Valid() && executor.cpu == cpu' && |after| > |trace|
    ensures Goes(job, trace, old(executor.View()), after, executor.View())
  {
    hide Traced, Left, Bounded, WorldShape, Apply, Enabled;
    ghost var w := executor.View();
    executor.cpu := cpu';
    OneMore(job, trace, w, l, executor.View());
    after := trace + [executor.View()];
  }

  lemma WaitingHasWork(job: Job, trace: seq<World>, w: World)
    requires Traced(job, trace, w) && w.cpu == Main(Waiting)
    ensures w.ioc.ring.pending != [] || w.ioc.ring.cq != []
  {
    Quiescence(job.p, trace, job.frames, job.tokens, job.codes, |trace| - 1);
  }

  /** `io_uring_wait_cqe`: it fails, or blocks until there is a completion. It is only
      called when the kernel has a request to complete. */
  method WaitCqe(executor: Executor, job: Job, ghost trace: seq<World>) returns (ret: int, ghost after: seq<World>)
    requires executor.Valid() && executor.cpu == Main(Waiting) && Traced(job, trace, executor.View())
    modifies executor.ioc`ring
    ensures executor.Valid() && Goes(job, trace, old(executor.View()), after, executor.View())
    ensures ret <= 0 && (ret == 0 ==> executor.ioc.ring.cq != [])
  {
    hide Traced, Left;
    after := trace;
    ret :| ret <= 0;
    if ret != 0 {
      return;
    }
    WaitingHasWork(job, trace, executor.View());
    if executor.ioc.ring.cq == [] {
      after := KernelCompletes(executor, job, after);
    }
    after := KernelWorks(executor, job, after);
  }

  /** The submission at the start of `process`. */
  method SubmitAll(executor: Executor, job: Job, ghost trace: seq<World>) returns (ret: int, ghost after: seq<World>)
    requires executor.Valid() && Traced(job, trace, executor.View())
    requires executor.cpu == Main(Check) && executor.size > 1
    modifies executor`cpu, executor.ioc`ring
    ensures executor.Valid() && |after| > |trace|
    ensures Goes(job, trace, old(executor.View()), after, executor.View())
    ensures executor.cpu == Main(if ret < 0 then Failed else Poll)
  {
    hide Traced, Left, Bounded, WorldShape, WellFormed, OnFirstReady;
    ghost var w := executor.View();
    TracedStep(job, trace, w);
    ret := executor.ioc.Submit();
    if ret < 0 {
      after := MainMoves(executor, job, Main(Failed), RingError, trace);
    } else {
      executor.cpu := Main(Poll);
      OneMore(job, trace, w, Go, executor.View());
      after := trace + [executor.View()];
    }
  }

  /** One token comes back for each completion handled. */
  lemma HandledTail(job: Job, trace: seq<World>, w: World, count: nat)
    requires Traced(job, trace, w) && (w.cpu == Main(Poll) || w.cpu == Main(Waiting))
    requires count <= |w.ioc.ring.cq|
    ensures WorldShape(w) && StepDeliver(w, count).ioc.tail == w.ioc.tail + count
  {
    hide Traced, StepDeliver;
    TracedInv(job, trace, w);
    DeliverInOrder(w, count);
  }

  /** The completions that `process` found. */
  method HandleAll(executor: Executor, job: Job, count: nat, ghost trace: seq<World>) returns (ghost after: seq<World>)
    requires executor.Valid() && Traced(job, trace, executor.View())
    requires 0 < count <= |executor.ioc.ring.cq|
    requires || (executor.cpu == Main(Poll) && count == BatchCount(BATCH_SIZE, |executor.ioc.ring.cq|))
             || (executor.cpu == Main(Waiting) && count == 1)
    modifies executor, executor.block, executor.ioc, executor.ioc.available
    ensures executor.Valid() && |after| > |trace|
    ensures Goes(job, trace, old(executor.View()), after, executor.View())
    ensures executor.cpu == Main(Top) && executor.ioc.tail == old(executor.ioc.tail) + count
  {
    hide Traced, Left, Bounded, WorldShape, WellFormed, OnFirstReady, Deliver, IoContext.IOContext.Valid;
    ghost var w := executor.View();
    TracedStep(job, trace, w);
    HandledTail(job, trace, w, count);
    executor.HandleBatch(count);
    OneMore(job, trace, w, Go, executor.View());
    after := trace + [executor.View()];
  }

  /** The middle of `process`: how many completions there are to handle. It waits for one
      when there is none, and returns a negative `ret` when that fails. */
  method PeekOrWait(executor: Executor, job: Job, ghost trace: seq<World>)
    returns (ret: int, count: nat, ghost after: seq<World>)
    requires executor.Valid() && Traced(job, trace, executor.View()) && executor.cpu == Main(Poll)
    modifies executor`cpu, executor.ioc`ring
    ensures executor.Valid() && Goes(job, trace, old(executor.View()), after, executor.View())
    ensures ret < 0 ==> executor.cpu == Main(Failed)
    ensures ret >= 0 ==>
      && 0 < count <= |executor.ioc.ring.cq| && count <= 1024
      && if executor.cpu == Main(Poll) then count == BatchCount(BATCH_SIZE, |executor.ioc.ring.cq|)
         else executor.cpu == Main(Waiting) && count == 1
  {
    hide Traced, Left, Bounded, WorldShape, WellFormed, OnFirstReady, Tokens, TokenIds, Frames, FrameIds;
    ret, after := 0, trace;
    count := executor.ioc.PeekBatch(BATCH_SIZE);
    if count == 0 {
      TracedStep(job, after, executor.View());
      after := MainMoves(executor, job, Main(Waiting), Go, after);
      ret, after := WaitCqe(executor, job, after);
      if ret != 0 {
        TracedStep(job, after, executor.View());
        after := MainMoves(executor, job, Main(Failed), RingError, after);
        return;
      }
      count := 1;
    }
  }

  /** `process`, as `run` calls it. */
  method Process(executor: Executor, job: Job, ghost trace: seq<World>) returns (ret: int, ghost after: seq<World>)
    requires executor.Valid() && Traced(job, trace, executor.View())
    requires executor.cpu == Main(Check) && executor.size > 1
    modifies executor, executor.block, executor.ioc, executor.ioc.available
    ensures executor.Valid() && |after| > |trace|
    ensures Goes(job, trace, old(executor.View()), after, executor.View())
    ensures executor.cpu == Main(if ret < 0 then Failed else Top)
    ensures ret >= 0 ==> 1 <= ret <= 1024 && executor.ioc.tail == old(executor.ioc.tail) + ret
    ensures ret < 0 ==> executor.ioc.tail == old(executor.ioc.tail)
  {
    hide Traced, Left, Bounded, WorldShape, WellFormed, OnFirstReady, Executor.Valid, Executor.View;
    ret, after := SubmitAll(executor, job, trace);
    if ret < 0 {
      return;
    }
    after := KernelWorks(executor, job, after);
    var count;
    ret, count, after := PeekOrWait(executor, job, after);
    if ret < 0 {
      return;
    }
    after := HandleAll(executor, job, count, after);
    return count, after;
  }

  // ---- `run` ----

  /** `run`. What it goes through is a run of the machine. With `limit == None` it returns,
      for every program whose tasks do bounded work; with `Some(n)` it is watched for at
      least `n` steps, or until it returns, for every program. */
  method Run(executor: Executor, job: Job, limit: Option<nat>, ghost trace: seq<World>)
    returns (rest: Option<nat>, ghost after: seq<World>)
    requires executor.Valid() && executor.cpu == Main(Top) && Traced(job, trace, executor.View())
    requires limit.None? ==> Bounded(job)
    modifies executor, executor.frames, executor.block, executor.ioc, executor.ioc.available, executor.ioc.tokens
    ensures executor.Valid() && Goes(job, trace, old(executor.View()), after, executor.View())
    ensures Returned(executor.cpu) || (limit.Some? && |after| >= |trace| + limit.value)
    ensures executor.cpu == Main(Exited) ==> executor.size == 1 && executor.ioc.tail == executor.ioc.capacity
  {
    hide Traced, Left, Bounded, WorldShape, WellFormed, OnFirstReady, Executor.Valid;
    rest, after := limit, trace;
    while rest != Some(0)
      invariant executor.Valid() && executor.cpu == Main(Top)
      invariant Goes(job, trace, old(executor.View()), after, executor.View())
      invariant Watched(limit, rest, |trace|, |after|)
      decreases if limit.None? then Left(job, executor.View()) else rest.value
    {
      rest, after := SwitchToTasks(executor, job, rest, after);
      if executor.cpu.Task? {
        return;
      }
      if executor.size <= 1 {
        TracedStep(job, after, executor.View());
        after := MainMoves(executor, job, Main(Exited), Go, after);
        ExitedClean(job, after, executor.View());
        return;
      }
      var ret;
      ret, after := Process(executor, job, after);
      if ret < 0 {
        return;
      }
    }
  }

  predicate Returned(cpu: Cpu) {
    cpu == Main(Exited) || cpu == Main(Failed)
  }

  /** A limit above what is left to do is no limit. */
  lemma LimitEnough(job: Job, trace: seq<World>, w: World, after: seq<World>, w': World, n: nat)
    requires Bounded(job) && Goes(job, trace, w, after, w') && n > Left(job, w)
    ensures |after| < |trace| + n
  {
  }

  lemma ExitedClean(job: Job, trace: seq<World>, w: World)
    requires Traced(job, trace, w) && w.cpu == Main(Exited)
    ensures w.exec.size == 1 && w.ioc.tail == w.ioc.capacity
  {
    TracedInv(job, trace, w);
    ExitIsClean(w);
  }

  // ---- A whole program around `run` ----

  lemma ShapeParts(w: World)
    requires WorldShape(w)
    ensures Shape(w.exec) && |w.hist.owner| == |w.exec.mem|
  {
  }

  /** One `async_exec` before `run`. */
  method Spawn(executor: Executor, child: Code, ghost codes: seq<Code>)
    requires executor.Valid() && executor.capacity >= 1
    requires executor.View() == Start(executor.capacity, executor.ioc.capacity, codes)
    modifies executor, executor.block
    ensures executor.Valid() && executor.View() == Start(executor.capacity, executor.ioc.capacity, codes + [child])
  {
    hide WorldShape, Scheduler.AsyncExec;
    ghost var w := executor.View();
    ShapeParts(w);
    AsyncExecReturns(w.exec, child);
    var ret := executor.AsyncExec(child, MAIN_TID);
    assert (codes + [child])[..|codes|] == codes;
    assert executor.View() == Launch(w, child);
  }

  lemma StartsAtBoot(frames: nat, tokens: nat)
    requires frames >= 1
    ensures Start(frames, tokens, []) == Boot(frames, tokens) && Boot(frames, tokens).cpu == Main(Top)
  {
  }

  /** `init_executor` and the first tasks. */
  method Begin(count: nat, capacity: nat, codes: seq<Code>) returns (executor: Executor)
    requires count >= 1 && capacity >= 1 && Rounding.Capacity(count) >= 1 && Rounding.Capacity(capacity) >= 1
    ensures executor.Valid() && fresh(executor) && fresh(executor.frames) && fresh(executor.block)
    ensures fresh(executor.ioc) && fresh(executor.ioc.available) && fresh(executor.ioc.tokens)
    ensures executor.capacity == Rounding.Capacity(count) && executor.ioc.capacity == Rounding.Capacity(capacity)
    ensures executor.cpu == Main(Top) && executor.View() == Start(executor.capacity, executor.ioc.capacity, codes)
  {
    hide WorldShape, Rounding.Capacity, Boot, Executor.Valid, Executor.Sched, IoContext.IOContext.View;
    var ret, created := InitExecutor(count, capacity, true);
    executor := created;
    StartsAtBoot(executor.capacity, executor.ioc.capacity);
    assert codes[..0] == [];
    for i := 0 to |codes|
      invariant executor.Valid() && fresh(executor) && fresh(executor.frames) && fresh(executor.block)
      invariant fresh(executor.ioc) && fresh(executor.ioc.available) && fresh(executor.ioc.tokens)
      invariant executor.View() == Start(executor.capacity, executor.ioc.capacity, codes[..i])
    {
      assert codes[..i + 1] == codes[..i] + [codes[i]];
      Spawn(executor, codes[i], codes[..i]);
    }
    assert codes[..|codes|] == codes;
  }

  /** What `free_executor` and `free_io_context` give to `free` as the bases of the blocks of
      stacks, frames and tokens. */
  method FreedPointers(executor: Executor, ghost job: Job, ghost trace: seq<World>)
    returns (stack: nat, frame: FrameStruct, token: TokenStruct)
    requires executor.Valid() && executor.capacity >= 1 && executor.ioc.capacity >= 1
    requires Traced(job, trace, executor.View())
    ensures stack == 0 && frame == executor.block[0]
    ensures job.tokens >= job.frames ==> token == executor.ioc.tokens[0]
  {
    hide Traced, WorldShape;
    frame, token := executor.frames[0], executor.ioc.available[0];
    stack := frame.stack;
    EndBases(job, trace, executor.View());
  }

  /** `init_executor`, the first tasks, `run`, and what teardown gives to `free`. */
  method Lifecycle(p: Program, rank: Code -> nat, limit: Option<nat>, count: nat, capacity: nat, codes: seq<Code>)
    returns (executor: Executor, stack: nat, frame: FrameStruct, token: TokenStruct, ghost trace: seq<World>)
    requires limit.None? ==> Finite(p, rank)
    requires 1 <= count < Rounding.TWO_64 && 1 <= capacity < Rounding.TWO_64
    requires Rounding.Capacity(count) >= 1 && Rounding.Capacity(capacity) >= 1
    ensures executor.Valid()
    ensures executor.capacity > count <==> count < 0x8000_0000
    ensures executor.ioc.capacity > capacity <==> capacity < 0x8000_0000
    ensures Traced(Job(p, rank, executor.capacity, executor.ioc.capacity, codes), trace, executor.View())
    ensures Returned(executor.cpu) || (limit.Some? && |trace| > limit.value)
    ensures stack == 0 && frame == executor.block[0]
    ensures executor.ioc.capacity >= executor.capacity ==> token == executor.ioc.tokens[0]
    ensures count <= capacity < 0x8000_0000 ==> token == executor.ioc.tokens[0]
  {
    hide WorldShape, Start, Step, Finite, Rounding.Capacity, Executor.Valid, Executor.View;
    Rounding.CapacityFits(count);
    Rounding.CapacityFits(capacity);
    if count <= capacity < 0x8000_0000 {
      Rounding.CapacityMonotone(count, capacity);
    }
    executor := Begin(count, capacity, codes);
    var job := Job(p, rank, executor.capacity, executor.ioc.capacity, codes);
    var rest;
    rest, trace := Run(executor, job, limit, [executor.View()]);
    stack, frame, token := FreedPointers(executor, job, trace);
  }

  lemma EndBases(job: Job, trace: seq<World>, w: World)
    requires Traced(job, trace, w)
    ensures w.exec.slots != [] && w.exec.slots[0] == 0
    ensures job.tokens >= job.frames ==> w.ioc.avail != [] && w.ioc.avail[0] == 0
  {
    TracedInv(job, trace, w);
    if job.tokens >= job.frames {
      Teardown.TeardownSafe(job.p, trace, job.frames, job.tokens, job.codes, |trace| - 1);
    }
  }
}
