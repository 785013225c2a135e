/** Every run of a program whose tasks do finite work ends, within a bound known at its
    start, and leaves nothing behind. */
module Termination {
  import opened Types
  import opened Collections
  import opened Scheduler
  import opened Requests
  import opened Machine
  import opened Invariant
  import opened RunLoopInvariant
  import opened Refinement
  import opened AbstractRuns
  import opened Theorems
  import A = AbstractLoop

  /** `rank` bounds the work left at each point of the program, whatever results arrive. */
  ghost predicate Finite(p: Program, rank: Code -> nat) {
    && (forall c, r :: p.act(c).Request? ==> rank(p.resume(c, r)) < rank(c))
    && (forall c, r :: p.act(c).Spawn? ==> rank(p.resume(c, r)) + rank(p.act(c).child) < rank(c))
  }

  // ---- The measure ----

  function Weight(rank: Code -> nat, s: A.TaskState): nat {
    match s
    case New(start) => 10 * rank(start) + 6
    case Blocked(_, _, code) => 10 * rank(code) + 1
    case Done(_, _, code, _) => 10 * rank(code) + 1
  }

  function WeightAt(rank: Code -> nat, tasks: map<Tid, A.TaskState>, t: Tid): nat {
    if t in tasks then Weight(rank, tasks[t]) else 0
  }

  function Total(rank: Code -> nat, tasks: map<Tid, A.TaskState>, n: nat): nat {
    if n == 0 then 0 else Total(rank, tasks, n - 1) + WeightAt(rank, tasks, n - 1)
  }

  function Work(rank: Code -> nat, a: A.Abs): nat {
    Total(rank, a.tasks, a.nextTid)
    + (if a.cpu.Runs? then 10 * rank(a.cpu.code) + 5 else 0)
    + 3 * |a.queued| + 2 * |a.pending| + |a.posted|
  }

  function PcRank(cpu: A.AbsCpu): nat {
    match cpu
    case MainAt(Top) => 4
    case MainAt(Check) => 3
    case MainAt(Poll) => 2
    case MainAt(Waiting) => 1
    case _ => 0
  }

  function Measure(rank: Code -> nat, a: A.Abs): nat {
    5 * Work(rank, a) + PcRank(a.cpu)
  }

  // ---- Sums over the bag ----

  lemma {:induction false} TotalSame(rank: Code -> nat, m: map<Tid, A.TaskState>, k: map<Tid, A.TaskState>, n: nat)
    requires forall t: nat :: t < n ==> WeightAt(rank, m, t) == WeightAt(rank, k, t)
    ensures Total(rank, m, n) == Total(rank, k, n)
  {
    if n > 0 {
      TotalSame(rank, m, k, n - 1);
    }
  }

  /** Bags that agree but for task `t` differ by the weights of `t`. */
  lemma {:induction false} TotalChange(rank: Code -> nat, m: map<Tid, A.TaskState>, k: map<Tid, A.TaskState>,
                                       n: nat, t: Tid)
    requires t < n && forall u: nat :: u < n && u != t ==> WeightAt(rank, m, u) == WeightAt(rank, k, u)
    ensures Total(rank, k, n) + WeightAt(rank, m, t) == Total(rank, m, n) + WeightAt(rank, k, t)
  {
    if t == n - 1 {
      TotalSame(rank, m, k, n - 1);
    } else {
      TotalChange(rank, m, k, n - 1, t);
    }
  }

  // ---- What the measure needs of a state ----

  /** The bag is numbered below `nextTid`, its runner is not in it, and every task that
      waits or has been answered stands at a request. */
  ghost predicate Tidy(p: Program, a: A.Abs) {
    && (forall t <- a.tasks :: t < a.nextTid)
    && (a.cpu.Runs? ==> a.cpu.tid < a.nextTid && a.cpu.tid !in a.tasks)
    && (forall t <- a.tasks :: !a.tasks[t].New? ==> p.act(a.tasks[t].code).Request?)
  }

  // ---- Steps ----

  lemma SwitchLightens(p: Program, rank: Code -> nat, a: A.Abs, a': A.Abs)
    requires Finite(p, rank) && Tidy(p, a) && A.Switched(p, a, a') && !a.cpu.Runs?
    ensures if a'.cpu.Runs? then Work(rank, a') < Work(rank, a)
      else Work(rank, a') == Work(rank, a) && a'.cpu == A.MainAt(Check)
  {
    if a'.cpu != A.MainAt(Check) {
      var t :| A.Runnable(a, t) && a' == a.(tasks := a.tasks - {t}, cpu := A.Runs(t, A.Continue(p, a.tasks[t])));
      TotalChange(rank, a.tasks, a'.tasks, a.nextTid, t);
    }
  }

  lemma RequestLightens(p: Program, rank: Code -> nat, a: A.Abs, a': A.Abs)
    requires Finite(p, rank) && Tidy(p, a) && Tidy(p, a') && a.cpu.Runs? && A.TaskStep(p, a, a')
    requires p.act(a.cpu.code).Request?
    ensures Work(rank, a') < Work(rank, a)
  {
    var kind := p.act(a.cpu.code).kind;
    if A.InFlight(a) < a.maxRequests {
      var b := A.Block(a, kind);
      TotalChange(rank, a.tasks, b.tasks, a.nextTid, a.cpu.tid);
      assert Tidy(p, b);
      SwitchLightens(p, rank, b, a');
    }
  }

  lemma EndLightens(p: Program, rank: Code -> nat, a: A.Abs, a': A.Abs)
    requires Finite(p, rank) && Tidy(p, a) && a.cpu.Runs? && A.TaskStep(p, a, a')
    requires p.act(a.cpu.code).End?
    ensures Work(rank, a') < Work(rank, a)
  {
    var b := a.(cpu := A.Between);
    assert Tidy(p, b);
    SwitchLightens(p, rank, b, a');
  }

  lemma AddedNew(rank: Code -> nat, m: map<Tid, A.TaskState>, n: nat, child: Code)
    requires n !in m
    ensures Total(rank, m[n := A.New(child)], n + 1) == Total(rank, m, n) + 10 * rank(child) + 6
  {
    TotalSame(rank, m, m[n := A.New(child)], n);
  }

  lemma SpawnCost(p: Program, rank: Code -> nat, c: Code, ret: int)
    requires Finite(p, rank) && p.act(c).Spawn?
    ensures rank(p.resume(c, ret)) + rank(p.act(c).child) < rank(c)
  {
  }

  lemma SpawnLightens(p: Program, rank: Code -> nat, a: A.Abs, child: Code)
    requires a.cpu.Runs? && a.nextTid !in a.tasks
    requires rank(p.resume(a.cpu.code, 0)) + rank(child) < rank(a.cpu.code)
    requires rank(p.resume(a.cpu.code, -1)) < rank(a.cpu.code)
    ensures Work(rank, A.Spawn(p, a, child)) < Work(rank, a)
  {
    hide WeightAt, Weight;
    if |a.tasks| + 2 < a.maxTasks {
      AddedNew(rank, a.tasks, a.nextTid, child);
    }
  }

  lemma ReceiveLightens(rank: Code -> nat, a: A.Abs, n: nat)
    requires 1 <= n <= |a.posted| && a.cpu.MainAt?
    ensures Work(rank, A.Receive(a, n)) + n == Work(rank, a)
  {
    var b := A.Receive(a, n);
    forall t: nat | t < a.nextTid
      ensures WeightAt(rank, b.tasks, t) == WeightAt(rank, a.tasks, t)
    {
      HandAllKeys(a.tasks, a.posted, n);
      if t in a.tasks {
        HandAllEffect(a.tasks, a.posted, n, t);
      }
    }
    TotalSame(rank, a.tasks, b.tasks, a.nextTid);
  }

  lemma MainLightens(p: Program, rank: Code -> nat, a: A.Abs, a': A.Abs)
    requires Finite(p, rank) && Tidy(p, a) && a.cpu.MainAt? && A.MainStep(p, a, a')
    ensures Measure(rank, a') < Measure(rank, a)
  {
    match a.cpu.pc
    case Top => SwitchLightens(p, rank, a, a');
    case Check =>
    case Poll =>
      var n := BatchCount(BATCH_SIZE, |a.posted|);
      if n > 0 {
        ReceiveLightens(rank, a, n);
      }
    case Waiting => ReceiveLightens(rank, a, 1);
    case _ =>
  }

  /** Every step, of a task, of the run loop or of the kernel, lowers the measure. */
  lemma StepLightens(p: Program, rank: Code -> nat, a: A.Abs, a': A.Abs)
    requires Finite(p, rank) && Tidy(p, a) && Tidy(p, a') && A.AbsStep(p, a, a')
    ensures Measure(rank, a') < Measure(rank, a)
  {
    if a.cpu.Runs? && A.TaskStep(p, a, a') {
      match p.act(a.cpu.code)
      case Spawn(child) =>
        SpawnCost(p, rank, a.cpu.code, 0);
        SpawnCost(p, rank, a.cpu.code, -1);
        SpawnLightens(p, rank, a, child);
      case Request(_, _) => RequestLightens(p, rank, a, a');
      case End => EndLightens(p, rank, a, a');
    } else if a.cpu.MainAt? && A.MainStep(p, a, a') {
      MainLightens(p, rank, a, a');
    }
  }

  // ---- Whole runs ----

  lemma {:induction false} TraceTidy(p: Program, s: seq<A.Abs>, k: nat)
    requires Trace(p, s) && k < |s|
    ensures forall t <- s[k].tasks :: !s[k].tasks[t].New? ==> p.act(s[k].tasks[t].code).Request?
  {
    if k > 0 {
      TraceTidy(p, s, k - 1);
      assert A.AbsStep(p, s[k - 1], s[k - 1 + 1]);
      forall t | t in s[k].tasks && !s[k].tasks[t].New?
        ensures p.act(s[k].tasks[t].code).Request?
      {
        AskedBefore(p, s[k - 1], s[k], t);
      }
    }
  }

  lemma NumberedBelow(w: World)
    requires Inv(w)
    ensures var a := Meaning(w);
      && (forall t <- a.tasks :: t < a.nextTid)
      && (a.cpu.Runs? ==> a.cpu.tid < a.nextTid && a.cpu.tid !in a.tasks)
  {
    if w.cpu.Task? {
      assert CurrentFrame(w.exec) in Live(w.exec);
    }
  }

  lemma RunTidy(p: Program, r: seq<World>, frames: nat, tokens: nat, codes: seq<Code>, k: nat)
    requires IsRun(p, r, frames, tokens, codes) && k < |r|
    ensures Tidy(p, Meaning(r[k]))
  {
    RunInv(p, r, frames, tokens, codes, k);
    NumberedBelow(r[k]);
    RunIsTrace(p, r, frames, tokens, codes);
    TraceTidy(p, MeaningOf(r), k);
    assert MeaningOf(r)[k] == Meaning(r[k]);
  }

  lemma RunLightens(p: Program, rank: Code -> nat, r: seq<World>, frames: nat, tokens: nat, codes: seq<Code>, k: nat)
    requires Finite(p, rank) && IsRun(p, r, frames, tokens, codes) && k + 1 < |r|
    ensures Measure(rank, Meaning(r[k + 1])) < Measure(rank, Meaning(r[k]))
  {
    RunRefines(p, r, frames, tokens, codes, k);
    RunTidy(p, r, frames, tokens, codes, k);
    RunTidy(p, r, frames, tokens, codes, k + 1);
    StepLightens(p, rank, Meaning(r[k]), Meaning(r[k + 1]));
  }

  /** A run cannot go on for longer than its measure. */
  lemma {:induction false} RunIsBounded(p: Program, rank: Code -> nat, r: seq<World>, frames: nat, tokens: nat,
                                        codes: seq<Code>, k: nat)
    requires Finite(p, rank) && IsRun(p, r, frames, tokens, codes) && k < |r|
    ensures k + Measure(rank, Meaning(r[k])) <= Measure(rank, Meaning(r[0]))
  {
    hide Measure, Finite, Step, WorldShape, Start, Meaning;
    if k > 0 {
      RunIsBounded(p, rank, r, frames, tokens, codes, k - 1);
      RunLightens(p, rank, r, frames, tokens, codes, k - 1);
    }
  }

  /** The machine never gets stuck: as long as `run` has not returned, it can step, or it
      is blocked in `process` and the kernel holds a request to complete. */
  lemma NeverStuck(w: World)
    requires Inv(w) && w.cpu != Main(Exited) && w.cpu != Main(Failed)
    ensures Enabled(w, Go) || (w.cpu == Main(Waiting) && Enabled(w, Complete(0, 0)))
  {
    if w.cpu == Main(Waiting) {
      IdleCounts(w);
    }
  }

  /** When `run` has returned without a ring error, only the main frame is live, no
      request is in flight, every token is back and every callback has run once. */
  lemma ExitIsClean(w: World)
    requires Inv(w) && w.cpu == Main(Exited)
    ensures w.exec.size == 1 && Live(w.exec) == {} && w.hist.home == map[]
    ensures Flight(w.ioc.ring) == [] && w.ioc.tail == w.ioc.capacity
    ensures multiset(w.hist.fired) == multiset(Iota(w.hist.nextRid))
  {
    IdleCounts(w);
    assert FlightRids(w) == [];
    assert w.hist.fired + [] == w.hist.fired;
    assert w.hist.home.Keys == {};
  }

  /** Neither the program nor the kernel nor a ring error can go on. */
  ghost predicate Halted(w: World) {
    forall l :: !Enabled(w, l)
  }

  /** Termination. A run of a program with finite work has at most `Measure + 1` states;
      one that nothing can continue has returned from `run`, cleanly unless the ring
      failed. */
  lemma RunTerminates(p: Program, rank: Code -> nat, r: seq<World>, frames: nat, tokens: nat, codes: seq<Code>)
    requires Finite(p, rank) && IsRun(p, r, frames, tokens, codes)
    ensures |r| <= Measure(rank, Meaning(r[0])) + 1
    ensures WorldShape(r[|r| - 1])
    ensures Halted(r[|r| - 1]) ==>
      var w := r[|r| - 1];
      || w.cpu == Main(Failed)
      || (w.cpu == Main(Exited) && w.exec.size == 1 && Flight(w.ioc.ring) == [] && w.ioc.tail == w.ioc.capacity)
  {
    var k := |r| - 1;
    RunIsBounded(p, rank, r, frames, tokens, codes, k);
    RunInv(p, r, frames, tokens, codes, k);
    if r[k].cpu == Main(Exited) {
      ExitIsClean(r[k]);
    } else if r[k].cpu != Main(Failed) {
      NeverStuck(r[k]);
    }
  }
}
