/** When `current` is one past the last live slot: exactly from the end of the task in that
    slot to the next scan of the run loop. */
module LastSlot {
  import opened Types
  import opened Scheduler
  import opened Requests
  import opened Machine
  import opened Invariant
  import opened RunLoopInvariant
  import opened Theorems
  import opened Teardown

  predicate PastEnd(w: World) {
    w.exec.current == w.exec.size
  }

  lemma FinishPastEnd(e: Exec)
    requires WellFormed(e) && 1 <= e.current < e.size
    ensures var e' := Finish(e).0; e'.current == e'.size <==> e.current == e.size - 1
  {
    SwapWellFormed(e);
    var removed := e.(slots := SwapWithLast(e), size := e.size - 1);
    assert Advance(removed).current < removed.size;
  }

  lemma TaskPastEnd(p: Program, w: World)
    requires WorldShape(w) && WellFormed(w.exec) && OnFirstReady(w.exec) && w.cpu.Task?
    ensures PastEnd(StepTask(p, w)) <==> p.act(w.cpu.code).End? && w.exec.current == w.exec.size - 1
  {
    hide Finish, Suspend, AsyncExec, Load;
    match p.act(w.cpu.code)
    case Spawn(child) => AsyncExecEffect(w.exec, child);
    case Request(kind, io) => SuspendEffect(w.exec, Parked(CurrentFrame(w.exec), kind, w.cpu.code));
    case End => FinishPastEnd(w.exec);
  }

  lemma DeliverPastEnd(w: World, n: nat)
    requires Core(w) && w.cpu.Main? && Idle(w.exec) && n <= |w.ioc.ring.cq|
    ensures PastEnd(StepDeliver(w, n)) <==> PastEnd(w)
  {
    var v := w.(cpu := Main(Top));
    IdleIsDelivering(w, Top);
    DeliverKeeps(v, n);
    assert StillOf(Deliver(v, n)).current == StillOf(v).current;
    assert StillOf(Deliver(v, n)).size == StillOf(v).size;
  }

  /** The exact condition, step by step. */
  lemma PastEndIff(p: Program, w: World, l: Label)
    requires Inv(w) && Enabled(w, l)
    ensures PastEnd(Apply(p, w, l)) <==>
      || (l.Go? && w.cpu.Task? && p.act(w.cpu.code).End? && w.exec.current == w.exec.size - 1)
      || (PastEnd(w) && !(l.Go? && w.cpu == Main(Top)))
  {
    hide StepTask, StepDeliver, Contexts, Links, Names, Serials, Family, Pass, PoolInv;
    if l.Go? && w.cpu.Task? {
      TaskPastEnd(p, w);
    } else if l.Go? && w.cpu == Main(Waiting) {
      DeliverPastEnd(w, 1);
    } else if l.Go? && w.cpu == Main(Poll) {
      DeliverPastEnd(w, BatchCount(BATCH_SIZE, |w.ioc.ring.cq|));
    }
  }

  /** Every task ends at once. */
  function Idler(): Program {
    Program(_ => End, (code, _) => code)
  }

  /** The state in which `run` starts with one task. */
  lemma OneTask(frames: nat, tokens: nat)
    requires frames >= 2
    ensures var w := Start(frames, tokens, [0]);
      && w.cpu == Main(Top) && w.exec.current == 0 && w.exec.size == 2
      && WellFormed(w.exec) && ReadyAt(w.exec, 1) && w.exec.mem[w.exec.slots[1]].exe == Fresh(0)
  {
    assert [0][..0] == [];
    var b := Boot(frames, tokens);
    assert Start(frames, tokens, [0]) == Launch(b, 0);
    assert b.exec.slots[1] == 1;
    AsyncExecEffect(b.exec, 0);
  }

  lemma OneTaskRuns(p: Program, w: World)
    requires Inv(w) && w.cpu == Main(Top) && w.exec.current == 0 && w.exec.size == 2
    requires ReadyAt(w.exec, 1) && w.exec.mem[w.exec.slots[1]].exe == Fresh(0)
    ensures var v := Apply(p, w, Go); v.cpu == Task(0) && v.exec.current == 1 && v.exec.size == 2
  {
    hide Contexts, Links, Names, Serials, Family, Pass, PoolInv;
    assert NextReady(w.exec) == 1;
    assert w.exec.slots[1] != w.exec.slots[0];
  }

  /** It happens: one task in the only slot behind the main frame ends. */
  lemma PastEndHappens(frames: nat, tokens: nat) returns (r: seq<World>)
    requires frames >= 2
    ensures IsRun(Idler(), r, frames, tokens, [0])
    ensures PastEnd(r[|r| - 1]) && r[|r| - 1].cpu.Main?
  {
    hide Start, Step, Apply, Contexts, Links, Names, Serials, Family, Pass, PoolInv;
    var p := Idler();
    var w := Start(frames, tokens, [0]);
    OneTask(frames, tokens);
    StartInv(frames, tokens, [0]);
    OneTaskRuns(p, w);
    r := Extend(p, [w], frames, tokens, [0], Go);
    StepKeepsInv(p, w, Go);
    PastEndIff(p, r[1], Go);
    r := Extend(p, r, frames, tokens, [0], Go);
    ScanPosition(p, r, frames, tokens, [0], 2);
  }
}
