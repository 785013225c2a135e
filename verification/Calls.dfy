/** What each call of a task, and each turn of the run loop, does and returns, told field by
    field. */
module Calls {
  import opened Types
  import opened Scheduler
  import opened Requests
  import opened Machine
  import opened Invariant
  import opened RunLoopInvariant
  import opened Theorems
  import Refinement
  import AbstractRuns
  import A = AbstractLoop

  // ---- Calls of a task ----

  /** `async_exec` of a task: -1 and no change when the frames are used up; otherwise 0, and
      a new task, not started yet, child of the caller, with the code it was given. */
  lemma SpawnCall(p: Program, w: World, parent: Tid, child: Code)
    requires Inv(w) && RunsTask(w, parent) && p.act(w.cpu.code) == Spawn(child)
    ensures var w' := Apply(p, w, Go);
      if w.exec.size == |w.exec.slots| then w' == w.(cpu := Task(p.resume(w.cpu.code, -1)))
      else
        var f, t := w.exec.slots[w.exec.size], w.hist.nextTid;
        && w'.cpu == Task(p.resume(w.cpu.code, 0)) && RunsTask(w', parent)
        && f !in Live(w.exec) && f in Live(w'.exec) && w'.exec.size == w.exec.size + 1
        && w'.exec.mem == w.exec.mem[f := Frame(true, w.exec.mem[f].result, Fresh(child))]
        && w'.exec.slots == w.exec.slots && w'.exec.current == w.exec.current && w'.ioc == w.ioc
        && Unstarted(w', t) && t !in w.hist.home && w'.hist.home == w.hist.home[t := f]
        && w'.hist.parent == w.hist.parent[t := parent]
  {
    hide Links, Serials, Family, Pass, PoolInv;
    AsyncExecEffect(w.exec, child);
    assert CurrentFrame(w.exec) in Live(w.exec);
    StepKeepsShape(p, w);
  }

  lemma StepKeepsShape(p: Program, w: World)
    requires Inv(w) && Enabled(w, Go)
    ensures WorldShape(Apply(p, w, Go))
  {
    hide Apply, Enabled;
    StepKeepsInv(p, w, Go);
  }

  /** An `async_*` call that finds no token returns -1 at once and changes nothing. */
  lemma RequestRefused(p: Program, w: World, kind: RequestKind, io: Operands)
    requires Inv(w) && w.cpu.Task? && p.act(w.cpu.code) == Request(kind, io) && w.ioc.tail == 0
    ensures Apply(p, w, Go) == w.(cpu := Task(p.resume(w.cpu.code, -1)))
  {
    hide Links, Serials, Family, Pass, PoolInv, Contexts, Names;
    RequestEffect(w.ioc, kind, io, CurrentFrame(w.exec));
  }

  /** One that finds a token queues exactly this request, carried by the caller's frame, and
      parks the caller at its call. */
  lemma RequestQueued(p: Program, w: World, kind: RequestKind, io: Operands)
    requires Inv(w) && w.cpu.Task? && p.act(w.cpu.code) == Request(kind, io) && w.ioc.tail > 0
    ensures var w', f, t := Apply(p, w, Go), CurrentFrame(w.exec), w.ioc.avail[w.ioc.tail - 1];
      && w'.ioc.ring == w.ioc.ring.(sq := w.ioc.ring.sq + [Sqe(kind, io, t)])
      && w'.ioc.tail == w.ioc.tail - 1 && w'.ioc.avail == w.ioc.avail
      && w'.ioc.toks == w.ioc.toks[t := w'.ioc.toks[t]]
      && w'.ioc.toks[t].kind == kind && w'.ioc.toks[t].data == f
      && w'.ioc.toks[t].fd == (if kind == Wait then w.ioc.toks[t].fd else io.fd)
      && w'.exec.mem == w.exec.mem[f := Frame(false, w.exec.mem[f].result, Parked(f, kind, w.cpu.code))]
      && w'.exec.slots == w.exec.slots && w'.exec.size == w.exec.size
      && w'.hist.carries == w.hist.carries[t := w.hist.nextRid] && w'.hist.nextRid == w.hist.nextRid + 1
  {
    hide Links, Serials, Family, Pass, PoolInv, Contexts, Names, Load, Suspend;
    RequestEffect(w.ioc, kind, io, CurrentFrame(w.exec));
    SuspendEffect(w.exec, Parked(CurrentFrame(w.exec), kind, w.cpu.code));
  }

  /** A task that is switched to for the first time starts with the code it was spawned with. */
  lemma FirstSlice(p: Program, w: World, l: Label, t: Tid)
    requires Inv(w) && Enabled(w, l) && Unstarted(w, t) && RunsTask(Apply(p, w, l), t)
    ensures var x := w.exec.mem[w.hist.home[t]].exe; x.Fresh? && Apply(p, w, l).cpu == Task(x.start)
  {
    hide Apply, Enabled, Refinement.AbsOf, Links, Serials, Family, Pass, PoolInv, WellFormed, RunsTask, Unstarted;
    var w' := Apply(p, w, l);
    StepKeepsInv(p, w, l);
    Refinement.StepRefines(p, w, l);
    RunsMeaning(w, t);
    RunsMeaning(w', t);
    NewIsUnstarted(w, t);
    UnstartedRests(w, t);
    AbstractRuns.RunsFromBag(p, Refinement.Meaning(w), Refinement.Meaning(w'), t);
    NewStart(w, t);
    CodeOf(w');
  }

  lemma UnstartedRests(w: World, t: Tid)
    requires WorldShape(w) && Names(w) && Unstarted(w, t)
    ensures !RunsTask(w, t)
  {
    if w.cpu.Task? {
      assert CurrentFrame(w.exec) in Live(w.exec);
    }
  }

  lemma NewStart(w: World, t: Tid)
    requires WorldShape(w) && Names(w) && Unstarted(w, t)
    ensures t in Refinement.Meaning(w).tasks && t in w.hist.home && w.hist.home[t] < |w.exec.mem|
    ensures w.exec.mem[w.hist.home[t]].exe.Fresh?
    ensures Refinement.Meaning(w).tasks[t] == A.New(w.exec.mem[w.hist.home[t]].exe.start)
  {
  }

  // ---- Turns of the run loop ----

  /** The size check: `run` returns and changes nothing, or submits all requests. */
  lemma CheckTurn(p: Program, w: World)
    requires Inv(w) && w.cpu == Main(Check)
    ensures var w' := Apply(p, w, Go);
      if w.exec.size == 1 then w' == w.(cpu := Main(Exited))
      else
        && w'.cpu == Main(Poll) && w'.exec == w.exec && w'.hist == w.hist
        && w'.ioc == w.ioc.(ring := w'.ioc.ring)
        && w'.ioc.ring.sq == [] && w'.ioc.ring.cq == w.ioc.ring.cq
        && w'.ioc.ring.pending == w.ioc.ring.pending + w.ioc.ring.sq
  {
    hide Links, Serials, Family, Pass, PoolInv, Contexts, Names;
    SubmitEffect(w.ioc.ring);
  }

  /** `process` handles what is there, up to 1024 completions, or blocks; when the wait is
      over it handles one. */
  lemma ProcessTurn(p: Program, w: World)
    requires Inv(w) && Enabled(w, Go) && (w.cpu == Main(Poll) || w.cpu == Main(Waiting))
    ensures var w', n := Apply(p, w, Go), |w.ioc.ring.cq|;
      if w.cpu == Main(Waiting) then w' == StepDeliver(w, 1)
      else if n == 0 then w' == w.(cpu := Main(Waiting))
      else w' == StepDeliver(w, if n < 1024 then n else 1024)
  {
    hide StepDeliver, Links, Serials, Family, Pass, PoolInv, Contexts, Names;
    BatchIs(|w.ioc.ring.cq|);
  }

  // ---- The start ----

  /** The first tasks get the frames behind the main frame, in order, as long as there are
      frames. */
  lemma {:induction false} StartTasks(frames: nat, tokens: nat, codes: seq<Code>)
    requires frames >= 1
    ensures var w := Start(frames, tokens, codes);
      && w.cpu == Main(Top) && w.exec.current == 0 && w.ioc == InitIoc(tokens)
      && |w.exec.slots| == |w.exec.mem| == frames
      && w.exec.size == (if |codes| < frames then |codes| + 1 else frames)
      && (forall i :: 0 <= i < frames ==> w.exec.slots[i] == i)
      && (forall i :: 1 <= i < w.exec.size ==> w.exec.mem[i] == Frame(true, 0, Fresh(codes[i - 1])))
      && (forall i :: w.exec.size <= i < frames ==> w.exec.mem[i] == Frame(false, 0, Unset))
      && w.exec.mem[0] == Frame(true, 0, Unset)
  {
    hide NoHistory, Register, WorldShape, InitIoc, InitExec;
    if codes == [] {
      InitExecIs(frames);
    } else {
      StartTasks(frames, tokens, codes[..|codes| - 1]);
      StartShape(frames, tokens, codes[..|codes| - 1]);
    }
  }

  lemma StartShape(frames: nat, tokens: nat, codes: seq<Code>)
    requires frames >= 1
    ensures Shape(Start(frames, tokens, codes).exec)
  {
    StartInv(frames, tokens, codes);
  }
}
