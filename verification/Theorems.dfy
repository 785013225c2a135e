/** The main results about whole runs of the event loop. */
module Theorems {
  import opened Types
  import opened Collections
  import opened Scheduler
  import opened Requests
  import opened Machine
  import opened Invariant
  import opened RunLoopInvariant
  import opened Refinement
  import A = AbstractLoop
  import AbstractRuns

  // ---- Own results ----

  /** Before `run` every task is unstarted and no request was made. */
  lemma {:induction false} StartFresh(frames: nat, tokens: nat, codes: seq<Code>)
    requires frames >= 1
    ensures var w := Start(frames, tokens, codes);
      && WellFormed(w.exec)
      && (forall f <- Live(w.exec) :: w.exec.mem[f].exe.Fresh?)
      && w.ioc == InitIoc(tokens)
  {
    if codes != [] {
      var v := Start(frames, tokens, codes[..|codes| - 1]);
      StartFresh(frames, tokens, codes[..|codes| - 1]);
      AsyncExecEffect(v.exec, codes[|codes| - 1]);
    }
  }

  lemma StartMeaning(frames: nat, tokens: nat, codes: seq<Code>)
    requires frames >= 1
    ensures var w := Start(frames, tokens, codes);
      && WorldShape(w) && Names(w)
      && (forall t <- Meaning(w).tasks :: Meaning(w).tasks[t].New?)
      && w.ioc.ring == Ring(tokens, [], [], [])
  {
    StartInv(frames, tokens, codes);
    StartFresh(frames, tokens, codes);
  }

  ghost function MeaningOf(r: seq<World>): (s: seq<A.Abs>)
    ensures |s| == |r| && forall k :: 0 <= k < |r| ==> s[k] == Meaning(r[k])
  {
    seq(|r|, k requires 0 <= k < |r| => Meaning(r[k]))
  }

  lemma RunIsTrace(p: Program, r: seq<World>, frames: nat, tokens: nat, codes: seq<Code>)
    requires IsRun(p, r, frames, tokens, codes)
    ensures AbstractRuns.Trace(p, MeaningOf(r))
  {
    StartMeaning(frames, tokens, codes);
    var s := MeaningOf(r);
    forall k | 0 <= k < |s|
      ensures s[k].cpu.Runs? ==> s[k].cpu.tid !in s[k].tasks
    {
      RunInv(p, r, frames, tokens, codes, k);
      NotInBag(r[k]);
    }
    forall k | 0 <= k < |s| - 1
      ensures A.AbsStep(p, s[k], s[k + 1])
    {
      RunRefines(p, r, frames, tokens, codes, k);
    }
  }

  lemma NotInBag(w: World)
    requires Inv(w)
    ensures var a := Meaning(w); a.cpu.Runs? ==> a.cpu.tid !in a.tasks
  {
    if w.cpu.Task? {
      assert CurrentFrame(w.exec) in Live(w.exec);
    }
  }

  /** Task `t` is the one that runs. */
  predicate RunsTask(w: World, t: Tid) {
    WorldShape(w) && w.cpu.Task? && w.hist.owner[CurrentFrame(w.exec)] == t
  }

  /** Task `t` is live and has not been switched to yet. */
  predicate Unstarted(w: World, t: Tid) {
    && WorldShape(w) && t in w.hist.home && w.hist.home[t] < |w.exec.mem|
    && !Runs(w, w.hist.home[t]) && w.exec.mem[w.hist.home[t]].exe.Fresh?
  }

  /** The kernel completes request `rid` with result `res`. */
  ghost predicate CompletesRequest(w: World, w': World, rid: Rid, res: int) {
    var ring, ring' := w.ioc.ring, w'.ioc.ring;
    exists x: nat ::
      && x < |ring.pending| && ring.pending[x].user < |w.hist.carries|
      && w.hist.carries[ring.pending[x].user] == rid
      && ring'.cq == ring.cq + [Cqe(ring.pending[x].user, res)]
      && ring'.pending == ring.pending[..x] + ring.pending[x + 1..] && ring'.sq == ring.sq
  }

  lemma RunsMeaning(w: World, t: Tid)
    requires WorldShape(w) && Names(w)
    ensures RunsTask(w, t) <==> AbstractRuns.IsRunning(Meaning(w), t)
  {
  }

  /** In a live task only an unstarted context means a new task. */
  lemma NewIsUnstarted(w: World, t: Tid)
    requires WorldShape(w) && Names(w) && Contexts(w)
    ensures t in Meaning(w).tasks && Meaning(w).tasks[t].New? <==> Unstarted(w, t)
  {
    if t in Meaning(w).tasks {
      assert w.hist.home[t] in Live(w.exec);
    }
  }

  lemma PendingGrows(p: Program, w: World)
    requires WorldShape(w) && Enabled(w, Go)
    ensures |Apply(p, w, Go).ioc.ring.pending| >= |w.ioc.ring.pending|
  {
    hide Suspend, Finish, AsyncExec, Advance, Load, Flight;
  }

  lemma CompletesInMachine(p: Program, w: World, w': World, rid: Rid, res: int)
    requires Inv(w) && Inv(w') && Step(p, w, w') && AbstractRuns.Completes(Meaning(w), Meaning(w'), rid, res)
    ensures CompletesRequest(w, w', rid, res)
  {
    hide Contexts, Links, Serials, Family, Pass, PoolInv, WellFormed, TasksOf, CpuOf;
    var l :| Enabled(w, l) && w' == Apply(p, w, l);
    assert |Meaning(w).pending| == |w.ioc.ring.pending| && |Meaning(w').pending| == |w'.ioc.ring.pending|;
    match l
    case Go => PendingGrows(p, w);
    case RingError =>
    case Complete(x, res') =>
      var a, a' := Meaning(w).posted, Meaning(w').posted;
      UsersBounded(w.ioc.ring, |w.hist.carries|);
      assert a'[|a|] == A.Completion(w.hist.carries[w.ioc.ring.pending[x].user], res');
      assert a'[|a|] == A.Completion(rid, res);
  }

  /** Own-result delivery. Whenever a step of a run makes a task run that has started
      before, some earlier step `i` is that task making request `rid` and not running
      since, a step `k` in between is the kernel completing that very request, and the
      task goes on with the return value of that result, whatever frames moved and
      whatever tokens were used again in the meantime. */
  lemma OwnResult(p: Program, r: seq<World>, frames: nat, tokens: nat, codes: seq<Code>, j: nat, t: Tid)
    returns (i: nat, k: nat, rid: Rid, kind: RequestKind, code: Code, res: int)
    requires IsRun(p, r, frames, tokens, codes) && j + 1 < |r|
    requires RunsTask(r[j + 1], t) && !RunsTask(r[j], t) && !Unstarted(r[j], t)
    ensures i < k < j
    ensures RunsTask(r[i], t) && r[i].cpu == Task(code) && p.act(code).Request? && p.act(code).kind == kind
    ensures r[i].hist.nextRid == rid && r[i + 1].hist.nextRid == rid + 1
    ensures forall m :: i < m <= j ==> !RunsTask(r[m], t)
    ensures CompletesRequest(r[k], r[k + 1], rid, res)
    ensures r[j + 1].cpu == Task(p.resume(code, if kind == Wait then 0 else res))
  {
    hide RunsTask, Unstarted, Meaning, CompletesRequest, Step, WorldShape, Start;
    hide AbstractRuns.IsRunning, AbstractRuns.Completes;
    RunMeaning(p, r, frames, tokens, codes, j, t);
    RunMeaning(p, r, frames, tokens, codes, j + 1, t);
    i, k, rid, kind, code, res := OwnResultInBag(p, r, frames, tokens, codes, j, t);
    forall m | i < m <= j
      ensures !RunsTask(r[m], t)
    {
      RunMeaning(p, r, frames, tokens, codes, m, t);
    }
    RunMeaning(p, r, frames, tokens, codes, i, t);
    RunMeaning(p, r, frames, tokens, codes, i + 1, t);
    RunCompletes(p, r, frames, tokens, codes, k, rid, res);
  }

  lemma RunCompletes(p: Program, r: seq<World>, frames: nat, tokens: nat, codes: seq<Code>, k: nat, rid: Rid, res: int)
    requires IsRun(p, r, frames, tokens, codes) && k + 1 < |r|
    requires AbstractRuns.Completes(Meaning(r[k]), Meaning(r[k + 1]), rid, res)
    ensures CompletesRequest(r[k], r[k + 1], rid, res)
  {
    hide CompletesRequest, Inv, Meaning, Step, Start, AbstractRuns.Completes;
    RunInv(p, r, frames, tokens, codes, k);
    RunInv(p, r, frames, tokens, codes, k + 1);
    assert Step(p, r[k], r[k + 1]);
    CompletesInMachine(p, r[k], r[k + 1], rid, res);
  }

  /** The same, told of the bags of tasks. */
  lemma OwnResultInBag(p: Program, r: seq<World>, frames: nat, tokens: nat, codes: seq<Code>, j: nat, t: Tid)
    returns (i: nat, k: nat, rid: Rid, kind: RequestKind, code: Code, res: int)
    requires IsRun(p, r, frames, tokens, codes) && j + 1 < |r|
    requires !AbstractRuns.IsRunning(Meaning(r[j]), t) && AbstractRuns.IsRunning(Meaning(r[j + 1]), t)
    requires t in Meaning(r[j]).tasks ==> !Meaning(r[j]).tasks[t].New?
    ensures i < k < j
    ensures AbstractRuns.IsRunning(Meaning(r[i]), t) && r[i].cpu == Task(code)
    ensures p.act(code).Request? && p.act(code).kind == kind
    ensures Meaning(r[i]).nextRid == rid && Meaning(r[i + 1]).nextRid == rid + 1
    ensures forall m :: i < m <= j ==> !AbstractRuns.IsRunning(Meaning(r[m]), t)
    ensures AbstractRuns.Completes(Meaning(r[k]), Meaning(r[k + 1]), rid, res)
    ensures r[j + 1].cpu == Task(p.resume(code, if kind == Wait then 0 else res))
  {
    hide Meaning, Step, Start, AbstractRuns.Completes;
    var s := MeaningOf(r);
    RunIsTrace(p, r, frames, tokens, codes);
    i, k, rid, kind, code, res := AbstractRuns.OwnResultOnTrace(p, s, j, t);
    forall m | i < m <= j
      ensures !AbstractRuns.IsRunning(Meaning(r[m]), t)
    {
      assert s[m] == Meaning(r[m]);
    }
    CodeOf(r[i]);
    CodeOf(r[j + 1]);
  }

  lemma RunMeaning(p: Program, r: seq<World>, frames: nat, tokens: nat, codes: seq<Code>, k: nat, t: Tid)
    requires IsRun(p, r, frames, tokens, codes) && k < |r|
    ensures RunsTask(r[k], t) <==> AbstractRuns.IsRunning(Meaning(r[k]), t)
    ensures Unstarted(r[k], t) <==> t in Meaning(r[k]).tasks && Meaning(r[k]).tasks[t].New?
    ensures Meaning(r[k]).nextRid == r[k].hist.nextRid
  {
    hide RunsTask, Unstarted, TasksOf, CpuOf;
    RunInv(p, r, frames, tokens, codes, k);
    RunsMeaning(r[k], t);
    NewIsUnstarted(r[k], t);
  }

  /** A running task in the bag runs the same code on the processor. */
  lemma CodeOf(w: World)
    ensures Meaning(w).cpu.Runs? ==> w.cpu == Task(Meaning(w).cpu.code)
  {
  }

  // ---- Quiescence ----

  function WaitingFrames(w: World): set<FrameId>
    requires WorldShape(w)
  {
    set f | f in Live(w.exec) && f < |w.exec.mem| && !w.exec.mem[f].ready
  }

  /** The frames that tokens in flight carry are distinct, live and waiting; every
      waiting task has one. */
  lemma WaitersMatchFlight(w: World)
    requires WorldShape(w) && PoolInv(w.ioc) && Links(w)
    ensures |WaitingFrames(w)| == w.ioc.capacity - w.ioc.tail
  {
    var flight := Flight(w.ioc.ring);
    var waiting := WaitingFrames(w);
    PoolFacts(w.ioc);
    DistinctSize(flight);
    var data := map t | t in Elements(flight) :: w.ioc.toks[t].data as nat;
    var ticket := map f | f in waiting :: w.hist.ticket[f];
    forall t | t in Elements(flight)
      ensures data[t] in waiting && ticket[data[t]] == t
    {
      assert TokenLink(w, t);
    }
    forall f | f in waiting
      ensures ticket[f] in Elements(flight) && data[ticket[f]] == f
    {
      assert FrameLink(w, f);
    }
    BijectionSize(Elements(flight), waiting, data, ticket);
  }

  /** Whenever the run loop checks for work, or is inside `process`, every live task is
      parked on exactly one request in flight; a blocking wait always has a request that
      the kernel holds or has completed. */
  lemma Quiescence(p: Program, r: seq<World>, frames: nat, tokens: nat, codes: seq<Code>, k: nat)
    requires IsRun(p, r, frames, tokens, codes) && k < |r|
    requires r[k].cpu.Main? && r[k].cpu.pc != Top
    ensures WorldShape(r[k])
    ensures forall f <- Live(r[k].exec) :: !r[k].exec.mem[f].ready && r[k].exec.mem[f].exe.Parked?
    ensures r[k].exec.size - 1 == r[k].ioc.capacity - r[k].ioc.tail == |Flight(r[k].ioc.ring)|
    ensures r[k].cpu == Main(Poll) || r[k].cpu == Main(Waiting) ==>
      |r[k].ioc.ring.pending| + |r[k].ioc.ring.cq| == r[k].exec.size - 1 >= 1
  {
    RunInv(p, r, frames, tokens, codes, k);
    IdleCounts(r[k]);
  }

  lemma IdleCounts(w: World)
    requires Inv(w) && w.cpu.Main? && w.cpu.pc != Top
    ensures forall f <- Live(w.exec) :: !w.exec.mem[f].ready && w.exec.mem[f].exe.Parked?
    ensures w.exec.size - 1 == w.ioc.capacity - w.ioc.tail == |Flight(w.ioc.ring)|
  {
    forall f | f in Live(w.exec)
      ensures !w.exec.mem[f].ready && w.exec.mem[f].exe.Parked?
    {
      var i :| 1 <= i < w.exec.size && w.exec.slots[i] == f;
      assert !ReadyAt(w.exec, i);
    }
    assert WaitingFrames(w) == Live(w.exec);
    LiveCount(w.exec);
    WaitersMatchFlight(w);
    PoolFacts(w.ioc);
  }

  // ---- Readiness and requests ----

  /** In every state a live task is not ready exactly when a token in flight carries its
      frame; that token is unique, and no token in flight carries the main frame or a
      frame outside the live ones. */
  lemma ReadinessBijection(p: Program, r: seq<World>, frames: nat, tokens: nat, codes: seq<Code>, k: nat)
    requires IsRun(p, r, frames, tokens, codes) && k < |r|
    ensures WorldShape(r[k])
    ensures NoDuplicates(Flight(r[k].ioc.ring))
    ensures forall t <- Flight(r[k].ioc.ring) :: r[k].ioc.toks[t].data in Live(r[k].exec) && r[k].ioc.toks[t].data != 0
    ensures forall t, u | t in Flight(r[k].ioc.ring) && u in Flight(r[k].ioc.ring) ::
      r[k].ioc.toks[t].data == r[k].ioc.toks[u].data ==> t == u
    ensures forall f <- Live(r[k].exec) ::
      !r[k].exec.mem[f].ready <==> exists t :: t in Flight(r[k].ioc.ring) && r[k].ioc.toks[t].data == f
  {
    RunInv(p, r, frames, tokens, codes, k);
    var w := r[k];
    PoolFacts(w.ioc);
    forall t | t in Flight(w.ioc.ring)
      ensures TokenLink(w, t)
    {
    }
    forall f | f in Live(w.exec)
      ensures FrameLink(w, f)
    {
    }
  }

  // ---- The scan ----

  /** While a task runs, it stands at the first ready slot; when the run loop has control
      after a switch, no task is ready. The position never passes the slot behind the
      last live one, and is there only while the run loop has control. */
  lemma ScanPosition(p: Program, r: seq<World>, frames: nat, tokens: nat, codes: seq<Code>, k: nat)
    requires IsRun(p, r, frames, tokens, codes) && k < |r|
    ensures WorldShape(r[k])
    ensures r[k].exec.current <= r[k].exec.size
    ensures r[k].exec.current == r[k].exec.size ==> r[k].cpu.Main?
    ensures r[k].cpu.Task? ==>
      && ReadyAt(r[k].exec, r[k].exec.current)
      && forall i :: 1 <= i < r[k].exec.current ==> !ReadyAt(r[k].exec, i)
    ensures r[k].cpu.Main? && r[k].cpu.pc != Top && r[k].cpu.pc != Failed ==>
      forall i :: 1 <= i < r[k].exec.size ==> !ReadyAt(r[k].exec, i)
  {
    RunInv(p, r, frames, tokens, codes, k);
  }

  // ---- Saved contexts ----

  /** No resumed context is stale, a task runs from a live slot, every other live task is
      saved in its own frame, and the run loop is saved in the main frame while any task
      runs. */
  lemma ContextIntegrity(p: Program, r: seq<World>, frames: nat, tokens: nat, codes: seq<Code>, k: nat)
    requires IsRun(p, r, frames, tokens, codes) && k < |r|
    ensures WorldShape(r[k]) && r[k].cpu != Crashed
    ensures r[k].exec.slots[0] == 0
    ensures r[k].cpu.Task? ==>
      && 1 <= r[k].exec.current < r[k].exec.size
      && r[k].exec.mem[0].exe == RunLoop
    ensures r[k].exec.current == r[k].exec.size ==> r[k].cpu.Main?
    ensures forall f <- Live(r[k].exec) :: !Runs(r[k], f) ==>
      r[k].exec.mem[f].exe.Fresh? || (r[k].exec.mem[f].exe.Parked? && r[k].exec.mem[f].exe.frame == f)
  {
    RunInv(p, r, frames, tokens, codes, k);
  }

  /** Once the run loop is saved in the main frame it stays there, although `run` also
      saves into other frames: those are outside the live ones. */
  lemma RunLoopStaysSaved(p: Program, w: World, l: Label)
    requires Inv(w) && Enabled(w, l) && w.exec.mem[0].exe == RunLoop
    ensures Apply(p, w, l).exec.mem[0].exe == RunLoop
  {
    if l.Go? && w.cpu.Task? {
      TaskKeepsMain(p, w);
    } else if l.Go? && w.cpu == Main(Waiting) {
      DeliverKeepsMain(w, 1);
    } else if l.Go? && w.cpu == Main(Poll) {
      DeliverKeepsMain(w, BatchCount(BATCH_SIZE, |w.ioc.ring.cq|));
    }
  }

  lemma TaskKeepsMain(p: Program, w: World)
    requires WorldShape(w) && WellFormed(w.exec) && w.cpu.Task? && OnFirstReady(w.exec)
    ensures StepTask(p, w).exec.mem[0].exe == w.exec.mem[0].exe
  {
    match p.act(w.cpu.code)
    case Spawn(child) => AsyncExecEffect(w.exec, child);
    case Request(kind, io) => SuspendEffect(w.exec, Parked(CurrentFrame(w.exec), kind, w.cpu.code));
    case End => FinishEffect(w.exec);
  }

  lemma DeliverKeepsMain(w: World, n: nat)
    requires Core(w) && w.cpu.Main? && Idle(w.exec) && n <= |w.ioc.ring.cq|
    ensures StepDeliver(w, n).exec.mem[0].exe == w.exec.mem[0].exe
  {
    var v := w.(cpu := Main(Top));
    IdleIsDelivering(w, Top);
    DeliverKeeps(v, n);
    assert StillOf(Deliver(v, n)).main == StillOf(v).main;
  }

  /** The frame array lists every allocated frame once, in every state. */
  lemma FramesPermuted(p: Program, r: seq<World>, frames: nat, tokens: nat, codes: seq<Code>, k: nat)
    requires IsRun(p, r, frames, tokens, codes) && k < |r|
    ensures multiset(r[k].exec.slots) == multiset(Iota(|r[k].exec.mem|))
  {
    RunInv(p, r, frames, tokens, codes, k);
    DistinctIsPermutation(r[k].exec.slots);
  }

  // ---- Spawn before resume ----

  /** When a task is switched to again after a suspension, all tasks it spawned so far
      have started. */
  lemma SpawnBeforeResume(p: Program, r: seq<World>, frames: nat, tokens: nat, codes: seq<Code>,
                          j: nat, t: Tid, child: Tid)
    requires IsRun(p, r, frames, tokens, codes) && j + 1 < |r|
    requires RunsTask(r[j + 1], t) && !RunsTask(r[j], t) && !Unstarted(r[j], t)
    requires child in r[j].hist.parent && r[j].hist.parent[child] == t
    ensures !Unstarted(r[j], child)
  {
    hide RunsTask, Unstarted, Meaning;
    RunInv(p, r, frames, tokens, codes, j);
    RunRefines(p, r, frames, tokens, codes, j);
    RunMeaning(p, r, frames, tokens, codes, j, t);
    RunMeaning(p, r, frames, tokens, codes, j, child);
    RunMeaning(p, r, frames, tokens, codes, j + 1, t);
    AbstractRuns.RunsFromBag(p, Meaning(r[j]), Meaning(r[j + 1]), t);
    BagIsTasks(r[j]);
    ResumableParent(r[j], t, child);
  }

  lemma BagIsTasks(w: World)
    requires WorldShape(w) && Names(w)
    ensures Meaning(w).tasks == TasksOf(w)
  {
  }

  lemma ResumableParent(w: World, t: Tid, child: Tid)
    requires Inv(w) && t in TasksOf(w) && TasksOf(w)[t].Done?
    requires child in w.hist.parent && w.hist.parent[child] == t
    ensures child in TasksOf(w) ==> !TasksOf(w)[child].New?
  {
    var f := w.hist.home[t];
    assert f in Live(w.exec) && w.exec.mem[f].ready && !Runs(w, f);
    forall g | g in Live(w.exec) && !Runs(w, g) && w.exec.mem[g].exe.Fresh?
      ensures w.hist.parent[w.hist.owner[g]] != t
    {
    }
  }

  // ---- Tokens and callbacks ----

  /** In every state the pool and the ring together hold every token once, a request that
      got a token finds a free submission entry, and neither queue outgrows the ring. */
  lemma TokensConserved(p: Program, r: seq<World>, frames: nat, tokens: nat, codes: seq<Code>, k: nat)
    requires IsRun(p, r, frames, tokens, codes) && k < |r|
    ensures WorldShape(r[k])
    ensures multiset(r[k].ioc.avail[..r[k].ioc.tail] + Flight(r[k].ioc.ring)) == multiset(Iota(r[k].ioc.capacity))
    ensures r[k].ioc.tail > 0 ==> |r[k].ioc.ring.sq| < r[k].ioc.ring.entries
    ensures |r[k].ioc.ring.pending| + |r[k].ioc.ring.cq| <= r[k].ioc.capacity
    ensures r[k].ioc.ring.cq != [] ==> r[k].ioc.tail < r[k].ioc.capacity
  {
    RunInv(p, r, frames, tokens, codes, k);
    PoolFacts(r[k].ioc);
  }

  /** In every state each request made so far either had its callback run, once, or is in
      flight, once. */
  lemma ExactlyOneCallback(p: Program, r: seq<World>, frames: nat, tokens: nat, codes: seq<Code>, k: nat)
    requires IsRun(p, r, frames, tokens, codes) && k < |r|
    ensures WorldShape(r[k])
    ensures NoDuplicates(r[k].hist.fired)
    ensures forall rid: Rid | rid < r[k].hist.nextRid ::
      (rid in r[k].hist.fired) != (rid in FlightRids(r[k]))
    ensures r[k].cpu == Main(Exited) ==> multiset(r[k].hist.fired) == multiset(Iota(r[k].hist.nextRid))
  {
    RunInv(p, r, frames, tokens, codes, k);
    var w := r[k];
    var fired, flying := w.hist.fired, FlightRids(w);
    var all := fired + flying;
    PermutationFacts(all, w.hist.nextRid);
    forall i, j | 0 <= i < j < |fired|
      ensures fired[i] != fired[j]
    {
      assert all[i] != all[j];
    }
    forall rid: Rid | rid < w.hist.nextRid
      ensures (rid in fired) != (rid in flying)
    {
      assert rid in all;
      if i :| 0 <= i < |fired| && fired[i] == rid {
        forall j | 0 <= j < |flying|
          ensures flying[j] != rid
        {
          assert all[i] != all[|fired| + j];
        }
      }
    }
    if w.cpu == Main(Exited) {
      IdleCounts(w);
      assert flying == [];
      assert all == fired;
    }
  }
}
