/** The frames, tokens and saved contexts implement the bag of tasks. */
module Refinement {
  import opened Types
  import opened Collections
  import opened Scheduler
  import opened Requests
  import opened Machine
  import opened Invariant
  import opened RunLoopInvariant
  import A = AbstractLoop

  /** What a saved frame means: its context, and its result once it is ready. */
  function StateOf(x: Frame, rid: Rid): A.TaskState {
    match x.exe
    case Fresh(start) => A.New(start)
    case Parked(_, kind, code) =>
      if x.ready then A.Done(rid, kind, code, ReturnValue(kind, x.result)) else A.Blocked(rid, kind, code)
    case _ => A.New(0)
  }

  function TasksOf(w: World): map<Tid, A.TaskState>
    requires WorldShape(w) && Names(w)
  {
    map t | t in w.hist.home && !Runs(w, w.hist.home[t]) ::
      StateOf(w.exec.mem[w.hist.home[t]], w.hist.serial[w.hist.home[t]])
  }

  function CpuOf(w: World): A.AbsCpu
    requires WorldShape(w)
  {
    match w.cpu
    case Task(code) => A.Runs(w.hist.owner[CurrentFrame(w.exec)], code)
    case Main(pc) => A.MainAt(pc)
    case _ => A.Between
  }

  function RidsOf(carries: seq<Rid>, s: seq<Sqe>): (r: seq<Rid>)
    requires forall i :: 0 <= i < |s| ==> s[i].user < |carries|
    ensures |r| == |s| && forall i :: 0 <= i < |s| ==> r[i] == carries[s[i].user]
  {
    seq(|s|, i requires 0 <= i < |s| => carries[s[i].user])
  }

  function PostedOf(carries: seq<Rid>, s: seq<Cqe>): (r: seq<A.Completion>)
    requires forall i :: 0 <= i < |s| ==> s[i].user < |carries|
    ensures |r| == |s| && forall i :: 0 <= i < |s| ==> r[i] == A.Completion(carries[s[i].user], s[i].res)
  {
    seq(|s|, i requires 0 <= i < |s| => A.Completion(carries[s[i].user], s[i].res))
  }

  lemma UsersBounded(r: Ring, n: nat)
    requires forall t <- Flight(r) :: t < n
    ensures forall i :: 0 <= i < |r.sq| ==> r.sq[i].user < n && r.sq[i].user in Flight(r)
    ensures forall i :: 0 <= i < |r.pending| ==> r.pending[i].user < n && r.pending[i].user in Flight(r)
    ensures forall i :: 0 <= i < |r.cq| ==> r.cq[i].user < n && r.cq[i].user in Flight(r)
  {
    var all, a, p, q := Flight(r), CqUsers(r.cq), SqUsers(r.pending), SqUsers(r.sq);
    assert forall i :: 0 <= i < |all| ==> all[i] in all;
    assert forall i :: 0 <= i < |a| ==> a[i] == all[i];
    assert forall i :: 0 <= i < |p| ==> p[i] == all[|a| + i];
    assert forall i :: 0 <= i < |q| ==> q[i] == all[|a| + |p| + i];
  }

  /** The bag of tasks that a state of the machine stands for. */
  function AbsOf(w: World): A.Abs
    requires WorldShape(w) && Names(w)
  {
    UsersBounded(w.ioc.ring, |w.hist.carries|);
    A.Abs(|w.exec.slots|, w.ioc.capacity, TasksOf(w), CpuOf(w), w.hist.nextTid, w.hist.nextRid,
          RidsOf(w.hist.carries, w.ioc.ring.sq),
          RidsOf(w.hist.carries, w.ioc.ring.pending),
          PostedOf(w.hist.carries, w.ioc.ring.cq))
  }

  // ---- Switches ----

  lemma LoadRunLoopRefines(p: Program, s: World)
    requires WorldShape(s) && Names(s) && Contexts(s) && s.cpu == Switching
    requires s.exec.mem[0].exe == RunLoop && Idle(s.exec)
    ensures var w := Resume(p, s, 0);
      WorldShape(w) && Names(w) && A.Switched(p, AbsOf(s), AbsOf(w))
  {
    var w := Resume(p, s, 0);
    var a := AbsOf(s);
    assert TasksOf(w) == TasksOf(s);
    assert AbsOf(w) == a.(cpu := A.MainAt(Check));
    forall t
      ensures !A.Runnable(a, t)
    {
      if t in a.tasks {
        var i :| 1 <= i < s.exec.size && s.exec.slots[i] == s.hist.home[t];
        assert !ReadyAt(s.exec, i);
      }
    }
  }

  lemma LoadTaskTasks(s: World, w: World, f: FrameId)
    requires WorldShape(s) && Names(s) && WorldShape(w) && Names(w) && !s.cpu.Task?
    requires f in Live(s.exec) && w.exec == s.exec && w.cpu.Task? && f == CurrentFrame(w.exec)
    requires w.hist == s.hist.(ran := w.hist.ran)
    ensures TasksOf(w) == TasksOf(s) - {s.hist.owner[f]}
  {
  }

  lemma LoadTaskRefines(p: Program, s: World, f: FrameId)
    requires WorldShape(s) && Names(s) && Contexts(s) && s.cpu == Switching
    requires f == CurrentFrame(s.exec) && OnFirstReady(s.exec)
    ensures var w := Resume(p, s, f);
      WorldShape(w) && Names(w) && A.Switched(p, AbsOf(s), AbsOf(w))
  {
    assert f in Live(s.exec);
    var w := Resume(p, s, f);
    var t := s.hist.owner[f];
    var a := AbsOf(s);
    assert s.hist.home[t] == f;
    assert a.tasks[t] == StateOf(s.exec.mem[f], s.hist.serial[f]);
    assert A.Runnable(a, t);
    LoadTaskTasks(s, w, f);
    assert AbsOf(w) == a.(tasks := a.tasks - {t}, cpu := A.Runs(t, A.Continue(p, a.tasks[t])));
  }

  lemma SwitchRefines(p: Program, s: World, f: FrameId)
    requires Core(s) && s.cpu == Switching
    requires s.exec.mem[0].exe == RunLoop
    requires (f == 0 && Idle(s.exec)) || (f == CurrentFrame(s.exec) && OnFirstReady(s.exec))
    ensures var w := Resume(p, s, f);
      WorldShape(w) && Names(w) && A.Switched(p, AbsOf(s), AbsOf(w))
  {
    if f == 0 {
      assert !OnFirstReady(s.exec);
      LoadRunLoopRefines(p, s);
    } else {
      LoadTaskRefines(p, s, f);
    }
  }

  // ---- Requests, ends and spawns ----

  lemma SaveRequestTasks(w: World, code: Code, kind: RequestKind, io: Operands, s: World)
    requires WorldShape(w) && Names(w) && WorldShape(s) && Names(s)
    requires w.cpu == Task(code) && w.ioc.tail != 0
    requires CurrentFrame(w.exec) in Live(w.exec)
    requires RequestSaved(w, code, kind, io, s)
    ensures TasksOf(s) == TasksOf(w)[w.hist.owner[CurrentFrame(w.exec)] := A.Blocked(w.hist.nextRid, kind, code)]
  {
  }

  lemma SaveRequestRing(r: Ring, r': Ring, e: Sqe, carries: seq<Rid>, rid: Rid)
    requires forall t <- Flight(r) :: t < |carries|
    requires e.user < |carries| && e.user !in Flight(r)
    requires r' == r.(sq := r.sq + [e])
    ensures var c' := carries[e.user := rid];
      && (forall i :: 0 <= i < |r.sq| ==> r.sq[i].user < |carries|)
      && (forall i :: 0 <= i < |r.pending| ==> r.pending[i].user < |carries|)
      && (forall i :: 0 <= i < |r.cq| ==> r.cq[i].user < |carries|)
      && RidsOf(c', r'.sq) == RidsOf(carries, r.sq) + [rid]
      && RidsOf(c', r'.pending) == RidsOf(carries, r.pending)
      && PostedOf(c', r'.cq) == PostedOf(carries, r.cq)
  {
    UsersBounded(r, |carries|);
  }

  lemma SaveRequestRefines(w: World, code: Code, kind: RequestKind, io: Operands, s: World)
    requires WorldShape(w) && Names(w) && WorldShape(s) && Names(s)
    requires w.cpu == Task(code) && w.ioc.tail != 0
    requires CurrentFrame(w.exec) in Live(w.exec)
    requires RequestSaved(w, code, kind, io, s)
    requires |s.exec.slots| == |w.exec.slots| && s.ioc.capacity == w.ioc.capacity
    requires s.ioc.ring == w.ioc.ring.(sq := w.ioc.ring.sq + [Sqe(kind, io, w.ioc.avail[w.ioc.tail - 1])])
    ensures AbsOf(s) == A.Block(AbsOf(w), kind)
  {
    SaveRequestTasks(w, code, kind, io, s);
    SaveRequestRing(w.ioc.ring, s.ioc.ring, s.ioc.ring.sq[|s.ioc.ring.sq| - 1], w.hist.carries, w.hist.nextRid);
  }

  lemma RemoveRefines(w: World, s: World)
    requires WorldShape(w) && Names(w) && WorldShape(s) && Names(s) && w.cpu.Task?
    requires CurrentFrame(w.exec) in Live(w.exec)
    requires Removed(w, s) && |s.exec.slots| == |w.exec.slots|
    ensures AbsOf(s) == AbsOf(w).(cpu := A.Between)
  {
    assert TasksOf(s) == TasksOf(w);
  }

  lemma SpawnTasks(w: World, child: Code, s: World)
    requires WorldShape(w) && Names(w) && WorldShape(s) && Names(s)
    requires w.cpu.Task? && w.exec.size < |w.exec.slots|
    requires CurrentFrame(w.exec) in Live(w.exec)
    requires Spawned(w, child, w.hist.owner[CurrentFrame(w.exec)], s)
    ensures TasksOf(s) == TasksOf(w)[w.hist.nextTid := A.New(child)]
  {
  }

  /** Every live frame carries one numbered task. */
  lemma TaskCount(w: World)
    requires WorldShape(w) && WellFormed(w.exec) && Names(w)
    ensures |w.hist.home| == w.exec.size - 1
  {
    LiveCount(w.exec);
    var g := map f | f in Live(w.exec) :: w.hist.owner[f];
    BijectionSize(w.hist.home.Keys, Live(w.exec), w.hist.home, g);
  }

  lemma IdleTaskCount(w: World)
    requires WorldShape(w) && WellFormed(w.exec) && Names(w)
    requires w.cpu.Task? ==> CurrentFrame(w.exec) in Live(w.exec)
    ensures |TasksOf(w)| == w.exec.size - if w.cpu.Task? then 2 else 1
  {
    TaskCount(w);
    if w.cpu.Task? {
      assert TasksOf(w).Keys == w.hist.home.Keys - {w.hist.owner[CurrentFrame(w.exec)]};
    } else {
      assert TasksOf(w).Keys == w.hist.home.Keys;
    }
  }

  lemma InFlightCount(w: World)
    requires WorldShape(w) && Names(w) && PoolInv(w.ioc)
    ensures A.InFlight(AbsOf(w)) == w.ioc.capacity - w.ioc.tail
  {
    PoolFacts(w.ioc);
  }

  /** Steps that leave the saved tasks alone leave their meaning alone. */
  lemma SameTasksOf(w: World, w': World)
    requires WorldShape(w) && Names(w) && WorldShape(w') && Names(w')
    requires w'.hist.home == w.hist.home && w'.hist.serial == w.hist.serial
    requires w.cpu.Task? == w'.cpu.Task?
    requires w.cpu.Task? ==> CurrentFrame(w'.exec) == CurrentFrame(w.exec)
    requires Live(w'.exec) == Live(w.exec) && |w'.exec.mem| == |w.exec.mem|
    requires forall f <- Live(w.exec) :: w'.exec.mem[f] == w.exec.mem[f]
    ensures TasksOf(w') == TasksOf(w)
  {
  }

  lemma SpawnSucceeds(p: Program, w: World, code: Code, child: Code)
    requires WorldShape(w) && WellFormed(w.exec) && Names(w) && Contexts(w) && w.cpu == Task(code)
    requires CurrentFrame(w.exec) in Live(w.exec) && w.exec.size < |w.exec.slots|
    ensures var w' := StepSpawn(p, w, code, child);
      && WorldShape(w') && Names(w')
      && TasksOf(w') == TasksOf(w)[w.hist.nextTid := A.New(child)]
      && CpuOf(w') == A.Runs(w.hist.owner[CurrentFrame(w.exec)], p.resume(code, 0))
  {
    var w' := StepSpawn(p, w, code, child);
    AsyncExecEffect(w.exec, child);
    assert forall f :: Runs(w, f) <==> Runs(w', f);
    SpawnedNames(w, child, w.hist.owner[CurrentFrame(w.exec)], w');
    SpawnTasks(w, child, w');
  }

  lemma SpawnFails(p: Program, w: World, code: Code, child: Code)
    requires WorldShape(w) && Names(w) && w.cpu == Task(code) && w.exec.size == |w.exec.slots|
    ensures var w' := StepSpawn(p, w, code, child);
      && WorldShape(w') && Names(w')
      && AbsOf(w') == AbsOf(w).(cpu := A.Runs(w.hist.owner[CurrentFrame(w.exec)], p.resume(code, -1)))
  {
    SameTasksOf(w, StepSpawn(p, w, code, child));
  }

  lemma SpawnRefines(p: Program, w: World, code: Code, child: Code)
    requires WorldShape(w) && WellFormed(w.exec) && Names(w) && Contexts(w) && w.cpu == Task(code)
    ensures var w' := StepSpawn(p, w, code, child);
      WorldShape(w') && Names(w') && AbsOf(w') == A.Spawn(p, AbsOf(w), child)
  {
    hide Names, Contexts, TasksOf;
    assert CurrentFrame(w.exec) in Live(w.exec);
    IdleTaskCount(w);
    if w.exec.size < |w.exec.slots| {
      SpawnSucceeds(p, w, code, child);
    } else {
      SpawnFails(p, w, code, child);
    }
  }

  lemma RequestFailRefines(p: Program, w: World, code: Code, kind: RequestKind, io: Operands)
    requires WorldShape(w) && Names(w) && PoolInv(w.ioc)
    requires w.cpu == Task(code) && p.act(code) == Request(kind, io) && w.ioc.tail == 0
    ensures var w' := StepRequest(p, w, code, kind, io);
      WorldShape(w') && Names(w') && A.TaskStep(p, AbsOf(w), AbsOf(w'))
  {
    InFlightCount(w);
    RequestEffect(w.ioc, kind, io, CurrentFrame(w.exec));
    var w' := StepRequest(p, w, code, kind, io);
    SameTasksOf(w, w');
  }

  lemma SaveRequestMeans(w: World, code: Code, kind: RequestKind, io: Operands)
    requires WorldShape(w) && PoolInv(w.ioc) && Names(w) && w.cpu == Task(code) && w.ioc.tail != 0
    requires CurrentFrame(w.exec) in Live(w.exec)
    requires var s := SaveRequest(w, code, kind, io); WorldShape(s) && Names(s) && RequestSaved(w, code, kind, io, s)
    ensures AbsOf(SaveRequest(w, code, kind, io)) == A.Block(AbsOf(w), kind)
  {
    RequestEffect(w.ioc, kind, io, CurrentFrame(w.exec));
    SaveRequestRefines(w, code, kind, io, SaveRequest(w, code, kind, io));
  }

  lemma RequestSwitch(w: World, code: Code, kind: RequestKind, io: Operands)
    requires Inv(w) && w.cpu == Task(code) && w.ioc.tail != 0
    ensures var s := SaveRequest(w, code, kind, io);
      && Core(s) && s.exec.mem[0].exe == RunLoop
      && ((CurrentFrame(s.exec) == 0 && Idle(s.exec)) || OnFirstReady(s.exec))
      && AbsOf(s) == A.Block(AbsOf(w), kind)
  {
    assert CurrentFrame(w.exec) in Live(w.exec);
    var s := SaveRequest(w, code, kind, io);
    SaveRequestSaves(w, code, kind, io);
    RequestKeepsCore(w, code, kind, io, s);
    SaveRequestMeans(w, code, kind, io);
  }

  lemma RequestRefines(p: Program, w: World, code: Code, kind: RequestKind, io: Operands)
    requires Inv(w) && w.cpu == Task(code) && p.act(code) == Request(kind, io)
    ensures var w' := StepRequest(p, w, code, kind, io);
      WorldShape(w') && Names(w') && A.TaskStep(p, AbsOf(w), AbsOf(w'))
  {
    if w.ioc.tail == 0 {
      RequestFailRefines(p, w, code, kind, io);
    } else {
      var s := SaveRequest(w, code, kind, io);
      RequestSwitch(w, code, kind, io);
      SwitchRefines(p, s, CurrentFrame(s.exec));
      RequestLoads(p, w, code, kind, io);
    }
  }

  lemma RequestLoads(p: Program, w: World, code: Code, kind: RequestKind, io: Operands)
    requires WorldShape(w) && PoolInv(w.ioc) && Names(w)
    requires w.cpu == Task(code) && p.act(code) == Request(kind, io) && w.ioc.tail != 0
    ensures var s := SaveRequest(w, code, kind, io);
      StepRequest(p, w, code, kind, io) == Resume(p, s, CurrentFrame(s.exec))
    ensures A.InFlight(AbsOf(w)) < AbsOf(w).maxRequests
  {
    InFlightCount(w);
    RequestEffect(w.ioc, kind, io, CurrentFrame(w.exec));
  }

  lemma EndRefines(p: Program, w: World)
    requires Inv(w) && w.cpu.Task? && p.act(w.cpu.code) == End
    ensures var w' := StepEnd(p, w);
      WorldShape(w') && Names(w') && A.TaskStep(p, AbsOf(w), AbsOf(w'))
  {
    assert CurrentFrame(w.exec) in Live(w.exec);
    var s := RemoveTask(w);
    FinishEffect(w.exec);
    RemovedKeepsCore(w, s);
    RemoveRefines(w, s);
    match Finish(w.exec).1
    case ReturnToLink => SwitchRefines(p, s, 0);
    case SwitchTo(next) => SwitchRefines(p, s, next);
  }

  // ---- Steps of the main context ----

  lemma StayRefines(w: World)
    requires WorldShape(w) && Names(w) && w.cpu == Main(Top)
    requires WellFormed(w.exec) && CurrentFrame(w.exec) !in Live(w.exec)
    ensures var s := SaveRunLoop(w);
      var w' := w.(exec := Advance(w.exec), cpu := Main(Check));
      && WorldShape(s) && Names(s) && WorldShape(w') && Names(w')
      && AbsOf(s) == AbsOf(w).(cpu := A.Between)
      && AbsOf(w') == AbsOf(w).(cpu := A.MainAt(Check))
  {
    var s := SaveRunLoop(w);
    var w' := w.(exec := Advance(w.exec), cpu := Main(Check));
    assert Live(Advance(w.exec)) == Live(w.exec);
    assert Live(s.exec) == Live(w.exec);
    SameTasksOf(w, s);
    SameTasksOf(w, w');
  }

  lemma TopRefines(p: Program, w: World)
    requires Inv(w) && w.cpu == Main(Top)
    ensures var w' := StepTop(p, w);
      WorldShape(w') && Names(w') && A.Switched(p, AbsOf(w), AbsOf(w'))
  {
    var s := SaveRunLoop(w);
    SaveRunLoopEffect(w);
    StayRefines(w);
    SwitchRefines(p, s, CurrentFrame(s.exec));
    SwitchedFromMain(p, AbsOf(w), AbsOf(s), AbsOf(Resume(p, s, CurrentFrame(s.exec))));
    if CurrentFrame(s.exec) == CurrentFrame(w.exec) {
      assert CurrentFrame(s.exec) !in Live(s.exec);
      assert AbsOf(Resume(p, s, 0)) == AbsOf(StepTop(p, w));
    }
  }

  lemma SwitchedFromMain(p: Program, a: A.Abs, b: A.Abs, c: A.Abs)
    requires b == a.(cpu := A.Between) && A.Switched(p, b, c)
    ensures A.Switched(p, a, c)
  {
    if t :| A.Runnable(b, t) && c == b.(tasks := b.tasks - {t}, cpu := A.Runs(t, A.Continue(p, b.tasks[t]))) {
      assert A.Runnable(a, t);
    } else {
      assert forall t :: A.Runnable(a, t) <==> A.Runnable(b, t);
    }
  }

  lemma CheckSubmits(w: World)
    requires WorldShape(w) && Names(w) && w.cpu == Main(Check) && w.exec.size > 1
    ensures var w' := StepCheck(w);
      && WorldShape(w') && Names(w')
      && AbsOf(w') == AbsOf(w).(pending := AbsOf(w).pending + AbsOf(w).queued, queued := [], cpu := A.MainAt(Poll))
  {
    SubmitEffect(w.ioc.ring);
    SameTasksOf(w, StepCheck(w));
  }

  lemma CheckRefines(w: World)
    requires WorldShape(w) && WellFormed(w.exec) && Names(w) && w.cpu == Main(Check)
    ensures var w' := StepCheck(w);
      && WorldShape(w') && Names(w')
      && var a, b := AbsOf(w), AbsOf(w');
        if a.tasks == map[] then b == a.(cpu := A.MainAt(Exited))
        else b == a.(pending := a.pending + a.queued, queued := [], cpu := A.MainAt(Poll))
  {
    IdleTaskCount(w);
    assert |TasksOf(w)| == 0 <==> TasksOf(w) == map[];
    if w.exec.size > 1 {
      CheckSubmits(w);
    } else {
      SameTasksOf(w, StepCheck(w));
    }
  }

  lemma CompleteRefines(w: World, i: nat, res: int)
    requires WorldShape(w) && Names(w) && i < |w.ioc.ring.pending|
    requires WorldShape(w.(ioc := w.ioc.(ring := CompleteAt(w.ioc.ring, i, res))))
    ensures var w' := w.(ioc := w.ioc.(ring := CompleteAt(w.ioc.ring, i, res)));
      Names(w') && A.KernelStep(AbsOf(w), AbsOf(w'), i, res)
  {
    var w' := w.(ioc := w.ioc.(ring := CompleteAt(w.ioc.ring, i, res)));
    SameTasksOf(w, w');
    var a, b := AbsOf(w), AbsOf(w');
    assert b.pending == a.pending[..i] + a.pending[i + 1..];
    assert b.posted == a.posted + [A.Completion(a.pending[i], res)];
  }

  // ---- Delivery ----

  /** Only one waiting task has the request number of a token in flight. */
  lemma OneWaiter(w: World, t: TokenId, g: FrameId)
    requires WorldShape(w) && Links(w) && Serials(w) && t in Flight(w.ioc.ring)
    requires g in Live(w.exec) && !w.exec.mem[g].ready
    requires w.hist.serial[g] == w.hist.carries[t]
    ensures g == w.ioc.toks[t].data
  {
    var u := w.hist.ticket[g];
    assert FrameLink(w, g) && TokenLink(w, u);
    var flight := Flight(w.ioc.ring);
    var i :| 0 <= i < |flight| && flight[i] == t;
    var j :| 0 <= j < |flight| && flight[j] == u;
    PermutationFacts(w.hist.fired + FlightRids(w), w.hist.nextRid);
    var all := w.hist.fired + FlightRids(w);
    assert all[|w.hist.fired| + i] == all[|w.hist.fired| + j];
  }

  /** The other waiting tasks made other requests. */
  lemma OthersAskedElse(w: World, t: TokenId)
    requires WorldShape(w) && Names(w) && Links(w) && Serials(w) && t in Flight(w.ioc.ring)
    ensures forall u <- w.hist.home ::
      w.hist.home[u] != w.ioc.toks[t].data && !w.exec.mem[w.hist.home[u]].ready ==>
      w.hist.serial[w.hist.home[u]] != w.hist.carries[t]
  {
    forall u | u in w.hist.home && !w.exec.mem[w.hist.home[u]].ready
      && w.hist.serial[w.hist.home[u]] == w.hist.carries[t]
      ensures w.hist.home[u] == w.ioc.toks[t].data
    {
      OneWaiter(w, t, w.hist.home[u]);
    }
  }

  /** What a delivery makes of one task. */
  function Handed(s: A.TaskState, c: A.Completion): A.TaskState {
    if s.Blocked? && s.rid == c.rid then A.Done(s.rid, s.kind, s.code, ReturnValue(s.kind, c.res)) else s
  }

  lemma HandedOne(w: World, w': World, c: A.Completion, f: FrameId)
    requires WorldShape(w) && w.ioc.ring.cq != [] && Delivered(w, w')
    requires f in Live(w.exec) && w.exec.mem[f].exe.Parked?
    requires c == A.Completion(w.hist.carries[w.ioc.ring.cq[0].user], w.ioc.ring.cq[0].res)
    requires f != w.ioc.toks[w.ioc.ring.cq[0].user].data && !w.exec.mem[f].ready ==> w.hist.serial[f] != c.rid
    ensures StateOf(w'.exec.mem[f], w'.hist.serial[f]) == Handed(StateOf(w.exec.mem[f], w.hist.serial[f]), c)
  {
  }

  lemma DeliveredHand(w: World, w': World, c: A.Completion)
    requires WorldShape(w) && WorldShape(w') && Names(w) && Names(w')
    requires w.ioc.ring.cq != [] && !w.cpu.Task? && Delivered(w, w')
    requires forall f <- Live(w.exec) :: w.exec.mem[f].exe.Parked?
    requires c == A.Completion(w.hist.carries[w.ioc.ring.cq[0].user], w.ioc.ring.cq[0].res)
    requires forall u <- w.hist.home ::
      w.hist.home[u] != w.ioc.toks[w.ioc.ring.cq[0].user].data && !w.exec.mem[w.hist.home[u]].ready ==>
      w.hist.serial[w.hist.home[u]] != c.rid
    ensures TasksOf(w') == A.Hand(TasksOf(w), c)
  {
    hide StateOf;
    var tasks, tasks' := A.Hand(TasksOf(w), c), TasksOf(w');
    assert tasks.Keys == tasks'.Keys;
    forall t | t in tasks
      ensures tasks'[t] == tasks[t]
    {
      HandedOne(w, w', c, w.hist.home[t]);
    }
  }

  lemma DeliverOneHand(u: World, c: A.Completion)
    requires Delivering(u) && u.ioc.ring.cq != []
    requires u.ioc.ring.cq[0].user < |u.hist.carries|
    requires c == A.Completion(u.hist.carries[u.ioc.ring.cq[0].user], u.ioc.ring.cq[0].res)
    ensures WorldShape(DeliverOne(u)) && Names(DeliverOne(u))
    ensures TasksOf(DeliverOne(u)) == A.Hand(TasksOf(u), c)
  {
    DeliverOneDelivers(u);
    DeliveredTasks(u, DeliverOne(u));
    OthersAskedElse(u, u.ioc.ring.cq[0].user);
    DeliveredHand(u, DeliverOne(u), c);
  }

  /** Every state between two callbacks of one `process`. */
  ghost predicate Clean(v: World, n: nat)
    requires WorldShape(v) && n <= |v.ioc.ring.cq| && !v.cpu.Task? && v.exec.mem != []
  {
    forall k: nat :: k <= n ==>
      && Delivering(Deliver(v, k))
      && Deliver(v, k).exec.mem != [] && StillOf(Deliver(v, k)) == StillOf(v)
  }

  lemma DeliverHandsStep(v: World, n: nat, posted: seq<A.Completion>)
    requires WorldShape(v) && Names(v) && !v.cpu.Task? && v.exec.mem != [] && n < |v.ioc.ring.cq|
    requires Clean(v, n)
    requires posted == AbsOf(v).posted
    ensures WorldShape(Deliver(v, n)) && Names(Deliver(v, n))
    ensures WorldShape(DeliverOne(Deliver(v, n))) && Names(DeliverOne(Deliver(v, n)))
    ensures TasksOf(DeliverOne(Deliver(v, n))) == A.Hand(TasksOf(Deliver(v, n)), posted[n])
  {
    var u := Deliver(v, n);
    assert Delivering(u) && StillOf(u) == StillOf(v);
    assert StillOf(v).hist == v.hist.(fired := []) && StillOf(u).hist == u.hist.(fired := []);
    UsersBounded(v.ioc.ring, |v.hist.carries|);
    DeliverOneHand(u, posted[n]);
  }

  lemma {:induction false} DeliverHands(v: World, n: nat, posted: seq<A.Completion>)
    requires WorldShape(v) && Names(v) && !v.cpu.Task? && v.exec.mem != [] && n <= |v.ioc.ring.cq|
    requires Clean(v, n)
    requires posted == AbsOf(v).posted
    ensures WorldShape(Deliver(v, n)) && Names(Deliver(v, n))
    ensures TasksOf(Deliver(v, n)) == A.HandAll(TasksOf(v), posted, n)
  {
    hide WorldShape, Names, DeliverOne, StillOf, Delivering, TasksOf, AbsOf, A.Hand;
    if n > 0 {
      DeliverHands(v, n - 1, posted);
      DeliverHandsStep(v, n - 1, posted);
    }
  }

  lemma DeliverRefines(w: World, n: nat)
    requires Core(w) && w.cpu.Main? && Idle(w.exec) && n <= |w.ioc.ring.cq|
    ensures var w' := StepDeliver(w, n);
      WorldShape(w') && Names(w') && AbsOf(w') == A.Receive(AbsOf(w), n)
  {
    var v := w.(cpu := Main(Top));
    IdleIsDelivering(w, Top);
    forall k: nat | k <= n
      ensures Delivering(Deliver(v, k))
      ensures Deliver(v, k).exec.mem != [] && StillOf(Deliver(v, k)) == StillOf(v)
    {
      DeliverKeeps(v, k);
    }
    DeliverHands(v, n, AbsOf(v).posted);
    ReceiveParts(w, v, n, AbsOf(v).posted);
  }

  lemma ReceiveParts(w: World, v: World, n: nat, posted: seq<A.Completion>)
    requires WorldShape(w) && Names(w) && w.cpu.Main? && v == w.(cpu := Main(Top))
    requires WorldShape(v) && Names(v)
    requires n <= |w.ioc.ring.cq| && posted == AbsOf(w).posted
    requires WorldShape(Deliver(v, n)) && Names(Deliver(v, n))
    requires v.exec.mem != [] && Deliver(v, n).exec.mem != [] && StillOf(Deliver(v, n)) == StillOf(v)
    requires TasksOf(Deliver(v, n)) == A.HandAll(TasksOf(v), posted, n)
    ensures var w' := StepDeliver(w, n);
      WorldShape(w') && Names(w') && AbsOf(w') == A.Receive(AbsOf(w), n)
  {
    var d, w' := Deliver(v, n), StepDeliver(w, n);
    assert d.hist.(fired := []) == v.hist.(fired := []);
    SameTasksOf(w, v);
    SameTasksOf(d, w');
    assert AbsOf(w').posted == AbsOf(w).posted[n..];
  }

  // ---- Every step, every run ----

  lemma MainRefines(p: Program, w: World)
    requires Inv(w) && w.cpu.Main? && Enabled(w, Go)
    ensures var w' := Apply(p, w, Go);
      WorldShape(w') && Names(w') && A.MainStep(p, AbsOf(w), AbsOf(w'))
  {
    hide StepDeliver;
    match w.cpu.pc
    case Top => TopRefines(p, w);
    case Check => CheckRefines(w);
    case Poll =>
      if w.ioc.ring.cq == [] {
        SameTasksOf(w, Apply(p, w, Go));
      } else {
        DeliverRefines(w, BatchCount(BATCH_SIZE, |w.ioc.ring.cq|));
      }
    case Waiting => DeliverRefines(w, 1);
  }

  lemma TaskRefines(p: Program, w: World)
    requires Inv(w) && w.cpu.Task?
    ensures var w' := StepTask(p, w);
      WorldShape(w') && Names(w') && A.TaskStep(p, AbsOf(w), AbsOf(w'))
  {
    match p.act(w.cpu.code)
    case Spawn(child) => SpawnRefines(p, w, w.cpu.code, child);
    case Request(kind, io) => RequestRefines(p, w, w.cpu.code, kind, io);
    case End => EndRefines(p, w);
  }

  /** Each step of the machine is a step of the bag of tasks. */
  lemma StepRefines(p: Program, w: World, l: Label)
    requires Inv(w) && Enabled(w, l)
    ensures var w' := Apply(p, w, l);
      WorldShape(w') && Names(w') && A.AbsStep(p, AbsOf(w), AbsOf(w'))
  {
    match l
    case Complete(i, res) =>
      CompleteShape(w, i, res);
      CompleteRefines(w, i, res);
    case RingError => SameTasksOf(w, Apply(p, w, l));
    case Go =>
      if w.cpu.Task? {
        TaskRefines(p, w);
      } else {
        MainRefines(p, w);
      }
  }

  /** `AbsOf` on all states; the default is never used in a run. */
  function Meaning(w: World): A.Abs {
    if WorldShape(w) && Names(w) then AbsOf(w)
    else A.Abs(0, 0, map[], A.Between, 0, 0, [], [], [])
  }

  /** Every step of every run, seen as a bag of tasks, is a step of the bag. */
  lemma RunRefines(p: Program, r: seq<World>, frames: nat, tokens: nat, codes: seq<Code>, k: nat)
    requires IsRun(p, r, frames, tokens, codes) && k + 1 < |r|
    ensures WorldShape(r[k]) && Names(r[k]) && WorldShape(r[k + 1]) && Names(r[k + 1])
    ensures A.AbsStep(p, Meaning(r[k]), Meaning(r[k + 1]))
  {
    RunInv(p, r, frames, tokens, codes, k);
    assert Step(p, r[k], r[k + 1]);
    var l :| Enabled(r[k], l) && r[k + 1] == Apply(p, r[k], l);
    StepRefines(p, r[k], l);
  }
}
