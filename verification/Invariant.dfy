/** What holds in every state of every run. */
module Invariant {
  import opened Types
  import opened Collections
  import opened Scheduler
  import opened Requests
  import opened Machine

  /** Every live task that does not run is saved in its own frame: it has not started,
      or it is parked there. */
  predicate Contexts(w: World)
    requires WorldShape(w)
  {
    forall f <- Live(w.exec) :: !Runs(w, f) ==>
      var x := w.exec.mem[f];
      (x.exe.Fresh? && x.ready) || (x.exe.Parked? && x.exe.frame == f)
  }

  /** A token in flight belongs to a live parked task that is not ready, and names that
      task's latest request. */
  predicate TokenLink(w: World, t: TokenId)
    requires WorldShape(w) && t < |w.ioc.toks|
  {
    var token := w.ioc.toks[t];
    && 0 <= token.data < |w.exec.mem|
    && token.data in Live(w.exec)
    && var x := w.exec.mem[token.data];
      && !x.ready && x.exe.Parked? && x.exe.kind == token.kind
      && token.cb == CallbackFor(token.kind)
      && w.hist.ticket[token.data] == t
      && w.hist.serial[token.data] == w.hist.carries[t]
  }

  /** A live task that is not ready waits for a token in flight that carries it. */
  predicate FrameLink(w: World, f: FrameId)
    requires WorldShape(w) && f < |w.exec.mem|
  {
    !w.exec.mem[f].ready ==>
      && w.hist.ticket[f] in Flight(w.ioc.ring)
      && w.ioc.toks[w.hist.ticket[f]].data == f
  }

  predicate Links(w: World)
    requires WorldShape(w)
  {
    && (forall t <- Flight(w.ioc.ring) :: TokenLink(w, t))
    && (forall f <- Live(w.exec) :: FrameLink(w, f))
  }

  /** The numbered tasks and the live frames are in bijection. */
  predicate Names(w: World)
    requires WorldShape(w)
  {
    && (forall f <- Live(w.exec) :: w.hist.owner[f] in w.hist.home && w.hist.home[w.hist.owner[f]] == f)
    && (forall t <- w.hist.home ::
        && w.hist.home[t] in Live(w.exec)
        && w.hist.owner[w.hist.home[t]] == t
        && 1 <= t < w.hist.nextTid
        && t in w.hist.parent && w.hist.parent[t] < w.hist.nextTid)
    && w.hist.nextTid >= 1
  }

  /** The requests in flight, those that complete first in front. */
  function FlightRids(w: World): seq<Rid>
    requires WorldShape(w)
  {
    var flight := Flight(w.ioc.ring);
    assert forall i :: 0 <= i < |flight| ==> flight[i] in flight;
    Lookup(w.hist.carries, flight)
  }

  /** Every request made so far either had its callback run or is in flight, once. */
  predicate Serials(w: World)
    requires WorldShape(w)
  {
    multiset(w.hist.fired + FlightRids(w)) == multiset(Iota(w.hist.nextRid))
  }

  /** While a task has not started, its spawner is running, waiting or gone. */
  predicate Family(w: World)
    requires WorldShape(w) && Names(w)
  {
    forall f <- Live(w.exec) :: !Runs(w, f) && w.exec.mem[f].exe.Fresh? ==>
      var p := w.hist.parent[w.hist.owner[f]];
      p == MAIN_TID || p !in w.hist.home || Runs(w, w.hist.home[p]) || !w.exec.mem[w.hist.home[p]].ready
  }

  /** A task that the current pass still has to switch to. */
  predicate Waits(w: World, t: Tid)
    requires WorldShape(w) && Names(w)
  {
    t in w.hist.home && w.exec.mem[w.hist.home[t]].ready && !Runs(w, w.hist.home[t])
  }

  /** The pass so far switched to distinct owed tasks; the others wait. */
  predicate Pass(w: World)
    requires WorldShape(w) && Names(w)
  {
    && NoDuplicates(w.hist.ran)
    && (w.cpu.Task? ==> w.hist.owner[CurrentFrame(w.exec)] in w.hist.ran)
    && (forall t <- w.hist.ran :: t in w.hist.owed && !Waits(w, t))
    && (forall t <- w.hist.owed :: t < w.hist.nextTid && (t in w.hist.ran || Waits(w, t)))
    && (forall t <- w.hist.home :: Waits(w, t) ==> t in w.hist.owed)
  }

  predicate Core(w: World) {
    && WorldShape(w)
    && WellFormed(w.exec)
    && PoolInv(w.ioc)
    && Contexts(w)
    && Links(w)
    && Names(w)
    && Serials(w)
    && Family(w)
    && Pass(w)
  }

  /** Where the scan is, for each place the processor can be, and where the run loop is
      saved. A position past the last live slot is left behind by a task that ended there. */
  predicate Position(w: World)
    requires WorldShape(w)
  {
    && (w.exec.current != 0 ==> w.exec.mem[0].exe == RunLoop)
    && match w.cpu
       case Task(_) => OnFirstReady(w.exec)
       case Main(Top) => (w.exec.current == 0 || w.exec.current == w.exec.size) && w.hist.ran == []
       case Main(Exited) => Idle(w.exec) && w.exec.size == 1
       case Main(Poll) => Idle(w.exec) && w.exec.size > 1 && w.ioc.ring.sq == []
       case Main(Waiting) => Idle(w.exec) && w.exec.size > 1 && w.ioc.ring.sq == []
       case Main(_) => Idle(w.exec)
       case Switching => false
       case Crashed => false
  }

  predicate Inv(w: World) {
    Core(w) && Position(w)
  }

  // ---- Switching to a task, or back to the run loop ----

  lemma DispatchIdle(p: Program, w: World)
    requires Core(w) && w.cpu == Switching && w.exec.mem[0].exe == RunLoop && Idle(w.exec)
    ensures var w' := Resume(p, w, 0); Inv(w') && w'.cpu == Main(Check)
  {
    var w' := Resume(p, w, 0);
    assert FlightRids(w') == FlightRids(w);
    assert forall t :: Waits(w', t) <==> Waits(w, t);
  }

  lemma DispatchTask(p: Program, w: World)
    requires Core(w) && w.cpu == Switching && w.exec.mem[0].exe == RunLoop && OnFirstReady(w.exec)
    ensures var w' := Resume(p, w, CurrentFrame(w.exec)); Inv(w') && w'.cpu.Task?
  {
    var f := CurrentFrame(w.exec);
    var w' := Resume(p, w, f);
    assert f in Live(w.exec);
    assert w'.cpu.Task?;
    var tid := w.hist.owner[f];
    assert Waits(w, tid);
    assert w'.hist.ran == w.hist.ran + [tid];
    assert forall t :: Waits(w', t) <==> Waits(w, t) && t != tid;
    assert Pass(w');
    assert FlightRids(w') == FlightRids(w);
  }

  /** Landing on the first ready slot, or on the run loop when there is none, loads a
      live continuation. */
  lemma Dispatch(p: Program, w: World, f: FrameId)
    requires Core(w) && w.cpu == Switching
    requires w.exec.mem[0].exe == RunLoop
    requires (f == 0 && Idle(w.exec)) || (f == CurrentFrame(w.exec) && OnFirstReady(w.exec))
    ensures var w' := Resume(p, w, f);
      Inv(w') && (f == 0 ==> w'.cpu == Main(Check)) && (f != 0 ==> w'.cpu.Task?)
  {
    hide Resume, Inv, Contexts, Links, Names, Serials, Family, Pass, PoolInv;
    if OnFirstReady(w.exec) {
      assert f != 0;
      DispatchTask(p, w);
    } else {
      DispatchIdle(p, w);
    }
  }

  // ---- A request that gets a token ----

  /** The state after the requesting task is saved, before another context is loaded. */
  ghost predicate RequestSaved(w: World, code: Code, kind: RequestKind, io: Operands, w': World)
    requires WorldShape(w) && w.cpu == Task(code) && w.ioc.tail != 0
  {
    var f := CurrentFrame(w.exec);
    var t := w.ioc.avail[w.ioc.tail - 1];
    && w'.cpu == Switching
    && WellFormed(w'.exec) && Live(w'.exec) == Live(w.exec)
    && w'.exec.mem == w.exec.mem[f := Frame(false, w.exec.mem[f].result, Parked(f, kind, code))]
    && PoolInv(w'.ioc)
    && t !in Flight(w.ioc.ring)
    && Flight(w'.ioc.ring) == Flight(w.ioc.ring) + [t]
    && w'.ioc.toks == w.ioc.toks[t := FilledToken(w.ioc.toks[t], kind, io, f)]
    && w'.hist == w.hist.(
        ticket := w.hist.ticket[f := t],
        serial := w.hist.serial[f := w.hist.nextRid],
        carries := w.hist.carries[t := w.hist.nextRid],
        nextRid := w.hist.nextRid + 1)
  }

  lemma RequestShape(w: World, code: Code, kind: RequestKind, io: Operands, w': World)
    requires WorldShape(w) && w.cpu == Task(code) && w.ioc.tail != 0
    requires RequestSaved(w, code, kind, io, w')
    ensures WorldShape(w')
  {
  }

  lemma RequestLinks(w: World, code: Code, kind: RequestKind, io: Operands, w': World)
    requires WorldShape(w) && WorldShape(w') && w.cpu == Task(code) && w.ioc.tail != 0
    requires RequestSaved(w, code, kind, io, w')
    requires Links(w)
    requires CurrentFrame(w.exec) in Live(w.exec) && w.exec.mem[CurrentFrame(w.exec)].ready
    ensures Links(w')
  {
    var f := CurrentFrame(w.exec);
    var t := w.ioc.avail[w.ioc.tail - 1];
    forall u | u in Flight(w'.ioc.ring)
      ensures TokenLink(w', u)
    {
      if u != t {
        assert u in Flight(w.ioc.ring) && TokenLink(w, u);
        assert w.ioc.toks[u].data != f;
      }
    }
    forall g | g in Live(w'.exec)
      ensures FrameLink(w', g)
    {
      if g != f {
        assert FrameLink(w, g);
      }
    }
  }

  lemma RequestSerials(w: World, code: Code, kind: RequestKind, io: Operands, w': World)
    requires WorldShape(w) && WorldShape(w') && w.cpu == Task(code) && w.ioc.tail != 0
    requires RequestSaved(w, code, kind, io, w')
    requires Serials(w)
    ensures Serials(w')
  {
    var n := w.hist.nextRid;
    var flight := Flight(w.ioc.ring);
    forall i | 0 <= i < |flight|
      ensures FlightRids(w')[i] == FlightRids(w)[i]
    {
      assert flight[i] in flight;
    }
    assert FlightRids(w') == FlightRids(w) + [n];
    assert Iota(n + 1) == Iota(n) + [n];
    assert w'.hist.fired + FlightRids(w') == (w.hist.fired + FlightRids(w)) + [n];
  }

  lemma RequestTasks(w: World, code: Code, kind: RequestKind, io: Operands, w': World)
    requires WorldShape(w) && WorldShape(w') && w.cpu == Task(code) && w.ioc.tail != 0
    requires RequestSaved(w, code, kind, io, w')
    requires Contexts(w) && Names(w) && Family(w) && Pass(w)
    requires CurrentFrame(w.exec) in Live(w.exec)
    ensures Contexts(w') && Names(w') && Family(w') && Pass(w')
  {
    assert Names(w');
    assert forall u :: Waits(w', u) <==> Waits(w, u);
  }

  lemma RequestKeepsCore(w: World, code: Code, kind: RequestKind, io: Operands, w': World)
    requires Core(w) && w.cpu == Task(code) && w.ioc.tail != 0
    requires OnFirstReady(w.exec)
    requires RequestSaved(w, code, kind, io, w')
    ensures Core(w')
  {
    RequestShape(w, code, kind, io, w');
    RequestLinks(w, code, kind, io, w');
    RequestSerials(w, code, kind, io, w');
    RequestTasks(w, code, kind, io, w');
  }

  // ---- A task that ends ----

  /** The state after the finished task left the live frames. */
  ghost predicate Removed(w: World, w': World)
    requires WorldShape(w) && w.cpu.Task?
  {
    var f := CurrentFrame(w.exec);
    && w'.cpu == Switching
    && WellFormed(w'.exec) && |w'.exec.mem| == |w.exec.mem|
    && Live(w'.exec) == Live(w.exec) - {f}
    && (forall g :: 0 <= g < |w.exec.mem| && g != f ==> w'.exec.mem[g] == w.exec.mem[g])
    && w'.ioc == w.ioc
    && w'.hist == w.hist.(home := w.hist.home - {w.hist.owner[f]})
  }

  lemma RemovedLinks(w: World, w': World)
    requires WorldShape(w) && WorldShape(w') && w.cpu.Task?
    requires Removed(w, w') && Links(w)
    requires w.exec.mem[CurrentFrame(w.exec)].ready
    ensures Links(w')
  {
    forall u | u in Flight(w'.ioc.ring)
      ensures TokenLink(w', u)
    {
      assert TokenLink(w, u);
    }
    forall g | g in Live(w'.exec)
      ensures FrameLink(w', g)
    {
      assert FrameLink(w, g);
    }
  }

  lemma RemovedNames(w: World, w': World)
    requires WorldShape(w) && WorldShape(w') && w.cpu.Task?
    requires Removed(w, w') && Contexts(w) && Names(w) && CurrentFrame(w.exec) in Live(w.exec)
    ensures Contexts(w') && Names(w')
  {
  }

  lemma RemovedTasks(w: World, w': World)
    requires WorldShape(w) && WorldShape(w') && w.cpu.Task?
    requires Removed(w, w') && Names(w) && Names(w') && CurrentFrame(w.exec) in Live(w.exec)
    requires Family(w) && Pass(w)
    ensures Family(w') && Pass(w')
  {
    hide Contexts, IocShape, WellFormed;
    assert forall u :: Waits(w', u) <==> Waits(w, u);
  }

  lemma RemovedKeepsCore(w: World, w': World)
    requires Core(w) && w.cpu.Task? && OnFirstReady(w.exec)
    requires Removed(w, w')
    ensures Core(w')
  {
    RemovedLinks(w, w');
    RemovedNames(w, w');
    RemovedTasks(w, w');
    assert FlightRids(w') == FlightRids(w);
  }

  // ---- A task that is spawned ----

  /** The state after `async_exec` gave the child frame `f`. */
  ghost predicate Spawned(w: World, child: Code, parent: Tid, w': World)
    requires WorldShape(w) && w.exec.size < |w.exec.slots|
  {
    var f := w.exec.slots[w.exec.size];
    && WellFormed(w'.exec) && w'.exec.slots == w.exec.slots
    && w'.exec.current == w.exec.current && w'.exec.size == w.exec.size + 1
    && f !in Live(w.exec) && f != 0
    && Live(w'.exec) == Live(w.exec) + {f}
    && w'.exec.mem == w.exec.mem[f := Frame(true, w.exec.mem[f].result, Fresh(child))]
    && w'.cpu.Task? == w.cpu.Task?
    && w'.ioc == w.ioc
    && w'.hist == Register(w.hist, f, parent)
  }

  lemma SpawnedLinks(w: World, child: Code, parent: Tid, w': World)
    requires WorldShape(w) && WorldShape(w') && w.exec.size < |w.exec.slots|
    requires Spawned(w, child, parent, w') && Links(w)
    ensures Links(w')
  {
    forall u | u in Flight(w'.ioc.ring)
      ensures TokenLink(w', u)
    {
      assert TokenLink(w, u);
    }
    forall g | g in Live(w'.exec)
      ensures FrameLink(w', g)
    {
      if g in Live(w.exec) {
        assert FrameLink(w, g);
      }
    }
  }

  lemma SpawnedNames(w: World, child: Code, parent: Tid, w': World)
    requires WorldShape(w) && WorldShape(w') && w.exec.size < |w.exec.slots|
    requires Spawned(w, child, parent, w')
    requires Contexts(w) && Names(w) && parent < w.hist.nextTid
    requires forall f :: Runs(w, f) <==> Runs(w', f)
    ensures Contexts(w') && Names(w')
  {
  }

  lemma SpawnedPass(w: World, child: Code, parent: Tid, w': World)
    requires WorldShape(w) && WorldShape(w') && w.exec.size < |w.exec.slots|
    requires Spawned(w, child, parent, w')
    requires Names(w) && Names(w') && Pass(w)
    requires forall f :: Runs(w, f) <==> Runs(w', f)
    requires forall f | Runs(w, f) :: f in Live(w.exec)
    ensures Pass(w')
  {
    var f, tid := w.exec.slots[w.exec.size], w.hist.nextTid;
    forall u
      ensures Waits(w', u) <==> Waits(w, u) || u == tid
    {
      if u in w.hist.home {
        assert w.hist.home[u] in Live(w.exec) && w.hist.home[u] != f;
      }
    }
    assert forall t <- w.hist.ran :: t in w.hist.owed;
  }

  /** A spawner that is main, gone, running or waiting still is. */
  lemma SpawnedSpawner(w: World, child: Code, parent: Tid, w': World, p: Tid)
    requires WorldShape(w) && WorldShape(w') && w.exec.size < |w.exec.slots|
    requires Spawned(w, child, parent, w')
    requires Names(w) && p < w.hist.nextTid
    requires forall f :: Runs(w, f) <==> Runs(w', f)
    requires p == MAIN_TID || p !in w.hist.home || Runs(w, w.hist.home[p]) || !w.exec.mem[w.hist.home[p]].ready
    ensures p == MAIN_TID || p !in w'.hist.home ||
      (w'.hist.home[p] < |w'.exec.mem| && (Runs(w', w'.hist.home[p]) || !w'.exec.mem[w'.hist.home[p]].ready))
  {
    if p in w.hist.home {
      assert w.hist.home[p] in Live(w.exec);
    }
  }

  lemma SpawnedFamily(w: World, child: Code, parent: Tid, w': World)
    requires WorldShape(w) && WorldShape(w') && w.exec.size < |w.exec.slots|
    requires Spawned(w, child, parent, w')
    requires Contexts(w) && Names(w) && Names(w') && Family(w)
    requires forall f :: Runs(w, f) <==> Runs(w', f)
    requires parent < w.hist.nextTid
    requires parent == MAIN_TID || (parent in w.hist.home && Runs(w, w.hist.home[parent]))
    ensures Family(w')
  {
    forall g | g in Live(w'.exec) && !Runs(w', g) && w'.exec.mem[g].exe.Fresh?
      ensures var p := w'.hist.parent[w'.hist.owner[g]];
        p == MAIN_TID || p !in w'.hist.home || Runs(w', w'.hist.home[p]) || !w'.exec.mem[w'.hist.home[p]].ready
    {
      SpawnedSpawner(w, child, parent, w', if g in Live(w.exec) then w.hist.parent[w.hist.owner[g]] else parent);
    }
  }

  lemma SpawnedKeepsCore(w: World, child: Code, parent: Tid, w': World)
    requires Core(w) && w.exec.size < |w.exec.slots|
    requires Spawned(w, child, parent, w')
    requires w.cpu.Task? ==> CurrentFrame(w.exec) in Live(w.exec) && parent == w.hist.owner[CurrentFrame(w.exec)]
    requires !w.cpu.Task? ==> parent == MAIN_TID
    ensures Core(w')
  {
    assert forall f :: Runs(w, f) <==> Runs(w', f);
    SpawnedLinks(w, child, parent, w');
    SpawnedNames(w, child, parent, w');
    SpawnedPass(w, child, parent, w');
    SpawnedFamily(w, child, parent, w');
    assert FlightRids(w') == FlightRids(w);
  }

  // ---- Steps of a task keep the invariant ----

  lemma SpawnKeepsInv(p: Program, w: World, code: Code, child: Code)
    requires Inv(w) && w.cpu == Task(code)
    ensures Inv(StepSpawn(p, w, code, child))
  {
    var w' := StepSpawn(p, w, code, child);
    AsyncExecEffect(w.exec, child);
    if w.exec.size < |w.exec.slots| {
      assert CurrentFrame(w.exec) in Live(w.exec);
      SpawnedKeepsCore(w, child, w.hist.owner[CurrentFrame(w.exec)], w');
    } else {
      SameTasks(w, w');
    }
  }

  /** A step of the running task that changes nothing but its code. */
  lemma SameTasks(w: World, w': World)
    requires Inv(w) && w.cpu.Task? && w'.cpu.Task? && w' == w.(cpu := w'.cpu)
    ensures Inv(w')
  {
    assert forall f :: Runs(w, f) <==> Runs(w', f);
    assert FlightRids(w') == FlightRids(w);
    assert forall t :: Waits(w, t) <==> Waits(w', t);
  }

  lemma SaveRequestSaves(w: World, code: Code, kind: RequestKind, io: Operands)
    requires Inv(w) && w.cpu == Task(code) && w.ioc.tail != 0
    ensures var s := SaveRequest(w, code, kind, io);
      && RequestSaved(w, code, kind, io, s) && s.exec.mem[0] == w.exec.mem[0]
      && ((Idle(s.exec) && s.exec.current == 0) || OnFirstReady(s.exec))
  {
    var f := CurrentFrame(w.exec);
    RequestEffect(w.ioc, kind, io, f);
    SuspendEffect(w.exec, Parked(f, kind, code));
  }

  lemma RequestKeepsInv(p: Program, w: World, code: Code, kind: RequestKind, io: Operands)
    requires Inv(w) && w.cpu == Task(code)
    ensures Inv(StepRequest(p, w, code, kind, io))
  {
    var w' := StepRequest(p, w, code, kind, io);
    RequestEffect(w.ioc, kind, io, CurrentFrame(w.exec));
    if w.ioc.tail == 0 {
      SameTasks(w, w');
    } else {
      var s := SaveRequest(w, code, kind, io);
      SaveRequestSaves(w, code, kind, io);
      RequestKeepsCore(w, code, kind, io, s);
      Dispatch(p, s, CurrentFrame(s.exec));
    }
  }

  lemma EndKeepsInv(p: Program, w: World)
    requires Inv(w) && w.cpu.Task?
    ensures Inv(StepEnd(p, w))
  {
    var s := RemoveTask(w);
    FinishEffect(w.exec);
    RemovedKeepsCore(w, s);
    match Finish(w.exec).1
    case ReturnToLink => Dispatch(p, s, 0);
    case SwitchTo(next) => Dispatch(p, s, next);
  }
}
