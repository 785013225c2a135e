/** Exact fairness: between two calls of `process` every task that was ready, and every
    task that was spawned, gets one slice, and no other task gets any. */
module Fairness {
  import opened Types
  import opened Collections
  import opened Scheduler
  import opened Requests
  import opened Machine
  import opened Invariant
  import opened RunLoopInvariant

  /** The task that a step starts a slice of: it runs afterwards and did not before. */
  function Slice(w: World, w': World): seq<Tid>
    requires WorldShape(w) && WorldShape(w')
  {
    if w'.cpu.Task? && (w.cpu.Task? ==> w.hist.owner[CurrentFrame(w.exec)] != w'.hist.owner[CurrentFrame(w'.exec)])
    then [w'.hist.owner[CurrentFrame(w'.exec)]] else []
  }

  /** The slices started by the steps from state `i` to state `j` of a run, in order. */
  function Slices(r: seq<World>, i: nat, j: nat): seq<Tid>
    requires i <= j < |r|
    requires forall k :: i <= k <= j ==> WorldShape(r[k])
  {
    if i == j then [] else Slices(r, i, j - 1) + Slice(r[j - 1], r[j])
  }

  /** The tasks numbered from `a` up to `b`. */
  function TidsFrom(a: Tid, b: Tid): set<Tid> {
    if b <= a then {} else TidsFrom(a, b - 1) + {b - 1}
  }

  /** What one step adds to the pass, unless it returns to the top of the loop. */
  ghost predicate PassGrows(w: World, w': World)
    requires WorldShape(w) && WorldShape(w')
  {
    && w'.hist.ran == w.hist.ran + Slice(w, w')
    && w.hist.nextTid <= w'.hist.nextTid
    && w'.hist.owed == w.hist.owed + TidsFrom(w.hist.nextTid, w'.hist.nextTid)
  }

  /** Loading a context notes the slice of the task it belongs to. */
  lemma ResumeGrows(p: Program, w: World, s: World, f: FrameId)
    requires Inv(w) && Core(s) && s.cpu == Switching
    requires s.hist == w.hist.(home := s.hist.home, ticket := s.hist.ticket, serial := s.hist.serial,
                               carries := s.hist.carries, nextRid := s.hist.nextRid)
    requires w.cpu.Task? ==> w.hist.owner[CurrentFrame(w.exec)] in w.hist.ran
    requires s.exec.mem[0].exe == RunLoop
    requires (f == 0 && Idle(s.exec)) || (f == CurrentFrame(s.exec) && OnFirstReady(s.exec))
    ensures WorldShape(Resume(p, s, f)) && PassGrows(w, Resume(p, s, f))
  {
    hide Serials, Family, Links, PoolInv, Contexts, Load, Position;
    var w' := Resume(p, s, f);
    Dispatch(p, s, f);
    if f != 0 {
      assert f in Live(s.exec);
      assert Waits(s, s.hist.owner[f]);
    }
  }

  /** The running task has been noted. */
  lemma RunnerNoted(w: World)
    requires Inv(w) && w.cpu.Task?
    ensures w.hist.owner[CurrentFrame(w.exec)] in w.hist.ran
    ensures CurrentFrame(w.exec) in Live(w.exec)
  {
    var f := CurrentFrame(w.exec);
    assert f in Live(w.exec);
  }

  // ---- One step ----

  /** A step that keeps the history's pass and starts no slice. */
  lemma NoSlice(w: World, w': World)
    requires WorldShape(w) && WorldShape(w')
    requires w'.hist.ran == w.hist.ran && w'.hist.owed == w.hist.owed && w'.hist.nextTid == w.hist.nextTid
    requires Slice(w, w') == []
    ensures PassGrows(w, w')
  {
  }

  lemma RequestGrows(p: Program, w: World, code: Code, kind: RequestKind, io: Operands)
    requires Inv(w) && w.cpu == Task(code)
    ensures var w' := StepRequest(p, w, code, kind, io);
      WorldShape(w') && PassGrows(w, w')
  {
    RunnerNoted(w);
    var w' := StepRequest(p, w, code, kind, io);
    RequestEffect(w.ioc, kind, io, CurrentFrame(w.exec));
    if w.ioc.tail == 0 {
      NoSlice(w, w');
    } else {
      var s := SaveRequest(w, code, kind, io);
      SaveRequestSaves(w, code, kind, io);
      RequestKeepsCore(w, code, kind, io, s);
      ResumeGrows(p, w, s, CurrentFrame(s.exec));
    }
  }

  lemma EndGrows(p: Program, w: World)
    requires Inv(w) && w.cpu.Task?
    ensures WorldShape(StepEnd(p, w)) && PassGrows(w, StepEnd(p, w))
  {
    RunnerNoted(w);
    var s := RemoveTask(w);
    FinishEffect(w.exec);
    RemovedKeepsCore(w, s);
    match Finish(w.exec).1
    case ReturnToLink => ResumeGrows(p, w, s, 0);
    case SwitchTo(next) => ResumeGrows(p, w, s, next);
  }

  lemma SpawnGrows(p: Program, w: World, code: Code, child: Code)
    requires WorldShape(w) && WellFormed(w.exec) && w.cpu == Task(code) && CurrentFrame(w.exec) in Live(w.exec)
    ensures var w' := StepSpawn(p, w, code, child);
      WorldShape(w') && PassGrows(w, w')
  {
    AsyncExecEffect(w.exec, child);
    var n := w.hist.nextTid;
    assert TidsFrom(n, n + 1) == TidsFrom(n, n) + {n};
  }

  lemma TopGrows(p: Program, w: World)
    requires Inv(w) && w.cpu == Main(Top)
    ensures WorldShape(StepTop(p, w)) && PassGrows(w, StepTop(p, w))
  {
    SaveRunLoopEffect(w);
    var s := SaveRunLoop(w);
    if CurrentFrame(s.exec) == CurrentFrame(w.exec) {
      NoSlice(w, StepTop(p, w));
    } else {
      ResumeGrows(p, w, s, CurrentFrame(s.exec));
    }
  }

  /** Every step but the return of `process` continues the pass. */
  lemma StepGrows(p: Program, w: World, l: Label)
    requires Inv(w) && Enabled(w, l) && Apply(p, w, l).cpu != Main(Top)
    ensures WorldShape(Apply(p, w, l)) && PassGrows(w, Apply(p, w, l))
  {
    hide StepSpawn, StepRequest, StepEnd, StepTop, StepDeliver, CompleteAt, Contexts, Links, Names,
      Serials, Family, Pass, WellFormed, PoolInv;
    match l
    case Complete(i, res) =>
      CompleteShape(w, i, res);
      NoSlice(w, Apply(p, w, l));
    case RingError => NoSlice(w, Apply(p, w, l));
    case Go =>
      if w.cpu.Task? {
        match p.act(w.cpu.code) {
          case Spawn(child) =>
            RunnerNoted(w);
            SpawnGrows(p, w, w.cpu.code, child);
          case Request(kind, io) => RequestGrows(p, w, w.cpu.code, kind, io);
          case End => EndGrows(p, w);
        }
      } else {
        MainGrows(p, w);
      }
  }

  lemma MainGrows(p: Program, w: World)
    requires Inv(w) && w.cpu.Main? && Enabled(w, Go) && Apply(p, w, Go).cpu != Main(Top)
    ensures WorldShape(Apply(p, w, Go)) && PassGrows(w, Apply(p, w, Go))
  {
    match w.cpu.pc
    case Top => TopGrows(p, w);
    case Check =>
      SubmitEffect(w.ioc.ring);
      NoSlice(w, StepCheck(w));
    case Poll => NoSlice(w, StepPoll(w));
    case Waiting =>
  }

  // ---- Whole passes ----

  lemma {:induction false} TidsFromJoin(a: Tid, b: Tid, c: Tid)
    requires a <= b <= c
    ensures TidsFrom(a, c) == TidsFrom(a, b) + TidsFrom(b, c)
  {
    if b < c {
      TidsFromJoin(a, b, c - 1);
    }
  }

  lemma RunShapes(p: Program, r: seq<World>, frames: nat, tokens: nat, codes: seq<Code>)
    requires IsRun(p, r, frames, tokens, codes)
    ensures forall k :: 0 <= k < |r| ==> WorldShape(r[k])
  {
    forall k | 0 <= k < |r|
      ensures WorldShape(r[k])
    {
      RunInv(p, r, frames, tokens, codes, k);
    }
  }

  lemma NextGrows(p: Program, r: seq<World>, frames: nat, tokens: nat, codes: seq<Code>, k: nat)
    requires IsRun(p, r, frames, tokens, codes) && k + 1 < |r| && r[k + 1].cpu != Main(Top)
    ensures WorldShape(r[k]) && WorldShape(r[k + 1]) && PassGrows(r[k], r[k + 1])
  {
    hide Start, Inv, Enabled, Apply, PassGrows;
    RunInv(p, r, frames, tokens, codes, k);
    assert Step(p, r[k], r[k + 1]);
    var l :| Enabled(r[k], l) && r[k + 1] == Apply(p, r[k], l);
    StepGrows(p, r[k], l);
  }

  lemma {:induction false} PassSoFar(p: Program, r: seq<World>, frames: nat, tokens: nat, codes: seq<Code>,
                                     i: nat, j: nat)
    requires IsRun(p, r, frames, tokens, codes) && i <= j < |r|
    requires forall k :: i <= k <= j ==> WorldShape(r[k])
    requires forall k :: i < k <= j ==> r[k].cpu != Main(Top)
    ensures r[j].hist.ran == r[i].hist.ran + Slices(r, i, j)
    ensures r[i].hist.nextTid <= r[j].hist.nextTid
    ensures r[j].hist.owed == r[i].hist.owed + TidsFrom(r[i].hist.nextTid, r[j].hist.nextTid)
  {
    hide Step, Start, WorldShape, Slice;
    if i < j {
      PassSoFar(p, r, frames, tokens, codes, i, j - 1);
      NextGrows(p, r, frames, tokens, codes, j - 1);
      TidsFromJoin(r[i].hist.nextTid, r[j - 1].hist.nextTid, r[j].hist.nextTid);
    }
  }

  /** From the start of the run, or a return of `process`, to the next size check: each
      task that was ready and each task spawned meanwhile starts one slice, no other task
      starts any. */
  lemma ExactFairness(p: Program, r: seq<World>, frames: nat, tokens: nat, codes: seq<Code>, i: nat, j: nat)
    requires IsRun(p, r, frames, tokens, codes) && i < j < |r|
    requires r[i].cpu == Main(Top) && r[j].cpu == Main(Check)
    requires forall k :: i < k < j ==> r[k].cpu != Main(Top)
    ensures forall k :: i <= k <= j ==> WorldShape(r[k])
    ensures NoDuplicates(Slices(r, i, j))
    ensures Elements(Slices(r, i, j)) == ReadyTasks(r[i]) + TidsFrom(r[i].hist.nextTid, r[j].hist.nextTid)
  {
    RunInv(p, r, frames, tokens, codes, i);
    RunInv(p, r, frames, tokens, codes, j);
    RunShapes(p, r, frames, tokens, codes);
    PassSoFar(p, r, frames, tokens, codes, i, j);
    OwedAtTop(r[i]);
    OwedAtCheck(r[j]);
    assert r[j].hist.ran == Slices(r, i, j);
  }

  lemma OwedAtTop(w: World)
    requires Inv(w) && w.cpu == Main(Top)
    ensures w.hist.ran == [] && w.hist.owed == ReadyTasks(w)
  {
    forall t
      ensures t in w.hist.owed <==> t in ReadyTasks(w)
    {
      if t in w.hist.owed {
        assert Waits(w, t);
        var f := w.hist.home[t];
        assert f in Live(w.exec) && w.hist.owner[f] == t;
      }
      if t in ReadyTasks(w) {
        var f :| f in Live(w.exec) && f < |w.exec.mem| && w.exec.mem[f].ready && w.hist.owner[f] == t;
        assert w.hist.home[t] == f;
        assert Waits(w, t);
      }
    }
  }

  lemma OwedAtCheck(w: World)
    requires Inv(w) && w.cpu == Main(Check)
    ensures NoDuplicates(w.hist.ran) && Elements(w.hist.ran) == w.hist.owed
  {
    forall t | t in w.hist.owed
      ensures t in w.hist.ran
    {
      if t in w.hist.home {
        var i :| 1 <= i < w.exec.size && w.exec.slots[i] == w.hist.home[t];
        assert !ReadyAt(w.exec, i);
      }
    }
  }
}
