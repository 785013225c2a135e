/** The steps of `run` and `process`, the kernel's steps, and the invariant of whole runs. */
module RunLoopInvariant {
  import opened Types
  import opened Collections
  import opened Scheduler
  import opened Requests
  import opened Machine
  import opened Invariant

  // ---- The top of the loop ----

  /** Frames outside the live tasks, and the position, do not matter to `Core`. */
  lemma SameLiveTasks(w: World, w': World)
    requires Core(w) && !w.cpu.Task? && !w'.cpu.Task?
    requires WellFormed(w'.exec) && |w'.exec.mem| == |w.exec.mem|
    requires Live(w'.exec) == Live(w.exec)
    requires forall f <- Live(w.exec) :: w'.exec.mem[f] == w.exec.mem[f]
    requires w'.ioc == w.ioc && w'.hist == w.hist
    ensures Core(w')
  {
    forall u | u in Flight(w.ioc.ring)
      ensures TokenLink(w', u)
    {
      assert TokenLink(w, u);
    }
    forall f | f in Live(w.exec)
      ensures FrameLink(w', f)
    {
      assert FrameLink(w, f);
    }
    assert FlightRids(w') == FlightRids(w);
    assert forall t :: Waits(w, t) <==> Waits(w', t);
  }

  lemma SaveRunLoopScan(e: Exec)
    requires WellFormed(e) && (e.current == 0 || e.current == e.size)
    ensures var f := CurrentFrame(e);
      var moved := Advance(e);
      var e' := moved.(mem := moved.mem[f := moved.mem[f].(exe := RunLoop)]);
      && f !in Live(e) && (e.current == 0 ==> f == 0)
      && WellFormed(e') && Live(e') == Live(e)
      && ((CurrentFrame(e') == 0 && Idle(e')) || OnFirstReady(e'))
  {
    AdvanceLands(e);
    assert Live(Advance(e)) == Live(e);
    assert CurrentFrame(e) !in Live(e);
    SaveInside(Advance(e), CurrentFrame(e), RunLoop);
  }

  /** The save in `run` lands on the main frame, or on a frame outside the live ones. */
  lemma SaveRunLoopEffect(w: World)
    requires Inv(w) && w.cpu == Main(Top)
    ensures var f := CurrentFrame(w.exec);
      var s := SaveRunLoop(w);
      && (f == 0 || f !in Live(w.exec))
      && f < |w.exec.mem|
      && s.exec.mem == w.exec.mem[f := Frame(w.exec.mem[f].ready, w.exec.mem[f].result, RunLoop)]
      && s.exec.slots == w.exec.slots && s.exec.size == w.exec.size
      && Core(s)
      && s.exec.mem[0].exe == RunLoop
      && ((CurrentFrame(s.exec) == 0 && Idle(s.exec)) || OnFirstReady(s.exec))
      && CurrentFrame(s.exec) == CurrentFrame(Advance(w.exec))
  {
    SaveRunLoopScan(w.exec);
    SameLiveTasks(w, SaveRunLoop(w));
  }

  lemma TopKeepsInv(p: Program, w: World)
    requires Inv(w) && w.cpu == Main(Top)
    ensures Inv(StepTop(p, w))
  {
    SaveRunLoopEffect(w);
    var w' := StepTop(p, w);
    var next := CurrentFrame(Advance(w.exec));
    if next == CurrentFrame(w.exec) {
      AdvanceLands(w.exec);
      assert Live(w'.exec) == Live(w.exec);
      assert next !in Live(w.exec);
      SameLiveTasks(w, w');
    } else {
      Dispatch(p, SaveRunLoop(w), next);
    }
  }

  // ---- The ring ----

  lemma CheckKeepsInv(w: World)
    requires Inv(w) && w.cpu == Main(Check)
    ensures Inv(StepCheck(w))
  {
    var w' := StepCheck(w);
    if w.exec.size <= 1 {
      SameLiveTasks(w, w');
    } else {
      SubmitEffect(w.ioc.ring);
      SamePool(w.ioc, Submit(w.ioc.ring));
      RingKeepsCore(w, w');
      assert FlightRids(w') == FlightRids(w);
    }
  }

  /** A step that only reorders the ring keeps everything but the request numbers. */
  lemma RingKeepsCore(w: World, w': World)
    requires Core(w) && WorldShape(w') && PoolInv(w'.ioc)
    requires w'.exec == w.exec && w'.hist == w.hist && w'.cpu.Task? == w.cpu.Task?
    requires w'.ioc == w.ioc.(ring := w'.ioc.ring)
    requires multiset(Flight(w'.ioc.ring)) == multiset(Flight(w.ioc.ring))
    ensures Contexts(w') && Links(w') && Names(w') && Family(w') && Pass(w')
  {
    assert forall u :: u in Flight(w'.ioc.ring) <==> u in multiset(Flight(w'.ioc.ring));
    assert forall u :: u in Flight(w.ioc.ring) <==> u in multiset(Flight(w.ioc.ring));
    assert forall f :: Runs(w, f) <==> Runs(w', f);
    forall u | u in Flight(w'.ioc.ring)
      ensures TokenLink(w', u)
    {
      assert TokenLink(w, u);
    }
    forall f | f in Live(w.exec)
      ensures FrameLink(w', f)
    {
      assert FrameLink(w, f);
    }
    assert forall t :: Waits(w, t) <==> Waits(w', t);
  }

  lemma CompleteShape(w: World, i: nat, res: int)
    requires Core(w) && i < |w.ioc.ring.pending|
    ensures var w' := w.(ioc := w.ioc.(ring := CompleteAt(w.ioc.ring, i, res)));
      WorldShape(w') && PoolInv(w'.ioc)
  {
    CompleteEffect(w.ioc.ring, i, res);
    SamePool(w.ioc, CompleteAt(w.ioc.ring, i, res));
    var flight, flight' := Flight(w.ioc.ring), Flight(CompleteAt(w.ioc.ring, i, res));
    forall t | t in flight'
      ensures t in flight
    {
      assert t in multiset(flight');
    }
  }

  lemma LookupConcat(table: seq<nat>, a: seq<nat>, b: seq<nat>)
    requires forall i :: 0 <= i < |a| ==> a[i] < |table|
    requires forall i :: 0 <= i < |b| ==> b[i] < |table|
    ensures forall i :: 0 <= i < |a + b| ==> (a + b)[i] < |table|
    ensures Lookup(table, a + b) == Lookup(table, a) + Lookup(table, b)
  {
  }

  /** Equal multisets of tokens, split the same way, carry equal multisets of requests. */
  lemma MovedOne(table: seq<nat>, a: seq<nat>, x: seq<nat>, t: nat, y: seq<nat>)
    requires forall i :: 0 <= i < |a| ==> a[i] < |table|
    requires forall i :: 0 <= i < |x| ==> x[i] < |table|
    requires forall i :: 0 <= i < |y| ==> y[i] < |table|
    requires t < |table|
    ensures var before := (a + x) + ([t] + y);
      var after := a + ([t] + (x + y));
      && (forall i :: 0 <= i < |before| ==> before[i] < |table|)
      && (forall i :: 0 <= i < |after| ==> after[i] < |table|)
      && multiset(Lookup(table, before)) == multiset(Lookup(table, after))
  {
    LookupConcat(table, a, x);
    LookupConcat(table, [t], y);
    LookupConcat(table, a + x, [t] + y);
    LookupConcat(table, x, y);
    LookupConcat(table, [t], x + y);
    LookupConcat(table, a, [t] + (x + y));
  }

  lemma PartsBounded(all: seq<nat>, a: seq<nat>, p: seq<nat>, q: seq<nat>, n: nat)
    requires all == a + p + q
    requires forall t <- all :: t < n
    ensures forall i :: 0 <= i < |a| ==> a[i] < n
    ensures forall i :: 0 <= i < |p| ==> p[i] < n
    ensures forall i :: 0 <= i < |q| ==> q[i] < n
  {
    assert forall i :: 0 <= i < |all| ==> all[i] in all;
    assert forall i :: 0 <= i < |a| ==> a[i] == all[i];
    assert forall i :: 0 <= i < |p| ==> p[i] == all[|a| + i];
    assert forall i :: 0 <= i < |q| ==> q[i] == all[|a| + |p| + i];
  }

  lemma CompleteLookup(r: Ring, table: seq<nat>, i: nat, res: int)
    requires i < |r.pending|
    requires forall t <- Flight(r) :: t < |table|
    ensures var r' := CompleteAt(r, i, res);
      && (forall j :: 0 <= j < |Flight(r)| ==> Flight(r)[j] < |table|)
      && (forall j :: 0 <= j < |Flight(r')| ==> Flight(r')[j] < |table|)
      && multiset(Lookup(table, Flight(r))) == multiset(Lookup(table, Flight(r')))
  {
    var a, p, q := CqUsers(r.cq), SqUsers(r.pending), SqUsers(r.sq);
    PartsBounded(Flight(r), a, p, q, |table|);
    CompleteEffect(r, i, res);
    var y := p[i + 1..] + q;
    assert forall j :: 0 <= j < |y| ==> y[j] < |table|;
    MovedOne(table, a, p[..i], p[i], y);
  }

  lemma CompleteSerials(w: World, i: nat, res: int)
    requires WorldShape(w) && Serials(w) && i < |w.ioc.ring.pending|
    requires WorldShape(w.(ioc := w.ioc.(ring := CompleteAt(w.ioc.ring, i, res))))
    ensures Serials(w.(ioc := w.ioc.(ring := CompleteAt(w.ioc.ring, i, res))))
  {
    var w' := w.(ioc := w.ioc.(ring := CompleteAt(w.ioc.ring, i, res)));
    CompleteLookup(w.ioc.ring, w.hist.carries, i, res);
    assert multiset(FlightRids(w)) == multiset(FlightRids(w'));
  }

  lemma CompleteKeepsInv(w: World, i: nat, res: int)
    requires Inv(w) && i < |w.ioc.ring.pending|
    ensures Inv(w.(ioc := w.ioc.(ring := CompleteAt(w.ioc.ring, i, res))))
  {
    var w' := w.(ioc := w.ioc.(ring := CompleteAt(w.ioc.ring, i, res)));
    CompleteShape(w, i, res);
    CompleteEffect(w.ioc.ring, i, res);
    RingKeepsCore(w, w');
    CompleteSerials(w, i, res);
  }

  // ---- Delivery ----

  /** While `process` runs its callbacks: every live task is parked, whether ready or not. */
  predicate Delivering(w: World) {
    && WorldShape(w)
    && !w.cpu.Task?
    && WellFormed(w.exec)
    && PoolInv(w.ioc)
    && (forall f <- Live(w.exec) :: w.exec.mem[f].exe.Parked? && w.exec.mem[f].exe.frame == f)
    && Links(w)
    && Names(w)
    && Serials(w)
  }

  /** What a callback changes: one frame, that of the task which made the request. */
  ghost predicate Delivered(w: World, w': World)
    requires WorldShape(w) && w.ioc.ring.cq != []
  {
    var t := w.ioc.ring.cq[0].user;
    && t in Flight(w.ioc.ring)
    && TokenLink(w, t)
    && Flight(w.ioc.ring) == [t] + Flight(w'.ioc.ring)
    && w'.ioc.toks == w.ioc.toks
    && w'.exec == w.exec.(mem := w'.exec.mem)
    && var f := w.ioc.toks[t].data;
      && |w'.exec.mem| == |w.exec.mem| && w'.exec.mem == w.exec.mem[f := w'.exec.mem[f]]
      && w'.exec.mem[f].ready && w'.exec.mem[f].exe == w.exec.mem[f].exe
      && ReturnValue(w'.exec.mem[f].exe.kind, w'.exec.mem[f].result)
         == ReturnValue(w'.exec.mem[f].exe.kind, w.ioc.ring.cq[0].res)
      && w'.hist == w.hist.(fired := w.hist.fired + [w.hist.carries[t]])
      && w'.cpu == w.cpu
  }

  lemma DeliverOneDelivers(w: World)
    requires WorldShape(w) && !w.cpu.Task? && PoolInv(w.ioc) && Links(w) && w.ioc.ring.cq != []
    ensures Delivered(w, DeliverOne(w)) && PoolInv(DeliverOne(w).ioc)
  {
    ReleaseEffect(w.ioc);
    var t := w.ioc.ring.cq[0].user;
    assert t in Flight(w.ioc.ring);
    assert TokenLink(w, t);
  }

  lemma DeliveredLinks(w: World, w': World)
    requires WorldShape(w) && WorldShape(w') && Links(w) && w.ioc.ring.cq != []
    requires NoDuplicates(Flight(w.ioc.ring))
    requires Delivered(w, w')
    ensures Links(w') && Live(w'.exec) == Live(w.exec)
  {
    var t := w.ioc.ring.cq[0].user;
    var flight, flight' := Flight(w.ioc.ring), Flight(w'.ioc.ring);
    assert Live(w'.exec) == Live(w.exec);
    forall u | u in flight'
      ensures TokenLink(w', u)
    {
      var i :| 0 <= i < |flight'| && flight'[i] == u;
      assert flight[i + 1] == u && flight[0] == t;
      assert TokenLink(w, u);
    }
    forall f | f in Live(w'.exec)
      ensures FrameLink(w', f)
    {
      assert FrameLink(w, f);
    }
  }

  /** The slots keep their readiness but for the frame that was written, which is live. */
  lemma DeliveredTasks(w: World, w': World)
    requires WorldShape(w) && WorldShape(w') && !w.cpu.Task? && w.ioc.ring.cq != []
    requires Delivered(w, w')
    requires WellFormed(w.exec) && Names(w)
    requires forall f <- Live(w.exec) :: w.exec.mem[f].exe.Parked? && w.exec.mem[f].exe.frame == f
    ensures Live(w'.exec) == Live(w.exec)
    ensures WellFormed(w'.exec) && Names(w') && w'.exec.mem[0] == w.exec.mem[0]
    ensures forall f <- Live(w'.exec) :: w'.exec.mem[f].exe.Parked? && w'.exec.mem[f].exe.frame == f
  {
    assert 0 !in Live(w.exec);
    assert Live(w'.exec) == Live(w.exec);
  }

  lemma LookupFirst(table: seq<nat>, all: seq<nat>, t: nat, rest: seq<nat>)
    requires all == [t] + rest
    requires forall x <- all :: x < |table|
    ensures forall i :: 0 <= i < |all| ==> all[i] < |table|
    ensures forall i :: 0 <= i < |rest| ==> rest[i] < |table|
    ensures t < |table|
    ensures Lookup(table, all) == [table[t]] + Lookup(table, rest)
  {
    assert all == [t] + rest + [];
    PartsBounded(all, [t], rest, [], |table|);
    assert [t][0] == t;
    LookupConcat(table, [t], rest);
    assert Lookup(table, [t]) == [table[t]];
  }

  lemma DeliverOneSerials(w: World)
    requires Delivering(w) && w.ioc.ring.cq != []
    ensures Serials(DeliverOne(w))
  {
    ReleaseEffect(w.ioc);
    var w' := DeliverOne(w);
    var t := w.ioc.ring.cq[0].user;
    LookupFirst(w.hist.carries, Flight(w.ioc.ring), t, Flight(w'.ioc.ring));
    FiredNext(w.hist.fired, FlightRids(w), w.hist.carries[t], FlightRids(w'));
  }

  lemma FiredNext(fired: seq<Rid>, before: seq<Rid>, rid: Rid, after: seq<Rid>)
    requires before == [rid] + after
    ensures (fired + [rid]) + after == fired + before
  {
  }

  /** What delivery leaves alone. */
  datatype Still = Still(current: nat, size: nat, slots: seq<FrameId>, frames: nat, main: Frame,
                         cpu: Cpu, hist: History)

  function StillOf(w: World): Still
    requires w.exec.mem != []
  {
    Still(w.exec.current, w.exec.size, w.exec.slots, |w.exec.mem|, w.exec.mem[0],
          w.cpu, w.hist.(fired := []))
  }

  lemma DeliverOneKeeps(w: World)
    requires Delivering(w) && w.ioc.ring.cq != []
    ensures Delivering(DeliverOne(w))
    ensures DeliverOne(w).exec.mem != [] && StillOf(DeliverOne(w)) == StillOf(w)
  {
    PoolFacts(w.ioc);
    DeliverOneDelivers(w);
    DeliveredLinks(w, DeliverOne(w));
    DeliveredTasks(w, DeliverOne(w));
    DeliverOneSerials(w);
  }

  lemma {:induction false} DeliverKeeps(w: World, n: nat)
    requires Delivering(w) && n <= |w.ioc.ring.cq|
    ensures Delivering(Deliver(w, n))
    ensures Deliver(w, n).exec.mem != [] && StillOf(Deliver(w, n)) == StillOf(w)
  {
    hide DeliverOne, PoolInv, Links, Names, Serials, WellFormed;
    if n > 0 {
      DeliverKeeps(w, n - 1);
      DeliverOneKeeps(Deliver(w, n - 1));
    }
  }

  /** All live tasks wait when `process` is called, so none of them is unstarted. */
  lemma IdleIsDelivering(w: World, pc: Pc)
    requires Core(w) && w.cpu.Main? && Idle(w.exec)
    ensures Delivering(w.(cpu := Main(pc)))
  {
    var w' := w.(cpu := Main(pc));
    assert FlightRids(w') == FlightRids(w);
    forall f | f in Live(w.exec)
      ensures w.exec.mem[f].exe.Parked? && w.exec.mem[f].exe.frame == f
    {
      var i :| 1 <= i < w.exec.size && w.exec.slots[i] == f;
      assert !ReadyAt(w.exec, i);
    }
    forall u | u in Flight(w.ioc.ring)
      ensures TokenLink(w', u)
    {
      assert TokenLink(w, u);
    }
    forall f | f in Live(w.exec)
      ensures FrameLink(w', f)
    {
      assert FrameLink(w, f);
    }
  }

  /** A new pass owes a slice to every ready task. */
  lemma NewPass(d: World)
    requires Delivering(d)
    ensures Core(d.(hist := d.hist.(owed := ReadyTasks(d), ran := [])))
  {
    var w := d.(hist := d.hist.(owed := ReadyTasks(d), ran := []));
    forall u | u in Flight(w.ioc.ring)
      ensures TokenLink(w, u)
    {
      assert TokenLink(d, u);
    }
    forall f | f in Live(w.exec)
      ensures FrameLink(w, f)
    {
      assert FrameLink(d, f);
    }
    assert FlightRids(w) == FlightRids(d);
    assert Names(w);
    forall t | t in ReadyTasks(d)
      ensures Waits(w, t)
    {
      var f :| f in Live(d.exec) && f < |d.exec.mem| && d.exec.mem[f].ready && d.hist.owner[f] == t;
      assert w.hist.home[t] == f;
    }
    forall t | t in w.hist.home && Waits(w, t)
      ensures t in ReadyTasks(d)
    {
      var f := w.hist.home[t];
      assert f in Live(d.exec) && d.hist.owner[f] == t;
    }
  }

  lemma DeliverKeepsInv(w: World, n: nat)
    requires Inv(w) && (w.cpu == Main(Poll) || w.cpu == Main(Waiting))
    requires n <= |w.ioc.ring.cq|
    ensures Inv(StepDeliver(w, n))
  {
    var v := w.(cpu := Main(Top));
    IdleIsDelivering(w, Top);
    DeliverKeeps(v, n);
    NewPass(Deliver(v, n));
    assert StillOf(Deliver(v, n)) == StillOf(v);
  }

  // ---- Every step, every run ----

  lemma StepKeepsInv(p: Program, w: World, l: Label)
    requires Inv(w) && Enabled(w, l)
    ensures Inv(Apply(p, w, l))
  {
    hide StepSpawn, StepRequest, StepEnd, StepTop, StepCheck, StepPoll, StepDeliver, CompleteAt,
      WellFormed, PoolInv, Contexts, Links, Names, Serials, Family, Pass;
    match l
    case Complete(i, res) => CompleteKeepsInv(w, i, res);
    case RingError => SameLiveTasks(w, Apply(p, w, l));
    case Go =>
      match w.cpu {
        case Task(code) =>
          match p.act(code) {
            case Spawn(child) => SpawnKeepsInv(p, w, code, child);
            case Request(kind, io) => RequestKeepsInv(p, w, code, kind, io);
            case End => EndKeepsInv(p, w);
          }
        case Main(pc) =>
          match pc {
            case Top => TopKeepsInv(p, w);
            case Check => CheckKeepsInv(w);
            case Poll => PollKeepsInv(w);
            case Waiting => DeliverKeepsInv(w, 1);
          }
      }
  }

  lemma PollKeepsInv(w: World)
    requires Inv(w) && w.cpu == Main(Poll)
    ensures Inv(StepPoll(w))
  {
    var n := BatchCount(BATCH_SIZE, |w.ioc.ring.cq|);
    if n == 0 {
      SameLiveTasks(w, StepPoll(w));
    } else {
      DeliverKeepsInv(w, n);
    }
  }

  lemma BootInv(frames: nat, tokens: nat)
    requires frames >= 1
    ensures Inv(Boot(frames, tokens))
  {
    var w := Boot(frames, tokens);
    InitIocPool(tokens);
    assert Live(w.exec) == {};
    assert Flight(w.ioc.ring) == [];
  }

  lemma {:induction false} StartInv(frames: nat, tokens: nat, codes: seq<Code>)
    requires frames >= 1
    ensures Inv(Start(frames, tokens, codes))
  {
    hide NoHistory, Contexts, Links, Names, Serials, Family, Pass, PoolInv, WellFormed;
    if codes == [] {
      BootInv(frames, tokens);
    } else {
      var w := Start(frames, tokens, codes[..|codes| - 1]);
      var child := codes[|codes| - 1];
      StartInv(frames, tokens, codes[..|codes| - 1]);
      AsyncExecEffect(w.exec, child);
      if w.exec.size < |w.exec.slots| {
        SpawnedKeepsCore(w, child, MAIN_TID, Launch(w, child));
      }
    }
  }

  /** The invariant holds in every state of every run. */
  lemma {:induction false} RunInv(p: Program, r: seq<World>, frames: nat, tokens: nat, codes: seq<Code>, k: nat)
    requires IsRun(p, r, frames, tokens, codes) && k < |r|
    ensures Inv(r[k])
  {
    hide Inv, Start, Enabled, Apply;
    if k == 0 {
      StartInv(frames, tokens, codes);
    } else {
      RunInv(p, r, frames, tokens, codes, k - 1);
      assert Step(p, r[k - 1], r[k - 1 + 1]);
      var l :| Enabled(r[k - 1], l) && r[k] == Apply(p, r[k - 1], l);
      StepKeepsInv(p, r[k - 1], l);
    }
  }
}
