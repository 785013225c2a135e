/** lib/Executor.h and src/Executor.c: the executor in place, proved against the
    functions of `Scheduler` and the steps of `Machine`. */
module EventLoop {
  import opened Types
  import opened Scheduler
  import opened Requests
  import opened Machine
  import opened Structs
  import opened IoContext
  import Rounding

  /** The frames that `init_executor` allocates; the first is the main frame. */
  method AllocFrames(n: nat) returns (block: seq<FrameStruct>)
    requires n >= 1
    ensures fresh(block) && |block| == n && FrameBlock(block)
    ensures Frames(block) == InitExec(n).mem
  {
    block := [];
    for i := 0 to n
      invariant |block| == i && fresh(block) && FrameBlock(block)
      invariant forall k :: 0 <= k < i ==> block[k].Value() == Frame(false, 0, Unset)
    {
      var frame := new FrameStruct(i);
      block := block + [frame];
    }
    block[0].ready := true;
  }

  /** The array of pointers to all frames of a block, in order. */
  method PointFrames(block: seq<FrameStruct>) returns (frames: array<FrameStruct>)
    requires FrameBlock(block) && block != [] && Frames(block) == InitExec(|block|).mem
    ensures fresh(frames) && frames.Length == |block|
    ensures forall i :: 0 <= i < |block| ==> frames[i] == block[i]
    ensures Exec(0, 1, FrameIds(frames[..]), Frames(block)) == InitExec(|block|)
  {
    frames := new FrameStruct[|block|](i requires 0 <= i < |block| => block[i]);
  }

  /** One turn of the scan, written without the remainder. */
  function CyclicNext(current: nat, size: nat): (r: nat)
    requires current <= size && size >= 1
    ensures r == (current + 1) % size
  {
    if current + 1 < size then current + 1
    else if current == size > 1 then
      assert (current + 1) % size == 1;
      1
    else 0
  }

  class Executor {
    const capacity: nat
    var current: nat
    var size: nat
    const frames: array<FrameStruct>
    const block: seq<FrameStruct>
    const ioc: IOContext
    var cpu: Cpu
    ghost var hist: History

    predicate Valid()
      reads frames, ioc, ioc.available, ioc.tokens
    {
      && |block| == frames.Length == capacity
      && FrameBlock(block)
      && (forall i :: 0 <= i < frames.Length ==> FrameIn(frames[i], block))
      && ioc.Valid()
      && forall t <- ioc.tokens :: t.data == null || FrameIn(t.data, block)
    }

    /** The executor without its `ioc`, as a value. */
    function Sched(): Exec
      reads `current, `size, frames, block
    {
      Exec(current, size, FrameIds(frames[..]), Frames(block))
    }

    ghost function View(): World
      reads `current, `size, `cpu, `hist, frames, block, ioc, ioc.available, ioc.tokens
    {
      World(Sched(), ioc.View(), cpu, hist)
    }

    /** What `init_executor` does once it has its `ioc`. */
    constructor (count: nat, context: IOContext)
      requires Rounding.Capacity(count) >= 1
      requires context.Valid() && context.View() == InitIoc(context.capacity)
      requires forall t <- context.tokens :: t.data == null
      ensures Valid() && fresh(frames) && fresh(block) && ioc == context
      ensures capacity == Rounding.Capacity(count)
      ensures View() == Boot(capacity, ioc.capacity)
    {
      hide Shape, IocShape, WorldShape, FrameBlock, TokenBlock, InitExec, InitIoc, NoHistory;
      hide Frames, Tokens, FrameIds, TokenIds, Rounding.Capacity;
      var n := Rounding.CapacityFor(count);
      var mem := AllocFrames(n);
      var slots := PointFrames(mem);
      ioc := context;
      capacity := n;
      block := mem;
      frames := slots;
      size := 1;
      current := 0;
      cpu := Main(Top);
      hist := NoHistory(n, context.capacity);
    }

    // ---- The scan ----

    /** The body of the loop in `move_to_next_ready_frame`. */
    method StepScan() returns (frame: FrameStruct)
      requires Valid() && Shape(Sched())
      modifies this`current
      ensures Valid() && Sched() == old(Sched()).(current := CyclicNext(old(current), size))
      ensures current < capacity && frame == frames[current] && frame.ready == ReadyAt(old(Sched()), current)
    {
      current := CyclicNext(current, size);
      frame := frames[current];
      assert Sched().slots[current] == frame.id;
    }

    /** `move_to_next_ready_frame`. */
    method MoveToNextReadyFrame() returns (frame: FrameStruct)
      requires Valid() && Shape(Sched()) && ReadyAt(Sched(), 0)
      modifies this`current
      ensures Valid() && current < size && frame == frames[current]
      ensures Sched() == Advance(old(Sched()))
    {
      ghost var e := Sched();
      frame := StepScan();
      while !frame.ready
        invariant Valid() && Sched() == e.(current := current)
        invariant current < size && frame == frames[current] && frame.ready == ReadyAt(e, current)
        invariant NextReady(e) == if current == 0 then 0 else FirstReady(e, current)
        decreases if current == 0 then 0 else size - current
      {
        frame := StepScan();
      }
    }

    // ---- Context switches ----

    /** Resumes the context saved in `next`. */
    method ResumeContext(p: Program, next: FrameStruct)
      requires Valid() && FrameIn(next, block) && |hist.owner| == |block|
      modifies this`cpu, this`hist
      ensures Valid() && View() == Resume(p, old(View()), next.id)
    {
      match next.exe {
        case Fresh(start) =>
          cpu := Task(start);
        case Parked(g, kind, code) =>
          if g < |block| {
            cpu := Task(p.resume(code, ReturnValue(kind, block[g].result)));
          } else {
            cpu := Crashed;
          }
        case RunLoop =>
          cpu := Main(Check);
        case _ =>
          cpu := Crashed;
      }
      if cpu.Task? {
        hist := hist.(ran := hist.ran + [hist.owner[next.id]]);
      }
    }

    /** `swapcontext(&save->exe, &next->exe)`; `k` is what is saved. */
    method SwapContext(p: Program, save: FrameStruct, k: Context, next: FrameStruct)
      requires Valid() && FrameIn(save, block) && FrameIn(next, block) && |hist.owner| == |block|
      modifies save`exe, this`cpu, this`hist
      ensures Valid()
      ensures View() == Resume(p, Saved(old(View()), save.id, k), next.id)
    {
      save.exe := k;
      assert Frames(block) == old(Frames(block))[save.id := old(Frames(block))[save.id].(exe := k)];
      ResumeContext(p, next);
    }

    /** `suspend_current_frame`. */
    method SuspendCurrentFrame(p: Program, k: Context, ghost e: Exec)
      requires Valid() && Sched() == e && WellFormed(e) && OnFirstReady(e) && |hist.owner| == |block|
      modifies this`current, this`cpu, this`hist, frames[current]
      ensures Valid()
      ensures View() == Resume(p, World(Suspend(e, k), ioc.View(), Switching, old(hist)), CurrentFrame(Suspend(e, k)))
    {
      var frame := frames[current];
      ClearCurrent(e);
      frame.ready := false;
      assert Frames(block) == e.mem[frame.id := e.mem[frame.id].(ready := false)];
      var next := MoveToNextReadyFrame();
      SwapContext(p, frame, k, next);
    }

    // ---- Requests ----

    /** The first half of an `async_*` call: the request for the current frame. */
    method Ask(kind: RequestKind, io: Operands, frame: FrameStruct) returns (ret: int)
      requires Valid() && IocShape(ioc.View()) && FrameIn(frame, block)
      modifies ioc, ioc.available, ioc.tokens
      ensures Valid() && (ioc.View(), ret) == RequestIo(old(ioc.View()), kind, io, frame.id)
      ensures ret >= 0 ==> old(ioc.View()).tail != 0
    {
      ret := ioc.Request(kind, io, frame);
    }

    /** The second half: `w` is the state before the request, which got its token. */
    method Park(p: Program, code: Code, kind: RequestKind, io: Operands, frame: FrameStruct, ghost w: World)
      requires WorldShape(w) && w.cpu == Task(code) && w.ioc.tail != 0
      requires WellFormed(w.exec) && OnFirstReady(w.exec)
      requires Valid() && View() == w.(ioc := RequestIo(w.ioc, kind, io, CurrentFrame(w.exec)).0)
      requires frame == frames[current]
      modifies this`current, this`cpu, this`hist, frame
      ensures Valid()
      ensures View() == Resume(p, SaveRequest(w, code, kind, io), CurrentFrame(SaveRequest(w, code, kind, io).exec))
    {
      ghost var s := SaveRequest(w, code, kind, io);
      hist := s.hist;
      assert frame.id == CurrentFrame(w.exec);
      assert s == World(Suspend(w.exec, Parked(frame.id, kind, code)), ioc.View(), Switching, hist);
      SuspendCurrentFrame(p, Parked(frame.id, kind, code), w.exec);
    }

    /** `async_wait`, `async_accept`, `async_read` and `async_write`, called by the running
        task at `code`. */
    method AsyncRequest(p: Program, code: Code, kind: RequestKind, io: Operands)
      requires Valid() && WorldShape(View()) && cpu == Task(code)
      requires WellFormed(Sched()) && OnFirstReady(Sched())
      modifies this, block, ioc, ioc.available, ioc.tokens
      ensures Valid() && View() == StepRequest(p, old(View()), code, kind, io)
    {
      hide Resume, SaveRequest, RequestIo;
      var frame := frames[current];
      ghost var w := View();
      assert frame.id == CurrentFrame(w.exec);
      var ret := Ask(kind, io, frame);
      if ret < 0 {
        cpu := Task(p.resume(code, ret));
      } else {
        Park(p, code, kind, io, frame, w);
      }
    }

    // ---- The end of a task ----

    /** `swap_current_frame_with_last_frame`. */
    method SwapCurrentFrameWithLastFrame() returns (frame: FrameStruct?)
      requires Valid() && Shape(Sched()) && current < size
      modifies frames
      ensures Valid() && Sched() == old(Sched()).(slots := SwapWithLast(old(Sched())))
      ensures frame == if old(frames[size - 1]) == old(frames[current]) then null else frames[current]
      ensures frames[current] == old(frames[size - 1]) && frames[size - 1] == old(frames[current])
      ensures forall i :: 0 <= i < frames.Length && i != current && i != size - 1 ==> frames[i] == old(frames[i])
    {
      var last := frames[size - 1];
      if last == frames[current] {
        assert Sched().slots == SwapWithLast(Sched());
        return null;
      }
      frames[size - 1], frames[current] := frames[current], last;
      return frames[current];
    }

    /** The end of `manage_async_finish`, and the return from `execute` that follows when
        it does not switch: that resumes `uc_link`, the context of the main frame. `e` is
        the state before the swap. */
    method SwitchFromFinished(p: Program, frame: FrameStruct?, ghost e: Exec)
      requires WellFormed(e) && 1 <= e.current < e.size
      requires Valid() && Sched() == SwappedOut(e)
      requires frame == if e.current == e.size - 1 then null else frames[current]
      requires |hist.owner| == |block|
      modifies this`current, this`cpu, this`hist, frames[size]
      ensures Valid()
      ensures View() == Resume(p, World(Finish(e).0, ioc.View(), Switching, old(hist)), Landing(Finish(e).1))
    {
      FinishCases(e);
      hide Resume, Finish, SwapWithLast, WellFormed;
      if frame != null {
        assert frames[size].id == CurrentFrame(e);
        if frame.ready {
          SwapContext(p, frames[size], Finished, frame);
          return;
        }
        var next := MoveToNextReadyFrame();
        if next != frames[0] {
          SwapContext(p, frames[size], Finished, next);
          return;
        }
      }
      cpu := Switching;
      ResumeContext(p, block[0]);
    }

    /** `manage_async_finish`. */
    method ManageAsyncFinish(p: Program)
      requires Valid() && WorldShape(View()) && cpu.Task?
      requires WellFormed(Sched()) && OnFirstReady(Sched())
      modifies this, frames, block
      ensures Valid() && View() == StepEnd(p, old(View()))
    {
      hide StepEnd, RemoveTask, Finish, Resume, WorldShape, WellFormed, OnFirstReady, SwapWithLast,
        IoContext.IOContext.View, Frames, ReadyAt, Landing, IocShape, TokenBlock;
      ghost var w := View();
      StepEndLands(p, w);
      hist := RemoveTask(w).hist;
      var frame := SwapCurrentFrameWithLastFrame();
      size := size - 1;
      SwitchFromFinished(p, frame, w.exec);
    }

    // ---- Spawning ----

    /** `async_exec`. */
    method AsyncExec(child: Code, ghost parent: Tid) returns (ret: int)
      requires Valid() && Shape(Sched()) && |hist.owner| == |block|
      modifies this`size, this`hist, block
      ensures Valid() && (Sched(), ret) == Scheduler.AsyncExec(old(Sched()), child)
      ensures hist == if ret < 0 then old(hist) else Register(old(hist), old(Sched()).slots[old(size)], parent)
    {
      if size >= capacity {
        return -1;
      }
      ghost var e := Sched();
      var frame := frames[size];
      assert e.slots[e.size] == frame.id;
      size := size + 1;
      frame.exe := Fresh(child);
      frame.ready := true;
      assert frame.Value() == old(frame.Value()).(ready := true, exe := Fresh(child));
      assert Frames(block) == old(Frames(block))[frame.id := frame.Value()];
      hist := Register(hist, frame.id, parent);
      assert Sched().slots == e.slots;
      assert Sched().mem == e.mem[frame.id := e.mem[frame.id].(ready := true, exe := Fresh(child))];
      assert Sched() == Scheduler.AsyncExec(e, child).0;
      return 0;
    }

    // ---- The steps of a task ----

    /** A task that spawns: `async_exec`, whose return value it goes on with. */
    method SpawnStep(p: Program, code: Code, child: Code)
      requires Valid() && WorldShape(View()) && cpu == Task(code)
      modifies this, block
      ensures Valid() && View() == StepSpawn(p, old(View()), code, child)
    {
      hide Scheduler.AsyncExec, IoContext.IOContext.View, IocShape;
      ghost var w := View();
      AsyncExecReturns(w.exec, child);
      var ret := AsyncExec(child, hist.owner[CurrentFrame(Sched())]);
      cpu := Task(p.resume(code, ret));
    }

    /** One action of the running task. */
    method TaskStep(p: Program)
      requires Valid() && WorldShape(View()) && cpu.Task?
      requires WellFormed(Sched()) && OnFirstReady(Sched())
      modifies this, frames, block, ioc, ioc.available, ioc.tokens
      ensures Valid() && View() == StepTask(p, old(View()))
    {
      hide StepSpawn, StepRequest, StepEnd, Valid, WorldShape, WellFormed, OnFirstReady,
        IoContext.IOContext.View;
      match p.act(cpu.code)
      case Spawn(child) => SpawnStep(p, cpu.code, child);
      case Request(kind, io) => AsyncRequest(p, cpu.code, kind, io);
      case End => ManageAsyncFinish(p);
    }

    // ---- The steps of the main context ----

    /** The first half of the loop in `run`: the switch to the next ready frame. */
    method RunTop(p: Program)
      requires Valid() && WorldShape(View()) && !cpu.Task? && WellFormed(Sched())
      modifies this, block
      ensures Valid() && View() == StepTop(p, old(View()))
    {
      hide Resume, WellFormed, IocShape, IoContext.IOContext.View;
      ghost var w := View();
      WellFormedScan(w.exec);
      var frame := frames[current];
      assert frame.id == CurrentFrame(w.exec);
      var next := MoveToNextReadyFrame();
      if next != frame {
        SwapContext(p, frame, RunLoop, next);
      } else {
        cpu := Main(Check);
      }
    }

    /** The state with the first `i` completions taken off the queue. */
    ghost function Ahead(i: nat): World
      requires i <= |ioc.ring.cq|
      reads `current, `size, `cpu, `hist, frames, block, ioc, ioc.available, ioc.tokens
    {
      View().(ioc := ioc.View().(ring := ioc.ring.(cq := ioc.ring.cq[i..])))
    }

    /** The switch on the type of a token in `process`. */
    method CallBack(token: TokenStruct, res: int)
      requires Valid() && token in ioc.tokens && token.data != null
      modifies token.data
      ensures Valid() && Sched() == Fire(old(Sched()), old(token.Value()), res)
    {
      ghost var e := Sched();
      var frame := token.data;
      if token.kind != NoKind {
        match token.cb {
          case NoCallback =>
          case WaitFn => frame.WaitFn();
          case _ => frame.ResultFn(res);
        }
      }
      assert Sched().mem == e.mem[frame.id := frame.Value()];
    }

    /** One turn of the loop in `process`. */
    method DeliverTurn(i: nat)
      requires Valid() && i < |ioc.ring.cq| && !cpu.Task? && WorldShape(Ahead(i))
      modifies this`hist, block, ioc`tail, ioc.available
      ensures Valid() && ioc.ring == old(ioc.ring)
      ensures Ahead(i + 1) == DeliverOne(old(Ahead(i)))
    {
      hide DeliverOne, Fire, Requests.ReleaseToken, WorldShape, Frames, FrameIds, Tokens, TokenIds, Shape;
      var cqe := ioc.ring.cq[i];
      ghost var w := Ahead(i);
      FirstInFlight(w);
      DeliverOneParts(w, ioc.View(), ioc.ring.cq[i + 1..]);
      var token := ioc.tokens[cqe.user];
      CallBack(token, cqe.res);
      ioc.ReleaseToken(token);
      hist := hist.(fired := hist.fired + [hist.carries[cqe.user]]);
    }

    /** The loop in `process`, and the return to the top of the loop in `run`. */
    method HandleBatch(count: nat)
      requires Valid() && WorldShape(View()) && !cpu.Task? && count <= |ioc.ring.cq|
      modifies this, block, ioc, ioc.available
      ensures Valid() && View() == StepDeliver(old(View()), count)
    {
      hide DeliverOne, WorldShape, Frames, FrameIds, Tokens, TokenIds;
      ghost var w, cq := View().(cpu := Main(Top)), ioc.ring.cq;
      StartShape(View());
      cpu := Main(Top);
      assert cq[0..] == cq;
      for i := 0 to count
        invariant Valid() && ioc.ring == old(ioc.ring) && cpu == Main(Top)
        invariant Ahead(i) == Deliver(w, i)
      {
        DeliverTurn(i);
      }
      ioc.Advance(count);
      assert View() == Deliver(w, count);
      hist := hist.(owed := ReadyTasks(View()), ran := []);
    }
  }

  /** `init_executor`; `resources` as for `init_io_context`. */
  method InitExecutor(count: nat, tokens: nat, resources: bool) returns (ret: int, executor: Executor?)
    requires count != 0 && tokens != 0 && resources ==>
      Rounding.Capacity(count) >= 1 && Rounding.Capacity(tokens) >= 1
    ensures ret == (if count == 0 || tokens == 0 || !resources then -1 else 0) && (executor == null <==> ret < 0)
    ensures executor != null ==>
      && executor.Valid() && fresh(executor) && fresh(executor.frames) && fresh(executor.block)
      && fresh(executor.ioc) && fresh(executor.ioc.available) && fresh(executor.ioc.tokens)
      && executor.capacity == Rounding.Capacity(count) && executor.ioc.capacity == Rounding.Capacity(tokens)
      && executor.View() == Boot(executor.capacity, executor.ioc.capacity)
      && (forall i, j :: 0 <= i < j < executor.capacity ==>
        executor.block[i].stack + 8192 <= executor.block[j].stack <= (executor.capacity - 1) * 8192)
  {
    hide Rounding.Capacity, Boot, InitIoc, WorldShape;
    if count == 0 {
      return -1, null;
    }
    var context;
    ret, context := InitIoContext(tokens, resources);
    if ret < 0 {
      return -1, null;
    }
    executor := new Executor(count, context);
    forall i, j | 0 <= i < j < executor.capacity
      ensures executor.block[i].stack + 8192 <= executor.block[j].stack <= (executor.capacity - 1) * 8192
    {
      StacksApart(i, j);
    }
    return 0, executor;
  }

  /** The frames after the swap and the decrement in `manage_async_finish`. */
  function SwappedOut(e: Exec): Exec
    requires Shape(e)
  {
    e.(slots := SwapWithLast(e), size := e.size - 1)
  }

  /** `manage_async_finish` written as what it does after the swap. */
  lemma FinishCases(e: Exec)
    requires WellFormed(e) && 1 <= e.current < e.size
    ensures var r, f := SwappedOut(e), CurrentFrame(e);
      && r.size >= 1 && WellFormed(r) && r.slots[r.size] == f
      && (e.current == e.size - 1 ==> Finish(e) == (r, ReturnToLink))
      && (e.current < e.size - 1 ==>
        var moved := Advance(r);
        && (ReadyAt(r, r.current) ==> Finish(e) == (SaveIn(r, f, Finished), SwitchTo(CurrentFrame(r))))
        && (!ReadyAt(r, r.current) && moved.current != 0 ==>
          Finish(e) == (SaveIn(moved, f, Finished), SwitchTo(CurrentFrame(moved))))
        && (!ReadyAt(r, r.current) && moved.current == 0 ==> Finish(e) == (moved, ReturnToLink)))
  {
    SwapKeepsShape(e);
    assert e.current == e.size - 1 ==> SwapWithLast(e) == e.slots;
  }

  /** Context `k` saved in frame `f`. */
  function SaveIn(e: Exec, f: FrameId, k: Context): Exec
    requires f < |e.mem|
  {
    e.(mem := e.mem[f := e.mem[f].(exe := k)])
  }

  /** The frame whose context is resumed when a task has ended. */
  function Landing(s: Switch): FrameId {
    match s
    case ReturnToLink => 0
    case SwitchTo(next) => next
  }

  lemma WellFormedScan(e: Exec)
    requires WellFormed(e)
    ensures Shape(e) && Distinct(e) && ReadyAt(e, 0)
  {
  }

  lemma FirstInFlight(w: World)
    requires WorldShape(w) && w.ioc.ring.cq != []
    ensures var t := w.ioc.ring.cq[0].user;
      t < |w.ioc.toks| && t < |w.hist.carries| && 0 <= w.ioc.toks[t].data < |w.exec.mem|
  {
    PopFlight(w.ioc.ring);
    assert Flight(w.ioc.ring)[0] in Flight(w.ioc.ring);
  }

  /** One delivery, with the completion queue `rest` afterwards. */
  lemma DeliverOneParts(w: World, c: Ioc, rest: seq<Cqe>)
    requires WorldShape(w) && w.ioc.ring.cq != [] && !w.cpu.Task?
    requires w.ioc.ring.cq[1..] == rest && c == w.ioc.(ring := c.ring)
    ensures var cqe := w.ioc.ring.cq[0];
      && cqe.user < |w.hist.carries| && cqe.user < |w.ioc.toks| && 0 <= w.ioc.toks[cqe.user].data < |w.exec.mem|
      && DeliverOne(w) == World(Fire(w.exec, w.ioc.toks[cqe.user], cqe.res),
           Requests.ReleaseToken(c, cqe.user).(ring := w.ioc.ring.(cq := rest)),
           w.cpu, w.hist.(fired := w.hist.fired + [w.hist.carries[cqe.user]]))
  {
    FirstInFlight(w);
  }

  lemma StartShape(w: World)
    requires WorldShape(w) && !w.cpu.Task?
    ensures WorldShape(w.(cpu := Main(Top)))
  {
  }

  lemma AsyncExecReturns(e: Exec, child: Code)
    requires Shape(e)
    ensures var (e', ret) := Scheduler.AsyncExec(e, child); (ret < 0 <==> e.size >= |e.slots|) && (ret < 0 ==> e' == e)
  {
  }

  lemma StepEndLands(p: Program, w: World)
    requires WorldShape(w) && w.cpu.Task? && WellFormed(w.exec) && OnFirstReady(w.exec)
    ensures Shape(w.exec) && Distinct(w.exec) && 1 <= w.exec.current < w.exec.size && |w.hist.owner| == |w.exec.mem|
    ensures Landing(Finish(w.exec).1) < |w.exec.mem| == |Finish(w.exec).0.mem|
    ensures RemoveTask(w) == World(Finish(w.exec).0, w.ioc, Switching, RemoveTask(w).hist)
    ensures RemoveTask(w).hist.owner == w.hist.owner
    ensures StepEnd(p, w) == Resume(p, RemoveTask(w), Landing(Finish(w.exec).1))
  {
    FinishEffect(w.exec);
  }

  /** `w` with context `k` saved in frame `f`. */
  function Saved(w: World, f: FrameId, k: Context): World
    requires f < |w.exec.mem|
  {
    w.(exec := SaveIn(w.exec, f, k), cpu := Switching)
  }
}
