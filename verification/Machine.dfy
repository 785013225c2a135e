/** The event loop as a state machine: `run` (src/Executor.c), the tasks it switches to,
    and a kernel that completes requests at any time, in any order, with any result. */
module Machine {
  import opened Types
  import opened Scheduler
  import opened Requests

  type Tid = nat
  type Rid = nat

  /** Where the main context is: at the top of the loop in `run`, at its size check, or
      inside `process` before it looks at the completion queue or blocked on it. */
  datatype Pc = Top | Check | Poll | Waiting | Exited | Failed

  /** What the processor runs. `Switching` is the middle of a `swapcontext`, after the
      save and before the load; `Crashed` is a loaded context that holds no live
      continuation. */
  datatype Cpu = Main(pc: Pc) | Task(code: Code) | Switching | Crashed

  /** Bookkeeping that no operation reads. Tasks and requests get serial numbers;
      `home` and `owner` say which frame carries which task, `ticket` and `serial` which
      token and which request a frame asked for last, `carries` which request a token
      was used for last. `fired` lists the requests whose callback has run. `owed` and
      `ran` describe the pass since the last `process`: the tasks that were ready when it
      returned or were spawned since, and those that were switched to, in order. */
  datatype History = History(
    home: map<Tid, FrameId>, owner: seq<Tid>, parent: map<Tid, Tid>, nextTid: Tid,
    ticket: seq<TokenId>, serial: seq<Rid>, carries: seq<Rid>, nextRid: Rid,
    fired: seq<Rid>, owed: set<Tid>, ran: seq<Tid>)

  datatype World = World(exec: Exec, ioc: Ioc, cpu: Cpu, hist: History)

  /** The task number that stands for the caller of `run`. */
  const MAIN_TID: Tid := 0

  predicate WorldShape(w: World) {
    && Shape(w.exec)
    && IocShape(w.ioc)
    && |w.hist.owner| == |w.hist.ticket| == |w.hist.serial| == |w.exec.mem|
    && |w.hist.carries| == |w.ioc.toks|
    && (w.cpu.Task? ==> 1 <= w.exec.current < w.exec.size)
    && (forall t <- Flight(w.ioc.ring) :: 0 <= w.ioc.toks[t].data < |w.exec.mem|)
  }

  predicate Runs(w: World, f: FrameId)
    requires WorldShape(w)
  {
    w.cpu.Task? && f == CurrentFrame(w.exec)
  }

  // ---- Context switches ----

  /** What the processor runs after the context saved in frame `f` is resumed. */
  function Load(p: Program, e: Exec, f: FrameId): Cpu
    requires f < |e.mem|
  {
    match e.mem[f].exe
    case Fresh(start) => Task(start)
    case Parked(g, kind, code) =>
      if g < |e.mem| then Task(p.resume(code, ReturnValue(kind, e.mem[g].result))) else Crashed
    case RunLoop => Main(Check)
    case _ => Crashed
  }

  /** The second half of a `swapcontext`: control passes to the context saved in `f`,
      and the history notes the slice when that is a task. */
  function Resume(p: Program, w: World, f: FrameId): World
    requires f < |w.exec.mem| == |w.hist.owner|
  {
    var cpu' := Load(p, w.exec, f);
    w.(cpu := cpu',
       hist := if cpu'.Task? then w.hist.(ran := w.hist.ran + [w.hist.owner[f]]) else w.hist)
  }

  /** Notes a new task in frame `f`. */
  function Register(h: History, f: FrameId, parent: Tid): History
    requires f < |h.owner|
  {
    h.(home := h.home[h.nextTid := f],
       owner := h.owner[f := h.nextTid],
       parent := h.parent[h.nextTid := parent],
       nextTid := h.nextTid + 1,
       owed := h.owed + {h.nextTid})
  }

  // ---- Steps of a task ----

  function StepSpawn(p: Program, w: World, code: Code, child: Code): World
    requires WorldShape(w) && w.cpu == Task(code)
  {
    var (e', ret) := AsyncExec(w.exec, child);
    var w' := w.(exec := e', cpu := Task(p.resume(code, ret)));
    if ret < 0 then w'
    else w'.(hist := Register(w.hist, w.exec.slots[w.exec.size], w.hist.owner[CurrentFrame(w.exec)]))
  }

  /** A request whose token and submission entry are taken, saved in its frame. */
  function SaveRequest(w: World, code: Code, kind: RequestKind, io: Operands): (s: World)
    requires WorldShape(w) && w.cpu == Task(code) && w.ioc.tail != 0
  {
    var f := CurrentFrame(w.exec);
    var t := w.ioc.avail[w.ioc.tail - 1];
    World(Suspend(w.exec, Parked(f, kind, code)),
          RequestIo(w.ioc, kind, io, f).0,
          Switching,
          w.hist.(
            ticket := w.hist.ticket[f := t],
            serial := w.hist.serial[f := w.hist.nextRid],
            carries := w.hist.carries[t := w.hist.nextRid],
            nextRid := w.hist.nextRid + 1))
  }

  /** `async_wait`, `async_accept`, `async_read` and `async_write`. */
  function StepRequest(p: Program, w: World, code: Code, kind: RequestKind, io: Operands): World
    requires WorldShape(w) && w.cpu == Task(code)
  {
    var (c', ret) := RequestIo(w.ioc, kind, io, CurrentFrame(w.exec));
    if ret < 0 then
      w.(ioc := c', cpu := Task(p.resume(code, ret)))
    else
      var s := SaveRequest(w, code, kind, io);
      Resume(p, s, CurrentFrame(s.exec))
  }

  /** The finished task is out of the live frames, and out of the history. */
  function RemoveTask(w: World): World
    requires WorldShape(w) && w.cpu.Task?
  {
    World(Finish(w.exec).0, w.ioc, Switching,
          w.hist.(home := w.hist.home - {w.hist.owner[CurrentFrame(w.exec)]}))
  }

  /** The return from a task's function: `execute` calls `manage_async_finish`, and a
      return from there resumes `uc_link`, the context of the main frame. */
  function StepEnd(p: Program, w: World): World
    requires WorldShape(w) && w.cpu.Task?
  {
    var s := RemoveTask(w);
    match Finish(w.exec).1
    case ReturnToLink => Resume(p, s, 0)
    case SwitchTo(next) => Resume(p, s, next)
  }

  function StepTask(p: Program, w: World): World
    requires WorldShape(w) && w.cpu.Task?
  {
    match p.act(w.cpu.code)
    case Spawn(child) => StepSpawn(p, w, w.cpu.code, child)
    case Request(kind, io) => StepRequest(p, w, w.cpu.code, kind, io)
    case End => StepEnd(p, w)
  }

  // ---- Steps of the main context ----

  /** The run loop is saved in the frame that `current` designates. */
  function SaveRunLoop(w: World): World
    requires WorldShape(w)
  {
    var f := CurrentFrame(w.exec);
    var moved := Advance(w.exec);
    w.(exec := moved.(mem := moved.mem[f := moved.mem[f].(exe := RunLoop)]), cpu := Switching)
  }

  /** src/Executor.c:142-147. */
  function StepTop(p: Program, w: World): World
    requires WorldShape(w) && !w.cpu.Task?
  {
    var next := CurrentFrame(Advance(w.exec));
    if next == CurrentFrame(w.exec) then
      w.(exec := Advance(w.exec), cpu := Main(Check))
    else
      Resume(p, SaveRunLoop(w), next)
  }

  /** src/Executor.c:149-150 and the submission in src/IOContext.c:156. */
  function StepCheck(w: World): World {
    if w.exec.size <= 1 then w.(cpu := Main(Exited))
    else w.(ioc := w.ioc.(ring := Submit(w.ioc.ring)), cpu := Main(Poll))
  }

  /** The effect of the callback stored in a token, dispatched on the token's type. */
  function Fire(e: Exec, token: Token, res: int): Exec
    requires 0 <= token.data < |e.mem|
  {
    var f := token.data;
    if token.kind == NoKind then e
    else match token.cb
      case NoCallback => e
      case WaitFn => e.(mem := e.mem[f := e.mem[f].(ready := true)])
      case _ => e.(mem := e.mem[f := e.mem[f].(result := res, ready := true)])
  }

  /** One turn of the loop in `process`, with the entry taken off the queue at once. */
  function DeliverOne(w: World): (w': World)
    requires WorldShape(w) && w.ioc.ring.cq != [] && !w.cpu.Task?
    ensures WorldShape(w') && w'.cpu == w.cpu
    ensures w'.ioc.ring == w.ioc.ring.(cq := w.ioc.ring.cq[1..])
  {
    PopFlight(w.ioc.ring);
    var cqe := w.ioc.ring.cq[0];
    assert Flight(w.ioc.ring)[0] == cqe.user && cqe.user in Flight(w.ioc.ring);
    var ring' := w.ioc.ring.(cq := w.ioc.ring.cq[1..]);
    assert forall t <- Flight(ring') :: t in Flight(w.ioc.ring);
    w.(exec := Fire(w.exec, w.ioc.toks[cqe.user], cqe.res),
       ioc := ReleaseToken(w.ioc, cqe.user).(ring := ring'),
       hist := w.hist.(fired := w.hist.fired + [w.hist.carries[cqe.user]]))
  }

  function Deliver(w: World, n: nat): (w': World)
    requires WorldShape(w) && n <= |w.ioc.ring.cq| && !w.cpu.Task?
    ensures WorldShape(w') && w'.cpu == w.cpu
    ensures w'.ioc.ring == w.ioc.ring.(cq := w.ioc.ring.cq[n..])
  {
    if n == 0 then w else DeliverOne(Deliver(w, n - 1))
  }

  /** The tasks that a scan could stop at. */
  function ReadyTasks(w: World): set<Tid>
    requires WorldShape(w)
  {
    set f | f in Live(w.exec) && f < |w.exec.mem| && w.exec.mem[f].ready :: w.hist.owner[f]
  }

  /** `process` handles `n` completions and returns to the top of the loop. */
  function StepDeliver(w: World, n: nat): World
    requires WorldShape(w) && n <= |w.ioc.ring.cq| && !w.cpu.Task?
  {
    var d := Deliver(w.(cpu := Main(Top)), n);
    d.(hist := d.hist.(owed := ReadyTasks(d), ran := []))
  }

  function StepPoll(w: World): World
    requires WorldShape(w) && !w.cpu.Task?
  {
    var n := BatchCount(BATCH_SIZE, |w.ioc.ring.cq|);
    if n == 0 then w.(cpu := Main(Waiting)) else StepDeliver(w, n)
  }

  // ---- The transition relation ----

  datatype Label =
    | Go
    | Complete(index: nat, res: int)
    | RingError

  predicate Enabled(w: World, l: Label) {
    match l
    case Go =>
      && (w.cpu.Main? || w.cpu.Task?)
      && (w.cpu.Main? ==> w.cpu.pc != Exited && w.cpu.pc != Failed)
      && (w.cpu == Main(Waiting) ==> w.ioc.ring.cq != [])
    case Complete(i, _) => i < |w.ioc.ring.pending|
    case RingError => (w.cpu == Main(Check) && w.exec.size > 1) || w.cpu == Main(Waiting)
  }

  function Apply(p: Program, w: World, l: Label): World
    requires WorldShape(w) && Enabled(w, l)
  {
    match l
    case Complete(i, res) => w.(ioc := w.ioc.(ring := CompleteAt(w.ioc.ring, i, res)))
    case RingError => w.(cpu := Main(Failed))
    case Go =>
      match w.cpu
      case Task(_) => StepTask(p, w)
      case Main(Top) => StepTop(p, w)
      case Main(Check) => StepCheck(w)
      case Main(Poll) => StepPoll(w)
      case Main(Waiting) => StepDeliver(w, 1)
  }

  ghost predicate Step(p: Program, w: World, w': World) {
    WorldShape(w) && exists l :: Enabled(w, l) && w' == Apply(p, w, l)
  }

  // ---- Initial states ----

  /** No task, no request. */
  function NoHistory(frames: nat, tokens: nat): History {
    History(map[], seq(frames, _ => 0), map[], 1,
            seq(frames, _ => 0), seq(frames, _ => 0), seq(tokens, _ => 0), 0, [], {}, [])
  }

  /** `init_executor`, with arbitrary capacities. */
  function Boot(frames: nat, tokens: nat): (w: World)
    requires frames >= 1
    ensures WorldShape(w)
  {
    World(InitExec(frames), InitIoc(tokens), Main(Top), NoHistory(frames, tokens))
  }

  /** One `async_exec` made before `run`; it fails when the frames are used up. */
  function Launch(w: World, child: Code): (w': World)
    requires WorldShape(w) && w.cpu == Main(Top)
    ensures WorldShape(w') && w'.cpu == Main(Top)
  {
    var (e', ret) := AsyncExec(w.exec, child);
    if ret < 0 then w
    else w.(exec := e', hist := Register(w.hist, w.exec.slots[w.exec.size], MAIN_TID))
  }

  /** The state in which `run` is called after `init_executor` and these `async_exec`s. */
  function Start(frames: nat, tokens: nat, codes: seq<Code>): (w: World)
    requires frames >= 1
    ensures WorldShape(w) && w.cpu == Main(Top)
  {
    if codes == [] then Boot(frames, tokens)
    else Launch(Start(frames, tokens, codes[..|codes| - 1]), codes[|codes| - 1])
  }

  /** A run: the states of one call of `run` after `init_executor` with these capacities
      and these first tasks. */
  ghost predicate IsRun(p: Program, r: seq<World>, frames: nat, tokens: nat, codes: seq<Code>) {
    && frames >= 1
    && r != []
    && r[0] == Start(frames, tokens, codes)
    && forall i :: 0 <= i < |r| - 1 ==> Step(p, r[i], r[i + 1])
  }
}
