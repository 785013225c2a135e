/** The event loop without frames, slots, tokens or saved contexts: a bag of tasks, each
    of which is new, blocked on one request, or holds that request's return value. */
module AbstractLoop {
  import opened Types
  import opened Requests
  import opened Machine

  datatype TaskState =
    | New(start: Code)
    | Blocked(rid: Rid, kind: RequestKind, code: Code)
    | Done(rid: Rid, kind: RequestKind, code: Code, ret: int)

  datatype AbsCpu = MainAt(pc: Pc) | Runs(tid: Tid, code: Code) | Between

  datatype Completion = Completion(rid: Rid, res: int)

  /** `tasks` holds the tasks that do not run. */
  datatype Abs = Abs(
    maxTasks: nat, maxRequests: nat,
    tasks: map<Tid, TaskState>, cpu: AbsCpu, nextTid: Tid, nextRid: Rid,
    queued: seq<Rid>, pending: seq<Rid>, posted: seq<Completion>)

  predicate Runnable(a: Abs, t: Tid) {
    t in a.tasks && !a.tasks[t].Blocked?
  }

  /** The code a runnable task goes on with. */
  function Continue(p: Program, s: TaskState): Code
    requires !s.Blocked?
  {
    match s
    case New(start) => start
    case Done(_, _, code, ret) => p.resume(code, ret)
  }

  /** Some runnable task gets the processor; the main context does only if there is none. */
  ghost predicate Switched(p: Program, a: Abs, a': Abs) {
    || (a' == a.(cpu := MainAt(Check)) && forall t :: !Runnable(a, t))
    || exists t :: Runnable(a, t) &&
        a' == a.(tasks := a.tasks - {t}, cpu := Runs(t, Continue(p, a.tasks[t])))
  }

  function Spawn(p: Program, a: Abs, child: Code): Abs
    requires a.cpu.Runs?
  {
    if |a.tasks| + 2 >= a.maxTasks then
      a.(cpu := Runs(a.cpu.tid, p.resume(a.cpu.code, -1)))
    else
      a.(cpu := Runs(a.cpu.tid, p.resume(a.cpu.code, 0)),
         tasks := a.tasks[a.nextTid := New(child)], nextTid := a.nextTid + 1)
  }

  function InFlight(a: Abs): nat {
    |a.queued| + |a.pending| + |a.posted|
  }

  function Block(a: Abs, kind: RequestKind): Abs
    requires a.cpu.Runs?
  {
    a.(tasks := a.tasks[a.cpu.tid := Blocked(a.nextRid, kind, a.cpu.code)], cpu := Between,
       queued := a.queued + [a.nextRid], nextRid := a.nextRid + 1)
  }

  ghost predicate TaskStep(p: Program, a: Abs, a': Abs)
    requires a.cpu.Runs?
  {
    match p.act(a.cpu.code)
    case Spawn(child) => a' == Spawn(p, a, child)
    case Request(kind, _) =>
      if InFlight(a) >= a.maxRequests then
        a' == a.(cpu := Runs(a.cpu.tid, p.resume(a.cpu.code, -1)))
      else
        Switched(p, Block(a, kind), a')
    case End => Switched(p, a.(cpu := Between), a')
  }

  /** The completion of request `rid` reaches the task blocked on it, and no other. */
  function Hand(tasks: map<Tid, TaskState>, c: Completion): map<Tid, TaskState> {
    map t | t in tasks ::
      var s := tasks[t];
      if s.Blocked? && s.rid == c.rid then Done(s.rid, s.kind, s.code, ReturnValue(s.kind, c.res)) else s
  }

  function HandAll(tasks: map<Tid, TaskState>, posted: seq<Completion>, n: nat): map<Tid, TaskState>
    requires n <= |posted|
  {
    if n == 0 then tasks else Hand(HandAll(tasks, posted, n - 1), posted[n - 1])
  }

  function Receive(a: Abs, n: nat): Abs
    requires n <= |a.posted|
  {
    a.(tasks := HandAll(a.tasks, a.posted, n), posted := a.posted[n..], cpu := MainAt(Top))
  }

  ghost predicate MainStep(p: Program, a: Abs, a': Abs)
    requires a.cpu.MainAt?
  {
    match a.cpu.pc
    case Top => Switched(p, a, a')
    case Check =>
      if a.tasks == map[] then a' == a.(cpu := MainAt(Exited))
      else a' == a.(pending := a.pending + a.queued, queued := [], cpu := MainAt(Poll))
    case Poll =>
      var n := BatchCount(BATCH_SIZE, |a.posted|);
      if n == 0 then a' == a.(cpu := MainAt(Waiting)) else a' == Receive(a, n)
    case Waiting => a.posted != [] && a' == Receive(a, 1)
    case Exited => false
    case Failed => false
  }

  /** The kernel completes any request it holds with any result. */
  ghost predicate KernelStep(a: Abs, a': Abs, i: nat, res: int) {
    && i < |a.pending|
    && a' == a.(pending := a.pending[..i] + a.pending[i + 1..],
                posted := a.posted + [Completion(a.pending[i], res)])
  }

  ghost predicate AbsStep(p: Program, a: Abs, a': Abs) {
    || (a.cpu.Runs? && TaskStep(p, a, a'))
    || (a.cpu.MainAt? && MainStep(p, a, a'))
    || (exists i: nat, res: int :: KernelStep(a, a', i, res))
    || ((a.cpu == MainAt(Check) || a.cpu == MainAt(Waiting)) && a' == a.(cpu := MainAt(Failed)))
  }
}
