/** The values that the event loop stores and moves around: frames, saved
    contexts, tokens and ring entries. A frame or a token is named by its index in
    the block that `calloc` returned, which stands for its address. */
module Types {

  type FrameId = nat
  type TokenId = nat

  const STACK_SIZE := 8192

  /** `uc_stack.ss_sp` of a frame, as an offset into the block of stacks. */
  function StackOf(f: FrameId): nat {
    f * STACK_SIZE
  }

  /** No two frames share stack memory. */
  lemma StacksApart(f: FrameId, g: FrameId)
    requires f < g
    ensures StackOf(f) + 8192 <= StackOf(g)
  {
  }

  /** A point in a task's code together with the values of its local variables. */
  type Code = nat

  /** `enum RequestType`; `NoKind` is the zero that `calloc` leaves in a token. */
  datatype Kind = NoKind | Accept | Read | Write | Wait

  /** The kinds that `async_*` can ask for. */
  type RequestKind = k: Kind | k != NoKind witness Accept

  /** The functions whose addresses are stored in `Token.cb`. */
  datatype Callback = NoCallback | AcceptFn | ReadFn | WriteFn | WaitFn

  /** The callback that each kind of request registers. */
  function CallbackFor(kind: Kind): Callback {
    match kind
    case NoKind => NoCallback
    case Accept => AcceptFn
    case Read => ReadFn
    case Write => WriteFn
    case Wait => WaitFn
  }

  /** The arguments of a request: descriptor, buffer, size and time value. A request of
      each kind reads those that it has. */
  datatype Operands = Operands(fd: int, buffer: int, size: nat, time: int)

  /** What a task does next with the executor. */
  datatype Action =
    | End
    | Request(kind: RequestKind, io: Operands)
    | Spawn(child: Code)

  /** The code of all tasks: an arbitrary, possibly infinite, transition system. A
      request or a spawn hands its return value to `resume`. */
  datatype Program = Program(act: Code -> Action, resume: (Code, int) -> Code)

  /** A saved `ucontext_t`. `Parked` is a task inside `suspend_current_frame`; it
      holds the local pointer `frame` that its `async_*` call reads when it returns. */
  datatype Context =
    | Unset
    | Fresh(start: Code)
    | Parked(frame: FrameId, kind: RequestKind, code: Code)
    | RunLoop
    | Finished

  datatype Frame = Frame(ready: bool, result: int, exe: Context)

  /** The value an `async_*` call returns once it is resumed. */
  function ReturnValue(kind: Kind, result: int): int {
    if kind == Wait then 0 else result
  }

  datatype Option<+T> = None | Some(value: T)
}
