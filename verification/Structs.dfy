/** `struct Frame` and `struct Token` in memory. A block that `calloc` returned is a
    sequence of them; `id` is the index of a struct in its block. A save leaves the
    `uc_stack` of its context as it was, so `stack` is fixed. */
module Structs {
  import opened Types
  import opened Requests

  class FrameStruct {
    const id: FrameId
    const stack: nat
    var ready: bool
    var result: int
    var exe: Context

    constructor (id: FrameId)
      ensures this.id == id && stack == StackOf(id) && Value() == Frame(false, 0, Unset)
    {
      this.id := id;
      stack := StackOf(id);
      ready, result, exe := false, 0, Unset;
    }

    function Value(): Frame
      reads this
    {
      Frame(ready, result, exe)
    }

    /** `read_fn`, `write_fn` and `accept_fn`. */
    method ResultFn(res: int)
      modifies this
      ensures Value() == Frame(true, res, old(exe))
    {
      result := res;
      ready := true;
    }

    method WaitFn()
      modifies this
      ensures Value() == Frame(true, old(result), old(exe))
    {
      ready := true;
    }
  }

  class TokenStruct {
    const id: TokenId
    var fd: int
    var kind: Kind
    var cb: Callback
    var data: FrameStruct?

    constructor (id: TokenId)
      ensures this.id == id && Value() == Token(0, NoKind, NoCallback, -1)
    {
      this.id := id;
      fd, kind, cb, data := 0, NoKind, NoCallback, null;
    }

    function Value(): Token
      reads this
    {
      Token(fd, kind, cb, if data == null then -1 else data.id)
    }

    /** What a request writes; a wait has no file descriptor. */
    method Fill(kind: RequestKind, io: Operands, frame: FrameStruct)
      modifies this
      ensures Value() == FilledToken(old(Value()), kind, io, frame.id) && data == frame
    {
      this.kind := kind;
      if kind != Wait {
        fd := io.fd;
      }
      cb := CallbackFor(kind);
      data := frame;
    }
  }

  predicate FrameBlock(b: seq<FrameStruct>) {
    forall i :: 0 <= i < |b| ==> b[i].id == i && b[i].stack == StackOf(i)
  }

  predicate TokenBlock(b: seq<TokenStruct>) {
    forall i :: 0 <= i < |b| ==> b[i].id == i
  }

  /** The pointer `f` points into block `b`. */
  predicate FrameIn(f: FrameStruct, b: seq<FrameStruct>) {
    f.id < |b| && b[f.id] == f
  }

  predicate TokenIn(t: TokenStruct, b: seq<TokenStruct>) {
    t.id < |b| && b[t.id] == t
  }

  function Frames(b: seq<FrameStruct>): (r: seq<Frame>)
    reads b
    ensures |r| == |b| && forall i :: 0 <= i < |b| ==> r[i] == b[i].Value()
  {
    seq(|b|, i requires 0 <= i < |b| reads b => b[i].Value())
  }

  function Tokens(b: seq<TokenStruct>): (r: seq<Token>)
    reads b
    ensures |r| == |b| && forall i :: 0 <= i < |b| ==> r[i] == b[i].Value()
  {
    seq(|b|, i requires 0 <= i < |b| reads b => b[i].Value())
  }

  function FrameIds(s: seq<FrameStruct>): (r: seq<FrameId>)
    ensures |r| == |s| && forall i :: 0 <= i < |s| ==> r[i] == s[i].id
  {
    seq(|s|, i requires 0 <= i < |s| => s[i].id)
  }

  function TokenIds(s: seq<TokenStruct>): (r: seq<TokenId>)
    ensures |r| == |s| && forall i :: 0 <= i < |s| ==> r[i] == s[i].id
  {
    seq(|s|, i requires 0 <= i < |s| => s[i].id)
  }
}
