/** lib/IOContext.h and src/IOContext.c: the token pool in place, proved against the
    functions of `Requests`. */
module IoContext {
  import opened Types
  import opened Requests
  import opened Structs
  import Rounding

  /** `calloc` of `n` tokens. */
  method AllocTokens(n: nat) returns (block: seq<TokenStruct>)
    ensures fresh(block) && |block| == n && TokenBlock(block)
    ensures Tokens(block) == seq(n, _ => Token(0, NoKind, NoCallback, -1))
  {
    block := [];
    for i := 0 to n
      invariant |block| == i && fresh(block) && TokenBlock(block)
      invariant forall k :: 0 <= k < i ==> block[k].Value() == Token(0, NoKind, NoCallback, -1)
    {
      var token := new TokenStruct(i);
      block := block + [token];
    }
  }

  class IOContext {
    const capacity: nat
    var tail: nat
    const available: array<TokenStruct>
    const tokens: seq<TokenStruct>
    var ring: Ring

    predicate Valid()
      reads `tail, available
    {
      && |tokens| == available.Length == capacity
      && TokenBlock(tokens)
      && tail <= capacity
      && forall i :: 0 <= i < available.Length ==> TokenIn(available[i], tokens)
    }

    function View(): Ioc
      reads this, available, tokens
    {
      Ioc(capacity, tail, TokenIds(available[..]), Tokens(tokens), ring)
    }

    /** `init_io_context`. */
    constructor (count: nat)
      requires Rounding.Capacity(count) >= 1
      ensures Valid() && fresh(available) && fresh(tokens)
      ensures capacity == Rounding.Capacity(count) && View() == InitIoc(capacity)
      ensures forall t <- tokens :: t.data == null
    {
      var n := Rounding.CapacityFor(count);
      var block := AllocTokens(n);
      capacity, tail := n, n;
      tokens := block;
      available := new TokenStruct[n](i requires 0 <= i < |block| => block[i]);
      ring := Ring(n, [], [], []);
      new;
      forall i | 0 <= i < n
        ensures tokens[i].data == null
      {
        assert Tokens(tokens)[i] == tokens[i].Value();
      }
    }

    /** `get_token`. */
    method GetToken() returns (token: TokenStruct?)
      requires Valid() && IocShape(View())
      modifies this`tail
      ensures Valid()
      ensures View() == Requests.GetToken(old(View())).0
      ensures token == null <==> old(tail) == 0
      ensures token != null ==> TokenIn(token, tokens) && token == available[tail]
    {
      if tail != 0 {
        tail := tail - 1;
        return available[tail];
      }
      return null;
    }

    /** `release_token`. */
    method ReleaseToken(token: TokenStruct)
      requires Valid() && TokenIn(token, tokens)
      modifies this`tail, available
      ensures Valid()
      ensures View() == Requests.ReleaseToken(old(View()), token.id)
    {
      if tail == capacity {
        return;
      }
      available[tail] := token;
      tail := tail + 1;
    }

    /** `request_wait`, `request_accept`, `request_read` and `request_write`. */
    method Request(kind: RequestKind, io: Operands, frame: FrameStruct) returns (ret: int)
      requires Valid() && IocShape(View())
      modifies this, available, tokens
      ensures Valid()
      ensures (View(), ret) == RequestIo(old(View()), kind, io, frame.id)
      ensures forall t <- tokens :: t.data == old(t.data) || t.data == frame
    {
      hide Flight, FilledToken, CallbackFor;
      var token := GetToken();
      if token == null {
        return -1;
      }
      if |ring.sq| == ring.entries {
        ReleaseToken(token);
        return -1;
      }
      token.Fill(kind, io, frame);
      ring := ring.(sq := ring.sq + [Sqe(kind, io, token.id)]);
      assert Requests.GetToken(old(View())).1 == Some(token.id);
      assert Tokens(tokens) == old(Tokens(tokens))[token.id := token.Value()];
      return 0;
    }

    // ---- The ring ----

    /** `io_uring_submit`: it fails, or the kernel takes the whole submission queue. */
    method Submit() returns (ret: int)
      requires Valid()
      modifies this`ring
      ensures Valid()
      ensures ret < 0 ==> View() == old(View())
      ensures ret >= 0 ==> View() == old(View()).(ring := Requests.Submit(old(ring)))
    {
      ret := *;
      if ret >= 0 {
        ring := Requests.Submit(ring);
      }
    }

    /** The kernel completes a request that it holds. */
    method Complete(i: nat, res: int)
      requires Valid() && i < |ring.pending|
      modifies this`ring
      ensures Valid()
      ensures View() == old(View()).(ring := CompleteAt(old(ring), i, res))
    {
      ring := CompleteAt(ring, i, res);
    }

    /** `io_uring_peek_batch_cqe`, with the limit that `process` puts on the batch. */
    method PeekBatch(batch: nat) returns (count: nat)
      requires Valid()
      ensures count == BatchCount(batch, |ring.cq|)
      ensures count <= batch && count <= MAX_BATCH_SIZE && count <= |ring.cq|
      ensures count == batch || count == MAX_BATCH_SIZE || count == |ring.cq|
      ensures count == 0 <==> batch == 0 || ring.cq == []
    {
      var limit := if batch > MAX_BATCH_SIZE then MAX_BATCH_SIZE else batch;
      count := if |ring.cq| < limit then |ring.cq| else limit;
    }

    /** `io_uring_cq_advance`. */
    method Advance(count: nat)
      requires Valid() && count <= |ring.cq|
      modifies this`ring
      ensures Valid()
      ensures View() == old(View()).(ring := old(ring).(cq := old(ring).cq[count..]))
    {
      ring := ring.(cq := ring.cq[count..]);
    }
  }

  /** `init_io_context`. `resources` says whether the allocations and the set-up of the
      ring succeed. */
  method InitIoContext(count: nat, resources: bool) returns (ret: int, ioc: IOContext?)
    requires count != 0 && resources ==> Rounding.Capacity(count) >= 1
    ensures ret == (if count == 0 || !resources then -1 else 0) && (ioc == null <==> ret < 0)
    ensures ioc != null ==>
      && ioc.Valid() && fresh(ioc) && fresh(ioc.available) && fresh(ioc.tokens)
      && ioc.capacity == Rounding.Capacity(count) && ioc.View() == InitIoc(ioc.capacity)
      && forall t <- ioc.tokens :: t.data == null
  {
    if count == 0 || !resources {
      return -1, null;
    }
    ioc := new IOContext(count);
    return 0, ioc;
  }
}
