/** src/IOContext.c and lib/IOContext.h as functions on values. */
module Requests {
  import opened Types
  import opened Collections

  /** `struct Token`; `data` is the frame address given to the request, -1 for NULL. */
  datatype Token = Token(fd: int, kind: Kind, cb: Callback, data: int)

  /** A submission entry and a completion entry; `user` is their `user_data`. */
  datatype Sqe = Sqe(kind: Kind, io: Operands, user: TokenId)
  datatype Cqe = Cqe(user: TokenId, res: int)

  /** The io_uring instance: the bounded submission queue, the requests the kernel
      works on, and the completion queue. */
  datatype Ring = Ring(entries: nat, sq: seq<Sqe>, pending: seq<Sqe>, cq: seq<Cqe>)

  /** `struct IOContext`; `toks` is the block of tokens. */
  datatype Ioc = Ioc(capacity: nat, tail: nat, avail: seq<TokenId>, toks: seq<Token>, ring: Ring)

  const BATCH_SIZE := 1024
  const MAX_BATCH_SIZE := 1024

  function SqUsers(s: seq<Sqe>): (r: seq<TokenId>)
    ensures |r| == |s| && forall i :: 0 <= i < |s| ==> r[i] == s[i].user
  {
    seq(|s|, i requires 0 <= i < |s| => s[i].user)
  }

  function CqUsers(s: seq<Cqe>): (r: seq<TokenId>)
    ensures |r| == |s| && forall i :: 0 <= i < |s| ==> r[i] == s[i].user
  {
    seq(|s|, i requires 0 <= i < |s| => s[i].user)
  }

  /** The tokens carried by the entries of the ring, those that complete first in front. */
  function Flight(r: Ring): seq<TokenId> {
    CqUsers(r.cq) + SqUsers(r.pending) + SqUsers(r.sq)
  }

  predicate IocShape(c: Ioc) {
    && |c.avail| == |c.toks| == c.capacity
    && c.tail <= c.capacity
    && (forall i :: 0 <= i < |c.avail| ==> c.avail[i] < c.capacity)
    && (forall t <- Flight(c.ring) :: t < c.capacity)
  }

  /** The pool followed by the tokens in flight lists every token exactly once. */
  predicate PoolInv(c: Ioc) {
    && IocShape(c)
    && c.ring.entries == c.capacity
    && multiset(c.avail[..c.tail] + Flight(c.ring)) == multiset(Iota(c.capacity))
  }

  // ---- The pool ----

  /** `get_token`. */
  function GetToken(c: Ioc): (Ioc, Option<TokenId>)
    requires IocShape(c)
  {
    if c.tail != 0 then (c.(tail := c.tail - 1), Some(c.avail[c.tail - 1])) else (c, None)
  }

  /** `release_token`. */
  function ReleaseToken(c: Ioc, t: TokenId): Ioc
    requires c.tail <= c.capacity == |c.avail|
  {
    if c.tail == c.capacity then c
    else c.(avail := c.avail[c.tail := t], tail := c.tail + 1)
  }

  // ---- Requests ----

  /** The fields a request writes; a wait leaves `fd` as it was. */
  function FilledToken(old_: Token, kind: Kind, io: Operands, data: int): Token {
    Token(if kind == Wait then old_.fd else io.fd, kind, CallbackFor(kind), data)
  }

  /** `request_wait`, `request_accept`, `request_read` and `request_write`. */
  function RequestIo(c: Ioc, kind: RequestKind, io: Operands, data: FrameId): (Ioc, int)
    requires IocShape(c)
  {
    match GetToken(c)
    case (_, None) => (c, -1)
    case (c1, Some(t)) =>
      if |c1.ring.sq| == c1.ring.entries then
        (ReleaseToken(c1, t), -1)
      else
        (c1.(toks := c1.toks[t := FilledToken(c1.toks[t], kind, io, data)],
             ring := c1.ring.(sq := c1.ring.sq + [Sqe(kind, io, t)])), 0)
  }

  // ---- The ring ----

  /** `io_uring_submit` hands the whole submission queue to the kernel. */
  function Submit(r: Ring): Ring {
    r.(pending := r.pending + r.sq, sq := [])
  }

  /** The kernel completes one of the requests it holds, in any order, with any result. */
  function CompleteAt(r: Ring, i: nat, res: int): Ring
    requires i < |r.pending|
  {
    r.(pending := r.pending[..i] + r.pending[i + 1..],
       cq := r.cq + [Cqe(r.pending[i].user, res)])
  }

  /** How many completions `process` handles once it sees `available` of them. */
  function BatchCount(batch: nat, available: nat): nat {
    var limit := if batch > MAX_BATCH_SIZE then MAX_BATCH_SIZE else batch;
    if available < limit then available else limit
  }

  function InitIoc(capacity: nat): Ioc {
    Ioc(capacity, capacity, Iota(capacity),
        seq(capacity, _ => Token(0, NoKind, NoCallback, -1)),
        Ring(capacity, [], [], []))
  }

  // ---- Conservation ----

  /** No token is lost, duplicated or shared between the pool and the ring. */
  lemma PoolFacts(c: Ioc)
    requires PoolInv(c)
    ensures |Flight(c.ring)| + c.tail == c.capacity
    ensures NoDuplicates(Flight(c.ring)) && NoDuplicates(c.avail[..c.tail])
    ensures forall t <- c.avail[..c.tail] :: t !in Flight(c.ring)
    ensures forall t: nat | t < c.capacity :: t in c.avail[..c.tail] || t in Flight(c.ring)
  {
    var pool, flight := c.avail[..c.tail], Flight(c.ring);
    var all := pool + flight;
    PermutationFacts(all, c.capacity);
    forall i, j | 0 <= i < j < |flight|
      ensures flight[i] != flight[j]
    {
      assert all[|pool| + i] != all[|pool| + j];
    }
    forall i, j | 0 <= i < j < |pool|
      ensures pool[i] != pool[j]
    {
      assert all[i] != all[j];
    }
    forall t | t in pool
      ensures t !in flight
    {
      var i :| 0 <= i < |pool| && pool[i] == t;
      forall j | 0 <= j < |flight|
        ensures flight[j] != t
      {
        assert all[i] != all[|pool| + j];
      }
    }
    forall t: nat | t < c.capacity
      ensures t in pool || t in flight
    {
      assert t in all;
    }
  }

  lemma InitIocPool(capacity: nat)
    ensures PoolInv(InitIoc(capacity))
  {
    var c := InitIoc(capacity);
    assert c.avail[..c.tail] + Flight(c.ring) == Iota(capacity);
  }

  lemma PoolShape(c: Ioc)
    requires PoolInv(c)
    ensures IocShape(c) && c.ring.entries == c.capacity
  {
  }

  lemma AppendFlight(r: Ring, e: Sqe)
    ensures Flight(r.(sq := r.sq + [e])) == Flight(r) + [e.user]
  {
    assert SqUsers(r.sq + [e]) == SqUsers(r.sq) + [e.user];
  }

  lemma MoveLast(avail: seq<TokenId>, tail: nat, flight: seq<TokenId>)
    requires 0 < tail <= |avail|
    ensures multiset(avail[..tail - 1] + (flight + [avail[tail - 1]])) == multiset(avail[..tail] + flight)
  {
    assert avail[..tail] == avail[..tail - 1] + [avail[tail - 1]];
  }

  /** A token that moves from the pool into the ring. */
  lemma TakePool(c: Ioc, c': Ioc, t: TokenId)
    requires PoolInv(c) && c.tail > 0 && t == c.avail[c.tail - 1]
    requires c'.capacity == c.capacity && c'.avail == c.avail && c'.tail == c.tail - 1
    requires |c'.toks| == |c.toks| && c'.ring.entries == c.ring.entries
    requires Flight(c'.ring) == Flight(c.ring) + [t]
    ensures PoolInv(c')
  {
    hide Flight, Iota;
    MoveLast(c.avail, c.tail, Flight(c.ring));
  }

  /** While a request holds a token the submission queue has a free entry, so a request
      fails exactly when the pool is empty; a request that succeeds moves the token on
      top of the pool into the ring. */
  lemma RequestEffect(c: Ioc, kind: RequestKind, io: Operands, data: FrameId)
    requires PoolInv(c)
    ensures var (c', ret) := RequestIo(c, kind, io, data);
      && (ret == -1 <==> c.tail == 0)
      && (ret == -1 ==> c' == c)
      && (ret != -1 ==>
        var t := c.avail[c.tail - 1];
        && ret == 0
        && c'.toks[t].data == data && c'.toks[t].kind == kind
        && c'.toks[t].fd == (if kind == Wait then c.toks[t].fd else io.fd)
        && PoolInv(c')
        && t !in Flight(c.ring)
        && Flight(c'.ring) == Flight(c.ring) + [t]
        && c' == c.(tail := c.tail - 1,
                    toks := c.toks[t := FilledToken(c.toks[t], kind, io, data)],
                    ring := c.ring.(sq := c.ring.sq + [Sqe(kind, io, t)])))
  {
    hide PoolInv;
    PoolShape(c);
    PoolFacts(c);
    if c.tail != 0 {
      var t := c.avail[c.tail - 1];
      assert t == c.avail[..c.tail][c.tail - 1];
      AppendFlight(c.ring, Sqe(kind, io, t));
      assert |c.ring.sq| < c.ring.entries by {
        assert |Flight(c.ring)| >= |c.ring.sq|;
      }
      TakePool(c, RequestIo(c, kind, io, data).0, t);
    }
  }

  /** A request that finds no submission entry puts its token back and changes nothing. */
  lemma RequestRollsBack(c: Ioc, kind: RequestKind, io: Operands, data: FrameId)
    requires IocShape(c) && |c.ring.sq| == c.ring.entries
    ensures RequestIo(c, kind, io, data) == (c, -1)
  {
    if c.tail != 0 {
      assert c.avail[c.tail - 1 := c.avail[c.tail - 1]] == c.avail;
    }
  }

  /** A full pool takes no further token. */
  lemma FullPool(c: Ioc, t: TokenId)
    requires IocShape(c) && c.tail == c.capacity
    ensures ReleaseToken(c, t) == c
  {
  }

  /** `process` handles as many completions as there are, but at most 1024. */
  lemma BatchIs(available: nat)
    ensures BatchCount(BATCH_SIZE, available) == if available < 1024 then available else 1024
  {
  }

  /** The state that `init_io_context` leaves, entry by entry. */
  lemma InitIocIs(capacity: nat)
    ensures var c := InitIoc(capacity);
      && c.tail == c.capacity == c.ring.entries == |c.avail| == |c.toks| == capacity
      && (forall i :: 0 <= i < capacity ==> c.avail[i] == i && c.toks[i] == Token(0, NoKind, NoCallback, -1))
      && c.ring.sq == [] && c.ring.pending == [] && c.ring.cq == []
  {
  }

  /** The kernel holds all requests afterwards, in the order in which they were made. */
  lemma SubmitEffect(r: Ring)
    ensures Flight(Submit(r)) == Flight(r)
    ensures var r' := Submit(r);
      r'.sq == [] && r'.pending == r.pending + r.sq && r'.cq == r.cq && r'.entries == r.entries
  {
    assert SqUsers(Submit(r).pending) == SqUsers(r.pending) + SqUsers(r.sq);
  }

  /** Completing one request moves its token behind the completions already posted. */
  lemma CompleteEffect(r: Ring, i: nat, res: int)
    requires i < |r.pending|
    ensures var r' := CompleteAt(r, i, res);
      var p := SqUsers(r.pending);
      && Flight(r) == (CqUsers(r.cq) + p[..i]) + ([p[i]] + (p[i + 1..] + SqUsers(r.sq)))
      && Flight(r') == CqUsers(r.cq) + ([p[i]] + (p[..i] + (p[i + 1..] + SqUsers(r.sq))))
      && multiset(Flight(r')) == multiset(Flight(r))
      && r'.cq == r.cq + [Cqe(r.pending[i].user, res)]
      && r'.pending == r.pending[..i] + r.pending[i + 1..] && r'.sq == r.sq && r'.entries == r.entries
  {
    var r' := CompleteAt(r, i, res);
    var p := SqUsers(r.pending);
    assert SqUsers(r'.pending) == p[..i] + p[i + 1..];
    assert CqUsers(r'.cq) == CqUsers(r.cq) + [p[i]];
    assert p == p[..i] + ([p[i]] + p[i + 1..]);
  }

  lemma SamePool(c: Ioc, r: Ring)
    requires PoolInv(c) && r.entries == c.ring.entries
    requires multiset(Flight(r)) == multiset(Flight(c.ring))
    ensures PoolInv(c.(ring := r))
  {
    var c' := c.(ring := r);
    forall t | t in Flight(r)
      ensures t < c.capacity
    {
      assert t in multiset(Flight(r));
      assert t in Flight(c.ring);
    }
  }

  lemma PopFlight(r: Ring)
    requires r.cq != []
    ensures Flight(r) == [r.cq[0].user] + Flight(r.(cq := r.cq[1..]))
  {
    assert CqUsers(r.cq) == [r.cq[0].user] + CqUsers(r.cq[1..]);
  }

  lemma PushFirst(avail: seq<TokenId>, tail: nat, t: TokenId, rest: seq<TokenId>)
    requires tail < |avail|
    ensures multiset(avail[tail := t][..tail + 1] + rest) == multiset(avail[..tail] + ([t] + rest))
  {
    assert avail[tail := t][..tail + 1] == avail[..tail] + [t];
  }

  /** A token that moves from the ring, where it is in front, to the top of the pool. */
  lemma PutPool(c: Ioc, c': Ioc, t: TokenId)
    requires PoolInv(c) && c.tail < c.capacity
    requires c'.capacity == c.capacity && c'.avail == c.avail[c.tail := t] && c'.tail == c.tail + 1
    requires |c'.toks| == |c.toks| && c'.ring.entries == c.ring.entries
    requires Flight(c.ring) == [t] + Flight(c'.ring)
    ensures PoolInv(c') && t < c.capacity
  {
    hide Flight, Iota;
    PushFirst(c.avail, c.tail, t, Flight(c'.ring));
    var flight, flight' := Flight(c.ring), Flight(c'.ring);
    assert flight[0] == t && flight[0] in flight;
    forall x | x in flight'
      ensures x in flight
    {
    }
  }

  /** Releasing the token of the first completion never meets the full-pool guard. */
  lemma ReleaseEffect(c: Ioc)
    requires PoolInv(c) && c.ring.cq != []
    ensures var t := c.ring.cq[0].user;
      var r' := c.ring.(cq := c.ring.cq[1..]);
      && c.tail < c.capacity == |c.avail|
      && t < c.capacity
      && Flight(c.ring) == [t] + Flight(r')
      && ReleaseToken(c, t) == c.(tail := c.tail + 1, avail := c.avail[c.tail := t])
      && PoolInv(c.(tail := c.tail + 1, avail := c.avail[c.tail := t], ring := r'))
  {
    hide PoolInv, Flight;
    var t := c.ring.cq[0].user;
    var r' := c.ring.(cq := c.ring.cq[1..]);
    PoolShape(c);
    PopFlight(c.ring);
    PoolFacts(c);
    PutPool(c, c.(tail := c.tail + 1, avail := c.avail[c.tail := t], ring := r'), t);
  }
}
