/** What `process` does with the completions it handles. */
module Delivery {
  import opened Types
  import opened Scheduler
  import opened Requests
  import opened Machine
  import opened Invariant
  import opened RunLoopInvariant

  /** The frame that completion `i` is for. */
  function CalledFrame(w: World, i: nat): FrameId
    requires WorldShape(w) && i < |w.ioc.ring.cq|
    ensures CalledFrame(w, i) < |w.exec.mem|
  {
    CqUsersFit(w);
    w.ioc.toks[w.ioc.ring.cq[i].user].data
  }

  /** What the callback for the type of request `i` leaves in that frame. */
  function CalledBack(w: World, i: nat): Frame
    requires WorldShape(w) && i < |w.ioc.ring.cq|
  {
    CqUsersFit(w);
    var x := w.exec.mem[CalledFrame(w, i)];
    var kind := w.ioc.toks[w.ioc.ring.cq[i].user].kind;
    Frame(true, if kind == Wait then x.result else w.ioc.ring.cq[i].res, x.exe)
  }

  /** The requests of the first `n` completions. */
  function FirstRids(w: World, n: nat): (r: seq<Rid>)
    requires WorldShape(w) && n <= |w.ioc.ring.cq|
    ensures |r| == n && forall i :: 0 <= i < n ==>
      w.ioc.ring.cq[i].user < |w.hist.carries| && r[i] == w.hist.carries[w.ioc.ring.cq[i].user]
  {
    CqUsersFit(w);
    seq(n, i requires 0 <= i < n => w.hist.carries[w.ioc.ring.cq[i].user])
  }

  lemma CqUsersFit(w: World)
    requires WorldShape(w)
    ensures forall i :: 0 <= i < |w.ioc.ring.cq| ==>
      var t := w.ioc.ring.cq[i].user;
      && t == Flight(w.ioc.ring)[i] && t in Flight(w.ioc.ring)
      && t < |w.ioc.toks| == |w.hist.carries| && 0 <= w.ioc.toks[t].data < |w.exec.mem|
  {
    var flight := Flight(w.ioc.ring);
    forall i | 0 <= i < |w.ioc.ring.cq|
      ensures var t := w.ioc.ring.cq[i].user;
        && t == flight[i] && t in flight
        && t < |w.ioc.toks| == |w.hist.carries| && 0 <= w.ioc.toks[t].data < |w.exec.mem|
    {
      assert CqUsers(w.ioc.ring.cq)[i] == flight[i];
      assert flight[i] in flight;
    }
  }

  /** No two completions are for one frame. */
  lemma FramesDiffer(w: World, i: nat, j: nat)
    requires WorldShape(w) && PoolInv(w.ioc) && Links(w) && i < j < |w.ioc.ring.cq|
    ensures CalledFrame(w, i) != CalledFrame(w, j)
  {
    CqUsersFit(w);
    PoolFacts(w.ioc);
    var t, u := w.ioc.ring.cq[i].user, w.ioc.ring.cq[j].user;
    assert Flight(w.ioc.ring)[i] != Flight(w.ioc.ring)[j];
    assert TokenLink(w, t) && TokenLink(w, u);
  }

  /** One turn of the loop runs the matching callback. */
  lemma OneCallback(w: World)
    requires WorldShape(w) && Links(w) && !w.cpu.Task? && w.ioc.ring.cq != []
    ensures DeliverOne(w).exec.mem == w.exec.mem[CalledFrame(w, 0) := CalledBack(w, 0)]
    ensures DeliverOne(w).ioc.toks == w.ioc.toks
  {
    CqUsersFit(w);
    assert TokenLink(w, w.ioc.ring.cq[0].user);
  }

  /** It puts the token back, on top of the pool. */
  lemma OneRelease(w: World)
    requires WorldShape(w) && PoolInv(w.ioc) && !w.cpu.Task? && w.ioc.ring.cq != []
    ensures var v := DeliverOne(w);
      && v.ioc.tail == w.ioc.tail + 1 <= |v.ioc.avail|
      && v.ioc.avail[..v.ioc.tail] == w.ioc.avail[..w.ioc.tail] + [w.ioc.ring.cq[0].user]
      && v.hist.fired == w.hist.fired + FirstRids(w, 1)
      && v.hist.carries == w.hist.carries
  {
    hide PoolInv, Fire, Flight, Requests.ReleaseToken, CqUsers;
    CqUsersFit(w);
    PoolShape(w.ioc);
    ReleaseEffect(w.ioc);
  }

  /** The state after `n` turns, told of the state before them. */
  ghost predicate AfterTurns(w: World, v: World, n: nat)
    requires WorldShape(w) && n <= |w.ioc.ring.cq|
  {
    && v.ioc.ring.cq == w.ioc.ring.cq[n..] && v.ioc.toks == w.ioc.toks
    && v.ioc.tail <= |v.ioc.avail|
    && v.ioc.avail[..v.ioc.tail] == w.ioc.avail[..w.ioc.tail] + CqUsers(w.ioc.ring.cq[..n])
    && v.hist.fired == w.hist.fired + FirstRids(w, n)
    && v.hist.carries == w.hist.carries
    && |v.exec.mem| == |w.exec.mem|
    && (forall i :: 0 <= i < n ==> v.exec.mem[CalledFrame(w, i)] == CalledBack(w, i))
    && (forall f :: 0 <= f < |w.exec.mem| && (forall i :: 0 <= i < n ==> f != CalledFrame(w, i)) ==>
      v.exec.mem[f] == w.exec.mem[f])
  }

  lemma NextFrame(w: World, v: World, n: nat)
    requires WorldShape(w) && WorldShape(v) && n < |w.ioc.ring.cq| && AfterTurns(w, v, n)
    requires forall i :: 0 <= i < n ==> CalledFrame(w, i) != CalledFrame(w, n)
    ensures v.ioc.ring.cq != []
    ensures CalledFrame(v, 0) == CalledFrame(w, n) && CalledBack(v, 0) == CalledBack(w, n)
    ensures FirstRids(w, n + 1) == FirstRids(w, n) + FirstRids(v, 1)
  {
    hide WorldShape;
    CqUsersFit(w);
    CqUsersFit(v);
    assert v.ioc.ring.cq[0] == w.ioc.ring.cq[n];
  }

  lemma NextTurn(w: World, v: World, n: nat)
    requires Delivering(w) && Delivering(v) && n < |w.ioc.ring.cq| && AfterTurns(w, v, n)
    ensures AfterTurns(w, DeliverOne(v), n + 1)
  {
    hide WorldShape, Links, Names, Serials, WellFormed, PoolInv, DeliverOne, CalledBack, CalledFrame, FirstRids;
    forall i | 0 <= i < n
      ensures CalledFrame(w, i) != CalledFrame(w, n)
    {
      FramesDiffer(w, i, n);
    }
    NextFrame(w, v, n);
    OneCallback(v);
    OneRelease(v);
    var cq := w.ioc.ring.cq;
    assert CqUsers(cq[..n + 1]) == CqUsers(cq[..n]) + [cq[n].user];
    assert cq[n..][1..] == cq[n + 1..];
  }

  lemma {:induction false} Turns(w: World, n: nat)
    requires Delivering(w) && n <= |w.ioc.ring.cq|
    ensures AfterTurns(w, Deliver(w, n), n)
  {
    hide AfterTurns, Links, Names, Serials, WellFormed, PoolInv, DeliverOne;
    if n == 0 {
      NoTurn(w);
    } else {
      Turns(w, n - 1);
      DeliverKeeps(w, n - 1);
      NextTurn(w, Deliver(w, n - 1), n - 1);
    }
  }

  lemma NoTurn(w: World)
    requires Delivering(w)
    ensures AfterTurns(w, w, 0)
  {
    assert CqUsers(w.ioc.ring.cq[..0]) == [];
  }

  /** `process` takes the first `n` completions off the queue. For each of them, in queue
      order, the callback that matches the type of its token runs on the frame the token
      carries, and the token goes back on the pool. No other frame is written. */
  lemma DeliverInOrder(w: World, n: nat)
    requires Inv(w) && (w.cpu == Main(Poll) || w.cpu == Main(Waiting)) && n <= |w.ioc.ring.cq|
    ensures forall i :: 0 <= i < |w.ioc.ring.cq| ==>
      var t := w.ioc.ring.cq[i].user;
      t < |w.ioc.toks| == |w.hist.carries| && 0 <= w.ioc.toks[t].data < |w.exec.mem|
    ensures var v, cq := StepDeliver(w, n), w.ioc.ring.cq;
      && v.ioc.ring == w.ioc.ring.(cq := cq[n..])
      && v.ioc.tail == w.ioc.tail + n <= |v.ioc.avail|
      && (forall i :: 0 <= i < w.ioc.tail ==> v.ioc.avail[i] == w.ioc.avail[i])
      && (forall i :: 0 <= i < n ==> v.ioc.avail[w.ioc.tail + i] == cq[i].user)
      && |v.hist.fired| == |w.hist.fired| + n
      && (forall i :: 0 <= i < |w.hist.fired| ==> v.hist.fired[i] == w.hist.fired[i])
      && (forall i :: 0 <= i < n ==> v.hist.fired[|w.hist.fired| + i] == w.hist.carries[cq[i].user])
      && |v.exec.mem| == |w.exec.mem|
      && (forall i :: 0 <= i < n ==>
        var token := w.ioc.toks[cq[i].user];
        var x, y := w.exec.mem[token.data], v.exec.mem[token.data];
        y.ready && y.exe == x.exe && y.result == if token.kind == Wait then x.result else cq[i].res)
      && (forall f :: 0 <= f < |w.exec.mem| && (forall i :: 0 <= i < n ==> f != w.ioc.toks[cq[i].user].data) ==>
        v.exec.mem[f] == w.exec.mem[f])
  {
    hide Inv, StepDeliver, WorldShape, Flight, CalledFrame, CalledBack;
    InvShape(w);
    CallsAre(w);
    DeliverFrames(w, n);
    DeliverPool(w, n);
    var v := StepDeliver(w, n);
    forall f | 0 <= f < |w.exec.mem| && (forall i :: 0 <= i < n ==> f != w.ioc.toks[w.ioc.ring.cq[i].user].data)
      ensures v.exec.mem[f] == w.exec.mem[f]
    {
      assert forall i :: 0 <= i < n ==> f != CalledFrame(w, i);
    }
  }

  lemma CallsAre(w: World)
    requires WorldShape(w)
    ensures forall i :: 0 <= i < |w.ioc.ring.cq| ==>
      var t := w.ioc.ring.cq[i].user;
      && t < |w.ioc.toks| == |w.hist.carries| && 0 <= w.ioc.toks[t].data < |w.exec.mem|
      && CalledFrame(w, i) == w.ioc.toks[t].data
      && var x := w.exec.mem[w.ioc.toks[t].data];
        CalledBack(w, i) == Frame(true, if w.ioc.toks[t].kind == Wait then x.result else w.ioc.ring.cq[i].res, x.exe)
  {
    CqUsersFit(w);
  }

  lemma DeliverAfter(w: World, n: nat)
    requires Inv(w) && (w.cpu == Main(Poll) || w.cpu == Main(Waiting)) && n <= |w.ioc.ring.cq|
    ensures WorldShape(w.(cpu := Main(Top)))
    ensures var v := StepDeliver(w, n);
      AfterTurns(w.(cpu := Main(Top)), v, n) && v.ioc.ring == w.ioc.ring.(cq := w.ioc.ring.cq[n..])
  {
    hide Links, Names, Serials, WellFormed, DeliverOne, CalledBack, CalledFrame;
    var v := w.(cpu := Main(Top));
    IdleIsDelivering(w, Top);
    Turns(v, n);
  }

  lemma DeliverFrames(w: World, n: nat)
    requires Inv(w) && (w.cpu == Main(Poll) || w.cpu == Main(Waiting)) && n <= |w.ioc.ring.cq|
    ensures var v, cq := StepDeliver(w, n), w.ioc.ring.cq;
      && v.ioc.ring == w.ioc.ring.(cq := cq[n..])
      && |v.exec.mem| == |w.exec.mem|
      && (forall i :: 0 <= i < n ==> v.exec.mem[CalledFrame(w, i)] == CalledBack(w, i))
      && (forall f :: 0 <= f < |w.exec.mem| && (forall i :: 0 <= i < n ==> f != CalledFrame(w, i)) ==>
        v.exec.mem[f] == w.exec.mem[f])
  {
    hide Inv, StepDeliver, CalledBack, CalledFrame, FirstRids, WorldShape;
    InvShape(w);
    DeliverAfter(w, n);
    SameCalls(w, w.(cpu := Main(Top)));
  }

  lemma DeliverPool(w: World, n: nat)
    requires Inv(w) && (w.cpu == Main(Poll) || w.cpu == Main(Waiting)) && n <= |w.ioc.ring.cq|
    ensures var v, cq := StepDeliver(w, n), w.ioc.ring.cq;
      && v.ioc.tail == w.ioc.tail + n <= |v.ioc.avail|
      && (forall i :: 0 <= i < w.ioc.tail ==> v.ioc.avail[i] == w.ioc.avail[i])
      && (forall i :: 0 <= i < n ==> v.ioc.avail[w.ioc.tail + i] == cq[i].user)
      && v.hist.fired == w.hist.fired + FirstRids(w, n)
  {
    hide Inv, StepDeliver, CalledBack, CalledFrame, FirstRids, WorldShape;
    InvShape(w);
    DeliverAfter(w, n);
    var v, cq := StepDeliver(w, n), w.ioc.ring.cq;
    assert FirstRids(w.(cpu := Main(Top)), n) == FirstRids(w, n);
    PooledUsers(v.ioc.avail, v.ioc.tail, w.ioc.avail, w.ioc.tail, CqUsers(cq[..n]));
  }

  lemma InvShape(w: World)
    requires Inv(w)
    ensures WorldShape(w) && w.ioc.tail <= |w.ioc.avail|
  {
  }

  lemma PooledUsers(a: seq<TokenId>, m: nat, b: seq<TokenId>, k: nat, users: seq<TokenId>)
    requires m <= |a| && k <= |b| && a[..m] == b[..k] + users
    ensures m == k + |users|
    ensures forall i :: 0 <= i < k ==> a[i] == b[i]
    ensures forall i :: 0 <= i < |users| ==> a[k + i] == users[i]
  {
    assert |a[..m]| == k + |users|;
    forall i | 0 <= i < k
      ensures a[i] == b[i]
    {
      assert a[..m][i] == b[..k][i];
    }
    forall i | 0 <= i < |users|
      ensures a[k + i] == users[i]
    {
      assert a[..m][k + i] == users[i];
    }
  }

  lemma SameCalls(w: World, v: World)
    requires WorldShape(w) && WorldShape(v) && v == w.(cpu := v.cpu)
    ensures forall i :: 0 <= i < |w.ioc.ring.cq| ==>
      CalledFrame(v, i) == CalledFrame(w, i) && CalledBack(v, i) == CalledBack(w, i)
  {
  }
}
