/** lib/Executor.h and the task half of src/Executor.c as functions on values. */
module Scheduler {
  import opened Types
  import opened Collections

  /** `struct Executor` without its `ioc`: `mem` is the block of frames, `slots` the
      array of pointers into it. */
  datatype Exec = Exec(current: nat, size: nat, slots: seq<FrameId>, mem: seq<Frame>)

  /** The array accesses of the operations are within bounds. */
  predicate Shape(e: Exec) {
    && |e.slots| == |e.mem|
    && 1 <= e.size <= |e.slots|
    && e.current < |e.slots|
    && e.current <= e.size
    && forall i :: 0 <= i < |e.slots| ==> e.slots[i] < |e.mem|
  }

  predicate Distinct(e: Exec) {
    forall i, j :: 0 <= i < j < |e.slots| ==> e.slots[i] != e.slots[j]
  }

  /** What every operation keeps: no frame sits in two slots, the main frame stays in
      slot 0 and stays ready. */
  predicate WellFormed(e: Exec) {
    && Shape(e)
    && Distinct(e)
    && e.slots[0] == 0
    && e.mem[0].ready
  }

  /** The frames of the live tasks; the main frame is not one of them. */
  function Live(e: Exec): set<FrameId>
    requires Shape(e)
  {
    set i | 1 <= i < e.size :: e.slots[i]
  }

  predicate ReadyAt(e: Exec, i: nat)
    requires Shape(e) && i < |e.slots|
  {
    e.mem[e.slots[i]].ready
  }

  /** The frame that `get_current_frame` returns. */
  function CurrentFrame(e: Exec): FrameId
    requires Shape(e)
  {
    e.slots[e.current]
  }

  // ---- The scan ----

  function FirstReady(e: Exec, i: nat): (r: nat)
    requires Shape(e)
    ensures r < e.size
    decreases e.size - i
  {
    if i >= e.size then 0
    else if ReadyAt(e, i) then i
    else FirstReady(e, i + 1)
  }

  /** The slot where the scan starts: `current == size` behaves like slot 0. */
  function ScanBase(e: Exec): nat {
    if e.current == e.size then 0 else e.current
  }

  function NextReady(e: Exec): nat
    requires Shape(e)
  {
    FirstReady(e, ScanBase(e) + 1)
  }

  lemma {:induction false} FirstReadyIsFirst(e: Exec, i: nat)
    requires Shape(e)
    ensures var r := FirstReady(e, i);
      || (r == 0 && forall j :: i <= j < e.size ==> !ReadyAt(e, j))
      || (i <= r < e.size && ReadyAt(e, r) && forall j :: i <= j < r ==> !ReadyAt(e, j))
    decreases e.size - i
  {
    if i < e.size && !ReadyAt(e, i) {
      FirstReadyIsFirst(e, i + 1);
    }
  }

  /** `move_to_next_ready_frame`. */
  function Advance(e: Exec): Exec
    requires Shape(e)
  {
    e.(current := NextReady(e))
  }

  // ---- Suspend, finish, spawn ----

  /** `suspend_current_frame` up to and including the save of `swapcontext`. */
  function Suspend(e: Exec, k: Context): Exec
    requires Shape(e)
  {
    var f := CurrentFrame(e);
    var cleared := e.(mem := e.mem[f := e.mem[f].(ready := false)]);
    var moved := Advance(cleared);
    moved.(mem := moved.mem[f := moved.mem[f].(exe := k)])
  }

  /** `swap_current_frame_with_last_frame`. */
  function SwapWithLast(e: Exec): seq<FrameId>
    requires Shape(e)
  {
    e.slots[e.size - 1 := e.slots[e.current]][e.current := e.slots[e.size - 1]]
  }

  /** The switch made at the end of `manage_async_finish`. */
  datatype Switch = ReturnToLink | SwitchTo(next: FrameId)

  /** `manage_async_finish` up to its `swapcontext`; the second part says whether it
      switches to a task or falls off its end, which resumes `uc_link`. */
  function Finish(e: Exec): (Exec, Switch)
    requires Shape(e) && 1 <= e.current < e.size
  {
    var f := e.slots[e.current];
    var last := e.slots[e.size - 1];
    if f == last then
      (e.(size := e.size - 1), ReturnToLink)
    else
      var removed := e.(slots := SwapWithLast(e), size := e.size - 1);
      if e.mem[last].ready then
        (removed.(mem := removed.mem[f := removed.mem[f].(exe := Finished)]), SwitchTo(last))
      else
        var moved := Advance(removed);
        var next := CurrentFrame(moved);
        if next != moved.slots[0] then
          (moved.(mem := moved.mem[f := moved.mem[f].(exe := Finished)]), SwitchTo(next))
        else
          (moved, ReturnToLink)
  }

  /** `async_exec`. */
  function AsyncExec(e: Exec, child: Code): (Exec, int)
    requires Shape(e)
  {
    if e.size >= |e.slots| then (e, -1)
    else
      var f := e.slots[e.size];
      (e.(size := e.size + 1, mem := e.mem[f := e.mem[f].(ready := true, exe := Fresh(child))]), 0)
  }

  /** The state `init_executor` leaves. */
  function InitExec(capacity: nat): Exec
    requires capacity >= 1
  {
    Exec(0, 1, seq(capacity, i => i),
         seq(capacity, i => Frame(i == 0, 0, Unset)))
  }

  /** The state that `init_executor` leaves, slot by slot. */
  lemma InitExecIs(capacity: nat)
    requires capacity >= 1
    ensures var e := InitExec(capacity);
      && e.current == 0 && e.size == 1 && |e.slots| == |e.mem| == capacity
      && forall i :: 0 <= i < capacity ==> e.slots[i] == i && e.mem[i] == Frame(i == 0, 0, Unset)
  {
  }

  // ---- What the operations do, slot by slot ----

  /** After a switch: either no task is ready and the run loop has control, or the
      current slot is the first ready one and every slot before it is not ready. */
  predicate Idle(e: Exec)
    requires Shape(e)
  {
    && (e.current == 0 || e.current == e.size)
    && forall i :: 1 <= i < e.size ==> !ReadyAt(e, i)
  }

  predicate OnFirstReady(e: Exec)
    requires Shape(e)
  {
    && 1 <= e.current < e.size
    && ReadyAt(e, e.current)
    && forall i :: 1 <= i < e.current ==> !ReadyAt(e, i)
  }

  /** The slot that `d` turns of the loop in `move_to_next_ready_frame` reach. */
  function CyclicSlot(e: Exec, d: nat): (r: nat)
    requires e.size >= 1
    ensures r < e.size
  {
    (e.current + d) % e.size
  }

  lemma Remainder(n: nat, m: nat)
    requires m >= 1 && n <= 2 * m
    ensures n % m == if n < m then n else if n < 2 * m then n - m else 0
  {
    assert n >= m ==> n % m == (n - m) % m;
    assert n == 2 * m ==> n % m == m % m;
  }

  lemma CyclicSlotIs(e: Exec, d: nat)
    requires 1 <= e.size && e.current <= e.size && ScanBase(e) + d <= e.size
    ensures CyclicSlot(e, d) == if ScanBase(e) + d < e.size then ScanBase(e) + d else 0
  {
    Remainder(e.current + d, e.size);
  }

  /** The scan stops, within one round, at the first ready frame in cyclic order behind
      `current`, also when `current` is one past the last live slot. */
  lemma ScanIsCyclic(e: Exec) returns (d: nat)
    requires WellFormed(e)
    ensures 1 <= d <= e.size
    ensures Advance(e).current == CyclicSlot(e, d) && ReadyAt(e, CyclicSlot(e, d))
    ensures forall c: nat | 1 <= c < d :: !ReadyAt(e, CyclicSlot(e, c))
  {
    var r, base := NextReady(e), ScanBase(e);
    FirstReadyIsFirst(e, base + 1);
    d := if r == 0 then e.size - base else r - base;
    CyclicSlotIs(e, d);
    forall c: nat | 1 <= c < d
      ensures !ReadyAt(e, CyclicSlot(e, c))
    {
      CyclicSlotIs(e, c);
    }
  }

  lemma AdvanceLands(e: Exec)
    requires WellFormed(e)
    requires forall i :: 1 <= i <= ScanBase(e) && i < e.size ==> !ReadyAt(e, i)
    ensures var e' := Advance(e);
      WellFormed(e') && ((Idle(e') && e'.current == 0) || OnFirstReady(e'))
  {
    FirstReadyIsFirst(e, ScanBase(e) + 1);
    var e' := Advance(e);
    assert forall i :: 0 <= i < |e.slots| ==> ReadyAt(e, i) == ReadyAt(e', i);
  }

  /** Writing a live frame while keeping its readiness moves nothing. */
  lemma SaveInside(e: Exec, f: FrameId, k: Context)
    requires WellFormed(e) && f < |e.mem|
    ensures var e' := e.(mem := e.mem[f := e.mem[f].(exe := k)]);
      && WellFormed(e') && Live(e') == Live(e)
      && (OnFirstReady(e) ==> OnFirstReady(e'))
      && (Idle(e) ==> Idle(e'))
  {
    var e' := e.(mem := e.mem[f := e.mem[f].(exe := k)]);
    assert forall i :: 0 <= i < |e.slots| ==> ReadyAt(e, i) == ReadyAt(e', i);
  }

  lemma ClearCurrent(e: Exec)
    requires WellFormed(e) && OnFirstReady(e)
    ensures var f := CurrentFrame(e);
      var c := e.(mem := e.mem[f := e.mem[f].(ready := false)]);
      && f != 0 && f in Live(e)
      && WellFormed(c) && Live(c) == Live(e)
      && forall i :: 1 <= i <= c.current ==> !ReadyAt(c, i)
  {
    var f := CurrentFrame(e);
    assert f != e.slots[0];
    var c := e.(mem := e.mem[f := e.mem[f].(ready := false)]);
    assert forall i :: 1 <= i < c.current ==> ReadyAt(c, i) == ReadyAt(e, i);
  }

  /** Each live task takes one slot. */
  lemma LiveCount(e: Exec)
    requires WellFormed(e)
    ensures |Live(e)| == e.size - 1
  {
    var s := e.slots[1..e.size];
    DistinctSize(s);
    forall x
      ensures x in s <==> x in Live(e)
    {
      if x in s {
        var j :| 0 <= j < |s| && s[j] == x;
        assert e.slots[j + 1] == x;
      }
      if x in Live(e) {
        var i :| 1 <= i < e.size && e.slots[i] == x;
        assert s[i - 1] == x;
      }
    }
    assert Elements(s) == Live(e);
  }

  /** A suspended frame is written, nothing else changes but the position. */
  lemma SuspendEffect(e: Exec, k: Context)
    requires WellFormed(e) && OnFirstReady(e)
    ensures var e' := Suspend(e, k);
      var f := CurrentFrame(e);
      && WellFormed(e')
      && e'.slots == e.slots && e'.size == e.size
      && e'.mem == e.mem[f := Frame(false, e.mem[f].result, k)]
      && f != 0 && f in Live(e)
      && Live(e') == Live(e)
      && ((Idle(e') && e'.current == 0) || OnFirstReady(e'))
  {
    var f := CurrentFrame(e);
    var cleared := e.(mem := e.mem[f := e.mem[f].(ready := false)]);
    ClearCurrent(e);
    AdvanceLands(cleared);
    SaveInside(Advance(cleared), f, k);
    assert Live(Advance(cleared)) == Live(cleared);
  }

  lemma SwapWellFormed(e: Exec)
    requires WellFormed(e) && 1 <= e.current < e.size
    ensures WellFormed(e.(slots := SwapWithLast(e), size := e.size - 1))
  {
  }

  lemma SwapLive(e: Exec)
    requires WellFormed(e) && 1 <= e.current < e.size
    requires Shape(e.(slots := SwapWithLast(e), size := e.size - 1))
    ensures Live(e.(slots := SwapWithLast(e), size := e.size - 1)) == Live(e) - {e.slots[e.current]}
  {
    var r := e.(slots := SwapWithLast(e), size := e.size - 1);
    var f := e.slots[e.current];
    forall g
      ensures g in Live(r) <==> g in Live(e) - {f}
    {
      if g in Live(r) {
        var i :| 1 <= i < r.size && r.slots[i] == g;
        assert g == e.slots[if i == e.current then e.size - 1 else i];
      }
      if g in Live(e) - {f} {
        var i :| 1 <= i < e.size && e.slots[i] == g;
        assert r.slots[if i == e.size - 1 then e.current else i] == g;
      }
    }
  }

  lemma SwapKeepsShape(e: Exec)
    requires WellFormed(e) && 1 <= e.current < e.size
    ensures var r := e.(slots := SwapWithLast(e), size := e.size - 1);
      WellFormed(r) && Live(r) == Live(e) - {e.slots[e.current]}
  {
    SwapWellFormed(e);
    SwapLive(e);
  }

  /** Swap-with-last removes exactly the finished task: the live frames lose it and
      no other frame of the block is written. */
  lemma FinishEffect(e: Exec)
    requires WellFormed(e) && OnFirstReady(e)
    ensures var (e', sw) := Finish(e);
      var f := CurrentFrame(e);
      && WellFormed(e')
      && |e'.mem| == |e.mem|
      && Live(e') == Live(e) - {f}
      && f in Live(e) && f != 0
      && (forall g :: 0 <= g < |e.mem| && g != f ==> e'.mem[g] == e.mem[g])
      && e'.size == e.size - 1
      && match sw {
        case ReturnToLink => Idle(e')
        case SwitchTo(next) => OnFirstReady(e') && next == CurrentFrame(e')
      }
  {
    var f := CurrentFrame(e);
    assert f != e.slots[0];
    SwapKeepsShape(e);
    var removed := e.(slots := SwapWithLast(e), size := e.size - 1);
    if e.current == e.size - 1 {
      FinishLastSlot(e);
    } else {
      assert f != e.slots[e.size - 1];
      RemovedScan(e);
      if ReadyAt(removed, e.current) {
        SaveInside(removed, f, Finished);
      } else {
        AdvanceLands(removed);
        if CurrentFrame(Advance(removed)) != 0 {
          SaveInside(Advance(removed), f, Finished);
        }
      }
    }
  }

  /** Only two slots change, and they trade places: the order of all other tasks stays. */
  lemma FinishSlots(e: Exec)
    requires WellFormed(e) && 1 <= e.current < e.size
    ensures var s := Finish(e).0.slots;
      && |s| == |e.slots|
      && s[e.current] == e.slots[e.size - 1] && s[e.size - 1] == e.slots[e.current]
      && forall i :: 0 <= i < |s| && i != e.current && i != e.size - 1 ==> s[i] == e.slots[i]
  {
    SwapWellFormed(e);
  }

  /** What the finished task leaves in its frame. */
  lemma FinishedFrame(e: Exec)
    requires WellFormed(e) && 1 <= e.current < e.size
    ensures var (e', sw) := Finish(e);
      var f := CurrentFrame(e);
      && |e'.mem| == |e.mem|
      && e'.mem[f].ready == e.mem[f].ready && e'.mem[f].result == e.mem[f].result
      && e'.mem[f].exe == if sw.SwitchTo? then Finished else e.mem[f].exe
  {
    SwapWellFormed(e);
  }

  lemma FinishLastSlot(e: Exec)
    requires WellFormed(e) && OnFirstReady(e) && e.current == e.size - 1
    ensures var e' := e.(size := e.size - 1);
      Finish(e) == (e', ReturnToLink) && SwapWithLast(e) == e.slots && Idle(e')
  {
    var e' := e.(size := e.size - 1);
    assert forall i :: 0 <= i < |e.slots| ==> ReadyAt(e', i) == ReadyAt(e, i);
  }

  /** After the swap the slots before `current` are still not ready. */
  lemma RemovedScan(e: Exec)
    requires WellFormed(e) && OnFirstReady(e) && e.current < e.size - 1
    ensures var r := e.(slots := SwapWithLast(e), size := e.size - 1);
      && Shape(r) && (forall i :: 1 <= i < r.current ==> !ReadyAt(r, i))
      && r.slots[r.current] == e.slots[e.size - 1]
  {
    SwapKeepsShape(e);
    var r := e.(slots := SwapWithLast(e), size := e.size - 1);
    assert forall i :: 1 <= i < r.current ==> ReadyAt(r, i) == ReadyAt(e, i);
  }

  /** A spawned task gets a frame outside the live ones, marked ready, in the last slot. */
  lemma AsyncExecEffect(e: Exec, child: Code)
    requires WellFormed(e)
    ensures var (e', ret) := AsyncExec(e, child);
      && (ret == -1 <==> e.size == |e.slots|)
      && (ret == -1 ==> e' == e)
      && (ret != -1 ==>
        var f := e.slots[e.size];
        && ret == 0
        && WellFormed(e')
        && e'.slots == e.slots && e'.current == e.current && e'.size == e.size + 1
        && f !in Live(e) && f != 0
        && Live(e') == Live(e) + {f}
        && e'.mem == e.mem[f := Frame(true, e.mem[f].result, Fresh(child))]
        && forall i :: 0 <= i < e.size ==> ReadyAt(e', i) == ReadyAt(e, i))
  {
    if e.size < |e.slots| {
      var (e', ret) := AsyncExec(e, child);
      var f := e.slots[e.size];
      assert f != e.slots[0];
      forall g
        ensures g in Live(e') <==> g in Live(e) + {f}
      {
        if g in Live(e) {
          var i :| 1 <= i < e.size && e.slots[i] == g;
          assert e'.slots[i] == g;
        }
        if g == f {
          assert e'.slots[e.size] == g;
        }
      }
    }
  }
}
