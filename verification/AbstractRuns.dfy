/** What the bag of tasks does over whole runs: every return value is the result that the
    kernel gave to the request of the very call that returns it. */
module AbstractRuns {
  import opened Types
  import opened Machine
  import opened AbstractLoop

  /** A sequence of steps from a bag of unstarted tasks. */
  ghost predicate Trace(p: Program, s: seq<Abs>) {
    && s != []
    && (forall t <- s[0].tasks :: s[0].tasks[t].New?)
    && s[0].queued == [] && s[0].pending == [] && s[0].posted == []
    && (forall k :: 0 <= k < |s| ==> (s[k].cpu.Runs? ==> s[k].cpu.tid !in s[k].tasks))
    && (forall k :: 0 <= k < |s| - 1 ==> AbsStep(p, s[k], s[k + 1]))
  }

  predicate IsRunning(a: Abs, t: Tid) {
    a.cpu.Runs? && a.cpu.tid == t
  }

  /** Task `t`, running `code`, makes request `rid`. */
  predicate Issues(p: Program, a: Abs, a': Abs, t: Tid, rid: Rid, kind: RequestKind, code: Code) {
    && a.cpu == Runs(t, code)
    && p.act(code).Request? && p.act(code).kind == kind
    && a.nextRid == rid && a'.nextRid == rid + 1
  }

  /** The kernel completes request `rid` with result `res`. */
  ghost predicate Completes(a: Abs, a': Abs, rid: Rid, res: int) {
    exists i: nat :: KernelStep(a, a', i, res) && a.pending[i] == rid
  }

  predicate Asked(s: TaskState, rid: Rid, kind: RequestKind, code: Code) {
    (s.Blocked? || s.Done?) && s.rid == rid && s.kind == kind && s.code == code
  }

  // ---- One step ----

  lemma {:induction false} HandAllEffect(tasks: map<Tid, TaskState>, posted: seq<Completion>, n: nat, t: Tid)
    requires n <= |posted| && t in tasks
    ensures var after := HandAll(tasks, posted, n);
      && t in after
      && (after[t] == tasks[t]
          || (tasks[t].Blocked? && after[t].Done?
              && Asked(after[t], tasks[t].rid, tasks[t].kind, tasks[t].code)
              && exists m :: 0 <= m < n && posted[m].rid == after[t].rid
                   && after[t].ret == ReturnValue(after[t].kind, posted[m].res)))
  {
    if n > 0 {
      HandAllEffect(tasks, posted, n - 1, t);
    }
  }

  lemma {:induction false} HandAllKeys(tasks: map<Tid, TaskState>, posted: seq<Completion>, n: nat)
    requires n <= |posted|
    ensures HandAll(tasks, posted, n).Keys == tasks.Keys
  {
    if n > 0 {
      HandAllKeys(tasks, posted, n - 1);
    }
  }

  /** A waiting or answered task is one that asked in this step, or was one before. */
  lemma AskedBefore(p: Program, a: Abs, a': Abs, t: Tid)
    requires AbsStep(p, a, a') && t in a'.tasks && !a'.tasks[t].New?
    ensures var s := a'.tasks[t];
      || Issues(p, a, a', t, s.rid, s.kind, s.code)
      || (t in a.tasks && Asked(a.tasks[t], s.rid, s.kind, s.code))
  {
    if a.cpu.MainAt? && MainStep(p, a, a') {
      if n: nat :| n <= |a.posted| && a' == Receive(a, n) {
        HandAllKeys(a.tasks, a.posted, n);
        HandAllEffect(a.tasks, a.posted, n, t);
      }
    }
  }

  lemma NextRidGrows(p: Program, a: Abs, a': Abs)
    requires AbsStep(p, a, a')
    ensures a.nextRid <= a'.nextRid
  {
  }

  /** An answer is handed over by `process`, or was there before. */
  lemma DoneBefore(p: Program, a: Abs, a': Abs, t: Tid)
    requires AbsStep(p, a, a') && t in a'.tasks && a'.tasks[t].Done?
    ensures var s := a'.tasks[t];
      || (t in a.tasks && a.tasks[t] == s)
      || exists m :: 0 <= m < |a.posted| && a.posted[m].rid == s.rid
           && s.ret == ReturnValue(s.kind, a.posted[m].res)
  {
    if a.cpu.MainAt? && MainStep(p, a, a') {
      if n: nat :| n <= |a.posted| && a' == Receive(a, n) {
        HandAllKeys(a.tasks, a.posted, n);
        HandAllEffect(a.tasks, a.posted, n, t);
      }
    }
  }

  lemma PostedBefore(p: Program, a: Abs, a': Abs, c: Completion)
    requires AbsStep(p, a, a') && c in a'.posted
    ensures c in a.posted || Completes(a, a', c.rid, c.res)
  {
  }

  predicate RidsBelow(a: Abs) {
    && (forall x <- a.queued :: x < a.nextRid)
    && (forall x <- a.pending :: x < a.nextRid)
  }

  lemma TaskRids(p: Program, a: Abs, a': Abs)
    requires a.cpu.Runs? && TaskStep(p, a, a') && RidsBelow(a)
    ensures RidsBelow(a')
  {
    assert a'.pending == a.pending && a'.nextRid >= a.nextRid;
    assert a'.queued == a.queued || (a'.queued == a.queued + [a.nextRid] && a'.nextRid > a.nextRid);
  }

  lemma MainRids(p: Program, a: Abs, a': Abs)
    requires a.cpu.MainAt? && MainStep(p, a, a') && RidsBelow(a)
    ensures RidsBelow(a')
  {
    hide HandAll;
    assert a'.nextRid == a.nextRid;
    assert (a'.queued == a.queued && a'.pending == a.pending)
        || (a'.queued == [] && a'.pending == a.pending + a.queued);
  }

  lemma KernelRids(a: Abs, a': Abs, i: nat, res: int)
    requires KernelStep(a, a', i, res) && RidsBelow(a)
    ensures RidsBelow(a')
  {
    forall x | x in a'.pending
      ensures x in a.pending
    {
      if x in a.pending[i + 1..] {
        assert x in a.pending;
      }
    }
  }

  lemma RidsStayBelow(p: Program, a: Abs, a': Abs)
    requires AbsStep(p, a, a') && RidsBelow(a)
    ensures RidsBelow(a')
  {
    hide TaskStep, MainStep, KernelStep, RidsBelow;
    if a.cpu.Runs? && TaskStep(p, a, a') {
      TaskRids(p, a, a');
    } else if a.cpu.MainAt? && MainStep(p, a, a') {
      MainRids(p, a, a');
    } else if i: nat, res: int :| KernelStep(a, a', i, res) {
      KernelRids(a, a', i, res);
    } else {
      FailedRids(a, a');
    }
  }

  lemma FailedRids(a: Abs, a': Abs)
    requires RidsBelow(a) && a' == a.(cpu := MainAt(Failed))
    ensures RidsBelow(a')
  {
  }

  // ---- Whole runs ----

  /** A waiting or answered task made its request earlier and has not run since. */
  lemma {:induction false} IssuedEarlier(p: Program, s: seq<Abs>, j: nat, t: Tid) returns (i: nat)
    requires Trace(p, s) && j < |s| && t in s[j].tasks && !s[j].tasks[t].New?
    ensures var x := s[j].tasks[t];
      && i < j
      && Issues(p, s[i], s[i + 1], t, x.rid, x.kind, x.code)
      && forall m :: i < m <= j ==> !IsRunning(s[m], t)
  {
    assert AbsStep(p, s[j - 1], s[j - 1 + 1]);
    AskedBefore(p, s[j - 1], s[j], t);
    var x := s[j].tasks[t];
    if Issues(p, s[j - 1], s[j], t, x.rid, x.kind, x.code) {
      i := j - 1;
    } else {
      i := IssuedEarlier(p, s, j - 1, t);
    }
  }

  /** A posted completion was posted by the kernel, for a request it held. */
  lemma {:induction false} PostedEarlier(p: Program, s: seq<Abs>, j: nat, c: Completion) returns (k: nat)
    requires Trace(p, s) && j < |s| && c in s[j].posted
    ensures k < j && Completes(s[k], s[k + 1], c.rid, c.res)
  {
    assert AbsStep(p, s[j - 1], s[j - 1 + 1]);
    PostedBefore(p, s[j - 1], s[j], c);
    if c in s[j - 1].posted {
      k := PostedEarlier(p, s, j - 1, c);
    } else {
      k := j - 1;
    }
  }

  lemma {:induction false} AnsweredEarlier(p: Program, s: seq<Abs>, j: nat, t: Tid) returns (k: nat, res: int)
    requires Trace(p, s) && j < |s| && t in s[j].tasks && s[j].tasks[t].Done?
    ensures var x := s[j].tasks[t];
      k < j && Completes(s[k], s[k + 1], x.rid, res) && x.ret == ReturnValue(x.kind, res)
  {
    hide AbsStep;
    assert AbsStep(p, s[j - 1], s[j - 1 + 1]);
    DoneBefore(p, s[j - 1], s[j], t);
    var x := s[j].tasks[t];
    if t in s[j - 1].tasks && s[j - 1].tasks[t] == x {
      k, res := AnsweredEarlier(p, s, j - 1, t);
    } else {
      var m :| 0 <= m < |s[j - 1].posted| && s[j - 1].posted[m].rid == x.rid
        && x.ret == ReturnValue(x.kind, s[j - 1].posted[m].res);
      res := s[j - 1].posted[m].res;
      k := PostedEarlier(p, s, j - 1, s[j - 1].posted[m]);
    }
  }

  lemma {:induction false} RidsAlwaysBelow(p: Program, s: seq<Abs>, k: nat)
    requires Trace(p, s) && k < |s|
    ensures RidsBelow(s[k])
  {
    if k > 0 {
      RidsAlwaysBelow(p, s, k - 1);
      assert AbsStep(p, s[k - 1], s[k - 1 + 1]);
      RidsStayBelow(p, s[k - 1], s[k]);
    }
  }

  lemma {:induction false} NextRidMonotone(p: Program, s: seq<Abs>, i: nat, k: nat)
    requires Trace(p, s) && i <= k < |s|
    ensures s[i].nextRid <= s[k].nextRid
  {
    if i < k {
      NextRidMonotone(p, s, i, k - 1);
      assert AbsStep(p, s[k - 1], s[k - 1 + 1]);
      NextRidGrows(p, s[k - 1], s[k]);
    }
  }

  /** A request is completed after it is made. */
  lemma IssueBeforeCompletion(p: Program, s: seq<Abs>, i: nat, k: nat, t: Tid, rid: Rid,
                              kind: RequestKind, code: Code, res: int)
    requires Trace(p, s) && i + 1 < |s| && k + 1 < |s|
    requires Issues(p, s[i], s[i + 1], t, rid, kind, code) && Completes(s[k], s[k + 1], rid, res)
    ensures i < k
  {
    RidsAlwaysBelow(p, s, k);
    var x: nat :| KernelStep(s[k], s[k + 1], x, res) && s[k].pending[x] == rid;
    assert rid in s[k].pending;
    if k <= i {
      NextRidMonotone(p, s, k, i);
    }
  }

  /** The switch that makes a task run continues it from its state in the bag. */
  lemma RunsFromBag(p: Program, a: Abs, a': Abs, t: Tid)
    requires AbsStep(p, a, a') && IsRunning(a', t) && !IsRunning(a, t)
    ensures t in a.tasks && !a.tasks[t].Blocked?
    ensures a'.cpu.code == Continue(p, a.tasks[t])
  {
  }

  /** A task that is switched to again continues with the result of its own request. */
  lemma OwnResultOnTrace(p: Program, s: seq<Abs>, j: nat, t: Tid)
    returns (i: nat, k: nat, rid: Rid, kind: RequestKind, code: Code, res: int)
    requires Trace(p, s) && j + 1 < |s|
    requires !IsRunning(s[j], t) && IsRunning(s[j + 1], t)
    requires t in s[j].tasks ==> !s[j].tasks[t].New?
    ensures i < k < j
    ensures Issues(p, s[i], s[i + 1], t, rid, kind, code)
    ensures forall m :: i < m <= j ==> !IsRunning(s[m], t)
    ensures Completes(s[k], s[k + 1], rid, res)
    ensures s[j + 1].cpu.code == p.resume(code, if kind == Wait then 0 else res)
  {
    assert AbsStep(p, s[j], s[j + 1]);
    RunsFromBag(p, s[j], s[j + 1], t);
    var x := s[j].tasks[t];
    rid, kind, code := x.rid, x.kind, x.code;
    i := IssuedEarlier(p, s, j, t);
    k, res := AnsweredEarlier(p, s, j, t);
    IssueBeforeCompletion(p, s, i, k, t, rid, kind, code, res);
  }
}
