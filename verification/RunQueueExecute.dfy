/**
 * The executor of a prepared run queue: tasks become buildable when their
 * dependencies complete, are skipped or run in child processes, and complete
 * or fail as the children exit.
 */
module RunQueueExecute {
  import opened Options
  import opened Finite
  import opened Paths
  import opened TaskPruning
  import opened TaskWeights

  datatype State = Running | Failed | CleanUp | Complete

  /** The counters; skipping adds to active what completing then takes away. */
  datatype Stats = Stats(completed: int, skipped: int, failed: int, active: int, total: int) {
    function TaskFailed(): Stats { this.(active := active - 1, failed := failed + 1) }
    function TaskCompleted(): Stats { this.(active := active - 1, completed := completed + 1) }
    function TaskSkipped(): Stats { this.(active := active + 1, skipped := skipped + 1) }
    function TaskActive(): Stats { this.(active := active + 1) }
  }

  /** The fixed data of a run. */
  datatype Job = Job(depends: seq<set<int>>, revdeps: seq<set<int>>, fnid: seq<int>, stamp: seq<string>,
                     covered: set<int>, noexec: set<int>, prioMap: seq<int>, numberTasks: int, abort: bool)

  /** What preparing a run queue leaves, and at least one thread. */
  ghost predicate Prepared(job: Job) {
    && |job.depends| == |job.revdeps| == |job.fnid| == |job.stamp| == |job.prioMap|
    && InRange(job.depends) && Inverse(job.depends, job.revdeps)
    && (forall t :: 0 <= t < |job.depends| ==> t in job.prioMap)
    && (forall k :: 0 <= k < |job.prioMap| ==> 0 <= job.prioMap[k] < |job.depends|)
    && job.numberTasks >= 1
  }

  // ----- what happens to tasks, in order

  /** A task is started, skipped, stamped without running anything, or its child has exited with a status. */
  datatype Event = Started(task: int) | Skipped(task: int) | Stamped(task: int) | Exited(task: int, status: int)

  ghost function Taken(log: seq<Event>): set<int> {
    if log == [] then {} else AfterTaking(Taken(log[..|log| - 1]), log[|log| - 1])
  }

  ghost function Done(log: seq<Event>): set<int> {
    if log == [] then {} else AfterEnding(Done(log[..|log| - 1]), log[|log| - 1])
  }

  ghost function Broken(log: seq<Event>): set<int> {
    if log == [] then {} else AfterBreaking(Broken(log[..|log| - 1]), log[|log| - 1])
  }

  ghost function AfterTaking(s: set<int>, e: Event): set<int> {
    if e.Started? || e.Skipped? then s + {e.task} else s
  }

  ghost function AfterEnding(s: set<int>, e: Event): set<int> {
    if e.Skipped? || e.Stamped? || (e.Exited? && e.status == 0) then s + {e.task} else s
  }

  ghost function AfterBreaking(s: set<int>, e: Event): set<int> {
    if e.Exited? && e.status != 0 then s + {e.task} else s
  }

  /** The files of the failed tasks, in the order of the failures. */
  ghost function BrokenFiles(log: seq<Event>, fnid: seq<int>): seq<int> {
    if log == [] then [] else AfterBreakingFile(BrokenFiles(log[..|log| - 1], fnid), fnid, log[|log| - 1])
  }

  ghost function AfterBreakingFile(files: seq<int>, fnid: seq<int>, e: Event): seq<int> {
    if e.Exited? && e.status != 0 && 0 <= e.task < |fnid| then files + [fnid[e.task]] else files
  }

  ghost function Skips(log: seq<Event>): int {
    if log == [] then 0 else Skips(log[..|log| - 1]) + if log[|log| - 1].Skipped? then 1 else 0
  }

  /** A task is started or skipped at most once, after all its dependencies; and ends at most once, after its start. */
  ghost predicate Fits(log: seq<Event>, e: Event, depends: seq<set<int>>) {
    match e
    case Started(t) => 0 <= t < |depends| && t !in Taken(log) && depends[t] <= Done(log)
    case Skipped(t) => 0 <= t < |depends| && t !in Taken(log) && depends[t] <= Done(log)
    case Stamped(t) => t in Taken(log) && t !in Done(log) && t !in Broken(log)
    case Exited(t, _) => t in Taken(log) && t !in Done(log) && t !in Broken(log)
  }

  ghost predicate Orderly(log: seq<Event>, depends: seq<set<int>>) {
    log == [] || (Orderly(log[..|log| - 1], depends) && Fits(log[..|log| - 1], log[|log| - 1], depends))
  }

  lemma LogGrows(log: seq<Event>, e: Event, job: Job)
    ensures Taken(log + [e]) == AfterTaking(Taken(log), e)
    ensures Done(log + [e]) == AfterEnding(Done(log), e)
    ensures Broken(log + [e]) == AfterBreaking(Broken(log), e)
    ensures Skips(log + [e]) == Skips(log) + if e.Skipped? then 1 else 0
    ensures BrokenFiles(log + [e], job.fnid) == AfterBreakingFile(BrokenFiles(log, job.fnid), job.fnid, e)
    ensures Orderly(log + [e], job.depends) <==> Orderly(log, job.depends) && Fits(log, e, job.depends)
  {
    assert (log + [e])[..|log|] == log;
  }

  // ----- the state of the executor, as a value

  datatype Exec = Exec(buildable: set<int>, running: set<int>, complete: set<int>, stats: Stats, pids: map<int, int>,
                       stamps: map<int, string>, failedFnids: seq<int>, log: seq<Event>)
  {
    /** Completing t outright: it may make tasks that depend on it buildable. */
    ghost function Released(job: Job, t: int): Exec
      requires 0 <= t < |job.revdeps| <= |job.depends|
    {
      var c := complete + {t};
      this.(complete := c, buildable := buildable + Freed(job, job.revdeps[t], running, c))
    }

    ghost function WithChild(job: Job, t: int, pid: int): Exec
      requires 0 <= t < |job.stamp|
    {
      this.(running := running + {t}, stats := stats.TaskActive(), pids := pids[pid := t],
        stamps := stamps[pid := job.stamp[t]],
            log := log + [Started(t)])
    }

    ghost function WithoutChild(pid: int): Exec {
      this.(pids := pids - {pid}, stamps := stamps - {pid})
    }

    /** Task t completes, by event e. */
    ghost function AfterCompletion(job: Job, t: int, e: Event): Exec
      requires 0 <= t < |job.revdeps| <= |job.depends|
    {
      this.(stats := stats.TaskCompleted(), log := log + [e]).Released(job, t)
    }

    ghost function AfterFailure(job: Job, t: int, status: int): Exec
      requires 0 <= t < |job.fnid|
    {
      this.(stats := stats.TaskFailed(), failedFnids := failedFnids + [job.fnid[t]], log := log + [Exited(t, status)])
    }

    /** The child pid exits with the given status. */
    ghost function AfterExit(job: Job, pid: int, status: int): Exec
      requires pid in pids && 0 <= pids[pid] < |job.revdeps| <= |job.depends| == |job.fnid|
    {
      var x := WithoutChild(pid);
      if status != 0 then x.AfterFailure(job, pids[pid], status)
      else x.AfterCompletion(job, pids[pid], Exited(pids[pid], status))
    }

    ghost function AfterSkip(job: Job, t: int): Exec
      requires 0 <= t < |job.revdeps| <= |job.depends|
    {
      this.(running := running + {t}, buildable := buildable + {t}, stats := stats.TaskCompleted().TaskSkipped(),
            log := log + [Skipped(t)]).Released(job, t)
    }

    ghost function AfterNoExec(job: Job, t: int): Exec
      requires 0 <= t < |job.revdeps| <= |job.depends|
    {
      this.(running := running + {t}, stats := stats.TaskActive(), log := log + [Started(t)]).AfterCompletion(job,
        t, Stamped(t))
    }
  }

  ghost function Freed(job: Job, candidates: set<int>, running: set<int>, complete: set<int>): set<int> {
    set r | r in candidates && 0 <= r < |job.depends| && r !in running && job.depends[r] <= complete
  }

  /** Buildable are exactly the tasks whose dependencies are all complete. */
  ghost predicate BuildableOk(job: Job, buildable: set<int>, complete: set<int>) {
    forall t :: t in buildable <==> 0 <= t < |job.depends| && job.depends[t] <= complete
  }

  /**
   * The tasks marked as running are those that completed, those that failed and those with a live
   * child, without overlap.
   */
  ghost predicate MarksOk(x: Exec) {
    && x.running == Taken(x.log) && x.complete == Done(x.log)
    && x.running == x.complete + Broken(x.log) + x.pids.Values
    && x.complete !! Broken(x.log) && x.complete !! x.pids.Values && Broken(x.log) !! x.pids.Values
    && x.running <= x.buildable
  }

  /** Live children work on distinct stamps. */
  ghost predicate ChildrenOk(job: Job, x: Exec) {
    && x.stamps.Keys == x.pids.Keys
    && (forall p :: p in x.pids ==> 0 <= x.pids[p] < |job.stamp| && x.stamps[p] == job.stamp[x.pids[p]])
    && (forall p, q :: p in x.stamps && q in x.stamps && p != q ==> x.stamps[p] != x.stamps[q])
  }

  ghost predicate CountsOk(job: Job, x: Exec) {
    && x.stats.active == |x.pids| <= job.numberTasks
    && x.stats.completed == |x.complete|
    && x.stats.failed == |Broken(x.log)|
    && x.stats.total == |job.depends|
    && x.stats.skipped == Skips(x.log)
  }

  ghost predicate Inv(job: Job, x: Exec) {
    && Prepared(job)
    && BuildableOk(job, x.buildable, x.complete)
    && MarksOk(x)
    && ChildrenOk(job, x)
    && CountsOk(job, x)
    && x.failedFnids == BrokenFiles(x.log, job.fnid)
    && Orderly(x.log, job.depends)
  }

  /** Completed, failed and active tasks add up to those marked as running. */
  lemma Accounting(job: Job, x: Exec)
    requires Inv(job, x)
    ensures x.stats.completed + x.stats.failed + x.stats.active == |x.running|
  {
    Children(job, x);
    ThreeParts(x.running, x.complete, Broken(x.log), x.pids.Values);
  }

  lemma Children(job: Job, x: Exec)
    requires ChildrenOk(job, x)
    ensures |x.pids.Values| == |x.pids|
  {
    forall p, q | p in x.pids && q in x.pids && p != q ensures x.pids[p] != x.pids[q] {
      assert x.stamps[p] != x.stamps[q];
    }
    InjectiveValues(x.pids);
  }

  // ----- every step keeps the invariant

  lemma ReleasedOk(job: Job, x: Exec, t: int)
    requires Prepared(job) && 0 <= t < |job.depends|
    requires BuildableOk(job, x.buildable, x.complete) && x.running <= x.buildable
    ensures BuildableOk(job, x.Released(job, t).buildable, x.complete + {t})
  {
    var c := x.complete + {t};
    var b := x.Released(job, t).buildable;
    forall r ensures r in b <==> 0 <= r < |job.depends| && job.depends[r] <= c {
      if 0 <= r < |job.depends| && job.depends[r] <= c && r !in x.buildable {
        assert t in job.depends[r] by {
          assert forall d :: d in job.depends[r] && d != t ==> d in x.complete;
        }
        assert r in job.revdeps[t];
      }
    }
  }

  /** t may be taken up next. */
  ghost predicate MayTake(job: Job, x: Exec, t: int) {
    && 0 <= t < |job.depends| && t in x.buildable && t !in x.running
    && t < |job.stamp| && job.stamp[t] !in x.stamps.Values
  }

  lemma StartKeeps(job: Job, x: Exec, t: int, pid: int)
    requires Inv(job, x) && MayTake(job, x, t) && pid !in x.pids && x.stats.active < job.numberTasks
    ensures Inv(job, x.WithChild(job, t, pid))
  {
    LogGrows(x.log, Started(t), job);
    ValuesAdd(x.pids, pid, t);
    StartMarks(job, x, t, pid);
    StartChildren(job, x, t, pid);
  }

  lemma StartMarks(job: Job, x: Exec, t: int, pid: int)
    requires MarksOk(x) && MayTake(job, x, t) && pid !in x.pids
    ensures MarksOk(x.WithChild(job, t, pid))
  {
    hide Taken;
    hide Done;
    hide Broken;
    hide BrokenFiles;
    hide Skips;
    hide Orderly;
    hide Fits;
    LogGrows(x.log, Started(t), job);
    ValuesAdd(x.pids, pid, t);
    JoinThird(x.running, x.complete, Broken(x.log), x.pids.Values, t);
  }

  lemma StartChildren(job: Job, x: Exec, t: int, pid: int)
    requires ChildrenOk(job, x) && MayTake(job, x, t) && pid !in x.pids
    ensures ChildrenOk(job, x.WithChild(job, t, pid))
  {
    forall p | p in x.stamps ensures x.stamps[p] != job.stamp[t] {
      assert x.stamps[p] in x.stamps.Values;
    }
  }

  // A child exits.

  lemma OtherChildren(job: Job, x: Exec, pid: int)
    requires ChildrenOk(job, x) && pid in x.pids
    ensures ChildrenOk(job, x.WithoutChild(pid))
    ensures x.WithoutChild(pid).pids.Values == x.pids.Values - {x.pids[pid]}
    ensures |x.WithoutChild(pid).pids| == |x.pids| - 1
    ensures 0 <= x.pids[pid] < |job.stamp| && x.pids[pid] in x.pids.Values
  {
    forall q | q in x.pids && q != pid ensures x.pids[q] != x.pids[pid] {
      assert x.stamps[q] != x.stamps[pid];
    }
    ValuesRemove(x.pids, pid);
  }

  lemma EndMarks(job: Job, x: Exec, pid: int, e: Event, y: Exec)
    requires MarksOk(x) && ChildrenOk(job, x) && pid in x.pids && e.task == x.pids[pid]
    requires e.Exited?
    requires y.pids == x.pids - {pid} && y.log == x.log + [e] && y.running == x.running && x.buildable <= y.buildable
    requires y.complete == if e.status == 0 then x.complete + {e.task} else x.complete
    ensures MarksOk(y)
    ensures |y.complete| + |Broken(y.log)| == |x.complete| + |Broken(x.log)| + 1
    ensures e.status != 0 ==> |Broken(y.log)| == |Broken(x.log)| + 1
    ensures Fits(x.log, e, job.depends)
  {
    hide Taken;
    hide Done;
    hide Broken;
    hide BrokenFiles;
    hide Skips;
    hide Orderly;
    hide ChildrenOk;
    LogGrows(x.log, e, job);
    OtherChildren(job, x, pid);
    assert y.pids == x.WithoutChild(pid).pids;
    var c, b, v := x.complete, Broken(x.log), x.pids.Values;
    ThirdToFirst(x.running, c, b, v, e.task);
    ThirdToSecond(x.running, c, b, v, e.task);
  }

  lemma CompletionKeeps(job: Job, x: Exec, pid: int)
    requires Inv(job, x) && pid in x.pids
    ensures 0 <= x.pids[pid] < |job.depends|
    ensures Inv(job, x.WithoutChild(pid).AfterCompletion(job, x.pids[pid], Exited(x.pids[pid], 0)))
  {
    hide Taken;
    hide Done;
    hide Broken;
    hide BrokenFiles;
    hide Skips;
    hide Orderly;
    hide ChildrenOk;
    hide MarksOk;
    hide Fits;
    hide BuildableOk;
    hide InRange;
    hide Inverse;
    OtherChildren(job, x, pid);
    var t := x.pids[pid];
    var y := x.WithoutChild(pid).AfterCompletion(job, t, Exited(t, 0));
    EndMarks(job, x, pid, Exited(t, 0), y);
    LogGrows(x.log, Exited(t, 0), job);
    RunningBuildable(x);
    ReleasedOk(job, x, t);
    SameChildren(job, x.WithoutChild(pid), y);
  }

  lemma SameChildren(job: Job, x: Exec, y: Exec)
    requires ChildrenOk(job, x) && y.pids == x.pids && y.stamps == x.stamps
    ensures ChildrenOk(job, y)
  {
  }

  lemma RunningBuildable(x: Exec)
    requires MarksOk(x)
    ensures x.running <= x.buildable
  {
  }

  lemma FailureKeeps(job: Job, x: Exec, pid: int, status: int)
    requires Inv(job, x) && pid in x.pids && status != 0
    ensures 0 <= x.pids[pid] < |job.fnid|
    ensures Inv(job, x.WithoutChild(pid).AfterFailure(job, x.pids[pid], status))
  {
    hide Taken;
    hide Done;
    hide Broken;
    hide BrokenFiles;
    hide Skips;
    hide Orderly;
    hide ChildrenOk;
    hide MarksOk;
    hide Fits;
    hide BuildableOk;
    OtherChildren(job, x, pid);
    var t := x.pids[pid];
    var y := x.WithoutChild(pid).AfterFailure(job, t, status);
    EndMarks(job, x, pid, Exited(t, status), y);
    LogGrows(x.log, Exited(t, status), job);
    SameChildren(job, x.WithoutChild(pid), y);
  }

  // A task is skipped, or stamped without running anything.

  lemma AtOnceLog(job: Job, log: seq<Event>, t: int, es: seq<Event>)
    requires es == [Skipped(t)] || es == [Started(t), Stamped(t)]
    requires Orderly(log, job.depends) && t !in Taken(log) && t !in Done(log) && t !in Broken(log)
    requires 0 <= t < |job.depends| && job.depends[t] <= Done(log)
    ensures Taken(log + es) == Taken(log) + {t}
    ensures Done(log + es) == Done(log) + {t}
    ensures Broken(log + es) == Broken(log)
    ensures BrokenFiles(log + es, job.fnid) == BrokenFiles(log, job.fnid)
    ensures Skips(log + es) == Skips(log) + if |es| == 1 then 1 else 0
    ensures Orderly(log + es, job.depends)
  {
    hide Taken;
    hide Done;
    hide Broken;
    hide BrokenFiles;
    hide Skips;
    hide Orderly;
    LogGrows(log, es[0], job);
    if |es| == 2 {
      LogGrows(log + [es[0]], es[1], job);
      assert log + es == log + [es[0]] + [es[1]];
    } else {
      assert log + es == log + [es[0]];
    }
  }

  lemma AtOnceMarks(job: Job, x: Exec, t: int, es: seq<Event>, y: Exec)
    requires MarksOk(x) && MayTake(job, x, t) && BuildableOk(job, x.buildable, x.complete)
      && Orderly(x.log, job.depends)
    requires es == [Skipped(t)] || es == [Started(t), Stamped(t)]
    requires y.pids == x.pids && y.log == x.log + es && y.running == x.running + {t} && x.buildable <= y.buildable
    requires y.complete == x.complete + {t}
    ensures MarksOk(y)
    ensures |y.complete| == |x.complete| + 1 && Broken(y.log) == Broken(x.log)
    ensures BrokenFiles(y.log, job.fnid) == BrokenFiles(x.log, job.fnid)
    ensures Skips(y.log) == Skips(x.log) + if |es| == 1 then 1 else 0
    ensures Orderly(y.log, job.depends)
  {
    hide Taken;
    hide Done;
    hide Broken;
    hide BrokenFiles;
    hide Skips;
    hide Orderly;
    assert t !in x.complete && t !in Broken(x.log);
    AtOnceLog(job, x.log, t, es);
    JoinFirst(x.running, x.complete, Broken(x.log), x.pids.Values, t);
  }

  lemma SkipKeeps(job: Job, x: Exec, t: int)
    requires Inv(job, x) && MayTake(job, x, t)
    ensures Inv(job, x.AfterSkip(job, t))
  {
    hide Taken;
    hide Done;
    hide Broken;
    hide BrokenFiles;
    hide Skips;
    hide Orderly;
    hide ChildrenOk;
    hide MarksOk;
    hide Fits;
    hide BuildableOk;
    hide InRange;
    hide Inverse;
    var y := x.AfterSkip(job, t);
    AtOnceMarks(job, x, t, [Skipped(t)], y);
    RunningBuildable(x);
    var z := x.(running := x.running + {t}, buildable := x.buildable + {t});
    assert z.buildable == x.buildable;
    ReleasedOk(job, z, t);
    SameChildren(job, x, y);
  }

  lemma NoExecKeeps(job: Job, x: Exec, t: int)
    requires Inv(job, x) && MayTake(job, x, t)
    ensures Inv(job, x.AfterNoExec(job, t))
  {
    hide Taken;
    hide Done;
    hide Broken;
    hide BrokenFiles;
    hide Skips;
    hide Orderly;
    hide ChildrenOk;
    hide MarksOk;
    hide Fits;
    hide BuildableOk;
    hide InRange;
    hide Inverse;
    var y := x.AfterNoExec(job, t);
    assert y.log == x.log + [Started(t), Stamped(t)];
    AtOnceMarks(job, x, t, [Started(t), Stamped(t)], y);
    RunningBuildable(x);
    ReleasedOk(job, x.(running := x.running + {t}), t);
    SameChildren(job, x, y);
  }

  // ----- what a run that has come to rest has achieved

  /** No child is alive and nothing buildable is left. */
  ghost predicate Settled(x: Exec) {
    x.pids == map[] && x.buildable <= x.running
  }

  /** Task t is, or needs, a failed task. */
  ghost predicate NeedsBroken(job: Job, x: Exec, t: int) {
    exists f :: f in Broken(x.log) && Reaches(Adj(job.depends), t, f)
  }

  lemma NeedsComplete(job: Job, x: Exec, t: int, d: int)
    requires Inv(job, x) && t in x.complete && d in Adj(job.depends)(t)
    ensures d in x.complete
  {
    assert t in x.buildable;
  }

  lemma CompleteClosed(job: Job, x: Exec, t: int, f: int)
    requires Inv(job, x) && t in x.complete && Reaches(Adj(job.depends), t, f)
    ensures f in x.complete
  {
    forall u, v | u in x.complete && v in Adj(job.depends)(u) ensures v in x.complete {
      NeedsComplete(job, x, u, v);
    }
    hide Inv;
    hide Adj;
    hide Reaches;
    ClosedUnderReaches(Adj(job.depends), (iset u | u in x.complete), t, f);
  }

  /** Whatever has been taken had its dependencies done, whatever is done was taken. */
  lemma {:induction false} LogFacts(log: seq<Event>, depends: seq<set<int>>)
    requires Orderly(log, depends)
    ensures Done(log) <= Taken(log)
    ensures forall t :: t in Taken(log) ==> 0 <= t < |depends| && depends[t] <= Done(log)
  {
    if log != [] {
      LogFacts(log[..|log| - 1], depends);
    }
  }

  lemma {:induction false} EventsCounted(log: seq<Event>, depends: seq<set<int>>)
    requires Orderly(log, depends)
    ensures Done(log) !! Broken(log) && Broken(log) <= Taken(log)
    ensures |log| <= |Taken(log)| + |Done(log)| + |Broken(log)|
  {
    if log != [] {
      var prefix, e := log[..|log| - 1], log[|log| - 1];
      EventsCounted(prefix, depends);
      LogFacts(prefix, depends);
    }
  }

  /** Each task is taken up once and ends once, so that at most twice as many things happen as there are tasks. */
  lemma LogBound(log: seq<Event>, depends: seq<set<int>>)
    requires Orderly(log, depends)
    ensures |log| <= 2 * |depends|
  {
    EventsCounted(log, depends);
    LogFacts(log, depends);
    SubsetCard(Taken(log), Range(|depends|));
    SubsetCard(Done(log) + Broken(log), Range(|depends|));
  }

  /** The order in which tasks were done ranks them above their dependencies. */
  lemma {:induction false} DoneRanked(log: seq<Event>, depends: seq<set<int>>) returns (rank: map<int, int>)
    requires Orderly(log, depends)
    ensures Ranked(depends, Done(log), rank)
    ensures forall t :: t in Done(log) ==> rank[t] < |log|
  {
    rank := map[];
    if log != [] {
      var prefix := log[..|log| - 1];
      var e := log[|log| - 1];
      LogFacts(prefix, depends);
      var before := DoneRanked(prefix, depends);
      rank := if e.Skipped? || e.Stamped? || (e.Exited? && e.status == 0) then before[e.task := |prefix|] else before;
      DoneRankStep(prefix, e, depends, before, rank);
    }
  }

  lemma DoneRankStep(log: seq<Event>, e: Event, depends: seq<set<int>>, before: map<int, int>, rank: map<int, int>)
    requires Ranked(depends, Done(log), before) && (forall t :: t in Done(log) ==> before[t] < |log|)
    requires Fits(log, e, depends) && Done(log) <= Taken(log)
    requires forall t :: t in Taken(log) ==> 0 <= t < |depends| && depends[t] <= Done(log)
    requires rank == if e.Skipped? || e.Stamped? || (e.Exited? && e.status == 0) then before[e.task := |log|]
      else before
    ensures Ranked(depends, AfterEnding(Done(log), e), rank)
    ensures forall t :: t in AfterEnding(Done(log), e) ==> rank[t] <= |log|
  {
    hide Taken;
    hide Done;
    hide Broken;
    var done, done' := Done(log), AfterEnding(Done(log), e);
    assert e.task !in done;
    forall t | t in done'
      ensures t in rank && 0 <= rank[t] <= |log| && 0 <= t < |depends|
        && TaskWeights.Below(depends[t], done', rank, rank[t])
    {
      if t in done {
        assert TaskWeights.Below(depends[t], done, before, before[t]);
      }
    }
  }

  lemma CompleteMeetsNoCycle(job: Job, x: Exec, t: int)
    requires Inv(job, x) && t in x.complete
    ensures !ReachesCycle(job.depends, t)
  {
    var rank := DoneRanked(x.log, job.depends);
    RankedNoCycle(job.depends, Done(x.log), rank, t);
  }

  /**
   * The outcome: a task is complete exactly if it neither failed, nor needs a
   * failed task, nor needs a cycle of tasks.
   */
  lemma Outcome(job: Job, x: Exec, t: int)
    requires Inv(job, x) && Settled(x) && 0 <= t < |job.depends|
    ensures t in x.complete <==> !NeedsBroken(job, x, t) && !ReachesCycle(job.depends, t)
  {
    if t in x.complete {
      CompleteMeetsNoCycle(job, x, t);
      forall f | Reaches(Adj(job.depends), t, f) ensures f in x.complete {
        CompleteClosed(job, x, t, f);
      }
    } else if !NeedsBroken(job, x, t) {
      var rest := set u | 0 <= u < |job.depends| && u !in x.complete && !NeedsBroken(job, x, u);
      RestIsStuck(job, x, rest);
      StuckReachesCycle(job.depends, Range(|job.depends|) - rest, t);
    }
  }

  lemma RestIsStuck(job: Job, x: Exec, rest: set<int>)
    requires Inv(job, x) && Settled(x)
    requires forall u :: u in rest <==> 0 <= u < |job.depends| && u !in x.complete && !NeedsBroken(job, x, u)
    ensures Stuck(job.depends, Range(|job.depends|) - rest)
  {
    hide NeedsBroken;
    hide Stuck;
    var outside := Range(|job.depends|) - rest;
    forall u | 0 <= u < |job.depends| && u !in outside ensures job.depends[u] - outside != {} {
      var d := IncompleteNeed(job, x, u);
      assert d in job.depends[u] - outside;
    }
    StuckIs(job.depends, outside);
  }

  lemma StuckIs(depends: seq<set<int>>, done: set<int>)
    requires forall u :: 0 <= u < |depends| && u !in done ==> depends[u] - done != {}
    ensures Stuck(depends, done)
  {
  }

  /** A task left behind without a failure below it has an incomplete dependency of the same kind. */
  lemma IncompleteNeed(job: Job, x: Exec, u: int) returns (d: int)
    requires Inv(job, x) && Settled(x) && 0 <= u < |job.depends| && u !in x.complete && !NeedsBroken(job, x, u)
    ensures d in job.depends[u] && 0 <= d < |job.depends| && d !in x.complete && !NeedsBroken(job, x, d)
  {
    hide Inv;
    hide Reaches;
    NotBroken(job, x, u);
    d := OpenNeed(job, x, u);
    if NeedsBroken(job, x, d) {
      var f :| f in Broken(x.log) && Reaches(Adj(job.depends), d, f);
      ReachesEdge(Adj(job.depends), u, d);
      ReachesTrans(Adj(job.depends), u, d, f);
    }
  }

  lemma NotBroken(job: Job, x: Exec, u: int)
    requires !NeedsBroken(job, x, u)
    ensures u !in Broken(x.log)
  {
    ReachesSelf(Adj(job.depends), u);
  }

  lemma OpenNeed(job: Job, x: Exec, u: int) returns (d: int)
    requires Inv(job, x) && Settled(x) && 0 <= u < |job.depends| && u !in x.complete && u !in Broken(x.log)
    ensures d in job.depends[u] && 0 <= d < |job.depends| && d !in x.complete
  {
    hide Broken;
    hide Taken;
    hide Done;
    hide Orderly;
    hide BrokenFiles;
    hide Skips;
    NothingLive(x);
    assert u !in x.running;
    d := Finite.Outside(job.depends[u], x.complete);
  }

  lemma NothingLive(x: Exec)
    requires x.pids == map[]
    ensures x.pids.Values == {}
  {
  }

  // ----- the executor

  ghost function Marked(s: seq<bool>): set<int> {
    set t | 0 <= t < |s| && s[t]
  }

  lemma MarkOne(s: seq<bool>, t: int)
    requires 0 <= t < |s|
    ensures Marked(s[t := true]) == Marked(s) + {t}
  {
  }

  lemma IsMarked(s: seq<bool>, t: int)
    requires 0 <= t < |s|
    ensures t in Marked(s) <==> s[t]
  {
  }

  lemma PriorityOrder(job: Job, x: Exec)
    requires Inv(job, x)
    ensures |job.prioMap| == |job.depends| == |job.stamp|
    ensures forall k :: 0 <= k < |job.prioMap| ==> 0 <= job.prioMap[k] < |job.depends|
  {
  }

  lemma RevdepInRange(job: Job, t: int, r: int)
    requires Prepared(job) && 0 <= t < |job.depends| && r in job.revdeps[t]
    ensures 0 <= r < |job.depends| && forall d :: d in job.depends[r] ==> 0 <= d < |job.depends|
  {
  }

  lemma NoneFreed(job: Job, all: set<int>, running: set<int>, complete: set<int>)
    ensures Freed(job, all - all, running, complete) == {}
  {
  }

  /** Looking at one more task, r, that depends on the completed one. */
  lemma FreedStep(job: Job, all: set<int>, todo: set<int>, r: int, running: set<int>, complete: set<int>,
      was: set<int>, now: set<int>)
    requires r in todo && todo <= all && 0 <= r < |job.depends|
    requires now == was + Freed(job, all - todo, running, complete)
    ensures was + Freed(job, all - (todo - {r}), running, complete) ==
            if r in now || (r !in running && job.depends[r] <= complete) then now + {r} else now
    ensures r in now ==> now + {r} == now
  {
    TakeOut(all, todo, r);
  }

  /** The sanity checks that a completed run may fail. */
  datatype Problem = NeverBuildable(task: int) | NeverRan(task: int) | NeverCompleted(task: int)

  /** A finished run: nothing is left, and its outcome follows from the failures and the shape of the dependencies. */
  ghost predicate Finished(job: Job, x: Exec) {
    && Settled(x)
    && forall t :: 0 <= t < |job.depends| ==>
         (t in x.complete <==> !NeedsBroken(job, x, t) && !ReachesCycle(job.depends, t))
  }

  ghost predicate Acyclic(depends: seq<set<int>>) {
    forall t :: 0 <= t < |depends| ==> !ReachesCycle(depends, t)
  }

  /** What the environment contributes to a round; a fork never gets the number of a live child. */
  datatype Round = Round(current: set<int>, pid: int, exit: Option<(int, int)>)

  class RunQueueExecuteTasks {
    const job: Job
    var buildable: seq<bool>
    var running: seq<bool>
    var complete: seq<bool>
    var stats: Stats
    var buildPids: map<int, int>
    var buildStamps: map<int, string>
    var failedFnids: seq<int>
    var state: State
    ghost var log: seq<Event>

    ghost function Now(): Exec
      reads this
    {
      Exec(Marked(buildable), Marked(running), Marked(complete), stats, buildPids, buildStamps, failedFnids, log)
    }

    ghost predicate Aligned()
      reads this
    {
      |job.depends| == |buildable| == |running| == |complete|
    }

    ghost predicate Valid()
      reads this
    {
      Aligned() && Inv(job, Now())
    }

    constructor (job: Job)
      requires Prepared(job)
      ensures this.job == job && Valid() && state == Running && log == [] && buildPids == map[]
    {
      this.job := job;
      buildable, running, complete := [], [], [];
      stats := Stats(0, 0, 0, 0, |job.fnid|);
      buildPids, buildStamps, failedFnids := map[], map[], [];
      state := Running;
      log := [];
      new;
      var task := 0;
      while task < |job.fnid|
        invariant 0 <= task <= |job.fnid| == |job.depends| && this.job == job
        invariant |buildable| == |running| == |complete| == task
        invariant forall t :: 0 <= t < task ==> !running[t] && !complete[t] && (buildable[t] <==> job.depends[t] == {})
        invariant stats == Stats(0, 0, 0, 0, |job.fnid|) && buildPids == map[] && buildStamps == map[]
            && failedFnids == []
        invariant state == Running && log == []
      {
        running := running + [false];
        complete := complete + [false];
        buildable := buildable + [|job.depends[task]| == 0];
        task := task + 1;
      }
      assert Marked(running) == {} && Marked(complete) == {};
      NothingLive(Now());
    }

    /** Marks a task as completed and what that makes buildable. */
    method TaskCompleteOutright(task: int)
      requires Aligned() && Prepared(job) && 0 <= task < |job.depends|
      modifies `complete, `buildable
      ensures Aligned() && Now() == old(Now()).Released(job, task)
    {
      hide Marked;
      hide Freed;
      hide InRange;
      MarkOne(complete, task);
      complete := complete[task := true];
      ghost var was := buildable;
      NoneFreed(job, job.revdeps[task], Marked(running), Marked(complete));
      var todo := job.revdeps[task];
      while todo != {}
        invariant todo <= job.revdeps[task]
        invariant Aligned() && complete == old(complete)[task := true]
        invariant Marked(buildable) == Marked(was) + Freed(job, job.revdeps[task] - todo, Marked(running),
            Marked(complete))
        decreases |todo|
      {
        var revdep := Pick(todo);
        RevdepInRange(job, task, revdep);
        IsMarked(running, revdep);
        IsMarked(buildable, revdep);
        FreedStep(job, job.revdeps[task], todo, revdep, Marked(running), Marked(complete), Marked(was),
          Marked(buildable));
        todo := todo - {revdep};
        if running[revdep] || buildable[revdep] {
          continue;
        }
        var alldeps := AllComplete(job.depends[revdep]);
        if alldeps {
          MarkOne(buildable, revdep);
          buildable := buildable[revdep := true];
        }
      }
      MinusNothing(job.revdeps[task]);
    }

    method AllComplete(deps: set<int>) returns (all: bool)
      requires forall d :: d in deps ==> 0 <= d < |complete|
      ensures all <==> deps <= Marked(complete)
    {
      all := true;
      var rest := deps;
      while rest != {}
        invariant rest <= deps
        invariant all <==> deps - rest <= Marked(complete)
        decreases |rest|
      {
        var dep := Pick(rest);
        TakeOut(deps, rest, dep);
        rest := rest - {dep};
        if !complete[dep] {
          all := false;
        }
      }
    }

    method TaskComplete(task: int, ghost e: Event)
      requires Aligned() && Prepared(job) && 0 <= task < |job.depends|
      modifies `complete, `buildable, `stats, `log
      ensures Aligned() && Now() == old(Now()).AfterCompletion(job, task, e)
    {
      stats := stats.TaskCompleted();
      log := log + [e];
      TaskCompleteOutright(task);
    }

    method TaskFail(task: int, status: int)
      requires Aligned() && Prepared(job) && 0 <= task < |job.fnid|
      modifies `stats, `failedFnids, `state, `log
      ensures Aligned() && Now() == old(Now()).AfterFailure(job, task, status)
      ensures state == if job.abort then CleanUp else old(state)
    {
      stats := stats.TaskFailed();
      failedFnids := failedFnids + [job.fnid[task]];
      log := log + [Exited(task, status)];
      if job.abort {
        state := CleanUp;
      }
    }

    method TaskSkip(task: int)
      requires Aligned() && Prepared(job) && 0 <= task < |job.depends|
      modifies `running, `buildable, `complete, `stats, `log
      ensures Aligned() && Now() == old(Now()).AfterSkip(job, task)
    {
      MarkOne(running, task);
      running := running[task := true];
      MarkOne(buildable, task);
      buildable := buildable[task := true];
      log := log + [Skipped(task)];
      TaskCompleteOutright(task);
      stats := stats.TaskCompleted();
      stats := stats.TaskSkipped();
    }

    /** The first task in priority order that may be taken up. */
    method NextBuildableTask() returns (next: Option<int>)
      requires Valid()
      ensures next.Some? ==> exists k :: 0 <= k < |job.prioMap| && job.prioMap[k] == next.value && NoneBefore(k)
      ensures next.Some? ==> MayTake(job, Now(), next.value)
      ensures next.None? ==> NoneBefore(|job.prioMap|)
    {
      hide Inv;
      hide Marked;
      PriorityOrder(job, Now());
      var tasknum := 0;
      while tasknum < |job.depends|
        invariant 0 <= tasknum <= |job.depends|
        invariant NoneBefore(tasknum)
      {
        var taskid := job.prioMap[tasknum];
        IsMarked(running, taskid);
        IsMarked(buildable, taskid);
        if !running[taskid] && buildable[taskid] && job.stamp[taskid] !in buildStamps.Values {
          return Some(taskid);
        }
        tasknum := tasknum + 1;
      }
      return None;
    }

    /** No task before position k of the priority order may be taken up. */
    ghost predicate NoneBefore(k: int)
      requires 0 <= k <= |job.prioMap|
      reads this
    {
      forall i :: 0 <= i < k ==> !MayTake(job, Now(), job.prioMap[i])
    }

    method Next() returns (next: Option<int>)
      requires Valid()
      ensures next.Some? ==> MayTake(job, Now(), next.value) && |buildPids| < job.numberTasks
      ensures next.None? && |buildPids| < job.numberTasks ==> NoneBefore(|job.prioMap|)
    {
      if stats.active < job.numberTasks {
        next := NextBuildableTask();
      } else {
        next := None;
      }
    }

    /** Collects the exit of a child, if there is one to collect. */
    method ProcessWaitpid(reaped: Option<(int, int)>) returns (collected: bool)
      requires Valid() && (reaped.Some? ==> reaped.value.0 in buildPids)
      modifies this
      ensures Valid() && collected == reaped.Some?
      ensures collected ==> ChildGone(job, old(Now()), reaped.value.0, reaped.value.1, Now())
      ensures collected ==>
        var (pid, status) := reaped.value;
        var task := old(buildPids)[pid];
        && log == old(log) + [Exited(task, status)] && buildPids == old(buildPids) - {pid}
        && (status == 0 ==> task in Marked(complete) && task !in Broken(log))
        && (status != 0 ==> task !in Marked(complete) && task in Broken(log))
      ensures old(log) <= log && (collected ==> |log| > old(|log|))
      ensures collected ==> state == if reaped.value.1 != 0 && job.abort then CleanUp else old(state)
      ensures !collected ==> Now() == old(Now()) && state == old(state)
    {
      hide Inv;
      hide Prepared;
      if reaped == None {
        return false;
      }
      var (pid, status) := reaped.value;
      ExitKeeps(job, Now(), pid, status);
      ghost var x := Now();
      var task := buildPids[pid];
      buildPids := buildPids - {pid};
      if pid in buildStamps.Keys {
        buildStamps := buildStamps - {pid};
      }
      assert Now() == x.WithoutChild(pid);
      if status != 0 {
        TaskFail(task, status);
      } else {
        TaskComplete(task, Exited(task, status));
      }
      assert Now() == x.AfterExit(job, pid, status);
      ExitMarks(job, x, pid, status);
      return true;
    }

    /** Skips the task, stamps it without running it, or starts a child for it. */
    method TakeUp(t: int, current: set<int>, pid: int) returns (atOnce: bool)
      requires Valid() && MayTake(job, Now(), t) && |buildPids| < job.numberTasks && pid !in buildPids
      modifies this
      ensures Valid() && state == old(state)
      ensures atOnce == (t in job.covered || t in current || t in job.noexec)
      ensures TookUp(job, old(Now()), t, current, pid, Now())
      ensures log == old(log) + Tries(job, t, current)
      ensures buildPids == if atOnce then old(buildPids) else old(buildPids)[pid := t]
    {
      hide Inv;
      hide Prepared;
      ghost var x := Now();
      TakenUp(job, x, t, pid);
      if t in job.covered || t in current {
        TaskSkip(t);
        return true;
      }
      MarkOne(running, t);
      running := running[t := true];
      stats := stats.TaskActive();
      log := log + [Started(t)];
      if t in job.noexec {
        TaskComplete(t, Stamped(t));
        return true;
      }
      buildPids := buildPids[pid := t];
      buildStamps := buildStamps[pid := job.stamp[t]];
      return false;
    }

    /** Reports the tasks that were never buildable, never ran or never completed. */
    method SanityChecks() returns (problems: seq<Problem>)
      requires Aligned()
      ensures forall t :: NeverBuildable(t) in problems <==> 0 <= t < |job.depends| && !buildable[t]
      ensures forall t :: NeverRan(t) in problems <==> 0 <= t < |job.depends| && !running[t]
      ensures forall t :: NeverCompleted(t) in problems <==> 0 <= t < |job.depends| && !complete[t]
    {
      problems := [];
      var task := 0;
      while task < |job.depends|
        invariant 0 <= task <= |job.depends|
        invariant forall t :: NeverBuildable(t) in problems <==> 0 <= t < task && !buildable[t]
        invariant forall t :: NeverRan(t) in problems <==> 0 <= t < task && !running[t]
        invariant forall t :: NeverCompleted(t) in problems <==> 0 <= t < task && !complete[t]
      {
        if !buildable[task] {
          problems := problems + [NeverBuildable(task)];
        }
        if !running[task] {
          problems := problems + [NeverRan(task)];
        }
        if !complete[task] {
          problems := problems + [NeverCompleted(task)];
        }
        task := task + 1;
      }
    }

    /** The end of a round in which no child is alive and nothing may be taken up. */
    method Conclude() returns (problems: seq<Problem>)
      requires Valid() && buildPids == map[] && NoneBefore(|job.prioMap|)
      modifies `state
      ensures state == if Broken(log) != {} then State.Failed else Complete
      ensures Finished(job, Now())
      ensures problems == [] <==> state == State.Failed || Acyclic(job.depends)
    {
      hide Inv;
      hide Finished;
      hide Acyclic;
      problems := [];
      ghost var x := Now();
      Concluded(job, x);
      if |failedFnids| != 0 {
        state := State.Failed;
        return;
      }
      problems := SanityChecks();
      state := Complete;
      NoProblems(job, x, problems);
    }

    /**
     * One round of the executor. The environment says which stamps are
     * current, which process number a fork would get and which child, if any,
     * has exited with what status.
     */
    method Execute(current: set<int>, pid: int, exit: Option<(int, int)>) returns (again: bool, problems: seq<Problem>)
      requires Valid() && state == Running && pid !in buildPids
      modifies this
      ensures Valid() && old(log) <= log
      ensures state == State.Failed ==> Finished(job, Now()) && Broken(log) != {} && problems == []
      ensures state == Complete ==>
        Finished(job, Now()) && Broken(log) == {} && (problems == [] <==> Acyclic(job.depends))
      ensures state == CleanUp ==> job.abort && problems == []
      ensures state == Running ==> problems == [] && (again ==> |log| > old(|log|))
      ensures Happened(job, old(log), old(buildPids), current, pid, exit, log)
      ensures !again ==> state == Running && buildPids != map[] && Ends(buildPids, exit) == []
      ensures !again ==> |buildPids| == job.numberTasks || NoneBefore(|job.prioMap|)
    {
      hide Inv;
      hide Finished;
      hide Acyclic;
      hide MayTake;
      hide TookUp;
      hide ChildGone;
      hide Broken;
      hide Marked;
      problems := [];
      ActiveIs(job, Now());
      if stats.total == 0 {
        state := CleanUp;
      }
      var task := Next();
      if task.Some? {
        TakenInRange(job, Now(), task.value);
        var atOnce := TakeUp(task.value, current, pid);
        ActiveIs(job, Now());
        if atOnce || stats.active < job.numberTasks {
          return true, [];
        }
      }
      if stats.active > 0 {
        again := ProcessWaitpid(if exit.Some? && exit.value.0 in buildPids then exit else None);
        return again, [];
      }
      problems := Conclude();
      return true, problems;
    }

    /**
     * Rounds for as long as the state stays the same, with an environment for
     * each: those that do something are at most twice as many as the tasks, and
     * the one that concludes.
     */
    method ExecuteRounds(rounds: seq<Round>) returns (did: nat, problems: seq<Problem>)
      requires Valid() && state == Running
      modifies this
      ensures Valid() && old(log) <= log
      ensures did + old(|log|) <= 2 * |job.depends| + 1
      ensures forall e :: e in log[old(|log|)..] ==> exists r :: r in rounds && Explains(job, r, e)
      ensures state == Complete ==>
        Finished(job, Now()) && (problems == [] <==> Acyclic(job.depends)) && forall e :: e in log ==> !Failing(e)
      ensures state == State.Failed ==> Finished(job, Now()) && problems == [] && exists e :: e in log && Failing(e)
    {
      hide Inv;
      hide Finished;
      hide Acyclic;
      did, problems := 0, [];
      WithinBound(job, Now());
      var k := 0;
      while k < |rounds| && state == Running
        invariant Valid() && old(log) <= log && problems == [] && did + old(|log|) <= |log| <= 2 * |job.depends|
        invariant state == Running && 0 <= k <= |rounds|
        invariant forall e :: e in log[old(|log|)..] ==> exists r :: r in rounds && Explains(job, r, e)
        decreases |rounds| - k
      {
        var r := rounds[k];
        k := k + 1;
        if r.pid !in buildPids {
          var again;
          ghost var before, pids := log, buildPids;
          again, problems := Execute(r.current, r.pid, r.exit);
          WithinBound(job, Now());
          AllExplained(job, before, pids, r, log);
          assert log[old(|log|)..] == before[old(|log|)..] + log[|before|..];
          assert r in rounds;
          EventsAre(log);
          if again {
            did := did + 1;
          }
          if state != Running {
            return;
          }
        }
      }
    }

    /** Waits for the children that are left when no more tasks are to be started. */
    method Finish(exit: Option<(int, int)>)
      requires Valid()
      modifies this
      ensures Valid() && old(log) <= log
      ensures old(buildPids) == map[] ==>
        log == old(log) && state == if Broken(log) != {} then State.Failed else Complete
      ensures old(buildPids) != map[] ==> state == CleanUp
      ensures log == old(log) + Ends(old(buildPids), exit)
    {
      hide Inv;
      hide ChildGone;
      hide Broken;
      hide Marked;
      state := CleanUp;
      ActiveIs(job, Now());
      if stats.active > 0 {
        var collected := ProcessWaitpid(if exit.Some? && exit.value.0 in buildPids then exit else None);
        return;
      }
      if |failedFnids| != 0 {
        state := State.Failed;
        return;
      }
      state := Complete;
    }
  }

  /** What the exit of a child adds to the log, if it is a live one's. */
  ghost function Ends(pids: map<int, int>, exit: Option<(int, int)>): seq<Event> {
    if exit.Some? && exit.value.0 in pids then [Exited(pids[exit.value.0], exit.value.1)] else []
  }

  lemma WithinBound(job: Job, x: Exec)
    requires Inv(job, x)
    ensures |x.log| <= 2 * |job.depends|
  {
    LogBound(x.log, job.depends);
  }

  lemma ActiveIs(job: Job, x: Exec)
    requires Inv(job, x)
    ensures x.stats.active == |x.pids| <= job.numberTasks && x.stats.total == |job.depends| && job.numberTasks >= 1
    ensures |x.failedFnids| != 0 <==> Broken(x.log) != {}
    ensures x.stats.total == 0 ==> x.pids == map[]
  {
    FilesOfBroken(x.log, job.depends, job.fnid);
    if x.pids.Keys != {} {
      var p := Finite.AnyOf(x.pids.Keys);
      assert 0 <= x.pids[p] < |job.stamp|;
    }
  }

  lemma TakenInRange(job: Job, x: Exec, t: int)
    requires MayTake(job, x, t)
    ensures 0 <= t < |job.depends|
  {
  }

  /** A task is taken up, or none; and then a child's exit is collected, or none. */
  ghost predicate Happened(job: Job, log: seq<Event>, pids: map<int, int>, current: set<int>, pid: int,
      exit: Option<(int, int)>, log': seq<Event>) {
    || log' == log
    || log' == log + Ends(pids, exit)
    || exists t :: log' == log + Tries(job, t, current)
                   || log' == log + Tries(job, t, current) + Ends(pids[pid := t], exit)
  }

  /** The child of a task exits with a status that means failure. */
  ghost predicate Failing(e: Event) {
    e.Exited? && e.status != 0
  }

  /** What happens to a task agrees with what the environment says in the round. */
  ghost predicate Explains(job: Job, r: Round, e: Event) {
    match e
    case Started(t) => t !in job.covered && t !in r.current
    case Skipped(t) => t in job.covered || t in r.current
    case Stamped(t) => t in job.noexec && t !in job.covered && t !in r.current
    case Exited(_, status) => r.exit.Some? && r.exit.value.1 == status
  }

  lemma AllExplained(job: Job, log: seq<Event>, pids: map<int, int>, r: Round, log': seq<Event>)
    requires Happened(job, log, pids, r.current, r.pid, r.exit, log')
    ensures log <= log' && forall e :: e in log'[|log|..] ==> Explains(job, r, e)
  {
    hide Explains;
    var more := log'[|log|..];
    if !(log' == log || log' == log + Ends(pids, r.exit)) {
      var t :| log' == log + Tries(job, t, r.current)
        || log' == log + Tries(job, t, r.current) + Ends(pids[r.pid := t], r.exit);
      hide Ends;
      hide Tries;
      TriesExplained(job, t, r);
      EndsExplained(job, pids[r.pid := t], r);
      assert more == Tries(job, t, r.current) || more == Tries(job, t, r.current) + Ends(pids[r.pid := t], r.exit);
    } else {
      EndsExplained(job, pids, r);
      assert more == [] || more == Ends(pids, r.exit);
    }
  }

  lemma TriesExplained(job: Job, t: int, r: Round)
    ensures forall e :: e in Tries(job, t, r.current) ==> Explains(job, r, e)
  {
  }

  lemma EndsExplained(job: Job, pids: map<int, int>, r: Round)
    ensures forall e :: e in Ends(pids, r.exit) ==> Explains(job, r, e)
  {
  }

  /**
   * The failed tasks are those whose child exited with a status other than 0; the
   * tasks that are done were skipped, stamped, or had a child that exited with 0.
   */
  lemma {:induction false} EventsAre(log: seq<Event>)
    ensures forall t :: t in Broken(log) <==> exists s :: s != 0 && Exited(t, s) in log
    ensures forall t :: t in Done(log) <==> Skipped(t) in log || Stamped(t) in log || Exited(t, 0) in log
    ensures forall t :: t in Taken(log) <==> Started(t) in log || Skipped(t) in log
    ensures Broken(log) == {} <==> forall e :: e in log ==> !Failing(e)
  {
    if log != [] {
      var prefix, last := log[..|log| - 1], log[|log| - 1];
      EventsAre(prefix);
      assert log == prefix + [last];
      assert forall e :: e in log <==> e in prefix || e == last;
      assert forall t :: t in Broken(log) <==> t in Broken(prefix) || (Failing(last) && last.task == t);
      if Failing(last) {
        assert last.task in Broken(log);
      }
    }
  }

  /** What taking up a task adds to the log. */
  ghost function Tries(job: Job, t: int, current: set<int>): seq<Event> {
    if t in job.covered || t in current then [Skipped(t)]
    else if t in job.noexec then [Started(t), Stamped(t)]
    else [Started(t)]
  }

  ghost predicate TookUp(job: Job, x: Exec, t: int, current: set<int>, pid: int, y: Exec) {
    && 0 <= t < |job.depends| == |job.revdeps| == |job.stamp|
    && y == if t in job.covered || t in current then x.AfterSkip(job, t)
            else if t in job.noexec then x.AfterNoExec(job, t)
            else x.WithChild(job, t, pid)
  }

  lemma TakenUp(job: Job, x: Exec, t: int, pid: int)
    requires Inv(job, x) && MayTake(job, x, t) && pid !in x.pids && |x.pids| < job.numberTasks
    ensures Prepared(job) && 0 <= t < |job.depends| == |job.revdeps| == |job.stamp|
    ensures Inv(job, x.AfterSkip(job, t)) && Inv(job, x.AfterNoExec(job, t)) && Inv(job, x.WithChild(job, t, pid))
  {
    assert x.stats.active == |x.pids| by {
      hide MayTake;
    }
    SkipKeeps(job, x, t);
    NoExecKeeps(job, x, t);
    StartKeeps(job, x, t, pid);
  }

  lemma Concluded(job: Job, x: Exec)
    requires Inv(job, x) && x.pids == map[] && (forall k :: 0 <= k < |job.prioMap| ==> !MayTake(job, x, job.prioMap[k]))
    ensures Finished(job, x)
    ensures |x.failedFnids| != 0 <==> Broken(x.log) != {}
  {
    NothingLeft(job, x);
    forall t | 0 <= t < |job.depends|
      ensures t in x.complete <==> !NeedsBroken(job, x, t) && !ReachesCycle(job.depends, t) {
      Outcome(job, x, t);
    }
    LogFacts(x.log, job.depends);
    FilesOfBroken(x.log, job.depends, job.fnid);
  }

  lemma NothingLeft(job: Job, x: Exec)
    requires Inv(job, x) && x.pids == map[] && (forall k :: 0 <= k < |job.prioMap| ==> !MayTake(job, x, job.prioMap[k]))
    ensures Settled(x)
  {
    assert x.stamps.Keys == {};
    assert x.stamps.Values == {};
    forall t | t in x.buildable ensures t in x.running {
      assert t in job.prioMap;
      var k :| 0 <= k < |job.prioMap| && job.prioMap[k] == t;
      assert !MayTake(job, x, job.prioMap[k]);
    }
  }

  lemma {:induction false} FilesOfBroken(log: seq<Event>, depends: seq<set<int>>, fnid: seq<int>)
    requires Orderly(log, depends) && |fnid| == |depends|
    ensures BrokenFiles(log, fnid) == [] <==> Broken(log) == {}
  {
    if log != [] {
      var prefix := log[..|log| - 1];
      FilesOfBroken(prefix, depends, fnid);
      LogFacts(prefix, depends);
    }
  }

  lemma NoProblems(job: Job, x: Exec, problems: seq<Problem>)
    requires Inv(job, x) && Finished(job, x) && Broken(x.log) == {}
    requires forall t :: NeverBuildable(t) in problems <==> 0 <= t < |job.depends| && t !in x.buildable
    requires forall t :: NeverRan(t) in problems <==> 0 <= t < |job.depends| && t !in x.running
    requires forall t :: NeverCompleted(t) in problems <==> 0 <= t < |job.depends| && t !in x.complete
    ensures problems == [] <==> Acyclic(job.depends)
  {
    if Acyclic(job.depends) && problems != [] {
      match problems[0] {
        case NeverBuildable(t) => assert NeverBuildable(t) in problems; AllDone(job, x, t);
        case NeverRan(t) => assert NeverRan(t) in problems; AllDone(job, x, t);
        case NeverCompleted(t) => assert NeverCompleted(t) in problems; AllDone(job, x, t);
      }
    }
    if problems == [] {
      forall t | 0 <= t < |job.depends| ensures !ReachesCycle(job.depends, t) {
        assert NeverCompleted(t) !in problems;
      }
    }
  }

  lemma AllDone(job: Job, x: Exec, t: int)
    requires Inv(job, x) && Finished(job, x) && Broken(x.log) == {} && Acyclic(job.depends) && 0 <= t < |job.depends|
    ensures t in x.buildable && t in x.running && t in x.complete
  {
    assert !ReachesCycle(job.depends, t);
    assert !NeedsBroken(job, x, t);
  }

  ghost predicate ChildGone(job: Job, x: Exec, pid: int, status: int, y: Exec) {
    && pid in x.pids && 0 <= x.pids[pid] < |job.revdeps| <= |job.depends| == |job.fnid|
    && y == x.AfterExit(job, pid, status)
  }

  /** A task fails exactly if its child exits with a status other than 0, and completes otherwise. */
  lemma ExitMarks(job: Job, x: Exec, pid: int, status: int)
    requires Inv(job, x) && pid in x.pids
    ensures 0 <= x.pids[pid] < |job.revdeps| <= |job.depends| == |job.fnid|
    ensures var task, y := x.pids[pid], x.AfterExit(job, pid, status);
      && y.log == x.log + [Exited(task, status)] && y.pids == x.pids - {pid}
      && (task in y.complete <==> status == 0) && (task in Broken(y.log) <==> status != 0)
  {
    ExitKeeps(job, x, pid, status);
    var task, y := x.pids[pid], x.AfterExit(job, pid, status);
    LogGrows(x.log, Exited(task, status), job);
    assert task in x.pids.Values;
  }

  lemma ExitKeeps(job: Job, x: Exec, pid: int, status: int)
    requires Inv(job, x) && pid in x.pids
    ensures Prepared(job) && 0 <= x.pids[pid] < |job.depends| && pid in x.stamps
    ensures Inv(job, x.AfterExit(job, pid, status))
  {
    CompletionKeeps(job, x, pid);
    if status != 0 {
      FailureKeeps(job, x, pid, status);
    }
  }
}
