/** Many workers under a timing assumption: every execution, with its Complete or
    Release, finishes within the claim, and the store never loses a live claim. */
module WorkerTiming {
  import opened Common
  import opened WorkerProtocol

  predicate InClaim(phase: Phase) { phase.Claimed? || phase.Handled? || phase.Failed? }

  /** The job a worker is inside of, between claiming it and completing or releasing it. */
  function ClaimId(phase: Phase): string { if InClaim(phase) then IdOf(phase.msg.body) else "" }

  function Until(phase: Phase): int { if InClaim(phase) then phase.until else 0 }

  /** Time never runs past a claim in use, and only done markers are evicted. */
  ghost predicate Timely(s: Sys, step: Step) {
    && (step.Tick? ==> forall w | w in s.workers && ClaimId(s.workers[w]) != "" :: s.now + step.d < Until(s.workers[w]))
    && (step.Evict? && step.id in s.marks ==> s.marks[step.id].Done?)
  }

  ghost predicate TimelyRun(s: Sys, steps: seq<Step>) {
    steps != [] ==>
      && TimelyRun(s, steps[..|steps| - 1])
      && Timely(RunAll(s, steps[..|steps| - 1]), steps[|steps| - 1])
  }

  /** A claim in use is backed by its own live processing marker. */
  predicate Backed(marks: map<string, Mark>, now: int, phase: Phase) {
    var id := ClaimId(phase);
    id != "" ==> id in marks && marks[id] == Processing(Until(phase)) && now < Until(phase)
  }

  /** No two workers are inside the same job. */
  ghost predicate Exclusive(s: Sys) {
    && (forall w | w in s.workers :: Backed(s.marks, s.now, s.workers[w]))
    && (forall w1, w2 | w1 in s.workers && w2 in s.workers ::
          ClaimId(s.workers[w1]) == ClaimId(s.workers[w2]) != "" ==> w1 == w2)
  }

  lemma LeaveKeepsExclusive(s: Sys, w: int, phase: Phase)
    requires Exclusive(s) && w in s.workers
    requires ClaimId(phase) == "" || (ClaimId(phase) == ClaimId(s.workers[w]) && Until(phase) == Until(s.workers[w]))
    ensures Exclusive(Put(s, w, phase))
  {
  }

  /** A fresh claim cannot collide: a worker inside the job would keep the marker alive. */
  lemma ClaimKeepsExclusive(s: Sys, id: string)
    requires Exclusive(s)
    ensures Exclusive(Claim(s, id))
    ensures !Live(s, id) ==> forall w | w in s.workers :: id != "" ==> ClaimId(s.workers[w]) != id
  {
    if id != "" && !Live(s, id) {
      forall w | w in s.workers
        ensures ClaimId(s.workers[w]) != id
      {
        assert Backed(s.marks, s.now, s.workers[w]);
      }
    }
  }

  lemma EnterKeepsExclusive(s: Sys, w: int, phase: Phase)
    requires Exclusive(s) && w in s.workers && Backed(s.marks, s.now, phase)
    requires forall w' | w' in s.workers && ClaimId(phase) != "" :: ClaimId(s.workers[w']) != ClaimId(phase)
    ensures Exclusive(Put(s, w, phase))
  {
  }

  lemma BeginKeepsExclusive(s: Sys, w: int, fault: Fault)
    requires Exclusive(s) && w in s.workers && s.workers[w].Taken?
    ensures Exclusive(AfterBegin(s, w, s.workers[w].msg, fault))
  {
    hide RetryCount;
    var m := s.workers[w].msg;
    var id, s' := IdOf(m.body), AfterBegin(s, w, m, fault);
    ClaimKeepsExclusive(s, id);
    hide Exclusive;
    if s'.workers[w].Claimed? && id != "" {
      EnterKeepsExclusive(Claim(s, id), w, s'.workers[w]);
    } else {
      LeaveKeepsExclusive(Claim(s, id), w, s'.workers[w]);
      LeaveKeepsExclusive(s, w, s'.workers[w]);
    }
  }

  /** Finishing touches only the worker's own marker. */
  lemma FinishKeepsExclusive(s: Sys, w: int, s1: Sys, phase: Phase)
    requires Exclusive(s) && w in s.workers && ClaimId(phase) == ""
    requires s1.workers == s.workers && s1.now == s.now
    requires forall id | id != ClaimId(s.workers[w]) ::
               (id in s1.marks <==> id in s.marks) && (id in s.marks ==> s1.marks[id] == s.marks[id])
    ensures Exclusive(Put(s1, w, phase))
  {
    var s' := Put(s1, w, phase);
    forall w' | w' in s'.workers
      ensures Backed(s'.marks, s'.now, s'.workers[w'])
    {
      if w' != w {
        assert Backed(s.marks, s.now, s.workers[w']);
        assert ClaimId(s.workers[w']) != "" ==> ClaimId(s.workers[w']) != ClaimId(s.workers[w]);
      }
    }
  }

  lemma TickKeepsExclusive(s: Sys, d: nat)
    requires Exclusive(s) && Timely(s, Tick(d))
    ensures Exclusive(s.(now := s.now + d))
  {
  }

  lemma EvictKeepsExclusive(s: Sys, id: string)
    requires Exclusive(s) && Timely(s, Evict(id)) && id in s.marks
    ensures Exclusive(AfterEvict(s, id))
  {
    forall w | w in s.workers
      ensures ClaimId(s.workers[w]) != "" ==> ClaimId(s.workers[w]) != id
    {
      assert Backed(s.marks, s.now, s.workers[w]);
    }
  }

  /** The worker w alone changed phase, and did not enter a job. */
  predicate OnlyLeaves(s: Sys, s': Sys, w: int) {
    && w in s.workers && w in s'.workers && s'.workers == s.workers[w := s'.workers[w]]
    && s'.marks == s.marks && s'.now == s.now
    && (ClaimId(s'.workers[w]) == "" ||
        (ClaimId(s'.workers[w]) == ClaimId(s.workers[w]) && Until(s'.workers[w]) == Until(s.workers[w])))
  }

  lemma LeavingKeepsExclusive(s: Sys, s': Sys, w: int)
    requires Exclusive(s) && OnlyLeaves(s, s', w)
    ensures Exclusive(s')
  {
  }

  lemma QueueStepLeaves(s: Sys, step: Step)
    requires Enabled(s, step) && (step.Deliver? || step.Wait? || step.Ack? || step.Nack?)
    ensures OnlyLeaves(s, After(s, step), step.w)
    ensures After(s, step).log == s.log && !s.workers[step.w].Handled?
  {
    hide RetryCount;
  }

  lemma HandleLeaves(s: Sys, w: int, ok: bool)
    requires w in s.workers && s.workers[w].Claimed?
    ensures OnlyLeaves(s, AfterHandle(s, w, s.workers[w].msg, s.workers[w].until, ok), w)
  {
  }

  lemma RepublishLeaves(s: Sys, w: int, reason: string, fault: Fault)
    requires w in s.workers && !s.workers[w].Idle?
    ensures OnlyLeaves(s, AfterRepublish(s, w, s.workers[w].msg, reason, fault), w)
    ensures AfterRepublish(s, w, s.workers[w].msg, reason, fault).log == s.log
  {
    hide RetryCopy, DeadCopy, Retries;
  }

  lemma CrashLeaves(s: Sys, w: int)
    requires w in s.workers && !s.workers[w].Idle?
    ensures OnlyLeaves(s, AfterCrash(s, w, s.workers[w]), w)
  {
  }

  lemma StepKeepsExclusive(s: Sys, step: Step)
    requires Exclusive(s) && Timely(s, step)
    ensures Exclusive(Do(s, step))
  {
    hide Exclusive, AfterPublish, AfterBegin, AfterHandle, AfterRepublish, AfterCrash;
    hide AfterComplete, AfterRelease, OnlyLeaves;
    if Enabled(s, step) {
      match step
      case Publish(_, _) => PublishKeepsExclusive(s, step);
      case Begin(w, fault) => BeginKeepsExclusive(s, w, fault);
      case Complete(w, fault) => CompleteKeepsExclusive(s, w, fault);
      case Release(w, fault) => ReleaseKeepsExclusive(s, w, fault);
      case Tick(d) => TickKeepsExclusive(s, d);
      case Evict(id) => EvictKeepsExclusive(s, id);
      case Handle(w, ok) =>
        HandleLeaves(s, w, ok);
        LeavingKeepsExclusive(s, After(s, step), w);
      case Republish(w, reason, fault) =>
        RepublishLeaves(s, w, reason, fault);
        LeavingKeepsExclusive(s, After(s, step), w);
      case Crash(w) =>
        CrashLeaves(s, w);
        LeavingKeepsExclusive(s, After(s, step), w);
      case _ =>
        QueueStepLeaves(s, step);
        LeavingKeepsExclusive(s, After(s, step), step.w);
    }
  }

  lemma CompleteKeepsExclusive(s: Sys, w: int, fault: Fault)
    requires Exclusive(s) && w in s.workers && s.workers[w].Handled?
    ensures Exclusive(AfterComplete(s, w, s.workers[w].msg, fault))
  {
    hide Exclusive;
    var s' := AfterComplete(s, w, s.workers[w].msg, fault);
    FinishKeepsExclusive(s, w, s.(marks := s'.marks, log := s'.log), s'.workers[w]);
  }

  lemma ReleaseKeepsExclusive(s: Sys, w: int, fault: Fault)
    requires Exclusive(s) && w in s.workers && s.workers[w].Failed?
    ensures Exclusive(AfterRelease(s, w, s.workers[w].msg, fault))
  {
    hide Exclusive;
    var s' := AfterRelease(s, w, s.workers[w].msg, fault);
    FinishKeepsExclusive(s, w, s.(marks := s'.marks, log := s'.log), s'.workers[w]);
  }

  lemma PublishKeepsExclusive(s: Sys, step: Step)
    requires Exclusive(s) && step.Publish?
    ensures Exclusive(Do(s, step))
  {
    hide FirstCopy, FreshId;
  }

  lemma {:induction false} RunKeepsExclusive(s: Sys, steps: seq<Step>)
    requires Exclusive(s) && TimelyRun(s, steps)
    ensures Exclusive(RunAll(s, steps))
  {
    hide Exclusive, Do, Timely;
    if steps != [] {
      RunKeepsExclusive(s, steps[..|steps| - 1]);
      StepKeepsExclusive(RunAll(s, steps[..|steps| - 1]), steps[|steps| - 1]);
    }
  }

  /** In every timely run no two workers are inside Handle, Complete or Release of the
      same non-empty job id, and Release never removes a done marker. */
  lemma ClaimsExclude(s: Sys, steps: seq<Step>, w1: int, w2: int)
    requires Start(s) && TimelyRun(s, steps)
    requires w1 in RunAll(s, steps).workers && w2 in RunAll(s, steps).workers
    ensures var t := RunAll(s, steps);
      && (w1 != w2 && ClaimId(t.workers[w1]) != "" ==> ClaimId(t.workers[w1]) != ClaimId(t.workers[w2]))
      && (t.workers[w1].Failed? && ClaimId(t.workers[w1]) in t.marks && ClaimId(t.workers[w1]) != "" ==>
            t.marks[ClaimId(t.workers[w1])].Processing?)
  {
    RunKeepsExclusive(s, steps);
    assert Backed(RunAll(s, steps).marks, RunAll(s, steps).now, RunAll(s, steps).workers[w1]);
  }

  // ----- how often a job can succeed -----

  ghost predicate JustHandled(s: Sys, id: string) {
    exists w | w in s.workers :: s.workers[w].Handled? && ClaimId(s.workers[w]) == id
  }

  predicate MarkedDone(s: Sys, id: string) { id in s.marks && s.marks[id].Done? }

  /** One success is covered by the marker or the worker about to write it; every
      other by a failed completion, a crash before it, or a lost or expired marker. */
  ghost predicate Covered(s: Sys, b: Body) {
    IdOf(b) != "" ==>
      s.log.successes[b] <=
        s.log.lapses[IdOf(b)] + (if MarkedDone(s, IdOf(b)) then 1 else 0) + (if JustHandled(s, IdOf(b)) then 1 else 0)
  }

  /** Nothing that covers a body is lost, and no success is added. */
  lemma QuietKeepsCovered(s: Sys, s': Sys, b: Body)
    requires Covered(s, b)
    requires s'.log.successes[b] <= s.log.successes[b] && s.log.lapses[IdOf(b)] <= s'.log.lapses[IdOf(b)]
    requires MarkedDone(s, IdOf(b)) ==> MarkedDone(s', IdOf(b)) || s'.log.lapses[IdOf(b)] > s.log.lapses[IdOf(b)]
    requires forall w | w in s.workers && s.workers[w].Handled? && ClaimId(s.workers[w]) == IdOf(b) ::
               w in s'.workers && s'.workers[w] == s.workers[w]
    ensures Covered(s', b)
  {
    if JustHandled(s, IdOf(b)) {
      var w :| w in s.workers && s.workers[w].Handled? && ClaimId(s.workers[w]) == IdOf(b);
      assert w in s'.workers && s'.workers[w].Handled?;
    }
  }

  lemma HandleKeepsCovered(s: Sys, w: int, ok: bool, b: Body)
    requires Exclusive(s) && Honest(s) && Covered(s, b) && b in s.log.entered && IdOf(b) != ""
    requires w in s.workers && s.workers[w].Claimed?
    ensures Covered(AfterHandle(s, w, s.workers[w].msg, s.workers[w].until, ok), b)
  {
    hide RetryCount;
    var m, id := s.workers[w].msg, IdOf(b);
    var s' := AfterHandle(s, w, m, s.workers[w].until, ok);
    if ok && IdOf(m.body) == id {
      assert PhaseHonest(s.limit, s.log, s.workers[w]);
      assert m.body == b;
      assert Backed(s.marks, s.now, s.workers[w]);
      assert !MarkedDone(s, id);
      assert !JustHandled(s, id);
      assert w in s'.workers && s'.workers[w].Handled? && ClaimId(s'.workers[w]) == id;
    } else {
      QuietKeepsCovered(s, s', b);
    }
  }

  /** Leaving Handled writes the marker, or counts as a lapse. */
  lemma CompleteKeepsCovered(s: Sys, w: int, fault: Fault, b: Body)
    requires Exclusive(s) && Covered(s, b) && IdOf(b) != "" && w in s.workers && s.workers[w].Handled?
    ensures Covered(AfterComplete(s, w, s.workers[w].msg, fault), b)
  {
    var id, s' := IdOf(b), AfterComplete(s, w, s.workers[w].msg, fault);
    if ClaimId(s.workers[w]) == id {
      assert Backed(s.marks, s.now, s.workers[w]);
      assert !MarkedDone(s, id);
    } else {
      QuietKeepsCovered(s, s', b);
    }
  }

  lemma CrashKeepsCovered(s: Sys, w: int, b: Body)
    requires Exclusive(s) && Covered(s, b) && IdOf(b) != "" && w in s.workers && !s.workers[w].Idle?
    ensures Covered(AfterCrash(s, w, s.workers[w]), b)
  {
    var id, s' := IdOf(b), AfterCrash(s, w, s.workers[w]);
    if s.workers[w].Handled? && ClaimId(s.workers[w]) == id {
      assert Backed(s.marks, s.now, s.workers[w]);
      assert !MarkedDone(s, id);
    } else {
      QuietKeepsCovered(s, s', b);
    }
  }

  lemma BeginKeepsCovered(s: Sys, w: int, fault: Fault, b: Body)
    requires Covered(s, b) && IdOf(b) != "" && w in s.workers && s.workers[w].Taken?
    ensures Covered(AfterBegin(s, w, s.workers[w].msg, fault), b)
  {
    hide Covered;
    QuietKeepsCovered(s, AfterBegin(s, w, s.workers[w].msg, fault), b);
  }

  lemma ReleaseKeepsCovered(s: Sys, w: int, fault: Fault, b: Body)
    requires Exclusive(s) && Covered(s, b) && IdOf(b) != "" && w in s.workers && s.workers[w].Failed?
    ensures Covered(AfterRelease(s, w, s.workers[w].msg, fault), b)
  {
    hide Covered;
    assert Backed(s.marks, s.now, s.workers[w]);
    QuietKeepsCovered(s, AfterRelease(s, w, s.workers[w].msg, fault), b);
  }

  lemma LeavingKeepsCovered(s: Sys, s': Sys, w: int, b: Body)
    requires Covered(s, b) && OnlyLeaves(s, s', w) && s'.log == s.log && !s.workers[w].Handled?
    ensures Covered(s', b)
  {
    hide Covered;
    QuietKeepsCovered(s, s', b);
  }

  lemma EnvironmentKeepsCovered(s: Sys, step: Step, b: Body)
    requires Covered(s, b) && Enabled(s, step) && (step.Publish? || step.Tick? || step.Evict?)
    ensures Covered(After(s, step), b)
  {
    hide Covered, FirstCopy, FreshId;
    QuietKeepsCovered(s, After(s, step), b);
  }

  lemma StepKeepsCovered(s: Sys, step: Step, b: Body)
    requires Exclusive(s) && Honest(s) && b in s.log.entered && Covered(s, b) && IdOf(b) != ""
    ensures Covered(Do(s, step), b)
  {
    hide Exclusive, Honest, Covered, OnlyLeaves, AfterPublish, AfterBegin, AfterHandle, AfterRepublish, AfterCrash;
    hide AfterComplete, AfterRelease;
    if Enabled(s, step) {
      match step
      case Begin(w, fault) => BeginKeepsCovered(s, w, fault, b);
      case Handle(w, ok) => HandleKeepsCovered(s, w, ok, b);
      case Complete(w, fault) => CompleteKeepsCovered(s, w, fault, b);
      case Release(w, fault) => ReleaseKeepsCovered(s, w, fault, b);
      case Crash(w) => CrashKeepsCovered(s, w, b);
      case Publish(_, _) => EnvironmentKeepsCovered(s, step, b);
      case Tick(_) => EnvironmentKeepsCovered(s, step, b);
      case Evict(_) => EnvironmentKeepsCovered(s, step, b);
      case Republish(w, reason, fault) =>
        RepublishLeaves(s, w, reason, fault);
        LeavingKeepsCovered(s, After(s, step), w, b);
      case _ =>
        QueueStepLeaves(s, step);
        LeavingKeepsCovered(s, After(s, step), step.w, b);
    }
  }

  /** With claims that outlive their executions, a job succeeds at most once more than
      it has failed completions, crashes before completion, and done markers lost or
      expired. */
  lemma SuccessesAreBounded(s: Sys, steps: seq<Step>, b: Body)
    requires Start(s) && TimelyRun(s, steps) && b in RunAll(s, steps).log.entered && IdOf(b) != ""
    ensures RunAll(s, steps).log.successes[b] <= 1 + RunAll(s, steps).log.lapses[IdOf(b)]
  {
    RunKeepsCovered(s, steps, b);
    RunKeepsExclusive(s, steps);
    var t := RunAll(s, steps);
    assert forall w | w in t.workers && ClaimId(t.workers[w]) == IdOf(b) :: Backed(t.marks, t.now, t.workers[w]);
  }

  lemma {:induction false} RunKeepsCovered(s: Sys, steps: seq<Step>, b: Body)
    requires Start(s) && TimelyRun(s, steps) && b in RunAll(s, steps).log.entered && IdOf(b) != ""
    ensures Covered(RunAll(s, steps), b)
  {
    hide Do, Honest, Exclusive, Timely, Covered;
    if steps != [] {
      var before, last := steps[..|steps| - 1], steps[|steps| - 1];
      StartIsHonest(s);
      RunKeepsHonest(s, before);
      StartIsExclusive(s);
      RunKeepsExclusive(s, before);
      if b in RunAll(s, before).log.entered {
        RunKeepsCovered(s, before, b);
        StepKeepsCovered(RunAll(s, before), last, b);
      } else {
        NewcomerIsCovered(RunAll(s, before), last, b);
      }
    }
  }

  lemma StartIsExclusive(s: Sys)
    requires Start(s)
    ensures Exclusive(s)
  {
  }

  lemma NewcomerIsCovered(s: Sys, step: Step, b: Body)
    requires Honest(s) && b !in s.log.entered && b in Do(s, step).log.entered
    ensures Covered(Do(s, step), b)
  {
    hide RetryCount, FirstCopy;
    assert step.Publish? && b !in s.log.successes;
  }
}
