/** Reconciliation episodes and the halt they cause. The risk gate keeps the halt, the journal keeps the episode;
    the process may crash between any two actions. */
module Reconcile {
  import opened Types

  datatype Episode = Clean | Unreachable | Resyncing | Stuck

  datatype Verdict = NoMismatch | NoBroker | Mismatch

  /** What a job does between two awaits, action by action. */
  datatype Action = Assign(episode: Episode) | Persist | EnterHalt | ClearHalt

  /** Where a job waits for the broker. */
  datatype Wait = Idle | Checking | Applying(verdict: Verdict) | Resync | Rechecking

  /** `lastVerdict` is the outcome of the last check that finished; `byOwner` says whose actions are in `todo`. */
  datatype Process = Process(
    episode: Episode, job: Wait, owner: Wait, todo: seq<Action>, byOwner: bool, lastVerdict: Option<Verdict>)

  datatype System = System(proc: Option<Process>, disk: Episode, halted: bool)

  datatype Step =
    | Crash
    | Restart
    | StartJob
    | StartOwner
      // the wait of the job, or of the owner's command, is over
    | JobDone(verdict: Verdict)
    | OwnerDone(verdict: Verdict)
    | JobFails
    | OwnerFails
    | Act
    | SaveJournal

  function Init(): System { System(None, Clean, false) }

  /** The episode is written only when it changes. */
  function SetTo(from: Episode, to: Episode): seq<Action> { if from == to then [] else [Assign(to), Persist] }

  // ---------------------------------------------------------------- the jobs

  function AfterFirstCheck(p: Process, v: Verdict): Process {
    var q := p.(lastVerdict := Some(v), byOwner := false, job := Idle);
    if v == NoMismatch then
      if p.episode == Unreachable || p.episode == Resyncing then q.(todo := [ClearHalt] + SetTo(p.episode, Clean))
      else q
    else if p.episode == Stuck then q
    else
      q.(todo := SetTo(p.episode, if v == NoBroker then Unreachable else Resyncing) + [EnterHalt], job := Applying(v))
  }

  function AfterSecondCheck(p: Process, v: Verdict): Process {
    var q := p.(lastVerdict := Some(v), byOwner := false, job := Idle);
    match v
    case NoMismatch => q.(todo := [ClearHalt] + SetTo(p.episode, Clean))
    case NoBroker => q.(todo := SetTo(p.episode, Unreachable))
    case Mismatch => q.(todo := SetTo(p.episode, Stuck))
  }

  function JobGoesOn(p: Process, v: Verdict): Process {
    match p.job
    case Idle => p
    case Checking => AfterFirstCheck(p, v)
    case Applying(verdict) => p.(job := if verdict == NoBroker then Idle else Resync)
    case Resync => p.(job := Rechecking)
    case Rechecking => AfterSecondCheck(p, v)
  }

  function OwnerGoesOn(p: Process, v: Verdict): Process {
    match p.owner
    case Checking => p.(owner := Resync, lastVerdict := Some(v))
    case Resync => p.(owner := Rechecking)
    case Rechecking =>
      var q := p.(owner := Idle, lastVerdict := Some(v), byOwner := true);
      if v == NoMismatch then q.(todo := [ClearHalt] + SetTo(p.episode, Clean)) else q
    case _ => p
  }

  function ActStep(s: System, p: Process): System {
    if p.todo == [] then s
    else
      var q := p.(todo := p.todo[1..]);
      match p.todo[0]
      case Assign(e) => s.(proc := Some(q.(episode := e)))
      case Persist => s.(proc := Some(q), disk := p.episode)
      case EnterHalt => s.(proc := Some(q), halted := true)
      case ClearHalt => s.(proc := Some(q), halted := false)
  }

  /** Nothing interrupts the actions between two awaits, except a crash. */
  function Next(s: System, step: Step): System {
    if step.Crash? then s.(proc := None)
    else if s.proc.None? then
      if step.Restart? then s.(proc := Some(Process(s.disk, Idle, Idle, [], false, None))) else s
    else
      var p := s.proc.value;
      if step.Act? then ActStep(s, p)
      else if p.todo != [] then s
      else
        match step
        case StartJob => if p.job.Idle? then s.(proc := Some(p.(job := Checking))) else s
        case StartOwner => if p.owner.Idle? then s.(proc := Some(p.(owner := Checking))) else s
        case JobDone(v) => s.(proc := Some(JobGoesOn(p, v)))
        case OwnerDone(v) => s.(proc := Some(OwnerGoesOn(p, v)))
        case JobFails => s.(proc := Some(p.(job := Idle)))
        case OwnerFails => s.(proc := Some(p.(owner := Idle)))
        case SaveJournal => s.(disk := p.episode)
        case _ => s
  }

  function Run(steps: seq<Step>): System {
    if steps == [] then Init() else Next(Run(steps[..|steps| - 1]), steps[|steps| - 1])
  }

  // ---------------------------------------------------------------- what every run keeps

  /** A halt always has a reason on disk. */
  predicate Explained(disk: Episode, halted: bool) { halted ==> disk != Clean }

  /** The actions still to do keep the halt explained at every point, clear it only after a check without a
      mismatch, leave "stuck" only for the owner, and end with the episode on disk. */
  predicate Plan(disk: Episode, episode: Episode, halted: bool, todo: seq<Action>, owner: bool, ok: bool)
    decreases |todo|
  {
    && Explained(disk, halted)
    && if todo == [] then disk == episode
       else
         match todo[0]
         case Assign(e) => Plan(disk, e, halted, todo[1..], owner, ok)
         case Persist =>
           && (disk == Stuck && episode != Stuck ==> owner && ok)
           && Plan(episode, episode, halted, todo[1..], owner, ok)
         case EnterHalt => Plan(disk, episode, true, todo[1..], owner, ok)
         case ClearHalt => ok && Plan(disk, episode, false, todo[1..], owner, ok)
  }

  predicate UnderWay(w: Wait) { w.Applying? || w.Resync? || w.Rechecking? }

  predicate ProcessFits(s: System, p: Process) {
    && Plan(s.disk, p.episode, s.halted, p.todo, p.byOwner, p.lastVerdict == Some(NoMismatch))
    && (UnderWay(p.job) ==> p.episode != Stuck && Assign(Stuck) !in p.todo)
    && (EnterHalt in p.todo ==> s.disk != Stuck && p.episode != Stuck && Assign(Stuck) !in p.todo)
  }

  predicate Fits(s: System) { Explained(s.disk, s.halted) && (s.proc.Some? ==> ProcessFits(s, s.proc.value)) }

  lemma ActFits(s: System, p: Process)
    requires Fits(s) && s.proc == Some(p)
    ensures Fits(ActStep(s, p))
  {
    if p.todo != [] {
      assert p.todo == [p.todo[0]] + p.todo[1..];
      var s' := ActStep(s, p);
      assert Plan(s'.disk, s'.proc.value.episode, s'.halted, p.todo[1..], p.byOwner, p.lastVerdict == Some(NoMismatch));
    }
  }

  lemma ClearPlan(disk: Episode, halted: bool, owner: bool)
    requires Explained(disk, halted) && (disk == Stuck ==> owner)
    ensures Plan(disk, disk, halted, [ClearHalt] + SetTo(disk, Clean), owner, true)
  {
    var todo := [ClearHalt] + SetTo(disk, Clean);
    assert todo[1..] == SetTo(disk, Clean);
    if disk != Clean {
      SetPlan(disk, Clean, false, owner, true);
    }
  }

  lemma SetPlan(disk: Episode, to: Episode, halted: bool, owner: bool, ok: bool)
    requires Explained(disk, halted) && Explained(to, halted) && (disk == Stuck && to != Stuck ==> owner && ok)
    ensures Plan(disk, disk, halted, SetTo(disk, to), owner, ok)
  {
    if disk != to {
      assert [Assign(to), Persist][1..] == [Persist] && [Persist][1..] == [];
    }
  }

  lemma HaltPlan(disk: Episode, to: Episode, halted: bool, owner: bool, ok: bool)
    requires Explained(disk, halted) && to != Clean && disk != Stuck
    ensures Plan(disk, disk, halted, SetTo(disk, to) + [EnterHalt], owner, ok)
  {
    var todo := SetTo(disk, to) + [EnterHalt];
    assert [EnterHalt][1..] == [];
    if disk != to {
      assert todo[1..] == [Persist, EnterHalt] && [Persist, EnterHalt][1..] == [EnterHalt];
    } else {
      assert todo == [EnterHalt];
    }
  }

  lemma JobFits(s: System, p: Process, v: Verdict)
    requires Fits(s) && s.proc == Some(p) && p.todo == []
    ensures Fits(s.(proc := Some(JobGoesOn(p, v))))
  {
    if p.job.Checking? || p.job.Rechecking? {
      if v == NoMismatch {
        if p.episode != Stuck {
          ClearPlan(s.disk, s.halted, false);
        }
      } else if p.job.Checking? && p.episode != Stuck {
        HaltPlan(s.disk, if v == NoBroker then Unreachable else Resyncing, s.halted, false, false);
      } else if p.job.Rechecking? {
        SetPlan(s.disk, if v == NoBroker then Unreachable else Stuck, s.halted, false, false);
      }
    }
  }

  lemma OwnerFits(s: System, p: Process, v: Verdict)
    requires Fits(s) && s.proc == Some(p) && p.todo == []
    ensures Fits(s.(proc := Some(OwnerGoesOn(p, v))))
  {
    ClearPlan(s.disk, s.halted, true);
  }

  lemma NextFits(s: System, step: Step)
    requires Fits(s)
    ensures Fits(Next(s, step))
  {
    if s.proc.Some? {
      var p := s.proc.value;
      if step.Act? {
        ActFits(s, p);
      } else if p.todo == [] && step.JobDone? {
        JobFits(s, p, step.verdict);
      } else if p.todo == [] && step.OwnerDone? {
        OwnerFits(s, p, step.verdict);
      }
    }
  }

  lemma {:induction false} RunFits(steps: seq<Step>)
    ensures Fits(Run(steps))
  {
    if steps != [] {
      var n := |steps| - 1;
      RunFits(steps[..n]);
      NextFits(Run(steps[..n]), steps[n]);
    }
  }

  /** At every point of every run, a crash included: a halt in force has an episode other than "clean" on disk. */
  lemma HaltIsExplained(steps: seq<Step>)
    ensures Run(steps).halted ==> Run(steps).disk != Clean
  {
    RunFits(steps);
  }

  /** A halt is cleared only right after a check with no mismatch: no other check has finished since. */
  lemma ClearedAfterCleanCheck(steps: seq<Step>, step: Step)
    requires var s := Run(steps); s.halted && !Next(s, step).halted
    ensures var s := Run(steps); step == Act && s.proc.Some? && s.proc.value.lastVerdict == Some(NoMismatch)
  {
    RunFits(steps);
  }

  /** The persisted "stuck" is left only by the owner's command, after a check with no mismatch. */
  lemma OnlyTheOwnerLeavesStuck(steps: seq<Step>, step: Step)
    requires var s := Run(steps); s.disk == Stuck && Next(s, step).disk != Stuck
    ensures var s := Run(steps);
      s.proc.Some? && s.proc.value.byOwner && s.proc.value.todo != [] && s.proc.value.lastVerdict == Some(NoMismatch)
  {
    RunFits(steps);
  }

  // ---------------------------------------------------------------- "stuck" and the halt

  /** The job and the owner's command do not overlap, and no crash hits the owner's closing actions. */
  predicate Serial(s: System, step: Step) {
    s.proc.Some? ==>
      var p := s.proc.value;
      && (step.StartJob? ==> p.owner.Idle?)
      && (step.StartOwner? ==> p.job.Idle?)
      && (step.Crash? ==> p.todo == [] || !p.byOwner)
  }

  ghost predicate SerialRun(steps: seq<Step>) { forall i :: 0 <= i < |steps| ==> Serial(Run(steps[..i]), steps[i]) }

  /** Where the actions lead, and that "stuck" without a halt appears only among the owner's own. */
  predicate Leads(disk: Episode, episode: Episode, halted: bool, todo: seq<Action>, owner: bool, job: Wait)
    decreases |todo|
  {
    && (disk == Stuck && !halted ==> owner && todo != [])
    && if todo == [] then UnderWay(job) ==> halted
       else
         match todo[0]
         case Assign(e) => Leads(disk, e, halted, todo[1..], owner, job)
         case Persist => Leads(episode, episode, halted, todo[1..], owner, job)
         case EnterHalt => Leads(disk, episode, true, todo[1..], owner, job)
         case ClearHalt => Leads(disk, episode, false, todo[1..], owner, job)
  }

  predicate SerialFits(s: System) {
    if s.proc.None? then s.disk == Stuck ==> s.halted
    else
      var p := s.proc.value;
      && Leads(s.disk, p.episode, s.halted, p.todo, p.byOwner, p.job)
      && (p.job.Idle? || p.owner.Idle?)
  }

  lemma LeadsClear(disk: Episode, halted: bool, owner: bool)
    requires disk == Stuck ==> owner && halted
    ensures Leads(disk, disk, halted, [ClearHalt] + SetTo(disk, Clean), owner, Idle)
  {
    var todo := [ClearHalt] + SetTo(disk, Clean);
    assert todo[1..] == SetTo(disk, Clean);
    if disk != Clean {
      assert [Assign(Clean), Persist][1..] == [Persist] && [Persist][1..] == [];
    }
  }

  lemma LeadsSet(disk: Episode, to: Episode)
    ensures Leads(disk, disk, true, SetTo(disk, to), false, Idle)
  {
    if disk != to {
      assert [Assign(to), Persist][1..] == [Persist] && [Persist][1..] == [];
    }
  }

  lemma LeadsHalt(disk: Episode, to: Episode, halted: bool, job: Wait)
    requires disk != Stuck && to != Stuck
    ensures Leads(disk, disk, halted, SetTo(disk, to) + [EnterHalt], false, job)
  {
    var todo := SetTo(disk, to) + [EnterHalt];
    assert [EnterHalt][1..] == [];
    if disk != to {
      assert todo[1..] == [Persist, EnterHalt] && [Persist, EnterHalt][1..] == [EnterHalt];
    } else {
      assert todo == [EnterHalt];
    }
  }

  lemma NextSerial(s: System, step: Step)
    requires Fits(s) && SerialFits(s) && Serial(s, step)
    ensures SerialFits(Next(s, step))
  {
    if s.proc.Some? && !step.Crash? {
      var p := s.proc.value;
      if step.Act? {
        assert p.todo != [] ==> p.todo == [p.todo[0]] + p.todo[1..];
      } else if p.todo == [] && step.JobDone? {
        JobSerial(s, p, step.verdict);
      } else if p.todo == [] && step.OwnerDone? {
        LeadsClear(s.disk, s.halted, true);
      }
    }
  }

  lemma JobSerial(s: System, p: Process, v: Verdict)
    requires Fits(s) && SerialFits(s) && s.proc == Some(p) && p.todo == []
    ensures SerialFits(s.(proc := Some(JobGoesOn(p, v))))
  {
    if p.job.Checking? || p.job.Rechecking? {
      if v == NoMismatch {
        if p.episode != Stuck {
          LeadsClear(s.disk, s.halted, false);
        }
      } else if p.job.Checking? && p.episode != Stuck {
        LeadsHalt(s.disk, if v == NoBroker then Unreachable else Resyncing, s.halted, Applying(v));
      } else if p.job.Rechecking? {
        LeadsSet(s.disk, if v == NoBroker then Unreachable else Stuck);
      }
    }
  }

  lemma {:induction false} RunSerial(steps: seq<Step>)
    requires SerialRun(steps)
    ensures SerialFits(Run(steps))
  {
    if steps != [] {
      var n := |steps| - 1;
      assert forall i :: 0 <= i < n ==> steps[..n][..i] == steps[..i] && steps[..n][i] == steps[i];
      RunSerial(steps[..n]);
      RunFits(steps[..n]);
      NextSerial(Run(steps[..n]), steps[n]);
    }
  }

  // ---------------------------------------------------------------- exactly when "stuck" loses its halt

  /** Do all actions that are left, without a crash. */
  function Settle(s: System): System
    decreases if s.proc.Some? then |s.proc.value.todo| else 0
  {
    if s.proc.Some? && s.proc.value.todo != [] then Settle(ActStep(s, s.proc.value)) else s
  }

  lemma SettleSet(s: System, p: Process, to: Episode, rest: seq<Action>)
    requires s.proc == Some(p) && s.disk == p.episode && p.todo == SetTo(p.episode, to) + rest
    ensures Settle(s) == Settle(s.(disk := to, proc := Some(p.(episode := to, todo := rest))))
  {
    if p.episode != to {
      assert p.todo[1..] == [Persist] + rest;
      var s1 := ActStep(s, p);
      assert s1.proc.value.todo[1..] == rest;
      var s2 := ActStep(s1, s1.proc.value);
      assert Settle(s) == Settle(s1) == Settle(s2);
    } else {
      assert p.todo == rest;
    }
  }

  lemma SettleAct(s: System, p: Process)
    requires s.proc == Some(p) && p.todo != []
    ensures Settle(s) == Settle(ActStep(s, p))
  {}

  /** Once the actions that are left are done, or right away when the process is down, "stuck" is on disk and no
      halt is in force. */
  predicate Unhalted(s: System) { Settle(s).disk == Stuck && !Settle(s).halted }

  /** The two ways to get there: the job's second check finds a mismatch while no halt is in force, or a crash
      hits the process while "stuck" is on disk and its halt has been cleared. */
  predicate LosesHalt(s: System, step: Step) {
    && s.proc.Some?
    && var p := s.proc.value;
      || (step == JobDone(Mismatch) && p.job == Rechecking && p.todo == [] && !s.halted)
      || (step.Crash? && s.disk == Stuck && !s.halted)
  }

  lemma SettleRest(s: System)
    requires s.proc.None? || s.proc.value.todo == []
    ensures Settle(s) == s
  {}

  lemma SettleClear(s: System, p: Process)
    requires s.proc == Some(p) && s.disk == p.episode && p.todo == [ClearHalt] + SetTo(p.episode, Clean)
    ensures Settle(s) == s.(disk := Clean, halted := false, proc := Some(p.(episode := Clean, todo := [])))
  {
    SettleAct(s, p);
    assert p.todo[1..] == SetTo(p.episode, Clean) + [];
    var s1 := ActStep(s, p);
    SettleSet(s1, s1.proc.value, Clean, []);
  }

  lemma SettleTo(s: System, p: Process, to: Episode)
    requires s.proc == Some(p) && s.disk == p.episode && p.todo == SetTo(p.episode, to)
    ensures Settle(s) == s.(disk := to, proc := Some(p.(episode := to, todo := [])))
  {
    assert p.todo == SetTo(p.episode, to) + [];
    SettleSet(s, p, to, []);
  }

  lemma SettleHalt(s: System, p: Process, to: Episode)
    requires s.proc == Some(p) && s.disk == p.episode && p.todo == SetTo(p.episode, to) + [EnterHalt]
    ensures Settle(s) == s.(disk := to, halted := true, proc := Some(p.(episode := to, todo := [])))
  {
    SettleSet(s, p, to, [EnterHalt]);
    var s1 := s.(disk := to, proc := Some(p.(episode := to, todo := [EnterHalt])));
    SettleAct(s1, s1.proc.value);
  }

  lemma JobUnhaltedIff(s: System, p: Process, v: Verdict)
    requires Fits(s) && s.proc == Some(p) && p.todo == [] && !Unhalted(s)
    ensures Unhalted(s.(proc := Some(JobGoesOn(p, v)))) <==> v == Mismatch && p.job == Rechecking && !s.halted
  {
    var s' := s.(proc := Some(JobGoesOn(p, v)));
    var p' := s'.proc.value;
    SettleRest(s);
    if p'.todo == [] {
      SettleRest(s');
    } else if v == NoMismatch {
      SettleClear(s', p');
    } else if p.job.Checking? {
      SettleHalt(s', p', if v == NoBroker then Unreachable else Resyncing);
    } else {
      SettleTo(s', p', if v == NoBroker then Unreachable else Stuck);
    }
  }

  lemma OwnerKeepsHalt(s: System, p: Process, v: Verdict)
    requires Fits(s) && s.proc == Some(p) && p.todo == [] && !Unhalted(s)
    ensures !Unhalted(s.(proc := Some(OwnerGoesOn(p, v))))
  {
    var s' := s.(proc := Some(OwnerGoesOn(p, v)));
    SettleRest(s);
    if s'.proc.value.todo == [] {
      SettleRest(s');
    } else {
      SettleClear(s', s'.proc.value);
    }
  }

  lemma NextUnhaltedIff(s: System, step: Step)
    requires Fits(s) && !Unhalted(s)
    ensures Unhalted(Next(s, step)) <==> LosesHalt(s, step)
  {
    if s.proc.None? || step.Crash? {
      SettleRest(Next(s, step));
      if s.proc.None? {
        SettleRest(s);
      }
    } else {
      var p := s.proc.value;
      if step.Act? {
        if p.todo != [] {
          SettleAct(s, p);
        }
      } else if p.todo == [] {
        SettleRest(s);
        if step.JobDone? {
          JobUnhaltedIff(s, p, step.verdict);
        } else if step.OwnerDone? {
          OwnerKeepsHalt(s, p, step.verdict);
        } else {
          SettleRest(Next(s, step));
        }
      }
    }
  }

  /** In every reachable state where "stuck" still has its halt, a step leads to "stuck" without a halt if and only
      if it is one of the two. */
  lemma LosesHaltIff(steps: seq<Step>, step: Step)
    requires !Unhalted(Run(steps))
    ensures Unhalted(Next(Run(steps), step)) <==> LosesHalt(Run(steps), step)
  {
    RunFits(steps);
    NextUnhaltedIff(Run(steps), step);
  }

  /** A crash that loses the halt hits the owner's closing actions, if "stuck" had its halt before them. */
  lemma CrashInClosing(steps: seq<Step>)
    requires !Unhalted(Run(steps)) && LosesHalt(Run(steps), Crash)
    ensures Run(steps).proc.value.byOwner && Run(steps).proc.value.todo != []
  {
    RunFits(steps);
    var s := Run(steps);
    var p := s.proc.value;
    if p.todo == [] {
      SettleRest(s);
    } else if !p.byOwner {
      StaysStuck(s, p);
    }
  }

  /** The job's actions neither leave "stuck" nor halt it. */
  lemma {:induction false} StaysStuck(s: System, p: Process)
    requires Fits(s) && s.proc == Some(p) && s.disk == Stuck && !s.halted && !p.byOwner && EnterHalt !in p.todo
    ensures Unhalted(s)
    decreases |p.todo|
  {
    if p.todo == [] {
      SettleRest(s);
    } else {
      ActFits(s, p);
      SettleAct(s, p);
      var s' := ActStep(s, p);
      assert p.todo == [p.todo[0]] + p.todo[1..];
      StaysStuck(s', s'.proc.value);
    }
  }

  // ---------------------------------------------------------------- hypotheses for whole runs

  /** No step loses the halt. */
  ghost predicate KeepsHalt(steps: seq<Step>) { forall i :: 0 <= i < |steps| ==> !LosesHalt(Run(steps[..i]), steps[i]) }

  lemma {:induction false} RunKeepsHalt(steps: seq<Step>)
    requires KeepsHalt(steps)
    ensures !Unhalted(Run(steps))
  {
    if steps != [] {
      var front := steps[..|steps| - 1];
      forall i: nat | i < |front|
        ensures !LosesHalt(Run(front[..i]), front[i])
      {
        assert front[..i] == steps[..i] && front[i] == steps[i];
      }
      RunKeepsHalt(front);
      LosesHaltIff(front, steps[|steps| - 1]);
    } else {
      SettleRest(Run(steps));
    }
  }

  /** Without overlap and without a crash in the owner's closing actions no step loses the halt. */
  lemma SerialKeepsHalt(steps: seq<Step>)
    requires SerialRun(steps)
    ensures KeepsHalt(steps)
  {
    forall i: nat | i < |steps|
      ensures !LosesHalt(Run(steps[..i]), steps[i])
    {
      var front := steps[..i];
      forall k: nat | k < i
        ensures Serial(Run(front[..k]), front[k])
      {
        assert front[..k] == steps[..k] && front[k] == steps[k];
      }
      RunSerial(front);
    }
  }

  /** Then "stuck" means halted, between any two awaits and when the process is down. */
  lemma StuckIsHalted(steps: seq<Step>)
    requires SerialRun(steps) || KeepsHalt(steps)
    ensures var s := Run(steps); s.disk == Stuck && (s.proc.None? || s.proc.value.todo == []) ==> s.halted
  {
    if SerialRun(steps) {
      SerialKeepsHalt(steps);
    }
    RunKeepsHalt(steps);
    var s := Run(steps);
    if s.proc.None? || s.proc.value.todo == [] {
      SettleRest(s);
    }
  }

  /** Outside the hypothesis: the owner's command clears the halt and the process dies before "clean" is
      written. After the restart the episode is "stuck", nothing is halted, and no mismatch halts again. */
  lemma StuckWithoutHalt(s: System, p: Process, v: Verdict)
    requires s.disk == Stuck && s.proc == Some(p) && p.episode == Stuck && p.todo == [] && p.owner == Rechecking
    ensures var down := Next(Next(Next(s, OwnerDone(NoMismatch)), Act), Crash);
      && down == System(None, Stuck, false)
      && Next(Next(Next(down, Restart), StartJob), JobDone(v))
        == System(Some(Process(Stuck, Idle, Idle, [], false, Some(v))), Stuck, false)
  {
    assert SetTo(Stuck, Clean) == [Assign(Clean), Persist];
  }

  lemma OneStep(steps: seq<Step>, step: Step) returns (more: seq<Step>)
    ensures more == steps + [step] && Run(more) == Next(Run(steps), step)
  {
    more := steps + [step];
    assert more[..|steps|] == steps;
  }

  /** From the first start: the job finds a mismatch, halts and gets to its second check. */
  lemma JobAtSecondCheck() returns (steps: seq<Step>)
    ensures Crash !in steps
    ensures Run(steps) == System(Some(Process(Resyncing, Rechecking, Idle, [], false, Some(Mismatch))), Resyncing, true)
  {
    steps := OneStep([], Restart);
    steps := OneStep(steps, StartJob);
    steps := OneStep(steps, JobDone(Mismatch));
    assert Run(steps).proc.value.todo == [Assign(Resyncing), Persist, EnterHalt];
    steps := OneStep(steps, Act);
    assert Run(steps).proc.value.todo == [Persist, EnterHalt];
    steps := OneStep(steps, Act);
    assert Run(steps).proc.value.todo == [EnterHalt];
    steps := OneStep(steps, Act);
    steps := OneStep(steps, JobDone(Mismatch));
    steps := OneStep(steps, JobDone(Mismatch));
  }

  /** Meanwhile the owner's command runs from start to end and clears the halt. */
  lemma OwnerInBetween() returns (steps: seq<Step>)
    ensures Crash !in steps
    ensures Run(steps) == System(Some(Process(Clean, Rechecking, Idle, [], true, Some(NoMismatch))), Clean, false)
  {
    steps := JobAtSecondCheck();
    steps := OneStep(steps, StartOwner);
    steps := OneStep(steps, OwnerDone(Mismatch));
    steps := OneStep(steps, OwnerDone(Mismatch));
    steps := OneStep(steps, OwnerDone(NoMismatch));
    assert Run(steps).proc.value.todo == [ClearHalt, Assign(Clean), Persist];
    steps := OneStep(steps, Act);
    assert Run(steps).proc.value.todo == [Assign(Clean), Persist];
    steps := OneStep(steps, Act);
    assert Run(steps).proc.value.todo == [Persist];
    steps := OneStep(steps, Act);
  }

  /** The overlap needs no crash: the job's second check finds a mismatch again and sets "stuck", but the halt it had
      entered is gone. */
  lemma OverlapLosesTheHalt() returns (steps: seq<Step>)
    ensures Crash !in steps
    ensures Run(steps) == System(Some(Process(Stuck, Idle, Idle, [], false, Some(Mismatch))), Stuck, false)
  {
    steps := OwnerInBetween();
    steps := OneStep(steps, JobDone(Mismatch));
    assert SetTo(Clean, Stuck) == [Assign(Stuck), Persist];
    assert Run(steps)
      == System(Some(Process(Clean, Idle, Idle, [Assign(Stuck), Persist], false, Some(Mismatch))), Clean, false);
    steps := OneStep(steps, Act);
    assert Run(steps) == System(Some(Process(Stuck, Idle, Idle, [Persist], false, Some(Mismatch))), Clean, false);
    steps := OneStep(steps, Act);
    assert [Persist][1..] == [];
  }

  // ---------------------------------------------------------------- one round of the job, uninterrupted

  /** What the job makes of its first check and, if it gets that far, of its second. */
  function Round(episode: Episode, halted: bool, first: Verdict, second: Verdict): (Episode, bool) {
    if first == NoMismatch then
      if episode == Unreachable || episode == Resyncing then (Clean, false) else (episode, halted)
    else if episode == Stuck then (Stuck, halted)
    else if first == NoBroker then (Unreachable, true)
    else if second == NoMismatch then (Clean, false)
    else (if second == NoBroker then Unreachable else Stuck, true)
  }

  predicate At(s: System, job: Wait) { s.proc.Some? && s.proc.value.job == job }

  /** The steps of a round that nothing interrupts: the check, then applying the halt, the resync and the
      second check, as far as they are reached. */
  function Steps(s: System, first: Verdict, second: Verdict): System {
    var a := Settle(Next(Next(s, StartJob), JobDone(first)));
    if !At(a, Applying(first)) then a
    else
      var b := Next(a, JobDone(first));
      if !At(b, Resync) then b else Settle(Next(Next(b, JobDone(second)), JobDone(second)))
  }

  lemma FirstCheck(s: System, p: Process, v: Verdict)
    requires s.proc == Some(p) && p.job == Checking && p.todo == [] && s.disk == p.episode
    ensures var a := Settle(Next(s, JobDone(v)));
      if v == NoMismatch || p.episode == Stuck then
        At(a, Idle) && (a.disk, a.halted) == Round(p.episode, s.halted, v, v)
      else
        var to := if v == NoBroker then Unreachable else Resyncing;
        a == s.(disk := to, halted := true,
                proc := Some(p.(episode := to, job := Applying(v), byOwner := false, lastVerdict := Some(v))))
  {
    var s1 := Next(s, JobDone(v));
    var p1 := s1.proc.value;
    if v == NoMismatch {
      if p.episode == Unreachable || p.episode == Resyncing {
        SettleAct(s1, p1);
        assert p1.todo[1..] == SetTo(p.episode, Clean) + [];
        var s2 := ActStep(s1, p1);
        SettleSet(s2, s2.proc.value, Clean, []);
      }
    } else if p.episode != Stuck {
      var to := if v == NoBroker then Unreachable else Resyncing;
      SettleSet(s1, p1, to, [EnterHalt]);
      var s2 := s1.(disk := to, proc := Some(p1.(episode := to, todo := [EnterHalt])));
      SettleAct(s2, s2.proc.value);
    }
  }

  /** They lead to what Round says. */
  lemma RoundInSteps(s: System, p: Process, first: Verdict, second: Verdict)
    requires s.proc == Some(p) && p.job == Idle && p.todo == [] && s.disk == p.episode
    ensures var c := Steps(s, first, second);
      At(c, Idle) && (c.disk, c.halted) == Round(p.episode, s.halted, first, second)
  {
    var s1 := Next(s, StartJob);
    FirstCheck(s1, s1.proc.value, first);
    if first == Mismatch && p.episode != Stuck {
      ResyncInSteps(Settle(Next(s1, JobDone(first))), second);
    }
  }

  lemma ResyncInSteps(a: System, second: Verdict)
    requires At(a, Applying(Mismatch)) && a.halted && a.proc.value.todo == []
    requires a.disk == a.proc.value.episode == Resyncing
    ensures At(Next(a, JobDone(Mismatch)), Resync)
    ensures var c := Settle(Next(Next(Next(a, JobDone(Mismatch)), JobDone(second)), JobDone(second)));
      && At(c, Idle)
      && (c.disk, c.halted) ==
        if second == NoMismatch then (Clean, false) else (if second == NoBroker then Unreachable else Stuck, true)
  {
    SecondCheck(Next(Next(a, JobDone(Mismatch)), JobDone(second)), second);
  }

  lemma SecondCheck(s: System, second: Verdict)
    requires s.proc.Some? && s.disk == s.proc.value.episode == Resyncing && s.halted
    requires s.proc.value.job == Rechecking && s.proc.value.todo == []
    ensures var c := Settle(Next(s, JobDone(second)));
      && c.proc.Some? && c.proc.value.job == Idle
      && (c.disk, c.halted) ==
        if second == NoMismatch then (Clean, false) else (if second == NoBroker then Unreachable else Stuck, true)
  {
    var s1 := Next(s, JobDone(second));
    var p1 := s1.proc.value;
    if second == NoMismatch {
      SettleAct(s1, p1);
      assert p1.todo[1..] == SetTo(Resyncing, Clean) + [];
      var s2 := ActStep(s1, p1);
      SettleSet(s2, s2.proc.value, Clean, []);
    } else {
      var to := if second == NoBroker then Unreachable else Stuck;
      assert p1.todo == SetTo(Resyncing, to) + [];
      SettleSet(s1, p1, to, []);
    }
  }

  /** The steps of the owner's command that nothing interrupts: the first check, the resync, the second check. */
  function OwnerSteps(s: System, first: Verdict, second: Verdict): System {
    Settle(Next(Next(Next(Next(s, StartOwner), OwnerDone(first)), OwnerDone(first)), OwnerDone(second)))
  }

  /** Whatever its first check found, the command clears the halt and ends the episode exactly when its second check
      finds no mismatch, and otherwise leaves both as they are. */
  lemma OwnerInSteps(s: System, p: Process, first: Verdict, second: Verdict)
    requires s.proc == Some(p) && p.owner == Idle && p.todo == [] && s.disk == p.episode
    ensures var c := OwnerSteps(s, first, second);
      && c.proc.Some? && c.proc.value.owner == Idle && c.proc.value.job == p.job && c.proc.value.episode == c.disk
      && (c.disk, c.halted) == if second == NoMismatch then (Clean, false) else (s.disk, s.halted)
  {
    var s1 := Next(Next(Next(Next(s, StartOwner), OwnerDone(first)), OwnerDone(first)), OwnerDone(second));
    if second == NoMismatch {
      SettleClear(s1, s1.proc.value);
    } else {
      SettleRest(s1);
    }
  }

  /** The episode in memory and on disk and the halt, updated by one round of the job or by the owner. */
  class Reconciler {
    var episode: Episode
    var persisted: Episode
    var halted: bool

    predicate Valid()
      reads this
    {
      episode == persisted && Explained(persisted, halted)
    }

    constructor (persisted: Episode, halted: bool)
      requires Explained(persisted, halted)
      ensures Valid() && episode == persisted && this.halted == halted
    {
      episode, this.persisted, this.halted := persisted, persisted, halted;
    }

    method SetEpisode(value: Episode)
      requires Explained(persisted, halted) && Explained(value, halted)
      modifies this`episode, this`persisted
      ensures episode == value && persisted == if old(episode) == value then old(persisted) else value
    {
      if value != episode {
        episode := value;
        persisted := value;
      }
    }

    method RunOnce(first: Verdict, second: Verdict)
      requires Valid()
      modifies this
      ensures Valid() && (episode, halted) == Round(old(episode), old(halted), first, second)
    {
      if first == NoMismatch {
        if episode == Unreachable || episode == Resyncing {
          halted := false;
          SetEpisode(Clean);
        }
        return;
      }
      if episode == Stuck {
        return;
      }
      SetEpisode(if first == NoBroker then Unreachable else Resyncing);
      halted := true;
      if first == NoBroker {
        return;
      }
      if second == NoMismatch {
        halted := false;
        SetEpisode(Clean);
      } else if second == NoBroker {
        SetEpisode(Unreachable);
      } else {
        SetEpisode(Stuck);
      }
    }
  }
}
