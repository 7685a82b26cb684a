/**
 * Whole sessions: every interleaving of the two automata carries out the atomic round of Rounds.dfy, or stops
 * after a prefix of its plan.
 */
module Sessions {
  import opened Ordering
  import opened Manifests
  import opened Planner
  import opened Rounds
  import opened Delivery
  import opened Session
  import opened Lockstep
  import opened LockstepProof

  // ---------------------------------------------------------------- every step, every schedule

  predicate Ready(u: Setup) {
    Sound(u) && PlanGood(u) && SavedGood(u)
  }

  lemma ProperIsReady(u: Setup)
    requires Proper(u)
    ensures Ready(u)
  {
    ProperIsSound(u);
  }

  function NextPhase(u: Setup, phase: Phase, side: Side): Phase {
    if side.ServerSide? then ServerNext(u, phase) else ClientNext(u, phase)
  }

  predicate Turn(u: Setup, phase: Phase, side: Side) {
    if side.ServerSide? then ServerTurn(phase) else ClientTurn(u, phase)
  }

  lemma ServerPhaseStep(u: Setup, phase: Phase)
    requires Ready(u) && Valid(u, phase)
    ensures ServerEnabled(StateOf(u, phase)) <==> ServerTurn(phase)
    ensures ServerTurn(phase) ==> ServerFollows(u, phase)
  {
    ServerTurns(u, phase);
    if ServerTurn(phase) {
      ServerMoves(u, phase);
    }
  }

  lemma ClientPhaseStep(u: Setup, phase: Phase)
    requires Ready(u) && Valid(u, phase)
    ensures ClientEnabled(StateOf(u, phase)) <==> ClientTurn(u, phase)
    ensures ClientTurn(u, phase) ==> ClientFollows(u, phase)
  {
    ClientTurns(u, phase);
    if ClientTurn(u, phase) {
      ClientMoves(u, phase);
    }
  }

  lemma StepIs(s: System, side: Side, t: System)
    requires if side.ServerSide? then ServerEnabled(s) && ServerStep(s) == t
      else ClientEnabled(s) && OrderKnown(s.client) && ClientStep(s) == t
    ensures Enabled(s, side) && Step(s, side) == t
  {
  }

  /** Whose turn it is, and where it leads, is decided by the phase alone; every turn taken lowers the rank. */
  lemma PhaseStep(u: Setup, phase: Phase, side: Side)
    requires Ready(u) && Valid(u, phase)
    ensures Enabled(StateOf(u, phase), side) <==> Turn(u, phase, side)
    ensures Turn(u, phase, side) ==> Step(StateOf(u, phase), side) == StateOf(u, NextPhase(u, phase, side))
  {
    ServerPhaseStep(u, phase);
    ClientPhaseStep(u, phase);
    if Turn(u, phase, side) {
      StepIs(StateOf(u, phase), side, StateOf(u, NextPhase(u, phase, side)));
    }
  }

  lemma PhaseAdvances(u: Setup, phase: Phase, side: Side)
    requires Sound(u) && Valid(u, phase) && Turn(u, phase, side)
    ensures Valid(u, NextPhase(u, phase, side)) && Rank(u, NextPhase(u, phase, side)) < Rank(u, phase)
  {
    if side.ServerSide? {
      ServerAdvances(u, phase);
    } else {
      ClientAdvances(u, phase);
    }
  }

  function PhaseAfter(u: Setup, schedule: seq<Side>): Phase {
    if schedule == [] then Fresh
    else
      var before, side := PhaseAfter(u, schedule[..|schedule| - 1]), schedule[|schedule| - 1];
      if Turn(u, before, side) then NextPhase(u, before, side) else before
  }

  lemma {:induction false} ExecFollowsPhases(u: Setup, schedule: seq<Side>)
    requires Ready(u)
    ensures Valid(u, PhaseAfter(u, schedule))
    ensures Exec(schedule, StateOf(u, Fresh)) == StateOf(u, PhaseAfter(u, schedule))
    ensures StepsTaken(schedule, StateOf(u, Fresh)) + Rank(u, PhaseAfter(u, schedule)) <= Rank(u, Fresh)
  {
    if schedule != [] {
      var before, side := schedule[..|schedule| - 1], schedule[|schedule| - 1];
      ExecFollowsPhases(u, before);
      PhaseStep(u, PhaseAfter(u, before), side);
      StutterStep(StateOf(u, PhaseAfter(u, before)), side);
      if Turn(u, PhaseAfter(u, before), side) {
        PhaseAdvances(u, PhaseAfter(u, before), side);
      }
    }
  }

  lemma StutterStep(s: System, side: Side)
    ensures !Enabled(s, side) ==> Step(s, side) == s
  {
  }

  // ---------------------------------------------------------------- what a phase shows

  /** Both disks as after the first k actions. */
  predicate FilesAfter(u: Setup, s: System, k: nat) {
    k <= |u.plan| && s.server.disk == Moved(u, k).server && s.client.disk == Moved(u, k).client
  }

  /** How many actions have taken effect on the files. */
  function Effective(u: Setup, phase: Phase): nat {
    match phase
    case Fresh => 0
    case Greeted => 0
    case Checking => 0
    case CheckSeen => 0
    case Checked => 0
    case Introduced(_) => 0
    case Expected(_) => 0
    case Awaited(_) => 0
    case Reading(_, _) => 0
    case SimpleAsked(i, _) => AskedDone(ActionNo(u, i), i)
    case StuckEarly(i) => AskedDone(ActionNo(u, i), i)
    case Answered(i) => i + 1
    case Closing(_) => |u.plan|
    case Over => |u.plan|
    case _ => NextOf(phase)
  }

  lemma RemoteDeletionSparesClient(u: Setup, i: nat)
    requires Sound(u) && i < |u.plan| && u.plan[i].DeleteRemote?
    ensures Moved(u, i + 1).client == Moved(u, i).client
  {
    assert StepGood(u, i);
  }

  lemma FilesOfRequest(u: Setup, phase: Phase)
    requires Sound(u) && Valid(u, phase) && (phase.SimpleAsked? || phase.StuckEarly?)
    ensures FilesAfter(u, StateOf(u, phase), Effective(u, phase))
  {
    if u.plan[phase.next].DeleteRemote? {
      RemoteDeletionSparesClient(u, phase.next);
    }
  }

  lemma FilesBefore(u: Setup, phase: Phase)
    requires Sound(u)
    requires phase.Fresh? || phase.Greeted? || phase.Checking? || phase.CheckSeen? || phase.Checked?
      || phase.Introduced? || phase.Expected? || phase.Awaited? || phase.Reading?
    ensures FilesAfter(u, StateOf(u, phase), 0) && Effective(u, phase) == 0
  {
  }

  /** A download onto the temporary name is under way: its target is gone already. */
  predicate Dropping(u: Setup, phase: Phase) {
    && (phase.DownloadReady? || phase.FileSent? || phase.HeaderRead? || phase.StuckLate?)
    && OnTempName(ActionNo(u, phase.next))
  }

  lemma FilesOfFetch(u: Setup, phase: Phase)
    requires Valid(u, phase) && (phase.DownloadReady? || phase.FileSent? || phase.HeaderRead?)
    requires !Dropping(u, phase)
    ensures FilesAfter(u, StateOf(u, phase), phase.next) && Effective(u, phase) == phase.next
  {
  }

  lemma FilesOfPhase(u: Setup, phase: Phase)
    requires Sound(u) && Valid(u, phase) && !Dropping(u, phase)
    ensures FilesAfter(u, StateOf(u, phase), Effective(u, phase))
  {
    if phase.SimpleAsked? || phase.StuckEarly? {
      FilesOfRequest(u, phase);
    } else if phase.DownloadReady? || phase.FileSent? || phase.HeaderRead? {
      FilesOfFetch(u, phase);
    } else if phase.Fresh? || phase.Greeted? || phase.Checking? || phase.CheckSeen? || phase.Checked?
      || phase.Introduced? || phase.Expected? || phase.Awaited? || phase.Reading? {
      FilesBefore(u, phase);
    }
  }

  // ---------------------------------------------------------------- where a session can end

  predicate Stuck(phase: Phase) {
    phase.StuckEarly? || phase.StuckLate?
  }

  lemma ServerHealth(u: Setup, phase: Phase)
    requires Valid(u, phase)
    ensures StateOf(u, phase).server.pc.ServerFailed? <==> phase.Rejected?
    ensures StateOf(u, phase).server.pc.Finished? <==> phase.Closing? || phase.Over?
  {
  }

  lemma ClientHealth(u: Setup, phase: Phase)
    requires Valid(u, phase)
    ensures StateOf(u, phase).client.pc.ClientFailed? <==> Stuck(phase)
    ensures StateOf(u, phase).client.pc.Closed? <==> phase.Over?
  {
  }

  lemma PhaseSaved(u: Setup, phase: Phase)
    ensures StateOf(u, phase).server.state == if phase.Closing? || phase.Over? then u.saved else u.world.state
  {
  }

  lemma StuckReason(u: Setup, phase: Phase)
    requires Valid(u, phase) && (Stuck(phase) || phase.Rejected?)
    ensures Stuck(phase) ==> !AllAcceptable(u.plan, u.base)
    ensures phase.Rejected? ==> !AllHeld(u.plan, u.world, u.crcs.CrcsOn?)
    ensures !AllPass(u, u.plan)
  {
    assert u.plan[phase.next] == ActionNo(u, phase.next);
  }

  lemma PassesAll(u: Setup)
    ensures AllPass(u, u.plan) <==> AllAcceptable(u.plan, u.base) && AllHeld(u.plan, u.world, u.crcs.CrcsOn?)
  {
    forall i | 0 <= i < |u.plan|
      ensures Passes(u, u.plan[i]) <==> Acceptable(u.plan[i], u.base) && Held(u.plan[i], u.world, u.crcs.CrcsOn?)
    {
    }
  }

  /** Only at the end, or when one side has given up, can nobody move. */
  lemma SomeoneCanMove(u: Setup, phase: Phase)
    requires Valid(u, phase) && !phase.Over? && !Stuck(phase) && !phase.Rejected?
    ensures Turn(u, phase, ServerSide) || Turn(u, phase, ClientSide)
  {
  }

  lemma InitialIsFresh(u: Setup)
    requires Proper(u)
    ensures Initial(u.world, u.manifest, u.crcs, u.checks, u.base) == StateOf(u, Fresh)
  {
    StartsAtRest(u);
  }

  // ---------------------------------------------------------------- the theorems

  /** From a fresh scan of the server every session is workable. */
  lemma FreshIsWorkable(w: World, crcs: Crcs)
    ensures Workable(w, ScanServer(w.server), crcs)
  {
    var plan := PlanFor(w, ScanServer(w.server), crcs);
    ScansKeyed(w.server, w.client, true);
    forall i | 0 <= i < |plan| && plan[i].Download?
      ensures Held(plan[i], w, crcs.CrcsOn?)
    {
      FreshDownloadHeld(w, crcs, i);
    }
  }

  function SessionAfter(w: World, manifest: Manifest, crcs: Crcs, checks: bool, base: nat, schedule: seq<Side>): System {
    Exec(schedule, Initial(w, manifest, crcs, checks, base))
  }

  function WorldOf(s: System): World {
    World(s.server.disk, s.client.disk, s.server.state)
  }

  lemma SessionPhase(w: World, manifest: Manifest, crcs: Crcs, checks: bool, base: nat, schedule: seq<Side>)
    returns (u: Setup, phase: Phase)
    requires Workable(w, manifest, crcs)
    ensures Proper(u) && Ready(u) && u.world == w && u.manifest == manifest && u.crcs == crcs && u.base == base
    ensures Valid(u, phase) && SessionAfter(w, manifest, crcs, checks, base, schedule) == StateOf(u, phase)
    ensures phase == PhaseAfter(u, schedule)
    ensures u == SetupFor(w, manifest, crcs, checks, base)
  {
    u := SetupFor(w, manifest, crcs, checks, base);
    ProperIsReady(u);
    ExecFollowsPhases(u, schedule);
    InitialIsFresh(u);
    phase := PhaseAfter(u, schedule);
  }

  lemma MovedIsAborted(u: Setup, s: System, k: nat)
    requires Proper(u) && FilesAfter(u, s, k) && s.server.state == u.world.state
    ensures WorldOf(s) == AbortedFor(u.world, u.manifest, u.crcs, k)
  {
  }

  lemma MovedIsRound(u: Setup, s: System)
    requires Proper(u) && FilesAfter(u, s, |u.plan|) && s.server.state == u.saved
    ensures WorldOf(s) == RoundFor(u.world, u.manifest, u.crcs)
  {
    assert u.plan[..|u.plan|] == u.plan;
  }

  /**
   * However the two sides interleave, no message is ever unexpected.  The client fails only if the plan holds an action
   * it cannot carry out - a path too long for its buffers, or a download that would land on the temporary file's own
   * name - and the server only over an upload whose CRC was reported wrongly.  Nothing is saved then.
   */
  lemma NoProtocolError(w: World, manifest: Manifest, crcs: Crcs, checks: bool, base: nat, schedule: seq<Side>)
    requires Workable(w, manifest, crcs)
    ensures var s, plan := SessionAfter(w, manifest, crcs, checks, base, schedule), PlanFor(w, manifest, crcs);
      && (s.server.pc.ServerFailed? ==> s.server.state == w.state && !AllHeld(plan, w, crcs.CrcsOn?))
      && (s.client.pc.ClientFailed? ==> s.server.state == w.state && !AllAcceptable(plan, base))
  {
    var u, phase := SessionPhase(w, manifest, crcs, checks, base, schedule);
    ServerHealth(u, phase);
    ClientHealth(u, phase);
    if Stuck(phase) || phase.Rejected? {
      StuckReason(u, phase);
      PhaseSaved(u, phase);
    }
  }

  lemma OutcomeOfPhase(u: Setup, phase: Phase)
    requires Ready(u) && Valid(u, phase)
    requires !Enabled(StateOf(u, phase), ServerSide) && !Enabled(StateOf(u, phase), ClientSide)
    ensures phase.Over? || Stuck(phase) || phase.Rejected?
    ensures phase.Over? <==> AllPass(u, u.plan)
  {
    PhaseStep(u, phase, ServerSide);
    PhaseStep(u, phase, ClientSide);
    if Stuck(phase) || phase.Rejected? {
      StuckReason(u, phase);
    } else if !phase.Over? {
      SomeoneCanMove(u, phase);
    }
  }

  /**
   * When nobody can move any more, the session is complete exactly if the client could take every action and every
   * file to be sent was as listed; otherwise one side has given up.
   */
  lemma SessionOutcome(w: World, manifest: Manifest, crcs: Crcs, checks: bool, base: nat, schedule: seq<Side>)
    requires Workable(w, manifest, crcs)
    requires NobodyCanMove(SessionAfter(w, manifest, crcs, checks, base, schedule))
    ensures var s, plan := SessionAfter(w, manifest, crcs, checks, base, schedule), PlanFor(w, manifest, crcs);
      && (s.client.pc.Closed? <==> AllAcceptable(plan, base) && AllHeld(plan, w, crcs.CrcsOn?))
      && (s.client.pc.Closed? || s.client.pc.ClientFailed? || s.server.pc.ServerFailed?)
  {
    var u, phase := SessionPhase(w, manifest, crcs, checks, base, schedule);
    OutcomeOfPhase(u, phase);
    ServerHealth(u, phase);
    ClientHealth(u, phase);
    PassesAll(u);
  }

  /** From a fresh scan: exactly if the client can take every action and has reported the CRCs of its uploads truly. */
  lemma FreshOutcome(w: World, crcs: Crcs, checks: bool, base: nat, schedule: seq<Side>)
    requires NobodyCanMove(SessionAfter(w, ScanServer(w.server), crcs, checks, base, schedule))
    ensures var s := SessionAfter(w, ScanServer(w.server), crcs, checks, base, schedule);
      var plan := PlanFor(w, ScanServer(w.server), crcs);
      s.client.pc.Closed? <==> AllAcceptable(plan, base) && UploadsTrue(plan, w.client, crcs)
  {
    FreshIsWorkable(w, crcs);
    FreshIsHeld(w, crcs);
    SessionOutcome(w, ScanServer(w.server), crcs, checks, base, schedule);
  }

  /** However long the schedule, only a bounded number of its steps move anything. */
  lemma SessionTerminates(w: World, manifest: Manifest, crcs: Crcs, checks: bool, base: nat, schedule: seq<Side>)
    requires Workable(w, manifest, crcs)
    ensures StepsTaken(schedule, Initial(w, manifest, crcs, checks, base)) <=
      10 * |PlanFor(w, manifest, crcs)| + 2 * |ListClient(w.client, crcs)| + 33
  {
    var u, phase := SessionPhase(w, manifest, crcs, checks, base, schedule);
    ExecFollowsPhases(u, schedule);
    RankNonNegative(u, phase);
    InitialIsFresh(u);
    SortedKeysLength(u.items.Keys);
  }

  lemma SomeTurn(u: Setup, phase: Phase) returns (side: Side)
    requires Ready(u) && Valid(u, phase) && !NobodyCanMove(StateOf(u, phase))
    ensures Turn(u, phase, side) && Rank(u, NextPhase(u, phase, side)) < Rank(u, phase)
  {
    PhaseStep(u, phase, ServerSide);
    PhaseStep(u, phase, ClientSide);
    side := if Turn(u, phase, ServerSide) then ServerSide else ClientSide;
    PhaseAdvances(u, phase, side);
  }

  lemma {:induction false} PhaseCanFinish(u: Setup, schedule: seq<Side>) returns (more: seq<Side>)
    requires Ready(u)
    ensures NobodyCanMove(Exec(schedule + more, StateOf(u, Fresh)))
    decreases Rank(u, PhaseAfter(u, schedule))
  {
    var phase := PhaseAfter(u, schedule);
    ExecFollowsPhases(u, schedule);
    RankNonNegative(u, phase);
    if NobodyCanMove(StateOf(u, phase)) {
      more := [];
      assert schedule + more == schedule;
    } else {
      var side := SomeTurn(u, phase);
      ScheduleGrows(u, schedule, side);
      var rest := PhaseCanFinish(u, schedule + [side]);
      more := [side] + rest;
      assert schedule + more == schedule + [side] + rest;
    }
  }

  lemma ScheduleGrows(u: Setup, schedule: seq<Side>, side: Side)
    requires Turn(u, PhaseAfter(u, schedule), side)
    ensures PhaseAfter(u, schedule + [side]) == NextPhase(u, PhaseAfter(u, schedule), side)
  {
    assert (schedule + [side])[..|schedule|] == schedule;
  }

  /** From wherever a session has got to, it can be run to such an end. */
  lemma SessionCanFinish(w: World, manifest: Manifest, crcs: Crcs, checks: bool, base: nat, schedule: seq<Side>)
    returns (more: seq<Side>)
    requires Workable(w, manifest, crcs)
    ensures NobodyCanMove(SessionAfter(w, manifest, crcs, checks, base, schedule + more))
  {
    var u, phase := SessionPhase(w, manifest, crcs, checks, base, schedule);
    more := PhaseCanFinish(u, schedule);
    InitialIsFresh(u);
  }

  lemma OverIsRound(u: Setup, phase: Phase)
    requires Proper(u) && Ready(u) && Valid(u, phase) && phase.Over?
    ensures WorldOf(StateOf(u, phase)) == RoundFor(u.world, u.manifest, u.crcs)
    ensures StateOf(u, phase).client.pc == Closed(|u.plan|, ConflictCount(u.plan))
  {
    FilesOfPhase(u, phase);
    PhaseSaved(u, phase);
    MovedIsRound(u, StateOf(u, phase));
    assert u.plan[..|u.plan|] == u.plan;
  }

  /** A completed session is one atomic round: files, saved state and both counts the client reports. */
  lemma SessionRefinesRound(w: World, manifest: Manifest, crcs: Crcs, checks: bool, base: nat, schedule: seq<Side>)
    requires Workable(w, manifest, crcs)
    requires SessionAfter(w, manifest, crcs, checks, base, schedule).client.pc.Closed?
    ensures var s, plan := SessionAfter(w, manifest, crcs, checks, base, schedule), PlanFor(w, manifest, crcs);
      && WorldOf(s) == RoundFor(w, manifest, crcs)
      && s.client.pc == Closed(|plan|, ConflictCount(plan))
  {
    var u, phase := SessionPhase(w, manifest, crcs, checks, base, schedule);
    ClientHealth(u, phase);
    OverIsRound(u, phase);
  }

  // ---------------------------------------------------------------- the automata end as Delivery says

  lemma FirstStop(plan: seq<SyncAction>, k: nat, i: nat, w: World, crcOn: bool, base: nat)
    requires StopsAt(plan, k, w, crcOn, base) && i < |plan| && !Meets(plan[i], w, crcOn, base).Done?
    requires forall j :: 0 <= j < i ==> Meets(plan[j], w, crcOn, base).Done?
    ensures k == i
  {
  }

  lemma PassMeets(u: Setup, i: nat)
    requires i < |u.plan|
    ensures Meets(u.plan[i], u.world, u.crcs.CrcsOn?, u.base).Done? <==> Passes(u, u.plan[i])
  {
    MeetsDone(u.plan[i], u.world, u.crcs.CrcsOn?, u.base);
  }

  lemma GivenUp(u: Setup, phase: Phase)
    requires Valid(u, phase) && (Stuck(phase) || phase.Rejected?)
    ensures phase.next < |u.plan| && !Passes(u, u.plan[phase.next]) && AllPass(u, Prefix(u, phase.next))
    ensures phase.StuckEarly? ==> !Fits(u.plan[phase.next], u.base)
    ensures phase.StuckLate? ==> OnTempName(u.plan[phase.next]) && Fits(u.plan[phase.next], u.base)
    ensures phase.Rejected? ==> u.plan[phase.next].Upload?
  {
  }

  /** A session stops before the action at which one side has given up. */
  lemma StopIsPhase(u: Setup, i: nat)
    requires Proper(u) && i < |u.plan| && !Passes(u, u.plan[i]) && AllPass(u, Prefix(u, i))
    ensures SessionFrom(u.world, u.manifest, u.crcs, u.base).attempt.done == i
  {
    SessionStops(u.world, u.manifest, u.crcs, u.base);
    forall j | 0 <= j <= i
      ensures Meets(u.plan[j], u.world, u.crcs.CrcsOn?, u.base).Done? <==> j < i
    {
      PassMeets(u, j);
      if j < i {
        assert Prefix(u, i)[j] == u.plan[j];
      }
    }
    var k := SessionFrom(u.world, u.manifest, u.crcs, u.base).attempt.done;
    FirstStop(u.plan, k, i, u.world, u.crcs.CrcsOn?, u.base);
  }

  lemma MeetsHere(u: Setup, i: nat)
    requires Proper(u) && i < |u.plan|
    ensures Moved(u, i) == Delivery.After(u.plan, i, Start(u.world, u.manifest))
    ensures ResultOf(u.plan[i], Moved(u, i), u.crcs.CrcsOn?, u.base) ==
      Meets(u.plan[i], u.world, u.crcs.CrcsOn?, u.base)
  {
    ResultIsMeets(u.world, u.manifest, u.crcs, u.base, i);
  }

  /** What an action that cannot be carried out leaves. */
  predicate LeftBy(u: Setup, i: nat, v: World)
    requires i < |u.plan|
  {
    var crcOn := u.crcs.CrcsOn?;
    var p := EffectOf(u.plan[i], Moved(u, i), crcOn, u.base);
    && ResultOf(u.plan[i], Moved(u, i), crcOn, u.base).Refused?
    && v == World(p.server, p.client, u.world.state)
  }

  lemma EarlyEffect(u: Setup, i: nat)
    requires Sound(u) && i < |u.plan| && !Fits(u.plan[i], u.base)
    ensures LeftBy(u, i, WorldOf(StuckEarlyState(u, i)))
  {
    assert StepGood(u, i);
  }

  lemma LateEffect(u: Setup, i: nat)
    requires i < |u.plan| && OnTempName(u.plan[i]) && Fits(u.plan[i], u.base)
    requires ResultOf(u.plan[i], Moved(u, i), u.crcs.CrcsOn?, u.base).Refused?
    ensures LeftBy(u, i, WorldOf(StuckLateState(u, i)))
  {
  }

  lemma RejectedEffect(u: Setup, i: nat)
    requires i < |u.plan| && u.plan[i].Upload?
    requires ResultOf(u.plan[i], Moved(u, i), u.crcs.CrcsOn?, u.base).Refused?
    ensures LeftBy(u, i, WorldOf(RejectedState(u, i)))
  {
  }

  lemma PassHasNoSurplus(u: Setup, i: nat)
    requires Proper(u) && i < |u.plan| && !Passes(u, u.plan[i])
    ensures ResultOf(u.plan[i], Moved(u, i), u.crcs.CrcsOn?, u.base).Refused?
  {
    MeetsHere(u, i);
    assert u.plan[i].Download? ==> Held(u.plan[i], u.world, u.crcs.CrcsOn?);
  }

  lemma GivenUpLeaves(u: Setup, phase: Phase)
    requires Proper(u) && Sound(u) && Valid(u, phase) && (Stuck(phase) || phase.Rejected?)
    ensures phase.next < |u.plan| && LeftBy(u, phase.next, WorldOf(StateOf(u, phase)))
  {
    GivenUp(u, phase);
    PassHasNoSurplus(u, phase.next);
    match phase {
      case StuckEarly(i) => EarlyEffect(u, i);
      case StuckLate(i) => LateEffect(u, i);
      case Rejected(i) => RejectedEffect(u, i);
    }
  }

  lemma StoppedLeaves(u: Setup, i: nat, v: World)
    requires Proper(u) && i < |u.plan| && LeftBy(u, i, v)
    requires SessionFrom(u.world, u.manifest, u.crcs, u.base).attempt.done == i
    ensures SessionFrom(u.world, u.manifest, u.crcs, u.base).world == v
  {
    SessionStops(u.world, u.manifest, u.crcs, u.base);
    MeetsHere(u, i);
  }

  /** When nobody can move any more, files and saved state are those of Delivery's session. */
  lemma SessionEndsAsDelivered(w: World, manifest: Manifest, crcs: Crcs, checks: bool, base: nat, schedule: seq<Side>)
    requires Workable(w, manifest, crcs)
    requires NobodyCanMove(SessionAfter(w, manifest, crcs, checks, base, schedule))
    ensures WorldOf(SessionAfter(w, manifest, crcs, checks, base, schedule)) == SessionFrom(w, manifest, crcs, base).world
  {
    var u, phase := SessionPhase(w, manifest, crcs, checks, base, schedule);
    OutcomeOfPhase(u, phase);
    if phase.Over? {
      OverIsRound(u, phase);
      PassesAll(u);
      SessionIsRound(w, manifest, crcs, base);
    } else {
      GivenUp(u, phase);
      StopIsPhase(u, phase.next);
      GivenUpLeaves(u, phase);
      StoppedLeaves(u, phase.next, WorldOf(StateOf(u, phase)));
    }
  }

  lemma PhaseCutShort(u: Setup, phase: Phase)
    requires Proper(u) && Ready(u) && Valid(u, phase) && !Dropping(u, phase)
    ensures phase.Closing? || phase.Over? ==> WorldOf(StateOf(u, phase)) == RoundFor(u.world, u.manifest, u.crcs)
    ensures !phase.Closing? && !phase.Over? ==>
      Effective(u, phase) <= |u.plan| &&
      WorldOf(StateOf(u, phase)) == AbortedFor(u.world, u.manifest, u.crcs, Effective(u, phase))
  {
    FilesOfPhase(u, phase);
    PhaseSaved(u, phase);
    if phase.Closing? || phase.Over? {
      MovedIsRound(u, StateOf(u, phase));
    } else {
      MovedIsAborted(u, StateOf(u, phase), Effective(u, phase));
    }
  }

  lemma DroppedCutShort(u: Setup, phase: Phase)
    requires Proper(u) && Valid(u, phase) && Dropping(u, phase)
    ensures phase.next < |u.plan| && OnTempName(u.plan[phase.next])
    ensures WorldOf(StateOf(u, phase)) ==
      DropOnClient(AbortedFor(u.world, u.manifest, u.crcs, phase.next), ActionPath(u.plan[phase.next]))
  {
  }

  function DropOnClient(w: World, path: Path): World {
    w.(client := w.client - {path})
  }

  /** The world after the first k actions of the plan, nothing saved. */
  ghost predicate Prefixed(w: World, manifest: Manifest, crcs: Crcs, k: nat, v: World) {
    k <= |PlanFor(w, manifest, crcs)| && v == AbortedFor(w, manifest, crcs, k)
  }

  /** And the client's file under its temporary name gone, because the next action is a download onto it. */
  ghost predicate PrefixedAndDropped(w: World, manifest: Manifest, crcs: Crcs, k: nat, v: World) {
    var plan := PlanFor(w, manifest, crcs);
    && k < |plan| && OnTempName(plan[k])
    && v == DropOnClient(AbortedFor(w, manifest, crcs, k), ActionPath(plan[k]))
  }

  /**
   * Cut off at any moment, a session is complete and saved, or has carried out a prefix of its plan and saved
   * nothing; once a download onto the client's temporary name has begun, that name's file is gone besides.
   */
  lemma SessionCutShort(w: World, manifest: Manifest, crcs: Crcs, checks: bool, base: nat, schedule: seq<Side>)
    requires Workable(w, manifest, crcs)
    ensures var v := WorldOf(SessionAfter(w, manifest, crcs, checks, base, schedule));
      || v == RoundFor(w, manifest, crcs)
      || (exists k: nat :: Prefixed(w, manifest, crcs, k, v))
      || (exists k: nat :: PrefixedAndDropped(w, manifest, crcs, k, v))
  {
    var u, phase := SessionPhase(w, manifest, crcs, checks, base, schedule);
    var v := WorldOf(SessionAfter(w, manifest, crcs, checks, base, schedule));
    if Dropping(u, phase) {
      DroppedCutShort(u, phase);
      assert PrefixedAndDropped(w, manifest, crcs, phase.next, v);
    } else {
      PhaseCutShort(u, phase);
      if v != RoundFor(w, manifest, crcs) {
        assert Prefixed(w, manifest, crcs, Effective(u, phase), v);
      }
    }
  }
}
