/** Two whole runs of the gate, each on a machine whose answers are fixed: one that leaves something behind that no
    failure names, and a passing one that takes found volumes along. */
module GateRuns {
  import opened Json
  import opened Text
  import opened Host
  import opened Ownership
  import opened GateLog
  import opened RuntimeGate

  function Agreeing(check: Check): string {
    match check
    case ContextShow => "default"
    case SupabaseVersion => "2.109.1"
    case RedisUid => "1"
    case AuthHealth => "200"
    case ImageUser(_, user) => user
    case _ => ""
  }

  const TRUSTING: (Check, string) -> bool := (check, output) => true

  function Found(something: bool): string {
    if something then "found" else ""
  }

  /** The truth, for a command that only looks. */
  function Looked(w: World, command: Command): string
    requires ReadOnly(command)
  {
    match command
    case Ask(check) => Agreeing(check)
    case ListByLabel(project) => Found(exists k :: k in w.containers && w.containers[k].project == project)
    case ListByName(fragment) => Found(exists k :: k in w.containers && Occurs(fragment, k))
    case ListExactly(name) => Found(name in w.containers)
    case ListImage(tag) => Found(tag in w.images)
  }

  /** A machine without containers and images, with these volumes. */
  function Bare(stacks: set<Stack>): World {
    World(map[], {}, stacks, None)
  }

  predicate Quiet(w: World) {
    w.containers == map[] && w.images == {}
  }

  // ---- answers that are independent of what came before ----

  /** An event of a run is answered from the state it found. */
  lemma AnswerOf(environment: Environment, log: seq<Event>, world: World, i: nat)
    requires Replays(environment, log, world) && i < |log|
    ensures environment(log[i].before, log[i].command, i) == (log[i].outcome, After(log, world, i))
  {
    assert ReplaysAt(environment, log, world, i);
  }

  /** What every answer keeps, a run keeps. */
  lemma {:induction false} StaysQuiet(environment: Environment, log: seq<Event>, world: World, i: nat)
    requires Replays(environment, log, world) && i < |log| && Quiet(log[0].before)
    requires forall w, command, n :: Quiet(w) ==> Quiet(environment(w, command, n).1)
    ensures Quiet(log[i].before) && Quiet(After(log, world, i))
  {
    if i > 0 {
      StaysQuiet(environment, log, world, i - 1);
    }
    AnswerOf(environment, log, world, i);
  }

  lemma AgreeingPasses(check: Check)
    ensures Acceptable(TRUSTING, check, Agreeing(check))
  {
    assert DigitsValue("1") == 10 * DigitsValue("") + 1;
  }

  // ---- a removal of the directory that is interrupted ----

  /** Checks succeed, the directory is made, everything else fails, and the removal of the directory is interrupted. */
  function Stubborn(w: World, command: Command, n: nat): (Outcome, World) {
    if ReadOnly(command) then (Completed(Looked(w, command)), w)
    else if command.MakeWorkdir? then (Completed(""), w.(directory := Some("")))
    else if command.RemoveWorkdir? then (Interrupted, w)
    else (Failed, w)
  }

  lemma StubbornIsLawful()
    ensures Lawful(Stubborn)
  {
    forall w: World, command: Command, n: nat
      ensures var (outcome, after) := Stubborn(w, command, n); Allowed(w, command, outcome, after)
    {
    }
  }

  /** Such a run has made the directory, cannot remove it and does not name it. */
  lemma StubbornRun(log: seq<Event>, world: World, middle: nat, primary: Option<Error>,
                    failures: seq<CleanupFailure>, escaped: Option<Error>, requestedContext: bool, runId: string)
    requires Replays(Stubborn, log, world) && middle <= |log|
    requires Performed(TRUSTING, log[..middle], 0, Checks(requestedContext, runId))
    requires if primary.None? then UpTo(TRUSTING, log[..middle], 0, WholeRun(requestedContext, runId))
             else Stuck(TRUSTING, log[..middle], 0, WholeRun(requestedContext, runId))
    requires Cleaned(log, middle, [], failures, escaped, false)
    requires !Escaping(log, middle) ==>
               forall i :: 0 <= i < middle ==> Attended(log, middle, log[i], runId)
    ensures escaped == Some(Interrupt) && world.directory.Some? && Workdir !in failures
  {
    hide Performed, Stuck, UpTo, WholeRun, Checks, Cleaned, Escaping, Stubborn, Justified;
    var made := |Checks(requestedContext, runId)|;
    ProofIsBegun(log[..middle], primary, requestedContext, runId);
    assert log[made] == log[..middle][made];
    StubbornAnswers(log, world, made);
    DirectoryStays(log, world, made, |log| - 1);
    if !Escaping(log, middle) {
      assert Attended(log, middle, log[made], runId);
      RemovalEscapes(log, world, middle);
    }
    EscapedIsShown(log, middle, [], failures, escaped, false);
    StubbornAnswers(log, world, |log| - 1);
    LastEscapes(log, middle, [], failures, escaped, false);
    NoJustification(log, world, middle);
    if Workdir in failures {
      NamedIsJustified(log, middle, failures, escaped, Workdir);
    }
  }

  /** What the machine does for the commands that matter. */
  lemma StubbornAnswers(log: seq<Event>, world: World, i: nat)
    requires Replays(Stubborn, log, world) && i < |log|
    ensures !log[i].outcome.Crashed?
    ensures log[i].command.MakeWorkdir? ==> log[i].outcome.Completed? && After(log, world, i).directory.Some?
    ensures log[i].command.RemoveWorkdir? ==> log[i].outcome.Interrupted?
    ensures log[i].before.directory.Some? ==> After(log, world, i).directory.Some?
  {
    AnswerOf(Stubborn, log, world, i);
  }

  lemma {:induction false} DirectoryStays(log: seq<Event>, world: World, i: nat, j: nat)
    requires Replays(Stubborn, log, world) && i <= j < |log| && After(log, world, i).directory.Some?
    ensures After(log, world, j).directory.Some?
  {
    hide Stubborn;
    if i < j {
      DirectoryStays(log, world, i, j - 1);
      StubbornAnswers(log, world, j);
    }
  }

  lemma RemovalEscapes(log: seq<Event>, world: World, middle: nat)
    requires Replays(Stubborn, log, world) && Given(log, middle, RemoveWorkdir)
    ensures Escaping(log, middle)
  {
    hide Stubborn;
    var i :| middle <= i < |log| && log[i].command == RemoveWorkdir;
    StubbornAnswers(log, world, i);
    assert Escapes(log[i]);
  }

  lemma LastEscapes(log: seq<Event>, from: nat, listed: seq<CleanupFailure>, failures: seq<CleanupFailure>,
                    escaped: Option<Error>, missing: bool)
    requires Cleaned(log, from, listed, failures, escaped, missing) && escaped.Some?
    ensures log != [] && Escapes(log[|log| - 1])
  {
    hide Justified, Clean;
  }

  lemma NamedIsJustified(log: seq<Event>, from: nat, failures: seq<CleanupFailure>, escaped: Option<Error>,
                         failure: CleanupFailure)
    requires Cleaned(log, from, [], failures, escaped, false) && failure in failures
    ensures Justified(log, from, failure)
  {
    hide Justified, Clean, Escaping;
    assert failures[0..] == failures;
  }

  lemma NoJustification(log: seq<Event>, world: World, middle: nat)
    requires Replays(Stubborn, log, world)
    ensures !Justified(log, middle, Workdir)
  {
    hide Stubborn;
    forall i | middle <= i < |log| && log[i].command == RemoveWorkdir ensures Escapes(log[i]) {
      StubbornAnswers(log, world, i);
    }
  }

  /** The log of a run past its checks shows the first step of the proof. */
  lemma ProofIsBegun(log: seq<Event>, primary: Option<Error>, requestedContext: bool, runId: string)
    requires Performed(TRUSTING, log, 0, Checks(requestedContext, runId))
    requires if primary.None? then UpTo(TRUSTING, log, 0, WholeRun(requestedContext, runId))
             else Stuck(TRUSTING, log, 0, WholeRun(requestedContext, runId))
    ensures |Checks(requestedContext, runId)| < |log|
    ensures log[|Checks(requestedContext, runId)|].command == MakeWorkdir
  {
    hide Passes, PreflightChecks, NamespaceChecks, RedisSteps, SupabaseSteps, BuildSteps, UserChecks, ProbeSteps;
    var checks, all := Checks(requestedContext, runId), WholeRun(requestedContext, runId);
    assert all[|checks|] == MakeWorkdir;
    ChecksAreMade(requestedContext, runId);
    if |log| == |checks| {
      LastPassed(TRUSTING, log, 0, checks);
    } else if |log| > |checks| + 1 {
      assert all[..|log| - 1][|checks|] == all[|checks|];
      assert log[0 + |checks|].command == all[|checks|];
    }
  }

  lemma ChecksAreMade(requestedContext: bool, runId: string)
    ensures Checks(requestedContext, runId) != []
  {
    hide NamespaceChecks;
  }

  // ---- the checks on a bare machine ----

  lemma BarePasses(command: Command, stacks: set<Stack>)
    requires ReadOnly(command)
    ensures Passes(TRUSTING, Event(command, Bare(stacks), Completed(Looked(Bare(stacks), command))))
  {
    hide Acceptable;
    if command.Ask? {
      AgreeingPasses(command.check);
    }
  }

  /** Commands that only look are answered with the truth. */
  ghost predicate Truthful(environment: Environment) {
    forall w, command, n :: ReadOnly(command) ==> environment(w, command, n) == (Completed(Looked(w, command)), w)
  }

  lemma ChecksPass(environment: Environment, log: seq<Event>, world: World, stacks: set<Stack>,
                   commands: seq<Command>)
    requires Truthful(environment) && Replays(environment, log, world) && Untouched(log, 0, Bare(stacks))
    ensures !Stuck(TRUSTING, log, 0, commands)
  {
    hide Looked, Passes, Performed;
    if log != [] {
      var last := log[|log| - 1];
      AnswerOf(environment, log, world, |log| - 1);
      BarePasses(last.command, stacks);
      assert last == Event(last.command, Bare(stacks), Completed(Looked(Bare(stacks), last.command)));
    }
  }

  /** A run in which the directory is left behind and named by nothing: the interrupt ends the cleanup. */
  method InterruptedRemovalLeavesTheDirectory(runId: string, requestedContext: bool)
    returns (gate: Gate, ending: Ending, failures: seq<CleanupFailure>)
    ensures ending == Stopped(Interrupt)
    ensures gate.initial.directory.None? && gate.machine.world.directory.Some? && Workdir !in failures
    ensures !Covered(gate.initial, gate.machine.world, runId, NamedBy(runId, failures))
  {
    hide Stubborn, Performed, Stuck, UpTo, Checks, WholeRun, Cleaned, Escaping, Attended, Untouched, Vacant, SoundLog,
      Preserved, Clean, Restored;
    StubbornIsLawful();
    StubbornIsTruthful();
    var machine := new Machine(Stubborn, Bare({}));
    gate := new Gate(machine, runId, TRUSTING);
    var primary, escaped, started;
    ghost var middle;
    ending, primary, failures, escaped, started, middle := gate.RunLocked(false, true, true, requestedContext);
    assert machine.environment == Stubborn;
    if !started {
      ChecksPass(Stubborn, machine.log, machine.world, {}, Checks(requestedContext, runId));
    } else {
      StubbornRun(machine.log, machine.world, middle, primary, failures, escaped, requestedContext, runId);
    }
  }

  lemma StubbornIsTruthful()
    ensures Truthful(Stubborn)
  {
  }

  // ---- a passing run ----

  /** Every command completes, and does no more than it has to. */
  function Obliging(w: World, command: Command, n: nat): (Outcome, World) {
    if ReadOnly(command) then (Completed(Looked(w, command)), w)
    else
      match command
      case MakeWorkdir => (Completed(""), w.(directory := Some("")))
      case FillWorkdir(project) => (Completed("1"), w.(directory := Some(project)))
      case RemoveWorkdir => (Completed(""), w.(directory := None))
      case ComposeDown(project) =>
        (Completed(""),
         w.(containers := map k | k in w.containers && w.containers[k].project != project :: w.containers[k],
            stacks := w.stacks - {ComposeStack(project)}))
      case SupabaseStop(project) =>
        (Completed(""),
         w.(containers := map k | k in w.containers && !EndsWith(k, project) :: w.containers[k],
            stacks := w.stacks - {SupabaseStack(project)}))
      case RemoveContainer(name) => (Completed(""), w.(containers := w.containers - {name}))
      case RemoveImage(tag) =>
        if exists k :: k in w.containers && w.containers[k].image == tag then (Failed, w)
        else (Completed(""), w.(images := w.images - {tag}))
      case _ => (Completed(""), w)
  }

  lemma ObligingIsLawful()
    ensures Lawful(Obliging)
  {
    forall w: World, command: Command, n: nat
      ensures var (outcome, after) := Obliging(w, command, n); Allowed(w, command, outcome, after)
    {
    }
  }

  lemma ObligingIsTruthful()
    ensures Truthful(Obliging)
  {
  }

  lemma ObligingCompletes(log: seq<Event>, world: World, i: nat)
    requires Replays(Obliging, log, world) && i < |log| && Quiet(log[0].before)
    ensures log[i].outcome.Completed?
    ensures !log[i].command.ListByLabel? && !log[i].command.ListByName? && !log[i].command.ListImage? ==>
              Passes(TRUSTING, log[i])
  {
    hide Acceptable;
    StaysQuiet(Obliging, log, world, i);
    AnswerOf(Obliging, log, world, i);
    if log[i].command.Ask? {
      AgreeingPasses(log[i].command.check);
    }
  }

  lemma ProofDoesNotList(runId: string, i: nat)
    requires i < |Proof(runId)|
    ensures var c := Proof(runId)[i]; !c.ListByLabel? && !c.ListByName? && !c.ListImage?
  {
    hide ImageTags, ProbeNames, ImageUsers, Project;
  }

  /** The run is not stuck: its checks were performed, and what follows passes. */
  lemma ObligingRunPasses(log: seq<Event>, world: World, middle: nat, requestedContext: bool, runId: string)
    requires Replays(Obliging, log, world) && middle <= |log| && (log != [] ==> Quiet(log[0].before))
    requires Performed(TRUSTING, log[..middle], 0, Checks(requestedContext, runId))
    ensures !Stuck(TRUSTING, log[..middle], 0, WholeRun(requestedContext, runId)) && Clean(log, middle)
  {
    hide Passes, Proof, Obliging, PreflightChecks, NamespaceChecks;
    forall i | middle <= i < |log| ensures log[i].outcome.Completed? {
      ObligingCompletes(log, world, i);
    }
    var checks, all := Checks(requestedContext, runId), WholeRun(requestedContext, runId);
    ChecksAreMade(requestedContext, runId);
    if |checks| == middle {
      LastPassed(TRUSTING, log[..middle], 0, checks);
    } else if middle <= |all| {
      ObligingCompletes(log, world, middle - 1);
      ProofDoesNotList(runId, middle - 1 - |checks|);
      assert all[middle - 1] == Proof(runId)[middle - 1 - |checks|];
    }
  }

  /** A run that passes on a machine that holds these volumes takes exactly those of its own projects along. */
  method PassingRunTakesFoundVolumes(runId: string, requestedContext: bool, found: set<Stack>)
    returns (gate: Gate, ending: Ending)
    ensures ending == Passed && gate.initial.stacks == found
    ensures gate.machine.world.stacks == found - OwnStacks(runId)
  {
    hide Obliging, Performed, Stuck, UpTo, Checks, WholeRun, Cleaned, Escaping, Attended, Untouched, Vacant, SoundLog,
      Preserved, Clean, OwnStacks;
    ObligingIsLawful();
    ObligingIsTruthful();
    var machine := new Machine(Obliging, Bare(found));
    gate := new Gate(machine, runId, TRUSTING);
    var primary, failures, escaped, started;
    ghost var middle;
    ending, primary, failures, escaped, started, middle := gate.RunLocked(false, true, true, requestedContext);
    assert machine.environment == Obliging;
    if !started {
      ChecksPass(Obliging, machine.log, machine.world, found, Checks(requestedContext, runId));
    } else {
      ObligingRunPasses(machine.log, machine.world, middle, requestedContext, runId);
    }
  }
}
