/** scripts/verify_m0_runtime.py: the gate acquires containers, images and a directory, and cleans up however its
    commands end. */
module RuntimeGate {
  import opened Json
  import opened Host
  import opened Ownership
  import opened GateLog

  class Gate {
    const machine: Machine
    const runId: string
    const judge: (Check, string) -> bool
    var redisStartAttempted: bool
    var supabaseStartAttempted: bool
    var attemptedImages: seq<string>
    var attemptedProbeContainers: seq<string>
    /** Whether `_runtime_directory` and `supabase_workdir` are set. */
    var runtimeDirectory: bool
    var supabaseWorkdir: bool
    ghost var initial: World
    ghost var start: nat

    constructor (machine: Machine, runId: string, judge: (Check, string) -> bool)
      ensures this.machine == machine && this.runId == runId && this.judge == judge && Idle()
    {
      this.machine, this.runId, this.judge := machine, runId, judge;
      redisStartAttempted, supabaseStartAttempted, attemptedImages, attemptedProbeContainers := false, false, [], [];
      runtimeDirectory, supabaseWorkdir := false, false;
    }

    predicate Idle()
      reads this
    {
      && !redisStartAttempted && !supabaseStartAttempted && attemptedImages == [] && attemptedProbeContainers == []
      && !runtimeDirectory && !supabaseWorkdir
    }

    /** What the fields say the run may have created. */
    ghost function Attempted(): Allowance
      reads this
    {
      Allowance(AsSet(attemptedProbeContainers), AsSet(attemptedImages), redisStartAttempted,
                supabaseStartAttempted, runtimeDirectory, {})
    }

    /** The state of the machine fits the allowance, and the run so far is sound. */
    ghost predicate Ready(a: Allowance, failures: seq<CleanupFailure>)
      reads this, machine
    {
      && machine.Honest() && Vacant(initial, runId) && Owned(runId, a)
      && Tracks(initial, machine.world, runId, a)
      && SoundLog(machine.log, start, initial, runId, failures)
      && (supabaseWorkdir ==> machine.world.directory == Some(Project(runId)))
    }

    /** `_step`. */
    method Run(command: Command, ghost a: Allowance, ghost failures: seq<CleanupFailure>) returns (outcome: Outcome)
      requires Ready(a, failures) && MayRun(machine.world, command, runId, a, failures)
      requires FootprintOf(machine.world, command).directory ==> !supabaseWorkdir
      modifies machine
      ensures Ready(a, failures)
      ensures outcome.Completed? ==> Achieved(old(machine.world), command, outcome.output, machine.world)
      ensures ReadOnly(command) ==> machine.world == old(machine.world)
      ensures command.MakeWorkdir? && !outcome.Completed? ==>
                machine.world.directory == old(machine.world.directory)
      ensures machine.log == old(machine.log) + [Event(command, old(machine.world), outcome)]
    {
      hide Machine.Honest, Vacant, Owned, Tracks, SoundEvent, Achieved, FootprintOf, Fits, Project, NamedProbes;
      outcome := machine.Execute(command);
      EventIsSound(old(machine.world), command, initial, runId, a, failures, outcome);
      CommandBounded(initial, old(machine.world), command, outcome, machine.world, runId, a);
      if ReadOnly(command) {
        ReadOnlyKeeps(old(machine.world), command, outcome, machine.world);
      }
    }

    /** A command of the proof: run it, and judge how it ended and what it printed. */
    method Perform(command: Command, ghost a: Allowance, ghost from: nat, ghost done: seq<Command>)
      returns (error: Option<Error>)
      requires Ready(a, []) && MayRun(machine.world, command, runId, a, [])
      requires FootprintOf(machine.world, command).directory ==> !supabaseWorkdir
      requires UpTo(judge, machine.log, from, done) && Answered(machine.log, start, runId, a)
      modifies machine
      ensures Ready(a, []) && Answered(machine.log, start, runId, a) && old(machine.log) < machine.log
      ensures error.None? ==> UpTo(judge, machine.log, from, done + [command])
      ensures error.Some? ==> Stuck(judge, machine.log, from, done + [command])
      ensures error.None? && command.FillWorkdir? ==> Achieved(old(machine.world), command, "1", machine.world)
      ensures command.MakeWorkdir? && error.Some? ==>
                && machine.world.directory == old(machine.world.directory)
                && machine.log[|machine.log| - 1].command.MakeWorkdir?
                && !machine.log[|machine.log| - 1].outcome.Completed?
                && machine.log[..|machine.log| - 1] == old(machine.log)
      ensures command.MakeWorkdir? && error.None? ==> machine.world.directory.Some?
    {
      hide Ready, MayRun, FootprintOf, UpTo, Stuck, AnsweredEvent;
      var before := machine.world;
      var outcome := Run(command, a, []);
      var e := Event(command, before, outcome);
      error := Verdict(judge, e);
      MayRunIsAnswered(before, command, runId, a, [], outcome);
      if error.None? {
        OneMore(judge, old(machine.log), from, done, e);
      } else {
        StuckNow(judge, old(machine.log), from, done, e);
      }
    }

    /** Answering for more is always possible. */
    lemma Widen(a: Allowance, b: Allowance, failures: seq<CleanupFailure>)
      requires Ready(a, failures) && Below(a, b) && Owned(runId, b)
      ensures Ready(b, failures)
    {
      hide Machine.Honest, Vacant, Covered, Owned, Below, SoundLog, Preserved;
      CoveredMore(initial, machine.world, runId, a, b);
    }

    // ---- the preflight ----

    ghost predicate Looking(from: nat)
      reads machine
    {
      && machine.Honest() && SoundLog(machine.log, from, machine.world, runId, [])
      && Untouched(machine.log, from, machine.world)
    }

    /** A read-only command of the preflight. */
    method Look(command: Command, ghost from: nat, ghost done: seq<Command>) returns (error: Option<Error>)
      requires Looking(from) && ReadOnly(command) && UpTo(judge, machine.log, from, done)
      modifies machine
      ensures Looking(from) && machine.world == old(machine.world) && old(machine.log) <= machine.log
      ensures error.None? ==> UpTo(judge, machine.log, from, done + [command])
      ensures error.Some? ==> Stuck(judge, machine.log, from, done + [command])
      ensures error.None? ==> exists output :: Passes(judge, Event(command, machine.world, Completed(output)))
                                               && Achieved(machine.world, command, output, machine.world)
    {
      hide Machine.Honest, UpTo, Achieved, Acceptable, Stuck, SoundEvent;
      var before := machine.world;
      var outcome := machine.Execute(command);
      ReadOnlyKeeps(before, command, outcome, machine.world);
      var e := Event(command, before, outcome);
      ReadOnlyIsSound(e, machine.world, runId);
      error := Verdict(judge, e);
      if error.None? {
        OneMore(judge, old(machine.log), from, done, e);
        assert Achieved(machine.world, command, outcome.output, machine.world);
      } else {
        StuckNow(judge, old(machine.log), from, done, e);
      }
    }

    method AssertNamespacesUnused(ghost from: nat, ghost done: seq<Command>) returns (error: Option<Error>)
      requires Looking(from) && UpTo(judge, machine.log, from, done)
      modifies machine
      ensures Looking(from) && machine.world == old(machine.world) && old(machine.log) <= machine.log
      ensures error.None? ==> UpTo(judge, machine.log, from, done + NamespaceChecks(runId))
      ensures error.Some? ==> Stuck(judge, machine.log, from, done + NamespaceChecks(runId))
      ensures error.None? ==> Vacant(machine.world, runId)
    {
      hide Looking, UpTo, ImageTag, Project, Acceptable, Stuck;
      var byLabel, byName := ListByLabel(Project(runId)), ListByName(Project(runId));
      var tags := ImageTags(runId);
      ghost var checks := NamespaceChecks(runId);
      assert checks[..2] == [byLabel] + [byName];
      error := Look(byLabel, from, done);
      if error.Some? {
        StuckThen(judge, machine.log, from, done + [byLabel], checks[1..]);
        assert done + [byLabel] + checks[1..] == done + checks;
        return;
      }
      error := Look(byName, from, done + [byLabel]);
      if error.Some? {
        StuckThen(judge, machine.log, from, done + [byLabel] + [byName], checks[2..]);
        assert done + [byLabel] + [byName] + checks[2..] == done + checks;
        return;
      }
      assert done + [byLabel] + [byName] == done + checks[..2];
      for i := 0 to |tags|
        invariant Looking(from) && machine.world == old(machine.world) && old(machine.log) <= machine.log
        invariant error.None? && UpTo(judge, machine.log, from, done + checks[..i + 2])
        invariant forall j :: 0 <= j < i ==> tags[j] !in machine.world.images
      {
        assert checks[i + 2] == ListImage(tags[i]);
        error := Look(ListImage(tags[i]), from, done + checks[..i + 2]);
        assert done + checks[..i + 2] + [ListImage(tags[i])] == done + checks[..i + 1 + 2];
        if error.Some? {
          StuckThen(judge, machine.log, from, done + checks[..i + 1 + 2], checks[i + 1 + 2..]);
          assert done + checks[..i + 1 + 2] + checks[i + 1 + 2..] == done + checks;
          return;
        }
      }
      assert checks[..|tags| + 2] == checks;
    }

    /** `_select_local_docker_context`: ask for the current context unless one was requested, then inspect it. */
    method SelectLocalDockerContext(requestedContext: bool, ghost from: nat)
      returns (error: Option<Error>, ghost done: seq<Command>)
      requires Looking(from) && UpTo(judge, machine.log, from, [])
      modifies machine
      ensures Looking(from) && machine.world == old(machine.world) && old(machine.log) <= machine.log
      ensures done == (if requestedContext then [] else [Ask(ContextShow)]) + [Ask(ContextInspect)]
      ensures error.None? ==> UpTo(judge, machine.log, from, done)
      ensures error.Some? ==> Stuck(judge, machine.log, from, done)
    {
      hide Looking, UpTo, Achieved, Passes, Stuck;
      ghost var shown := if requestedContext then [] else [Ask(ContextShow)];
      done := shown + [Ask(ContextInspect)];
      if !requestedContext {
        error := Look(Ask(ContextShow), from, []);
        assert [] + [Ask(ContextShow)] == shown;
        if error.Some? {
          StuckThen(judge, machine.log, from, shown, [Ask(ContextInspect)]);
          return;
        }
      }
      error := Look(Ask(ContextInspect), from, shown);
    }

    /** The checks before anything is started. `localOnly` and `portsFree` are what the files and the ports say. */
    method Preflight(localOnly: bool, portsFree: bool, requestedContext: bool, ghost from: nat)
      returns (error: Option<Error>)
      requires Looking(from) && UpTo(judge, machine.log, from, [])
      modifies machine
      ensures Looking(from) && machine.world == old(machine.world) && old(machine.log) <= machine.log
      ensures error.None? ==> localOnly && portsFree && Vacant(machine.world, runId)
      ensures error.None? ==>
                UpTo(judge, machine.log, from, Checks(requestedContext, runId))
      ensures error.Some? ==>
                || !localOnly || !portsFree
                || Stuck(judge, machine.log, from, Checks(requestedContext, runId))
    {
      hide Looking, UpTo, Acceptable, Vacant, NamespaceChecks, Achieved, Passes, Stuck;
      if !localOnly {
        return Some(GateError);
      }
      ghost var all, rest := PreflightChecks(requestedContext), NamespaceChecks(runId);
      assert all + rest == Checks(requestedContext, runId);
      ghost var done;
      error, done := SelectLocalDockerContext(requestedContext, from);
      if error.Some? {
        StuckThen(judge, machine.log, from, done, all[|done|..] + rest);
        assert done + (all[|done|..] + rest) == all + rest;
        return;
      }
      error := Look(Ask(EngineInfo), from, done);
      done := done + [Ask(EngineInfo)];
      if error.Some? {
        StuckThen(judge, machine.log, from, done, all[|done|..] + rest);
        assert done + (all[|done|..] + rest) == all + rest;
        return;
      }
      error := Look(Ask(ComposeConfig), from, done);
      done := done + [Ask(ComposeConfig)];
      if error.Some? {
        StuckThen(judge, machine.log, from, done, all[|done|..] + rest);
        assert done + (all[|done|..] + rest) == all + rest;
        return;
      }
      error := Look(Ask(Toolchain), from, done);
      done := done + [Ask(Toolchain)];
      if error.Some? {
        StuckThen(judge, machine.log, from, done, all[|done|..] + rest);
        assert done + (all[|done|..] + rest) == all + rest;
        return;
      }
      error := Look(Ask(SupabaseVersion), from, done);
      assert done + [Ask(SupabaseVersion)] == all;
      if error.Some? {
        StuckThen(judge, machine.log, from, all, rest);
        return;
      }
      if !portsFree {
        return Some(GateError);
      }
      error := AssertNamespacesUnused(from, all);
    }

    // ---- the proof ----

    ghost predicate Working()
      reads this, machine
    {
      && Ready(Attempted(), []) && (supabaseWorkdir ==> runtimeDirectory)
      && Answered(machine.log, start, runId, Attempted())
    }

    method PrepareSupabaseWorkdir(ghost from: nat, ghost done: seq<Command>) returns (error: Option<Error>)
      requires Working() && !runtimeDirectory && UpTo(judge, machine.log, from, done)
      modifies this`runtimeDirectory, this`supabaseWorkdir, machine
      ensures Working() && old(machine.log) <= machine.log
      ensures error.None? ==> supabaseWorkdir && UpTo(judge, machine.log, from, done + WorkdirSteps(runId))
      ensures error.Some? ==> Stuck(judge, machine.log, from, done + WorkdirSteps(runId))
    {
      hide Machine.Honest, Vacant, Owned, Preserved, SoundLog, UpTo, Project, Stuck, AnsweredEvent;
      ghost var a := Attempted().(directory := true);
      OwnedFlags(runId, Attempted(), a);
      Widen(Attempted(), a, []);
      AnsweredMore(machine.log, start, runId, Attempted(), a);
      assert done + [MakeWorkdir] + [FillWorkdir(Project(runId))] == done + WorkdirSteps(runId);
      error := Perform(MakeWorkdir, a, from, done);
      if error.Some? {
        StuckThen(judge, machine.log, from, done + [MakeWorkdir], [FillWorkdir(Project(runId))]);
        NotMadeIsAnswered(old(machine.log), machine.log, start, runId, Attempted());
        // The directory's own OSError is raised outside the handler that turns errors into gate errors.
        CoveredLess(initial, old(machine.world), machine.world, runId, a);
        return if error == Some(GateError) then Some(OtherError) else error;
      }
      runtimeDirectory := true;
      assert Attempted() == a;
      error := Perform(FillWorkdir(Project(runId)), a, from, done + [MakeWorkdir]);
      if error.None? {
        supabaseWorkdir := true;
      }
    }

    method VerifyRedis(ghost from: nat, ghost done: seq<Command>) returns (error: Option<Error>)
      requires Working() && UpTo(judge, machine.log, from, done)
      modifies this`redisStartAttempted, machine
      ensures Working() && old(machine.log) <= machine.log
      ensures error.None? ==> UpTo(judge, machine.log, from, done + RedisSteps(runId))
      ensures error.Some? ==> Stuck(judge, machine.log, from, done + RedisSteps(runId))
      ensures redisStartAttempted
    {
      hide Machine.Honest, Vacant, Owned, Tracks, SoundLog, UpTo, Project, Stuck, AnsweredEvent;
      ghost var a := Attempted().(compose := true);
      OwnedFlags(runId, Attempted(), a);
      Widen(Attempted(), a, []);
      AnsweredMore(machine.log, start, runId, Attempted(), a);
      redisStartAttempted := true;
      assert Attempted() == a;
      assert done + [ComposeUp(Project(runId))] + [Ask(RedisUid)] == done + RedisSteps(runId);
      error := Perform(ComposeUp(Project(runId)), a, from, done);
      if error.Some? {
        StuckThen(judge, machine.log, from, done + [ComposeUp(Project(runId))], [Ask(RedisUid)]);
        return;
      }
      error := Perform(Ask(RedisUid), a, from, done + [ComposeUp(Project(runId))]);
    }

    method VerifySupabase(ghost from: nat, ghost done: seq<Command>) returns (error: Option<Error>)
      requires Working() && UpTo(judge, machine.log, from, done)
      modifies this`supabaseStartAttempted, machine
      ensures Working() && old(machine.log) <= machine.log
      ensures error.None? ==> UpTo(judge, machine.log, from, done + SupabaseSteps())
      ensures error.Some? && supabaseWorkdir ==> Stuck(judge, machine.log, from, done + SupabaseSteps())
      ensures supabaseStartAttempted
    {
      hide Machine.Honest, Vacant, Owned, Tracks, SoundLog, UpTo, Project, Stuck, AnsweredEvent;
      ghost var a := Attempted().(supabase := true);
      OwnedFlags(runId, Attempted(), a);
      Widen(Attempted(), a, []);
      AnsweredMore(machine.log, start, runId, Attempted(), a);
      supabaseStartAttempted := true;
      assert Attempted() == a;
      if !supabaseWorkdir {
        return Some(GateError);
      }
      error := Perform(SupabaseStart, a, from, done);
      if error.Some? {
        StuckThen(judge, machine.log, from, done + [SupabaseStart], [Ask(AuthHealth), SupabaseReset]);
        assert done + [SupabaseStart] + [Ask(AuthHealth), SupabaseReset] == done + SupabaseSteps();
        return;
      }
      assert done + [SupabaseStart] + [Ask(AuthHealth)] + [SupabaseReset] == done + SupabaseSteps();
      error := Perform(Ask(AuthHealth), a, from, done + [SupabaseStart]);
      if error.Some? {
        StuckThen(judge, machine.log, from, done + [SupabaseStart] + [Ask(AuthHealth)], [SupabaseReset]);
        return;
      }
      error := Perform(SupabaseReset, a, from, done + [SupabaseStart] + [Ask(AuthHealth)]);
    }

    method RunIntegrationTests(ghost from: nat, ghost done: seq<Command>) returns (error: Option<Error>)
      requires Working() && UpTo(judge, machine.log, from, done)
      modifies machine
      ensures Working() && old(machine.log) <= machine.log
      ensures error.None? ==> UpTo(judge, machine.log, from, done + [Ask(IntegrationTests)])
      ensures error.Some? ==> Stuck(judge, machine.log, from, done + [Ask(IntegrationTests)])
    {
      hide Machine.Honest, Vacant, Owned, Tracks, SoundLog, UpTo, Project, Stuck, AnsweredEvent;
      error := Perform(Ask(IntegrationTests), Attempted(), from, done);
    }

    /** The run answers for an image tag from before its build, whatever becomes of the build. */
    method BuildImage(tag: string, ghost from: nat, ghost done: seq<Command>) returns (error: Option<Error>)
      requires Working() && UpTo(judge, machine.log, from, done) && tag in ImageTags(runId)
      modifies this`attemptedImages, machine
      ensures Working() && old(machine.log) <= machine.log
      ensures attemptedImages == old(attemptedImages) + [tag]
      ensures error.None? ==> UpTo(judge, machine.log, from, done + [Build(tag)])
      ensures error.Some? ==> Stuck(judge, machine.log, from, done + [Build(tag)])
    {
      hide Machine.Honest, Vacant, Tracks, SoundLog, UpTo, Project, ImageTags, ProbeNames, Stuck, AnsweredEvent;
      ghost var a := Attempted().(images := Attempted().images + {tag});
      Widen(Attempted(), a, []);
      AnsweredMore(machine.log, start, runId, Attempted(), a);
      attemptedImages := attemptedImages + [tag];
      assert Attempted() == a;
      error := Perform(Build(tag), a, from, done);
    }

    method ProbeImage(name: string, tag: string, ghost from: nat, ghost done: seq<Command>)
      returns (error: Option<Error>)
      requires Working() && UpTo(judge, machine.log, from, done) && name in ProbeNames(runId)
      modifies this`attemptedProbeContainers, machine
      ensures Working() && old(machine.log) <= machine.log
      ensures attemptedProbeContainers == old(attemptedProbeContainers) + [name]
      ensures error.None? ==> UpTo(judge, machine.log, from, done + [RunContainer(name, tag)])
      ensures error.Some? ==> Stuck(judge, machine.log, from, done + [RunContainer(name, tag)])
    {
      hide Machine.Honest, Vacant, Tracks, SoundLog, UpTo, Project, ImageTags, ProbeNames, Stuck, AnsweredEvent;
      ghost var a := Attempted().(probes := Attempted().probes + {name});
      Widen(Attempted(), a, []);
      AnsweredMore(machine.log, start, runId, Attempted(), a);
      attemptedProbeContainers := attemptedProbeContainers + [name];
      assert Attempted() == a;
      error := Perform(RunContainer(name, tag), a, from, done);
    }

    method VerifyImages(ghost from: nat, ghost done: seq<Command>) returns (error: Option<Error>)
      requires Working() && UpTo(judge, machine.log, from, done)
      modifies this`attemptedImages, this`attemptedProbeContainers, machine
      ensures Working() && old(machine.log) <= machine.log
      ensures error.None? ==>
                UpTo(judge, machine.log, from, done + BuildSteps(runId) + UserChecks(runId) + ProbeSteps(runId))
      ensures error.Some? ==>
                Stuck(judge, machine.log, from, done + BuildSteps(runId) + UserChecks(runId) + ProbeSteps(runId))
    {
      hide Working, UpTo, ProbeNames, ImageTags, Project, Stuck, BuildSteps, UserChecks, ProbeSteps;
      error := BuildImages(from, done);
      if error.Some? {
        StuckThen(judge, machine.log, from, done + BuildSteps(runId), UserChecks(runId));
        StuckThen(judge, machine.log, from, done + BuildSteps(runId) + UserChecks(runId), ProbeSteps(runId));
        return;
      }
      error := CheckImageUsers(from, done + BuildSteps(runId));
      if error.Some? {
        StuckThen(judge, machine.log, from, done + BuildSteps(runId) + UserChecks(runId), ProbeSteps(runId));
        return;
      }
      error := ProbeImages(from, done + BuildSteps(runId) + UserChecks(runId));
    }

    method BuildImages(ghost from: nat, ghost done: seq<Command>) returns (error: Option<Error>)
      requires Working() && UpTo(judge, machine.log, from, done)
      modifies this`attemptedImages, machine
      ensures Working() && old(machine.log) <= machine.log
      ensures error.None? ==> UpTo(judge, machine.log, from, done + BuildSteps(runId))
      ensures error.Some? ==> Stuck(judge, machine.log, from, done + BuildSteps(runId))
    {
      hide Working, UpTo, ImageTag, Project, Stuck;
      var tags := ImageTags(runId);
      error := None;
      assert done + BuildSteps(runId)[..0] == done;
      for i := 0 to |tags|
        invariant Working() && old(machine.log) <= machine.log && error.None?
        invariant UpTo(judge, machine.log, from, done + BuildSteps(runId)[..i])
      {
        error := BuildImage(tags[i], from, done + BuildSteps(runId)[..i]);
        assert BuildSteps(runId)[i] == Build(tags[i]);
        assert done + BuildSteps(runId)[..i] + [Build(tags[i])] == done + BuildSteps(runId)[..i + 1];
        if error.Some? {
          StuckThen(judge, machine.log, from, done + BuildSteps(runId)[..i + 1], BuildSteps(runId)[i + 1..]);
          assert done + BuildSteps(runId)[..i + 1] + BuildSteps(runId)[i + 1..] == done + BuildSteps(runId);
          return;
        }
      }
      assert BuildSteps(runId)[..|tags|] == BuildSteps(runId);
    }

    method CheckImageUsers(ghost from: nat, ghost done: seq<Command>) returns (error: Option<Error>)
      requires Working() && UpTo(judge, machine.log, from, done)
      modifies machine
      ensures Working() && old(machine.log) <= machine.log
      ensures error.None? ==> UpTo(judge, machine.log, from, done + UserChecks(runId))
      ensures error.Some? ==> Stuck(judge, machine.log, from, done + UserChecks(runId))
    {
      hide Machine.Honest, Vacant, Owned, Tracks, SoundLog, UpTo, ImageTag, Project, ImageUsers, Stuck, AnsweredEvent;
      var tags, users := ImageTags(runId), ImageUsers();
      error := None;
      assert done + UserChecks(runId)[..0] == done;
      for i := 0 to |tags|
        invariant Working() && old(machine.log) <= machine.log && error.None?
        invariant UpTo(judge, machine.log, from, done + UserChecks(runId)[..i])
      {
        var check := Ask(ImageUser(tags[i], users[i]));
        error := Perform(check, Attempted(), from, done + UserChecks(runId)[..i]);
        assert UserChecks(runId)[i] == check;
        assert done + UserChecks(runId)[..i] + [check] == done + UserChecks(runId)[..i + 1];
        if error.Some? {
          StuckThen(judge, machine.log, from, done + UserChecks(runId)[..i + 1], UserChecks(runId)[i + 1..]);
          assert done + UserChecks(runId)[..i + 1] + UserChecks(runId)[i + 1..] == done + UserChecks(runId);
          return;
        }
      }
      assert UserChecks(runId)[..|tags|] == UserChecks(runId);
    }

    method ProbeImages(ghost from: nat, ghost done: seq<Command>) returns (error: Option<Error>)
      requires Working() && UpTo(judge, machine.log, from, done)
      modifies this`attemptedProbeContainers, machine
      ensures Working() && old(machine.log) <= machine.log
      ensures error.None? ==> UpTo(judge, machine.log, from, done + ProbeSteps(runId))
      ensures error.Some? ==> Stuck(judge, machine.log, from, done + ProbeSteps(runId))
    {
      hide Working, UpTo, ImageTag, ProbeName, Project, Stuck;
      var api, worker := ProbeNames(runId)[0], ProbeNames(runId)[1];
      var apiTag, workerTag := ImageTags(runId)[1], ImageTags(runId)[2];
      assert done + [RunContainer(api, apiTag)] + [RunContainer(worker, workerTag)] == done + ProbeSteps(runId);
      error := ProbeImage(api, apiTag, from, done);
      if error.Some? {
        StuckThen(judge, machine.log, from, done + [RunContainer(api, apiTag)], [RunContainer(worker, workerTag)]);
        return;
      }
      error := ProbeImage(worker, workerTag, from, done + [RunContainer(api, apiTag)]);
    }

    // ---- the cleanup ----

    /** Cleaning up after an allowance, with the failures so far; the directory is still there. */
    ghost predicate Cleaning(a: Allowance, failures: seq<CleanupFailure>)
      reads this, machine
    {
      Ready(a, failures) && (supabaseWorkdir ==> a.directory)
    }

    lemma CleaningMore(a: Allowance, failures: seq<CleanupFailure>, failure: CleanupFailure)
      requires Cleaning(a, failures)
      ensures Cleaning(a, failures + [failure])
    {
      hide Machine.Honest, Vacant, Owned, Tracks;
      SoundLogMore(machine.log, start, initial, runId, failures, failure);
    }

    /** Taking something off the allowance that is no longer there. */
    lemma CleaningLess(a: Allowance, b: Allowance, failures: seq<CleanupFailure>)
      requires Cleaning(a, failures) && Covered(initial, machine.world, runId, b) && Owned(runId, b)
      requires a.directory == b.directory
      ensures Cleaning(b, failures)
    {
      hide Machine.Honest, Vacant, Covered, SoundLog, Preserved;
    }

    lemma CleaningWiden(a: Allowance, b: Allowance, failures: seq<CleanupFailure>)
      requires Cleaning(a, failures) && Below(a, b) && Owned(runId, b)
      ensures Cleaning(b, failures)
    {
      hide Ready, Owned;
      Widen(a, b, failures);
    }

    /** One probe container: look for it, and remove it if it is there. */
    method CleanProbe(name: string, ghost a: Allowance, failures: seq<CleanupFailure>)
      returns (after: seq<CleanupFailure>, escaped: Option<Error>, ghost b: Allowance)
      requires Cleaning(a, failures) && name in a.probes
      modifies machine
      ensures old(machine.log) <= machine.log
      ensures Cleaned(machine.log, |old(machine.log)|, failures, after, escaped, false)
      ensures Given(machine.log, |old(machine.log)|, ListExactly(name))
      ensures Cleaning(b, after) && b.(probes := {}) == a.(probes := {})
      ensures after == failures || after == failures + [ProbeContainer(name)]
      ensures escaped.None? ==> b.probes == if after == failures then a.probes - {name} else a.probes
    {
      hide Machine.Honest, Vacant, Covered, Preserved, SoundLog, Project, ImageTags, ProbeNames, Cleaned;
      b := a;
      var outcome := Run(ListExactly(name), a, failures);
      assert machine.log[|old(machine.log)|].command == ListExactly(name);
      if outcome.Completed? && outcome.output != "" {
        outcome := Run(RemoveContainer(name), a, failures);
      }
      CleanedBy(old(machine.log), machine.log, failures, ProbeContainer(name));
      match outcome {
        case Completed(_) =>
          b := a.(probes := a.probes - {name});
          ProbeGone(initial, machine.world, runId, a, name);
          CleaningLess(a, b, failures);
          return failures, None, b;
        case Crashed =>
          return failures, Some(OtherError), b;
        case _ =>
          CleaningMore(a, failures, ProbeContainer(name));
          return failures + [ProbeContainer(name)], None, b;
      }
    }

    /** One image tag: look for it, and remove it if it is there. */
    method CleanImage(tag: string, ghost a: Allowance, failures: seq<CleanupFailure>)
      returns (after: seq<CleanupFailure>, escaped: Option<Error>, ghost b: Allowance)
      requires Cleaning(a, failures) && tag in a.images && a.probes <= NamedProbes(failures)
      modifies machine
      ensures old(machine.log) <= machine.log
      ensures Cleaned(machine.log, |old(machine.log)|, failures, after, escaped, false)
      ensures Given(machine.log, |old(machine.log)|, ListImage(tag))
      ensures Cleaning(b, after) && b.(images := {}) == a.(images := {})
      ensures after == failures || after == failures + [Image(tag)]
      ensures escaped.None? ==> b.images == if after == failures then a.images - {tag} else a.images
    {
      hide Machine.Honest, Vacant, Covered, Preserved, SoundLog, Project, ImageTags, ProbeNames, Cleaned;
      b := a;
      var outcome := Run(ListImage(tag), a, failures);
      assert machine.log[|old(machine.log)|].command == ListImage(tag);
      if outcome.Completed? && outcome.output != "" {
        outcome := Run(RemoveImage(tag), a, failures);
      }
      CleanedBy(old(machine.log), machine.log, failures, Image(tag));
      match outcome {
        case Completed(_) =>
          b := a.(images := a.images - {tag});
          ImageGone(initial, machine.world, runId, a, tag);
          CleaningLess(a, b, failures);
          return failures, None, b;
        case Crashed =>
          return failures, Some(OtherError), b;
        case _ =>
          CleaningMore(a, failures, Image(tag));
          return failures + [Image(tag)], None, b;
      }
    }

    /** The probe containers, last attempted first. */
    method CleanProbes(ghost a: Allowance)
      returns (failures: seq<CleanupFailure>, escaped: Option<Error>, ghost b: Allowance)
      requires Cleaning(a, []) && Owned(runId, a) && a.probes == AsSet(attemptedProbeContainers)
      modifies machine
      ensures old(machine.log) <= machine.log
      ensures Cleaned(machine.log, |old(machine.log)|, [], failures, escaped, false)
      ensures escaped.None? ==>
                forall k :: k in a.probes ==> Given(machine.log, |old(machine.log)|, ListExactly(k))
      ensures Cleaning(b, failures) && b.(probes := {}) == a.(probes := {})
      ensures escaped.None? ==> b.probes <= NamedProbes(failures)
    {
      hide Cleaning, ProbeNames, ImageTags, NamedBy, NamedProbes, Cleaned, Given;
      failures, escaped, b := [], None, a;
      NothingCleaned(machine.log, []);
      for i := |attemptedProbeContainers| downto 0
        invariant old(machine.log) <= machine.log
        invariant Cleaned(machine.log, |old(machine.log)|, [], failures, None, false)
        invariant forall k :: k in attemptedProbeContainers[i..] ==>
                                Given(machine.log, |old(machine.log)|, ListExactly(k))
        invariant Cleaning(b, failures) && Owned(runId, b) && b.(probes := {}) == a.(probes := {}) && escaped.None?
        invariant b.probes <= AsSet(attemptedProbeContainers[..i]) + NamedProbes(failures)
      {
        var name := attemptedProbeContainers[i];
        assert name in a.probes;
        assert attemptedProbeContainers[..i + 1] == attemptedProbeContainers[..i] + [name];
        assert attemptedProbeContainers[i..] == [name] + attemptedProbeContainers[i + 1..];
        ghost var more := b.(probes := b.probes + {name});
        CleaningWiden(b, more, failures);
        NamedMore(runId, failures, failures + [ProbeContainer(name)]);
        NamedNow(failures, ProbeContainer(name));
        ghost var log, named := machine.log, failures;
        failures, escaped, b := CleanProbe(name, more, failures);
        CleanedThen(log, |old(machine.log)|, [], named, machine.log, failures, escaped, false, false);
        GivenMore(machine.log, machine.log, |old(machine.log)|, |log|, ListExactly(name));
        if escaped.Some? {
          return;
        }
        forall k | k in attemptedProbeContainers[i + 1..]
          ensures Given(machine.log, |old(machine.log)|, ListExactly(k))
        {
          GivenMore(log, machine.log, |old(machine.log)|, |old(machine.log)|, ListExactly(k));
        }
      }
    }

    /** The image tags, last attempted first. */
    method CleanImages(ghost a: Allowance, listed: seq<CleanupFailure>)
      returns (failures: seq<CleanupFailure>, escaped: Option<Error>, ghost b: Allowance)
      requires Cleaning(a, listed) && Owned(runId, a) && a.images == AsSet(attemptedImages)
      requires a.probes <= NamedProbes(listed)
      modifies machine
      ensures old(machine.log) <= machine.log
      ensures Cleaned(machine.log, |old(machine.log)|, listed, failures, escaped, false)
      ensures escaped.None? ==>
                forall tag :: tag in a.images ==> Given(machine.log, |old(machine.log)|, ListImage(tag))
      ensures Cleaning(b, failures) && b.(images := {}) == a.(images := {})
      ensures escaped.None? ==> b.images <= NamedImages(failures)
    {
      hide Cleaning, ProbeNames, ImageTags, NamedBy, NamedProbes, NamedImages, Cleaned, Given;
      failures, escaped, b := listed, None, a;
      NothingCleaned(machine.log, listed);
      for i := |attemptedImages| downto 0
        invariant old(machine.log) <= machine.log
        invariant Cleaned(machine.log, |old(machine.log)|, listed, failures, None, false)
        invariant forall tag :: tag in attemptedImages[i..] ==>
                                  Given(machine.log, |old(machine.log)|, ListImage(tag))
        invariant Cleaning(b, failures) && Owned(runId, b) && b.(images := {}) == a.(images := {}) && escaped.None?
        invariant b.images <= AsSet(attemptedImages[..i]) + NamedImages(failures)
        invariant b.probes <= NamedProbes(failures)
      {
        var tag := attemptedImages[i];
        assert tag in a.images;
        assert attemptedImages[..i + 1] == attemptedImages[..i] + [tag];
        assert attemptedImages[i..] == [tag] + attemptedImages[i + 1..];
        ghost var more := b.(images := b.images + {tag});
        CleaningWiden(b, more, failures);
        NamedMore(runId, failures, failures + [Image(tag)]);
        NamedNow(failures, Image(tag));
        ghost var log, named := machine.log, failures;
        failures, escaped, b := CleanImage(tag, more, failures);
        CleanedThen(log, |old(machine.log)|, listed, named, machine.log, failures, escaped, false, false);
        GivenMore(machine.log, machine.log, |old(machine.log)|, |log|, ListImage(tag));
        if escaped.Some? {
          return;
        }
        forall t | t in attemptedImages[i + 1..] ensures Given(machine.log, |old(machine.log)|, ListImage(t)) {
          GivenMore(log, machine.log, |old(machine.log)|, |old(machine.log)|, ListImage(t));
        }
      }
    }

    method CleanSupabase(ghost a: Allowance, listed: seq<CleanupFailure>)
      returns (failures: seq<CleanupFailure>, escaped: Option<Error>, ghost b: Allowance)
      requires Cleaning(a, listed) && Owned(runId, a) && a.supabase == supabaseStartAttempted
      modifies machine
      ensures old(machine.log) <= machine.log
      ensures Cleaned(machine.log, |old(machine.log)|, listed, failures, escaped,
                      supabaseStartAttempted && !supabaseWorkdir)
      ensures supabaseStartAttempted && supabaseWorkdir ==>
                Given(machine.log, |old(machine.log)|, SupabaseStop(Project(runId)))
      ensures Cleaning(b, failures) && Owned(runId, b)
      ensures b.(supabase := false, purged := {}) == a.(supabase := false, purged := {}) && a.purged <= b.purged
      ensures escaped.None? && b.supabase ==> SupabaseProject(Project(runId)) in failures
      ensures a.supabase && !b.supabase ==> SupabaseStack(Project(runId)) in b.purged
    {
      hide Machine.Honest, Vacant, Covered, Preserved, SoundLog, Project, Cleaned;
      failures, escaped, b := listed, None, a;
      NothingCleaned(machine.log, listed);
      if supabaseStartAttempted {
        var outcome := Failed;
        if supabaseWorkdir {
          outcome := Run(SupabaseStop(Project(runId)), a, listed);
          assert machine.log[|old(machine.log)|].command == SupabaseStop(Project(runId));
          CleanedBy(old(machine.log), machine.log, listed, SupabaseProject(Project(runId)));
        } else {
          MissingIsNamed(machine.log, listed, SupabaseProject(Project(runId)));
        }
        match outcome {
          case Completed(_) =>
            b := a.(supabase := false, purged := a.purged + {SupabaseStack(Project(runId))});
            SupabaseGone(initial, machine.world, runId, a);
            CleaningLess(a, b, listed);
          case Crashed =>
            escaped := Some(OtherError);
          case _ =>
            CleaningMore(a, listed, SupabaseProject(Project(runId)));
            failures := listed + [SupabaseProject(Project(runId))];
        }
      }
    }

    method CleanCompose(ghost a: Allowance, listed: seq<CleanupFailure>)
      returns (failures: seq<CleanupFailure>, escaped: Option<Error>, ghost b: Allowance)
      requires Cleaning(a, listed) && Owned(runId, a) && a.compose == redisStartAttempted
      modifies machine
      ensures old(machine.log) <= machine.log
      ensures Cleaned(machine.log, |old(machine.log)|, listed, failures, escaped, false)
      ensures redisStartAttempted ==> Given(machine.log, |old(machine.log)|, ComposeDown(Project(runId)))
      ensures Cleaning(b, failures) && Owned(runId, b)
      ensures b.(compose := false, purged := {}) == a.(compose := false, purged := {}) && a.purged <= b.purged
      ensures escaped.None? && b.compose ==> ComposeProject(Project(runId)) in failures
      ensures a.compose && !b.compose ==> ComposeStack(Project(runId)) in b.purged
    {
      hide Machine.Honest, Vacant, Covered, Preserved, SoundLog, Project, Cleaned;
      failures, escaped, b := listed, None, a;
      NothingCleaned(machine.log, listed);
      if redisStartAttempted {
        var outcome := Run(ComposeDown(Project(runId)), a, listed);
        assert machine.log[|old(machine.log)|].command == ComposeDown(Project(runId));
        CleanedBy(old(machine.log), machine.log, listed, ComposeProject(Project(runId)));
        match outcome {
          case Completed(_) =>
            b := a.(compose := false, purged := a.purged + {ComposeStack(Project(runId))});
            ComposeGone(initial, machine.world, runId, a);
            CleaningLess(a, b, listed);
          case Crashed =>
            escaped := Some(OtherError);
          case _ =>
            CleaningMore(a, listed, ComposeProject(Project(runId)));
            failures := listed + [ComposeProject(Project(runId))];
        }
      }
    }

    /** The temporary directory goes last. Only an OSError is caught here. */
    method CleanDirectory(ghost a: Allowance, listed: seq<CleanupFailure>)
      returns (failures: seq<CleanupFailure>, escaped: Option<Error>, ghost b: Allowance)
      requires Cleaning(a, listed) && a.directory == runtimeDirectory
      modifies this`runtimeDirectory, machine
      ensures machine.Honest()
      ensures SoundLog(machine.log, start, initial, runId, failures) && Tracks(initial, machine.world, runId, b)
      ensures old(machine.log) <= machine.log
      ensures Cleaned(machine.log, |old(machine.log)|, listed, failures, escaped, false)
      ensures a.directory ==> Given(machine.log, |old(machine.log)|, RemoveWorkdir)
      ensures b.(directory := false) == a.(directory := false)
      ensures escaped.None? ==> (b.directory ==> Workdir in failures) && !runtimeDirectory
    {
      hide Machine.Honest, Vacant, Owned, Covered, Preserved, SoundEvent, Project, Cleaned;
      failures, escaped, b := listed, None, a;
      NothingCleaned(machine.log, listed);
      if runtimeDirectory {
        var before := machine.world;
        var outcome := machine.Execute(RemoveWorkdir);
        CommandBounded(initial, before, RemoveWorkdir, outcome, machine.world, runId, a);
        EventIsSound(before, RemoveWorkdir, initial, runId, a, listed, outcome);
        assert machine.log[|old(machine.log)|].command == RemoveWorkdir;
        CleanedBy(old(machine.log), machine.log, listed, Workdir);
        match outcome {
          case Completed(_) =>
            b := a.(directory := false);
            DirectoryGone(initial, machine.world, runId, a);
          case Interrupted =>
            escaped := Some(Interrupt);
          case Crashed =>
            escaped := Some(OtherError);
          case _ =>
            SoundLogMore(machine.log, start, initial, runId, listed, Workdir);
            failures := listed + [Workdir];
        }
      }
      if escaped.None? {
        runtimeDirectory := false;
      }
    }

    /** `_cleanup`. An exception that no handler names ends it early; nothing else does. */
    method Cleanup() returns (failures: seq<CleanupFailure>, escaped: Option<Error>)
      requires Working() && Owned(runId, Attempted())
      modifies this`runtimeDirectory, machine
      ensures machine.Honest() && old(machine.log) <= machine.log
      ensures SoundLog(machine.log, start, initial, runId, failures) && Preserved(initial, machine.world, runId)
      ensures Cleaned(machine.log, |old(machine.log)|, [], failures, escaped,
                      supabaseStartAttempted && !supabaseWorkdir)
      ensures !Escaping(machine.log, |old(machine.log)|) ==>
                Covered(initial, machine.world, runId, NamedBy(runId, failures))
      ensures !Escaping(machine.log, |old(machine.log)|) && (supabaseStartAttempted ==> supabaseWorkdir) ==>
                Tried(machine.log, |old(machine.log)|, runId, old(Attempted()))
      ensures failures == [] && escaped.None? ==> machine.world.stacks !! Stacks(runId, old(Attempted()))
    {
      hide Machine.Honest, Vacant, Covered, Preserved, SoundLog, Project, ImageTags, ProbeNames, NamedProbes,
        NamedImages, Cleaned, Given, Escaping;
      ghost var missing, from, attempted := supabaseStartAttempted && !supabaseWorkdir, |machine.log|, Attempted();
      ghost var a;
      failures, escaped, a := CleanServices(attempted);
      EscapedIsShown(machine.log, from, [], failures, escaped, missing);
      if escaped.Some? {
        return;
      }
      ghost var log, listed := machine.log, failures;
      failures, escaped, a := CleanImages(a, failures);
      EscapedIsShown(machine.log, |log|, listed, failures, escaped, false);
      CleanedThen(log, from, [], listed, machine.log, failures, escaped, missing, false);
      EscapedIsShown(machine.log, from, [], failures, escaped, missing);
      NamedMore(runId, listed, failures);
      if escaped.Some? {
        return;
      }
      ghost var log', listed' := machine.log, failures;
      failures, escaped, a := CleanDirectory(a, failures);
      EscapedIsShown(machine.log, |log'|, listed', failures, escaped, false);
      CleanedThen(log', from, [], listed', machine.log, failures, escaped, missing, false);
      EscapedIsShown(machine.log, from, [], failures, escaped, missing);
      NamedMore(runId, listed', failures);
      if escaped.None? {
        CoveredMore(initial, machine.world, runId, a, NamedBy(runId, failures));
        TriedAll(log, log', machine.log, from, runId, attempted, missing);
        if failures == [] {
          PurgedIsGone(initial, machine.world, runId, attempted, a);
        }
      }
    }

    /** The first half: the probe containers and the two projects. */
    method CleanServices(ghost a: Allowance)
      returns (failures: seq<CleanupFailure>, escaped: Option<Error>, ghost b: Allowance)
      requires Cleaning(a, []) && Owned(runId, a) && a == Attempted()
      modifies machine
      ensures old(machine.log) <= machine.log
      ensures Cleaned(machine.log, |old(machine.log)|, [], failures, escaped,
                      supabaseStartAttempted && !supabaseWorkdir)
      ensures escaped.None? ==>
                TriedServices(machine.log, |old(machine.log)|, runId, a, supabaseStartAttempted && !supabaseWorkdir)
      ensures Cleaning(b, failures) && Owned(runId, b) && b.images == a.images && b.directory == a.directory
      ensures escaped.None? ==>
                && b.probes <= NamedProbes(failures)
                && (b.supabase ==> SupabaseProject(Project(runId)) in failures)
                && (b.compose ==> ComposeProject(Project(runId)) in failures)
                && (a.supabase && !b.supabase ==> SupabaseStack(Project(runId)) in b.purged)
                && (a.compose && !b.compose ==> ComposeStack(Project(runId)) in b.purged)
    {
      hide Machine.Honest, Vacant, Covered, Preserved, SoundLog, Project, ImageTags, ProbeNames, NamedProbes,
        NamedImages, Cleaned, Given, Escaping;
      ghost var missing, from := supabaseStartAttempted && !supabaseWorkdir, |machine.log|;
      failures, escaped, b := CleanProbes(a);
      if escaped.Some? {
        CleanedEarly(machine.log, from, [], failures, escaped, false, missing);
        return;
      }
      ghost var log, listed := machine.log, failures;
      failures, escaped, b := CleanSupabase(b, failures);
      EscapedIsShown(machine.log, |log|, listed, failures, escaped, missing);
      CleanedThen(log, from, [], listed, machine.log, failures, escaped, false, missing);
      NamedMore(runId, listed, failures);
      if escaped.Some? {
        return;
      }
      ghost var log', listed' := machine.log, failures;
      failures, escaped, b := CleanCompose(b, failures);
      EscapedIsShown(machine.log, |log'|, listed', failures, escaped, false);
      CleanedThen(log', from, [], listed', machine.log, failures, escaped, missing, false);
      NamedMore(runId, listed', failures);
      if escaped.None? {
        ServicesTried(log, log', machine.log, from, runId, a, missing);
      }
    }

    // ---- the run ----

    /** The steps of the proof; the first exception ends them. */
    method Prove(ghost from: nat, ghost done: seq<Command>) returns (primary: Option<Error>)
      requires Working() && Idle() && UpTo(judge, machine.log, from, done)
      modifies this, machine
      ensures initial == old(initial) && start == old(start)
      ensures Working() && old(machine.log) <= machine.log
      ensures if primary.None? then UpTo(judge, machine.log, from, done + Proof(runId))
              else Stuck(judge, machine.log, from, done + Proof(runId))
      ensures supabaseStartAttempted ==> supabaseWorkdir
      ensures primary.None? ==> redisStartAttempted && supabaseStartAttempted
    {
      hide Working, UpTo, Stuck, WorkdirSteps, RedisSteps, SupabaseSteps, BuildSteps, UserChecks, ProbeSteps;
      primary := PrepareSupabaseWorkdir(from, done);
      ghost var now := done + WorkdirSteps(runId);
      if primary.Some? {
        ProofFrom(judge, machine.log, from, done, runId, now);
        return;
      }
      primary := VerifyRedis(from, now);
      now := now + RedisSteps(runId);
      if primary.Some? {
        ProofFrom(judge, machine.log, from, done, runId, now);
        return;
      }
      primary := VerifySupabase(from, now);
      now := now + SupabaseSteps();
      if primary.Some? {
        ProofFrom(judge, machine.log, from, done, runId, now);
        return;
      }
      primary := RunIntegrationTests(from, now);
      now := now + [Ask(IntegrationTests)];
      if primary.Some? {
        ProofFrom(judge, machine.log, from, done, runId, now);
        return;
      }
      primary := VerifyImages(from, now);
      assert now + BuildSteps(runId) + UserChecks(runId) + ProbeSteps(runId) == done + Proof(runId);
    }

    /** `_run_locked`. The first exception of the proof is raised again after the cleanup; an exception that escapes
        the cleanup takes its place. `middle` is where the cleanup starts in the log. */
    method RunLocked(preflightOnly: bool, localOnly: bool, portsFree: bool, requestedContext: bool)
      returns (ending: Ending, primary: Option<Error>, failures: seq<CleanupFailure>, escaped: Option<Error>,
               started: bool, ghost middle: nat)
      requires Idle() && machine.Honest()
      modifies this, machine
      ensures initial == old(machine.world) && start == |old(machine.log)| && machine.Honest()
      ensures SoundLog(machine.log, start, initial, runId, failures)
      ensures Preserved(initial, machine.world, runId)
      ensures initial.stacks !! OwnStacks(runId) ==> initial.stacks <= machine.world.stacks
      ensures preflightOnly ==> !started
      ensures !started ==>
                && machine.world == initial && Untouched(machine.log, start, initial)
                && if primary.None? then ending == PreflightPassed && preflightOnly
                   else
                     && ending == Stopped(primary.value)
                     && (!localOnly || !portsFree || Stuck(judge, machine.log, start, Checks(requestedContext, runId)))
      ensures ending == PreflightPassed || started ==> Vacant(initial, runId) && localOnly && portsFree
      ensures started ==> ending == EndingOf(primary, failures, escaped) && start <= middle <= |machine.log|
      ensures started ==> Performed(judge, machine.log[..middle], start, Checks(requestedContext, runId))
      ensures started ==> start < |machine.log| && machine.log[start].before == initial
      ensures started ==>
                if primary.None? then UpTo(judge, machine.log[..middle], start, WholeRun(requestedContext, runId))
                else Stuck(judge, machine.log[..middle], start, WholeRun(requestedContext, runId))
      ensures started ==> Cleaned(machine.log, middle, [], failures, escaped, false)
      ensures started && !Escaping(machine.log, middle) ==>
                && Covered(initial, machine.world, runId, NamedBy(runId, failures))
                && forall i :: start <= i < middle ==> Attended(machine.log, middle, machine.log[i], runId)
      ensures started ==>
                (ending.Passed? <==>
                   && UpTo(judge, machine.log[..middle], start, WholeRun(requestedContext, runId))
                   && Clean(machine.log, middle))
      ensures ending.Passed? ==> Restored(initial, machine.world, runId)
    {
      hide UpTo, Stuck, Performed, Proof, PreflightChecks, NamespaceChecks, SoundLog, Vacant, Covered, Machine.Honest,
        Clean, Restored, ImageTags, ProbeNames, Cleaned, Escaping, Tried, Attended, Answered, Untouched, OwnStacks,
        Preserved, Project;
      initial, start := machine.world, |machine.log|;
      middle, failures, escaped := start, [], None;
      NothingYet(judge, machine.log, machine.world, runId);
      primary := Preflight(localOnly, portsFree, requestedContext, start);
      LookingIsUntouched(start);
      FoundVolumesSurvive(initial, machine.world, runId);
      if primary.Some? {
        return Stopped(primary.value), primary, failures, escaped, false, middle;
      }
      if preflightOnly {
        return PreflightPassed, primary, failures, escaped, false, middle;
      }
      ChecksSeeTheStart(judge, machine.log, start, initial, requestedContext, runId);
      UntouchedIsAnswered(machine.log, start, initial, runId, Attempted());
      FreshCovered(initial, runId);
      assert Attempted() == Allowance({}, {}, false, false, false, {});
      ghost var checked := machine.log;
      primary := Prove(start, Checks(requestedContext, runId));
      ChecksStay(judge, checked, machine.log, start, Checks(requestedContext, runId));
      middle := |machine.log|;
      ghost var proved, attempted := machine.log, Attempted();
      failures, escaped := Cleanup();
      ending := EndingOf(primary, failures, escaped);
      started := true;
      assert machine.log[..middle] == proved;
      FoundVolumesSurvive(initial, machine.world, runId);
      EscapedIsShown(machine.log, middle, [], failures, escaped, false);
      if !Escaping(machine.log, middle) {
        AnsweredIsAttended(machine.log, start, middle, runId, attempted);
      }
      RunEnds(judge, machine.log, start, middle, requestedContext, runId, primary, failures, escaped);
      if ending.Passed? {
        BothProjects(runId, attempted);
        NothingNamedIsRestored(initial, machine.world, runId);
      }
    }

    lemma LookingIsUntouched(from: nat)
      requires Looking(from)
      ensures Untouched(machine.log, from, machine.world) && SoundLog(machine.log, from, machine.world, runId, [])
      ensures machine.Honest() && Preserved(machine.world, machine.world, runId)
    {
    }
  }
}
