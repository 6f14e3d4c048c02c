/** What the log of a run of scripts/verify_m0_runtime.py shows: which commands were given, how they ended, what was
    tried in the cleanup and whether an exception escaped it. */
module GateLog {
  import opened Json
  import opened Host
  import opened Ownership
  import opened Text

  /** RuntimeGateError, KeyboardInterrupt, or any other exception. */
  datatype Error = GateError | Interrupt | OtherError

  datatype Reply = Finished(output: string) | Raised(error: Error)

  datatype Ending = Passed | PreflightPassed | Stopped(error: Error)

  /** How `_step` turns the end of a command into a result or an exception. */
  function ReplyOf(outcome: Outcome): Reply {
    match outcome
    case Completed(output) => Finished(output)
    case Failed => Raised(GateError)
    case TimedOut => Raised(GateError)
    case Interrupted => Raised(Interrupt)
    case Crashed => Raised(OtherError)
  }

  predicate UsesWorkdir(command: Command) {
    command.SupabaseStart? || command.SupabaseReset? || command.SupabaseStop?
  }

  predicate ReadOnly(command: Command) {
    command.Ask? || command.ListByLabel? || command.ListByName? || command.ListExactly? || command.ListImage?
  }

  lemma ReadOnlyKeeps(w: World, command: Command, outcome: Outcome, n: World)
    requires ReadOnly(command) && Allowed(w, command, outcome, n)
    ensures n == w
  {
    hide Achieved;
    assert forall k :: Same(w, n, k);
    assert n.containers == w.containers;
  }

  /** At every command of a run: nothing found on the machine is missing, a Supabase command has its directory, and an
      image is removed only when each probe container of the run is gone or has been given up. */
  ghost predicate SoundEvent(e: Event, initial: World, runId: string, failures: seq<CleanupFailure>) {
    && Preserved(initial, e.before, runId)
    && (UsesWorkdir(e.command) ==> e.before.directory == Some(Project(runId)))
    && (e.command.RemoveImage? ==>
          forall k :: k in e.before.containers ==>
                        || k in initial.containers || e.before.containers[k].project == Project(runId)
                        || EndsWith(k, Project(runId)) || ProbeContainer(k) in failures)
  }

  ghost predicate SoundLog(log: seq<Event>, start: nat, initial: World, runId: string,
                           failures: seq<CleanupFailure>)
  {
    start <= |log| && forall i :: start <= i < |log| ==> SoundEvent(log[i], initial, runId, failures)
  }

  lemma SoundLogMore(log: seq<Event>, start: nat, initial: World, runId: string, failures: seq<CleanupFailure>,
                     failure: CleanupFailure)
    requires SoundLog(log, start, initial, runId, failures)
    ensures SoundLog(log, start, initial, runId, failures + [failure])
  {
    forall i | start <= i < |log| ensures SoundEvent(log[i], initial, runId, failures + [failure]) {
      assert SoundEvent(log[i], initial, runId, failures);
    }
  }

  lemma EventIsSound(w: World, command: Command, initial: World, runId: string, a: Allowance,
                     failures: seq<CleanupFailure>, outcome: Outcome)
    requires Tracks(initial, w, runId, a)
    requires UsesWorkdir(command) ==> w.directory == Some(Project(runId))
    requires command.RemoveImage? ==> a.probes <= NamedProbes(failures)
    ensures SoundEvent(Event(command, w, outcome), initial, runId, failures)
  {
    hide Project, EndsWith;
  }

  /** A listing or a check on an unchanged machine. */
  lemma ReadOnlyIsSound(e: Event, initial: World, runId: string)
    requires ReadOnly(e.command) && e.before == initial
    ensures SoundEvent(e, initial, runId, [])
  {
  }

  /** The command may be given: it reaches only what the run answers for. */
  ghost predicate MayRun(w: World, command: Command, runId: string, a: Allowance, failures: seq<CleanupFailure>) {
    && Fits(w, command, runId, a)
    && (UsesWorkdir(command) ==> w.directory == Some(Project(runId)))
    && (command.RemoveImage? ==> a.probes <= NamedProbes(failures))
  }

  /** The verdict on what a check printed; `judge` stands for parsing the endpoint and the Compose configuration. */
  predicate Acceptable(judge: (Check, string) -> bool, check: Check, output: string) {
    match check
    case ContextShow => output != ""
    case ContextInspect => judge(check, output)
    case ComposeConfig => judge(check, output)
    case SupabaseVersion => output == "2.109.1"
    case RedisUid => output != "" && AllDigits(output) && DigitsValue(output) > 0
    case AuthHealth => output == "200"
    case ImageUser(_, user) => output == user
    case _ => true
  }

  // ---- what a passing run does ----

  function PreflightChecks(requestedContext: bool): seq<Command> {
    (if requestedContext then [] else [Ask(ContextShow)])
    + [Ask(ContextInspect), Ask(EngineInfo), Ask(ComposeConfig), Ask(Toolchain), Ask(SupabaseVersion)]
  }

  function NamespaceChecks(runId: string): seq<Command> {
    [ListByLabel(Project(runId)), ListByName(Project(runId))]
    + seq(|ImageTags(runId)|, i requires 0 <= i < |ImageTags(runId)| => ListImage(ImageTags(runId)[i]))
  }

  function WorkdirSteps(runId: string): seq<Command> {
    [MakeWorkdir, FillWorkdir(Project(runId))]
  }

  function RedisSteps(runId: string): seq<Command> {
    [ComposeUp(Project(runId)), Ask(RedisUid)]
  }

  function SupabaseSteps(): seq<Command> {
    [SupabaseStart, Ask(AuthHealth), SupabaseReset]
  }

  function ImageUsers(): (users: seq<string>)
    ensures |users| == 3
  {
    ["node", "simula", "simula"]
  }

  function BuildSteps(runId: string): seq<Command> {
    seq(3, i requires 0 <= i < 3 => Build(ImageTags(runId)[i]))
  }

  function UserChecks(runId: string): seq<Command> {
    seq(3, i requires 0 <= i < 3 => Ask(ImageUser(ImageTags(runId)[i], ImageUsers()[i])))
  }

  function ProbeSteps(runId: string): seq<Command> {
    seq(2, i requires 0 <= i < 2 => RunContainer(ProbeNames(runId)[i], ImageTags(runId)[i + 1]))
  }

  /** Everything a passing run does before its cleanup. */
  function WholeRun(requestedContext: bool, runId: string): seq<Command> {
    Checks(requestedContext, runId) + Proof(runId)
  }

  /** Everything before anything is started. */
  function Checks(requestedContext: bool, runId: string): seq<Command> {
    PreflightChecks(requestedContext) + NamespaceChecks(runId)
  }

  /** What the run reports at its end. */
  function EndingOf(primary: Option<Error>, failures: seq<CleanupFailure>, escaped: Option<Error>): Ending {
    if escaped.Some? then Stopped(escaped.value)
    else if primary.Some? then Stopped(primary.value)
    else if failures != [] then Stopped(GateError)
    else Passed
  }

  /** Every command of the proof, in order. */
  function Proof(runId: string): seq<Command> {
    WorkdirSteps(runId) + RedisSteps(runId) + SupabaseSteps() + [Ask(IntegrationTests)]
    + BuildSteps(runId) + UserChecks(runId) + ProbeSteps(runId)
  }

  /** The command completed and its output was acceptable: for the namespace listings, empty. */
  predicate Passes(judge: (Check, string) -> bool, e: Event) {
    && e.outcome.Completed?
    && match e.command {
         case Ask(check) => Acceptable(judge, check, e.outcome.output)
         case ListByLabel(_) => e.outcome.output == ""
         case ListByName(_) => e.outcome.output == ""
         case ListImage(_) => e.outcome.output == ""
         case FillWorkdir(_) => e.outcome.output == "1"
         case _ => true
       }
  }

  /** What a command's end and output mean for the proof. */
  function Verdict(judge: (Check, string) -> bool, e: Event): (error: Option<Error>)
    ensures error.None? <==> Passes(judge, e)
  {
    var reply := ReplyOf(e.outcome);
    if reply.Raised? then Some(reply.error)
    else
      match e.command
      case Ask(check) => if Acceptable(judge, check, reply.output) then None else Some(GateError)
      case ListByLabel(_) => if reply.output == "" then None else Some(GateError)
      case ListByName(_) => if reply.output == "" then None else Some(GateError)
      case ListImage(_) => if reply.output == "" then None else Some(GateError)
      case FillWorkdir(_) => if reply.output == "1" then None else Some(GateError)
      case _ => None
  }

  /** What a command must have printed to pass, check by check. */
  lemma PassesMeans(judge: (Check, string) -> bool, e: Event)
    requires Passes(judge, e)
    ensures e.outcome.Completed?
    ensures e.command.ListByLabel? || e.command.ListByName? || e.command.ListImage? ==> e.outcome.output == ""
    ensures e.command.FillWorkdir? ==> e.outcome.output == "1"
    ensures e.command == Ask(ContextShow) ==> e.outcome.output != ""
    ensures e.command == Ask(ContextInspect) || e.command == Ask(ComposeConfig) ==>
              judge(e.command.check, e.outcome.output)
    ensures e.command == Ask(SupabaseVersion) ==> e.outcome.output == "2.109.1"
    ensures e.command == Ask(RedisUid) ==> exists uid: nat :: uid > 0 && Reads(e.outcome.output, uid)
    ensures e.command == Ask(AuthHealth) ==> e.outcome.output == "200"
    ensures forall tag, user :: e.command == Ask(ImageUser(tag, user)) ==> e.outcome.output == user
  {
    if e.command == Ask(RedisUid) {
      assert Reads(e.outcome.output, DigitsValue(e.outcome.output));
    }
  }

  /** The text is a number, written in digits. */
  predicate Reads(text: string, n: nat) {
    text != "" && (forall i :: 0 <= i < |text| ==> '0' <= text[i] <= '9') && DigitsValue(text) == n
  }

  /** The commands of a passing run before its cleanup, with the names they use. */
  function Steps(requestedContext: bool, project: string, web: string, api: string, worker: string,
                 apiProbe: string, workerProbe: string): seq<Command>
  {
    (if requestedContext then [] else [Ask(ContextShow)])
    + [Ask(ContextInspect), Ask(EngineInfo), Ask(ComposeConfig), Ask(Toolchain), Ask(SupabaseVersion)]
    + [ListByLabel(project), ListByName(project), ListImage(web), ListImage(api), ListImage(worker)]
    + ([MakeWorkdir, FillWorkdir(project)]
       + [ComposeUp(project), Ask(RedisUid)]
       + [SupabaseStart, Ask(AuthHealth), SupabaseReset]
       + [Ask(IntegrationTests)]
       + [Build(web), Build(api), Build(worker)]
       + [Ask(ImageUser(web, "node")), Ask(ImageUser(api, "simula")), Ask(ImageUser(worker, "simula"))]
       + [RunContainer(apiProbe, api), RunContainer(workerProbe, worker)])
  }

  lemma WholeRunWrittenOut(requestedContext: bool, runId: string)
    ensures WholeRun(requestedContext, runId) ==
            Steps(requestedContext, "simula-m0-" + runId, "simula-web:m0-" + runId, "simula-api:m0-" + runId,
                  "simula-worker:m0-" + runId, "simula-m0-" + runId + "-api-probe",
                  "simula-m0-" + runId + "-worker-probe")
  {
    hide ImageTags, ProbeNames, Steps, WholeRun;
    TagsWrittenOut(runId);
    ProbesWrittenOut(runId);
    StepsOfNames(requestedContext, runId, ImageTags(runId), ProbeNames(runId));
  }

  lemma StepsOfNames(requestedContext: bool, runId: string, tags: seq<string>, probes: seq<string>)
    requires tags == ImageTags(runId) && probes == ProbeNames(runId)
    ensures WholeRun(requestedContext, runId) ==
            Steps(requestedContext, Project(runId), tags[0], tags[1], tags[2], probes[0], probes[1])
  {
    hide ImageTag, ProbeName, Project, NamespaceChecks, BuildSteps, UserChecks, ProbeSteps;
    NamespaceOfNames(runId, tags);
    BuildsOfNames(runId, tags);
    UsersOfNames(runId, tags);
    ProbesOfNames(runId, tags, probes);
  }

  lemma NamespaceOfNames(runId: string, tags: seq<string>)
    requires tags == ImageTags(runId)
    ensures NamespaceChecks(runId) ==
            [ListByLabel(Project(runId)), ListByName(Project(runId)), ListImage(tags[0]), ListImage(tags[1]),
             ListImage(tags[2])]
  {
    hide ImageTag, Project;
  }

  lemma BuildsOfNames(runId: string, tags: seq<string>)
    requires tags == ImageTags(runId)
    ensures BuildSteps(runId) == [Build(tags[0]), Build(tags[1]), Build(tags[2])]
  {
    hide ImageTag;
  }

  lemma UsersOfNames(runId: string, tags: seq<string>)
    requires tags == ImageTags(runId)
    ensures UserChecks(runId) ==
            [Ask(ImageUser(tags[0], "node")), Ask(ImageUser(tags[1], "simula")), Ask(ImageUser(tags[2], "simula"))]
  {
    hide ImageTag;
    var users := ImageUsers();
    assert UserChecks(runId) ==
           [Ask(ImageUser(tags[0], users[0])), Ask(ImageUser(tags[1], users[1])), Ask(ImageUser(tags[2], users[2]))];
    assert users == ["node", "simula", "simula"];
  }

  lemma ProbesOfNames(runId: string, tags: seq<string>, probes: seq<string>)
    requires tags == ImageTags(runId) && probes == ProbeNames(runId)
    ensures ProbeSteps(runId) == [RunContainer(probes[0], tags[1]), RunContainer(probes[1], tags[2])]
  {
    hide ImageTag, ProbeName;
  }

  lemma TagsWrittenOut(runId: string)
    ensures ImageTags(runId) == ["simula-web:m0-" + runId, "simula-api:m0-" + runId, "simula-worker:m0-" + runId]
  {
    assert "simula-" + "web" + ":m0-" == "simula-web:m0-";
    assert "simula-" + "api" + ":m0-" == "simula-api:m0-";
    assert "simula-" + "worker" + ":m0-" == "simula-worker:m0-";
  }

  lemma ProbesWrittenOut(runId: string)
    ensures ProbeNames(runId) == ["simula-m0-" + runId + "-api-probe", "simula-m0-" + runId + "-worker-probe"]
  {
    assert "-" + "api" + "-probe" == "-api-probe";
    assert "-" + "worker" + "-probe" == "-worker-probe";
    assert Project(runId) + "-" + "api" + "-probe" == Project(runId) + ("-" + "api" + "-probe");
    assert Project(runId) + "-" + "worker" + "-probe" == Project(runId) + ("-" + "worker" + "-probe");
  }

  /** From an index on, the log shows these commands, each one passing. */
  predicate Performed(judge: (Check, string) -> bool, log: seq<Event>, from: nat, commands: seq<Command>) {
    && from + |commands| <= |log|
    && forall i :: 0 <= i < |commands| ==> PassesAs(judge, log[from + i], commands[i])
  }

  predicate PassesAs(judge: (Check, string) -> bool, e: Event, command: Command) {
    e.command == command && Passes(judge, e)
  }

  /** The commands so far, and nothing after them. */
  predicate UpTo(judge: (Check, string) -> bool, log: seq<Event>, from: nat, commands: seq<Command>) {
    Performed(judge, log, from, commands) && |log| == from + |commands|
  }

  /** The last command did not pass. */
  predicate Broken(judge: (Check, string) -> bool, log: seq<Event>) {
    log != [] && !Passes(judge, log[|log| - 1])
  }

  /** From an index on, the log shows these commands up to the first that did not pass, which is the last. */
  predicate Stuck(judge: (Check, string) -> bool, log: seq<Event>, from: nat, commands: seq<Command>) {
    && from < |log| <= from + |commands|
    && Performed(judge, log, from, commands[..|log| - from - 1])
    && log[|log| - 1].command == commands[|log| - from - 1] && Broken(judge, log)
  }

  lemma StuckNow(judge: (Check, string) -> bool, log: seq<Event>, from: nat, done: seq<Command>, e: Event)
    requires UpTo(judge, log, from, done) && !Passes(judge, e)
    ensures Stuck(judge, log + [e], from, done + [e.command])
  {
    hide Passes;
    var more, all := log + [e], done + [e.command];
    assert all[..|more| - from - 1] == done;
    forall i | 0 <= i < |done| ensures more[from + i].command == done[i] && Passes(judge, more[from + i]) {
      assert log[from + i].command == done[i];
    }
  }

  /** Commands that would have come later do not matter. */
  lemma StuckThen(judge: (Check, string) -> bool, log: seq<Event>, from: nat, first: seq<Command>,
                  rest: seq<Command>)
    requires Stuck(judge, log, from, first)
    ensures Stuck(judge, log, from, first + rest)
  {
    hide Passes;
    var n := |log| - from - 1;
    assert (first + rest)[..n] == first[..n];
  }

  /** Commands that passed stay in a log that grows. */
  lemma PerformedMore(judge: (Check, string) -> bool, log: seq<Event>, more: seq<Event>, from: nat,
                      commands: seq<Command>)
    requires log <= more && Performed(judge, log, from, commands)
    ensures Performed(judge, more, from, commands)
  {
    hide PassesAs;
    forall i | 0 <= i < |commands| ensures PassesAs(judge, more[from + i], commands[i]) {
      assert PassesAs(judge, log[from + i], commands[i]);
    }
  }

  /** From an index on, every command completed. */
  predicate Clean(log: seq<Event>, from: nat) {
    forall i :: from <= i < |log| ==> log[i].outcome.Completed?
  }

  // ---- the cleanup in the log ----

  /** An exception that no handler of the cleanup names: any but a gate error and an interrupt, and at the removal of
      the directory, where only OSError is named, an interrupt too. */
  predicate Escapes(e: Event) {
    e.outcome.Crashed? || (e.command.RemoveWorkdir? && e.outcome.Interrupted?)
  }

  /** What such an exception is. */
  function EscapeOf(e: Event): Error {
    if e.outcome.Crashed? then OtherError else Interrupt
  }

  predicate Escaping(log: seq<Event>, from: nat) {
    exists i :: from <= i < |log| && Escapes(log[i])
  }

  /** The cleanup commands for what a failure names. */
  predicate Concerns(command: Command, failure: CleanupFailure) {
    match failure
    case ProbeContainer(name) => command == ListExactly(name) || command == RemoveContainer(name)
    case SupabaseProject(project) => command == SupabaseStop(project)
    case ComposeProject(project) => command == ComposeDown(project)
    case Image(tag) => command == ListImage(tag) || command == RemoveImage(tag)
    case Workdir => command == RemoveWorkdir
  }

  /** A cleanup command for it ended in an exception that was caught. */
  predicate Justified(log: seq<Event>, from: nat, failure: CleanupFailure) {
    exists i :: from <= i < |log| && Concerns(log[i].command, failure)
                && !log[i].outcome.Completed? && !Escapes(log[i])
  }

  /** A part of the cleanup, by its part of the log: an exception escapes exactly when one was raised that no handler
      names, which then is the last event; failures are added exactly for commands that failed; `missing` is a project
      without its directory. */
  predicate Cleaned(log: seq<Event>, from: nat, listed: seq<CleanupFailure>, failures: seq<CleanupFailure>,
                    escaped: Option<Error>, missing: bool)
  {
    && from <= |log| && listed <= failures
    && (escaped.Some? <==> Escaping(log, from))
    && (escaped.Some? ==> Escapes(log[|log| - 1]) && escaped.value == EscapeOf(log[|log| - 1]))
    && (failures == listed && escaped.None? <==> Clean(log, from) && !missing)
    && (forall f :: f in failures[|listed|..] ==> Justified(log, from, f) || (missing && f.SupabaseProject?))
  }

  lemma NothingCleaned(log: seq<Event>, listed: seq<CleanupFailure>)
    ensures Cleaned(log, |log|, listed, listed, None, false)
  {
  }

  /** A project without its directory is named without a command. */
  lemma MissingIsNamed(log: seq<Event>, listed: seq<CleanupFailure>, failure: CleanupFailure)
    requires failure.SupabaseProject?
    ensures Cleaned(log, |log|, listed, listed + [failure], None, true)
  {
    assert (listed + [failure])[|listed|..] == [failure];
  }

  lemma CleanedEarly(log: seq<Event>, from: nat, listed: seq<CleanupFailure>, failures: seq<CleanupFailure>,
                     escaped: Option<Error>, missing: bool, atAll: bool)
    requires Cleaned(log, from, listed, failures, escaped, missing) && escaped.Some? && (missing ==> atAll)
    ensures Cleaned(log, from, listed, failures, escaped, atAll)
  {
    hide Justified;
  }

  lemma EscapedIsShown(log: seq<Event>, from: nat, listed: seq<CleanupFailure>, failures: seq<CleanupFailure>,
                       escaped: Option<Error>, missing: bool)
    requires Cleaned(log, from, listed, failures, escaped, missing)
    ensures from <= |log| && listed <= failures && (escaped.Some? <==> Escaping(log, from))
    ensures escaped.Some? ==> from < |log| && escaped.value == EscapeOf(log[|log| - 1])
  {
    hide Justified;
  }

  lemma CleanConcat(log: seq<Event>, more: seq<Event>, from: nat)
    requires from <= |log| && log <= more
    ensures Clean(more, from) <==> Clean(log, from) && Clean(more, |log|)
    ensures Escaping(more, from) <==> Escaping(log, from) || Escaping(more, |log|)
  {
    hide Escapes;
    assert forall i :: 0 <= i < |log| ==> log[i] == more[i];
  }

  lemma JustifiedMore(log: seq<Event>, more: seq<Event>, from: nat, failure: CleanupFailure)
    requires log <= more && Justified(log, from, failure)
    ensures Justified(more, from, failure)
  {
    hide Escapes, Concerns;
    var i :| from <= i < |log| && Concerns(log[i].command, failure) && !log[i].outcome.Completed? && !Escapes(log[i]);
    assert Concerns(more[i].command, failure) && !more[i].outcome.Completed? && !Escapes(more[i]);
  }

  lemma JustifiedFrom(log: seq<Event>, from: nat, later: nat, failure: CleanupFailure)
    requires from <= later && Justified(log, later, failure)
    ensures Justified(log, from, failure)
  {
    hide Escapes, Concerns;
  }

  /** Two parts of the cleanup, one after the other. */
  lemma CleanedThen(log: seq<Event>, from: nat, listed: seq<CleanupFailure>, middle: seq<CleanupFailure>,
                    more: seq<Event>, failures: seq<CleanupFailure>, escaped: Option<Error>, missing: bool,
                    alsoMissing: bool)
    requires Cleaned(log, from, listed, middle, None, missing) && log <= more
    requires Cleaned(more, |log|, middle, failures, escaped, alsoMissing)
    ensures Cleaned(more, from, listed, failures, escaped, missing || alsoMissing)
  {
    hide Clean, Escaping, Justified;
    CleanConcat(log, more, from);
    forall f | f in failures[|listed|..]
      ensures Justified(more, from, f) || ((missing || alsoMissing) && f.SupabaseProject?)
    {
      assert failures[|listed|..] == middle[|listed|..] + failures[|middle|..];
      if f in middle[|listed|..] {
        if Justified(log, from, f) {
          JustifiedMore(log, more, from, f);
        }
      } else if Justified(more, |log|, f) {
        JustifiedFrom(more, from, |log|, f);
      }
    }
  }

  /** One or two commands, of which the first completed, and what their end means for the failures. */
  lemma CleanedBy(log: seq<Event>, more: seq<Event>, listed: seq<CleanupFailure>, failure: CleanupFailure)
    requires log < more && |more| <= |log| + 2
    requires |more| == |log| + 2 ==> more[|log|].outcome.Completed?
    requires Concerns(more[|more| - 1].command, failure)
    ensures var last := more[|more| - 1];
            && (last.outcome.Completed? ==> Cleaned(more, |log|, listed, listed, None, false))
            && (Escapes(last) ==> Cleaned(more, |log|, listed, listed, Some(EscapeOf(last)), false))
            && (!last.outcome.Completed? && !Escapes(last) ==>
                  Cleaned(more, |log|, listed, listed + [failure], None, false))
  {
    hide Concerns;
    var last := more[|more| - 1];
    assert forall i :: |log| <= i < |more| && i != |more| - 1 ==> more[i].outcome.Completed?;
    assert (listed + [failure])[|listed|..] == [failure];
    if !last.outcome.Completed? && !Escapes(last) {
      assert Justified(more, |log|, failure);
    }
  }

  /** From an index on, the command was given. */
  predicate Given(log: seq<Event>, from: nat, command: Command) {
    exists i :: from <= i < |log| && log[i].command == command
  }

  lemma GivenMore(log: seq<Event>, more: seq<Event>, from: nat, later: nat, command: Command)
    requires log <= more && from <= later && Given(log, later, command)
    ensures Given(more, from, command)
  {
    var i :| later <= i < |log| && log[i].command == command;
    assert more[i].command == command;
  }

  /** The cleanup tries the probe containers and the projects the run answers for, unless a project misses its
      directory. */
  predicate TriedServices(log: seq<Event>, from: nat, runId: string, a: Allowance, missing: bool) {
    && (forall k :: k in a.probes ==> Given(log, from, ListExactly(k)))
    && (a.compose ==> Given(log, from, ComposeDown(Project(runId))))
    && (a.supabase && !missing ==> Given(log, from, SupabaseStop(Project(runId))))
  }

  lemma ServicesTried(log: seq<Event>, later: seq<Event>, last: seq<Event>, from: nat, runId: string, a: Allowance,
                      missing: bool)
    requires from <= |log| && log <= later <= last
    requires forall k :: k in a.probes ==> Given(log, from, ListExactly(k))
    requires a.supabase && !missing ==> Given(later, |log|, SupabaseStop(Project(runId)))
    requires a.compose ==> Given(last, |later|, ComposeDown(Project(runId)))
    ensures TriedServices(last, from, runId, a, missing)
  {
    hide Given, Project;
    forall k | k in a.probes ensures Given(last, from, ListExactly(k)) {
      GivenMore(log, last, from, from, ListExactly(k));
    }
    if a.supabase && !missing {
      GivenMore(later, last, from, |log|, SupabaseStop(Project(runId)));
    }
    if a.compose {
      GivenMore(last, last, from, |later|, ComposeDown(Project(runId)));
    }
  }

  lemma TriedAll(log: seq<Event>, later: seq<Event>, last: seq<Event>, from: nat, runId: string, a: Allowance,
                 missing: bool)
    requires from <= |log| && log <= later <= last && TriedServices(log, from, runId, a, missing)
    requires forall tag :: tag in a.images ==> Given(later, |log|, ListImage(tag))
    requires a.directory ==> Given(last, |later|, RemoveWorkdir)
    ensures !missing ==> Tried(last, from, runId, a)
  {
    hide Given, Project;
    forall k | k in a.probes ensures Given(last, from, ListExactly(k)) {
      GivenMore(log, last, from, from, ListExactly(k));
    }
    forall tag | tag in a.images ensures Given(last, from, ListImage(tag)) {
      GivenMore(later, last, from, |log|, ListImage(tag));
    }
    if a.supabase && !missing {
      GivenMore(log, last, from, from, SupabaseStop(Project(runId)));
    }
    if a.compose {
      GivenMore(log, last, from, from, ComposeDown(Project(runId)));
    }
    if a.directory {
      GivenMore(last, last, from, |later|, RemoveWorkdir);
    }
  }

  /** The cleanup tries everything the run answers for. */
  predicate Tried(log: seq<Event>, from: nat, runId: string, a: Allowance) {
    && (forall k :: k in a.probes ==> Given(log, from, ListExactly(k)))
    && (forall tag :: tag in a.images ==> Given(log, from, ListImage(tag)))
    && (a.compose ==> Given(log, from, ComposeDown(Project(runId))))
    && (a.supabase ==> Given(log, from, SupabaseStop(Project(runId))))
    && (a.directory ==> Given(log, from, RemoveWorkdir))
  }

  /** What a command starts is answered for. */
  predicate AnsweredEvent(e: Event, runId: string, a: Allowance) {
    match e.command
    case ComposeUp(project) => a.compose && project == Project(runId)
    case SupabaseStart => a.supabase
    case Build(tag) => tag in a.images
    case RunContainer(name, _) => name in a.probes
    case MakeWorkdir => e.outcome.Completed? ==> a.directory
    case _ => true
  }

  predicate Answered(log: seq<Event>, start: nat, runId: string, a: Allowance) {
    forall i :: start <= i < |log| ==> AnsweredEvent(log[i], runId, a)
  }

  lemma AnsweredMore(log: seq<Event>, start: nat, runId: string, a: Allowance, b: Allowance)
    requires Answered(log, start, runId, a) && Below(a, b)
    ensures Answered(log, start, runId, b)
  {
    hide Project;
  }

  lemma MayRunIsAnswered(w: World, command: Command, runId: string, a: Allowance, failures: seq<CleanupFailure>,
                         outcome: Outcome)
    requires MayRun(w, command, runId, a, failures)
    ensures AnsweredEvent(Event(command, w, outcome), runId, a)
  {
    hide Project;
  }

  /** A directory that was not made need not be answered for. */
  lemma NotMadeIsAnswered(log: seq<Event>, more: seq<Event>, start: nat, runId: string, a: Allowance)
    requires Answered(log, start, runId, a) && log < more && more[..|more| - 1] == log
    requires more[|more| - 1].command.MakeWorkdir? && !more[|more| - 1].outcome.Completed?
    ensures Answered(more, start, runId, a)
  {
    hide Project;
    forall i | start <= i < |more| ensures AnsweredEvent(more[i], runId, a) {
      if i < |log| {
        assert more[i] == log[i];
      }
    }
  }

  /** For what a command started, the cleanup has given the command that looks for it or removes it. */
  predicate Attended(log: seq<Event>, middle: nat, e: Event, runId: string) {
    match e.command
    case ComposeUp(project) => Given(log, middle, ComposeDown(project))
    case SupabaseStart => Given(log, middle, SupabaseStop(Project(runId)))
    case Build(tag) => Given(log, middle, ListImage(tag))
    case RunContainer(name, _) => Given(log, middle, ListExactly(name))
    case MakeWorkdir => e.outcome.Completed? ==> Given(log, middle, RemoveWorkdir)
    case _ => true
  }

  lemma AnsweredIsAttended(log: seq<Event>, start: nat, middle: nat, runId: string, a: Allowance)
    requires start <= middle <= |log|
    requires Answered(log[..middle], start, runId, a) && Tried(log, middle, runId, a)
    ensures forall i :: start <= i < middle ==> Attended(log, middle, log[i], runId)
  {
    hide Project, Given;
    forall i | start <= i < middle ensures Attended(log, middle, log[i], runId) {
      assert AnsweredEvent(log[..middle][i], runId, a);
    }
  }

  /** From an index on, nothing was done but look. */
  predicate Untouched(log: seq<Event>, from: nat, w: World) {
    forall i :: from <= i < |log| ==> ReadOnly(log[i].command) && log[i].before == w
  }

  lemma UntouchedIsAnswered(log: seq<Event>, from: nat, w: World, runId: string, a: Allowance)
    requires Untouched(log, from, w)
    ensures Answered(log, from, runId, a)
  {
  }

  /** The checks start from the state they leave. */
  lemma ChecksSeeTheStart(judge: (Check, string) -> bool, log: seq<Event>, from: nat, w: World,
                          requestedContext: bool, runId: string)
    requires Untouched(log, from, w) && UpTo(judge, log, from, Checks(requestedContext, runId))
    ensures from < |log| && log[from].before == w
  {
    hide NamespaceChecks, Performed;
  }

  /** The volumes of a project that was started and is no longer answered for are gone. */
  lemma PurgedIsGone(initial: World, w: World, runId: string, attempted: Allowance, a: Allowance)
    requires Covered(initial, w, runId, a)
    requires attempted.supabase ==> SupabaseStack(Project(runId)) in a.purged
    requires attempted.compose ==> ComposeStack(Project(runId)) in a.purged
    ensures w.stacks !! Stacks(runId, attempted)
  {
    hide Project;
  }

  lemma BothProjects(runId: string, a: Allowance)
    requires a.compose && a.supabase
    ensures Stacks(runId, a) == OwnStacks(runId)
  {
  }

  // ---- the proof in the log ----

  lemma ProofFrom(judge: (Check, string) -> bool, log: seq<Event>, from: nat, done: seq<Command>, runId: string,
                  now: seq<Command>)
    requires Stuck(judge, log, from, now) && now <= done + Proof(runId)
    ensures Stuck(judge, log, from, done + Proof(runId))
  {
    hide Stuck, Proof;
    StuckThen(judge, log, from, now, (done + Proof(runId))[|now|..]);
    assert now + (done + Proof(runId))[|now|..] == done + Proof(runId);
  }

  lemma ChecksStay(judge: (Check, string) -> bool, log: seq<Event>, more: seq<Event>, from: nat,
                   commands: seq<Command>)
    requires log <= more && UpTo(judge, log, from, commands)
    ensures Performed(judge, more, from, commands)
  {
    hide Performed;
    PerformedMore(judge, log, more, from, commands);
  }

  lemma OneMore(judge: (Check, string) -> bool, log: seq<Event>, from: nat, commands: seq<Command>, e: Event)
    requires UpTo(judge, log, from, commands) && Passes(judge, e)
    ensures UpTo(judge, log + [e], from, commands + [e.command])
  {
    hide Passes;
    var more, all := log + [e], commands + [e.command];
    forall i | 0 <= i < |all| ensures PassesAs(judge, more[from + i], all[i]) {
      if i < |commands| {
        assert PassesAs(judge, log[from + i], commands[i]);
      }
    }
  }

  lemma NothingYet(judge: (Check, string) -> bool, log: seq<Event>, w: World, runId: string)
    ensures UpTo(judge, log, |log|, []) && SoundLog(log, |log|, w, runId, []) && Untouched(log, |log|, w)
  {
  }

  lemma FreshCovered(w: World, runId: string)
    ensures Tracks(w, w, runId, Allowance({}, {}, false, false, false, {}))
  {
  }

  lemma LastPassed(judge: (Check, string) -> bool, log: seq<Event>, from: nat, commands: seq<Command>)
    requires UpTo(judge, log, from, commands) && commands != []
    ensures !Broken(judge, log)
  {
    hide Passes;
    var last := |commands| - 1;
    assert log[from + last].command == commands[last];
  }

  /** How the parts of a run make up its end. */
  lemma RunEnds(judge: (Check, string) -> bool, log: seq<Event>, start: nat, middle: nat, requestedContext: bool,
                runId: string, primary: Option<Error>, failures: seq<CleanupFailure>, escaped: Option<Error>)
    requires start <= middle <= |log|
    requires if primary.None? then UpTo(judge, log[..middle], start, WholeRun(requestedContext, runId))
             else Stuck(judge, log[..middle], start, WholeRun(requestedContext, runId))
    requires Cleaned(log, middle, [], failures, escaped, false)
    ensures EndingOf(primary, failures, escaped).Passed? <==>
              UpTo(judge, log[..middle], start, WholeRun(requestedContext, runId)) && Clean(log, middle)
  {
    hide Clean, PreflightChecks, NamespaceChecks, Proof, Passes, Performed, Broken, Justified, Escaping;
    var all := WholeRun(requestedContext, runId);
    StartsWithChecks(requestedContext, runId);
    if UpTo(judge, log[..middle], start, all) {
      LastPassed(judge, log[..middle], start, all);
    }
  }

  lemma StartsWithChecks(requestedContext: bool, runId: string)
    ensures WholeRun(requestedContext, runId) != []
  {
    hide NamespaceChecks, Proof;
  }

  function AsSet(s: seq<string>): set<string> {
    set k | k in s
  }
}
