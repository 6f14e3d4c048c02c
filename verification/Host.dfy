/** The machine that scripts/verify_m0_runtime.py works on: its containers, image tags, project volumes and the
    temporary Supabase directory, and what each command may do to them. A command may end in any way. */
module Host {
  import opened Json
  import opened Text

  /** A container: its Compose project label and the image it was made from. */
  datatype Container = Container(project: string, image: string)

  /** The volumes and networks of one project. */
  datatype Stack = ComposeStack(project: string) | SupabaseStack(project: string)

  /** `directory` is the temporary Supabase directory and the project id its configuration names. */
  datatype World = World(containers: map<string, Container>, images: set<string>, stacks: set<Stack>,
                         directory: Option<string>)

  datatype Check =
    | ContextShow | ContextInspect | EngineInfo | ComposeConfig | Toolchain | SupabaseVersion
    | RedisUid | AuthHealth | IntegrationTests | ImageUser(tag: string, user: string)

  datatype Command =
    | Ask(check: Check)
    | ListByLabel(project: string) | ListByName(fragment: string) | ListExactly(name: string) | ListImage(tag: string)
    | MakeWorkdir | FillWorkdir(project: string) | RemoveWorkdir
    | ComposeUp(project: string) | ComposeDown(project: string)
    | SupabaseStart | SupabaseReset | SupabaseStop(project: string)
    | Build(tag: string) | RemoveImage(tag: string)
    | RunContainer(name: string, tag: string) | RemoveContainer(name: string)

  datatype Outcome = Completed(output: string) | Failed | TimedOut | Interrupted | Crashed

  /** Which containers a command may add, change or remove. */
  datatype Scope = Nothing | Labelled(project: string) | Suffixed(project: string) | Exactly(name: string)

  datatype Footprint = Footprint(containers: Scope, images: set<string>, stacks: set<Stack>, directory: bool)

  predicate EndsWith(s: string, suffix: string) {
    |suffix| <= |s| && s[|s| - |suffix|..] == suffix
  }

  predicate InScope(scope: Scope, name: string, container: Container) {
    match scope
    case Nothing => false
    case Labelled(project) => container.project == project
    case Suffixed(project) => EndsWith(name, project)
    case Exactly(only) => name == only
  }

  /** What a command can reach. Supabase commands act on the project their directory names, `stop` on the one given. */
  function FootprintOf(w: World, command: Command): Footprint {
    match command
    case ComposeUp(project) => Footprint(Labelled(project), {}, {ComposeStack(project)}, false)
    case ComposeDown(project) => Footprint(Labelled(project), {}, {ComposeStack(project)}, false)
    case SupabaseStart => SupabaseFootprint(w.directory)
    case SupabaseReset => SupabaseFootprint(w.directory)
    case SupabaseStop(project) => SupabaseFootprint(Some(project))
    case Build(tag) => Footprint(Nothing, {tag}, {}, false)
    case RemoveImage(tag) => Footprint(Nothing, {tag}, {}, false)
    case RunContainer(name, _) => Footprint(Exactly(name), {}, {}, false)
    case RemoveContainer(name) => Footprint(Exactly(name), {}, {}, false)
    case MakeWorkdir => Footprint(Nothing, {}, {}, true)
    case FillWorkdir(_) => Footprint(Nothing, {}, {}, true)
    case RemoveWorkdir => Footprint(Nothing, {}, {}, true)
    case _ => Footprint(Nothing, {}, {}, false)
  }

  function SupabaseFootprint(project: Option<string>): Footprint {
    if project.None? then Footprint(Nothing, {}, {}, false)
    else Footprint(Suffixed(project.value), {}, {SupabaseStack(project.value)}, false)
  }

  predicate Same(w: World, n: World, name: string) {
    if name in w.containers then name in n.containers && w.containers[name] == n.containers[name]
    else name !in n.containers
  }

  ghost predicate Within(w: World, n: World, f: Footprint) {
    && (forall k :: k in w.containers && !Same(w, n, k) ==> InScope(f.containers, k, w.containers[k]))
    && (forall k :: k in n.containers && !Same(w, n, k) ==> InScope(f.containers, k, n.containers[k]))
    && w.images <= n.images + f.images && n.images <= w.images + f.images
    && w.stacks <= n.stacks + f.stacks && n.stacks <= w.stacks + f.stacks
    && (n.directory == w.directory || f.directory)
  }

  /** What a completed command guarantees. Listings tell the truth, removals remove, and Docker refuses to remove an
      image while a container uses it. */
  ghost predicate Achieved(w: World, command: Command, output: string, n: World) {
    match command
    case ListByLabel(project) => output == "" <==> forall k :: k in w.containers ==> w.containers[k].project != project
    case ListByName(fragment) => output == "" <==> forall k :: k in w.containers ==> !Occurs(fragment, k)
    case ListExactly(name) => output == "" <==> name !in w.containers
    case ListImage(tag) => output == "" <==> tag !in w.images
    case ComposeDown(project) =>
      && (forall k :: k in n.containers ==> n.containers[k].project != project)
      && ComposeStack(project) !in n.stacks
    case SupabaseStop(project) =>
      && (forall k :: k in n.containers ==> !EndsWith(k, project))
      && SupabaseStack(project) !in n.stacks
    case RemoveContainer(name) => name !in n.containers
    case RemoveImage(tag) => tag !in n.images && forall k :: k in w.containers ==> w.containers[k].image != tag
    case MakeWorkdir => n.directory.Some?
    case FillWorkdir(project) => output == "1" ==> n.directory == Some(project)
    case RemoveWorkdir => n.directory == None
    case _ => true
  }

  /** Everything a command may do, however it ends. Only the directory is known to be made whole or not at all. */
  ghost predicate Allowed(w: World, command: Command, outcome: Outcome, n: World) {
    && Within(w, n, FootprintOf(w, command))
    && (outcome.Completed? ==> Achieved(w, command, outcome.output, n))
    && (command.MakeWorkdir? && !outcome.Completed? ==> n.directory == w.directory)
  }

  /** How the machine answers, as a function of its state, the command and how many commands came before. */
  type Environment = (World, Command, nat) -> (Outcome, World)

  ghost predicate Lawful(environment: Environment) {
    forall w, command, n :: var (outcome, after) := environment(w, command, n); Allowed(w, command, outcome, after)
  }

  /** A command as it was given, the state it found and how it ended. */
  datatype Event = Event(command: Command, before: World, outcome: Outcome)

  /** Every event of a log is what the environment answered, and the states follow one another up to the last. */
  predicate Replays(environment: Environment, log: seq<Event>, world: World) {
    forall i :: 0 <= i < |log| ==> ReplaysAt(environment, log, world, i)
  }

  predicate ReplaysAt(environment: Environment, log: seq<Event>, world: World, i: nat)
    requires i < |log|
  {
    environment(log[i].before, log[i].command, i) == (log[i].outcome, After(log, world, i))
  }

  /** The state after an event. */
  function After(log: seq<Event>, world: World, i: nat): World
    requires i < |log|
  {
    if i + 1 == |log| then world else log[i + 1].before
  }

  lemma ReplaysMore(environment: Environment, log: seq<Event>, world: World, command: Command)
    requires Replays(environment, log, world)
    ensures var (outcome, after) := environment(world, command, |log|);
            Replays(environment, log + [Event(command, world, outcome)], after)
  {
    var (outcome, after) := environment(world, command, |log|);
    var more := log + [Event(command, world, outcome)];
    forall i | 0 <= i < |more| ensures ReplaysAt(environment, more, after, i) {
      if i < |log| {
        assert ReplaysAt(environment, log, world, i);
      }
    }
  }

  class Machine {
    const environment: Environment
    var world: World
    var log: seq<Event>

    constructor (environment: Environment, world: World)
      ensures this.environment == environment && this.world == world && log == []
      ensures Lawful(environment) ==> Honest()
    {
      this.environment, this.world, log := environment, world, [];
    }

    /** The log is what a lawful environment has answered so far. */
    ghost predicate Honest()
      reads this
    {
      Lawful(environment) && Replays(environment, log, world)
    }

    /** `execute_command`: one command, in the state it finds. */
    method Execute(command: Command) returns (outcome: Outcome)
      requires Honest()
      modifies this
      ensures Honest()
      ensures Allowed(old(world), command, outcome, world)
      ensures log == old(log) + [Event(command, old(world), outcome)]
    {
      var (result, after) := environment(world, command, |log|);
      ReplaysMore(environment, log, world, command);
      log := log + [Event(command, world, result)];
      world := after;
      return result;
    }
  }
}
