/** What one run of the gate may have created on the machine, and what it must leave alone. */
module Ownership {
  import opened Json
  import opened Host
  import opened Text

  datatype CleanupFailure =
    | ProbeContainer(name: string) | SupabaseProject(project: string) | ComposeProject(project: string)
    | Image(tag: string) | Workdir

  /** The Compose and the Supabase project of a run. */
  function Project(runId: string): string {
    "simula-m0-" + runId
  }

  function ImageTag(service: string, runId: string): string {
    "simula-" + service + ":m0-" + runId
  }

  function ProbeName(service: string, runId: string): string {
    Project(runId) + "-" + service + "-probe"
  }

  function ImageTags(runId: string): seq<string> {
    [ImageTag("web", runId), ImageTag("api", runId), ImageTag("worker", runId)]
  }

  function ProbeNames(runId: string): seq<string> {
    [ProbeName("api", runId), ProbeName("worker", runId)]
  }

  /** The name filter of the preflight finds every probe container. */
  lemma ProbesInNamespace(runId: string, name: string)
    requires name in ProbeNames(runId)
    ensures Occurs(Project(runId), name)
  {
    assert OccursAt(Project(runId), name, 0);
  }

  /** The name filter of the preflight finds every container of the Supabase project. */
  lemma SuffixInNamespace(runId: string, name: string)
    requires EndsWith(name, Project(runId))
    ensures Occurs(Project(runId), name)
  {
    assert OccursAt(Project(runId), name, |name| - |Project(runId)|);
  }

  /** What the preflight establishes: nothing on the machine is in the run's namespaces. */
  ghost predicate Vacant(w: World, runId: string) {
    && (forall k :: k in w.containers ==> w.containers[k].project != Project(runId) && !Occurs(Project(runId), k))
    && (forall tag :: tag in ImageTags(runId) ==> tag !in w.images)
  }

  /** The resources a run has to answer for; `purged` are volumes known to be gone. */
  datatype Allowance = Allowance(probes: set<string>, images: set<string>, compose: bool, supabase: bool,
                                 directory: bool, purged: set<Stack>)

  /** The volumes of the run's two projects. */
  function OwnStacks(runId: string): set<Stack> {
    {ComposeStack(Project(runId)), SupabaseStack(Project(runId))}
  }

  function Stacks(runId: string, a: Allowance): set<Stack> {
    (if a.compose then {ComposeStack(Project(runId))} else {})
    + (if a.supabase then {SupabaseStack(Project(runId))} else {})
  }

  predicate Owned(runId: string, a: Allowance) {
    && (forall k :: k in a.probes ==> k in ProbeNames(runId))
    && (forall tag :: tag in a.images ==> tag in ImageTags(runId))
    && Stacks(runId, a) !! a.purged
  }

  predicate Explained(runId: string, a: Allowance, name: string, container: Container) {
    || (a.compose && container.project == Project(runId))
    || (a.supabase && EndsWith(name, Project(runId)))
    || name in a.probes
  }

  /** Beyond what the run found, the machine holds only what the allowance names. */
  ghost predicate Covered(initial: World, w: World, runId: string, a: Allowance) {
    && (forall k :: k in w.containers ==> k in initial.containers || Explained(runId, a, k, w.containers[k]))
    && w.images <= initial.images + a.images
    && w.stacks <= initial.stacks + Stacks(runId, a) && w.stacks !! a.purged
    && (w.directory.Some? ==> initial.directory.Some? || a.directory)
  }

  /** Every container and image the run found is still there, unchanged, and so are the volumes of other projects. */
  ghost predicate Preserved(initial: World, w: World, runId: string) {
    && (forall k :: k in initial.containers ==> k in w.containers && w.containers[k] == initial.containers[k])
    && initial.images <= w.images
    && initial.stacks <= w.stacks + OwnStacks(runId)
  }

  ghost predicate Tracks(initial: World, w: World, runId: string, a: Allowance) {
    Preserved(initial, w, runId) && Covered(initial, w, runId, a)
  }

  /** A command reaches only what the allowance names. */
  predicate Fits(w: World, command: Command, runId: string, a: Allowance) {
    var f := FootprintOf(w, command);
    && FitsScope(f.containers, runId, a)
    && f.images <= a.images && f.stacks <= Stacks(runId, a) && (f.directory ==> a.directory)
  }

  predicate FitsScope(scope: Scope, runId: string, a: Allowance) {
    match scope
    case Nothing => true
    case Labelled(project) => project == Project(runId) && a.compose
    case Suffixed(project) => project == Project(runId) && a.supabase
    case Exactly(name) => name in a.probes
  }

  /** A container the run found is out of reach. */
  lemma FoundIsOutOfScope(initial: World, runId: string, a: Allowance, scope: Scope, name: string)
    requires Vacant(initial, runId) && Owned(runId, a) && FitsScope(scope, runId, a) && name in initial.containers
    ensures !InScope(scope, name, initial.containers[name])
  {
    hide Project, ProbeNames, ImageTags, EndsWith;
    if scope.Suffixed? && EndsWith(name, Project(runId)) {
      SuffixInNamespace(runId, name);
    }
    if scope.Exactly? && name in ProbeNames(runId) {
      ProbesInNamespace(runId, name);
    }
  }

  lemma ReachedIsExplained(runId: string, a: Allowance, scope: Scope, name: string, container: Container)
    requires FitsScope(scope, runId, a) && InScope(scope, name, container)
    ensures Explained(runId, a, name, container)
  {
  }

  /** However a command ends, if it fits the allowance then nothing found is lost and everything new is allowed. */
  lemma CommandBounded(initial: World, w: World, command: Command, outcome: Outcome, n: World, runId: string,
                       a: Allowance)
    requires Vacant(initial, runId) && Owned(runId, a) && Tracks(initial, w, runId, a)
    requires Fits(w, command, runId, a) && Allowed(w, command, outcome, n)
    ensures Tracks(initial, n, runId, a)
  {
    hide Vacant, FootprintOf, FitsScope, Achieved, InScope, Explained, ImageTags, ProbeNames, Project, EndsWith;
    var f := FootprintOf(w, command);
    forall k | k in initial.containers ensures k in n.containers && n.containers[k] == initial.containers[k] {
      FoundIsOutOfScope(initial, runId, a, f.containers, k);
    }
    forall k | k in n.containers ensures k in initial.containers || Explained(runId, a, k, n.containers[k]) {
      if !Same(w, n, k) {
        ReachedIsExplained(runId, a, f.containers, k, n.containers[k]);
      }
    }
    FoundImagesKept(initial, w, n, f, runId, a);
    FoundStacksKept(initial, w, n, f, runId, a);
  }

  lemma FoundStacksKept(initial: World, w: World, n: World, f: Footprint, runId: string, a: Allowance)
    requires initial.stacks <= w.stacks + OwnStacks(runId) && f.stacks <= Stacks(runId, a)
    requires w.stacks <= n.stacks + f.stacks
    ensures initial.stacks <= n.stacks + OwnStacks(runId)
  {
  }

  lemma FoundImagesKept(initial: World, w: World, n: World, f: Footprint, runId: string, a: Allowance)
    requires Vacant(initial, runId) && Owned(runId, a) && initial.images <= w.images
    requires f.images <= a.images && w.images <= n.images + f.images
    ensures initial.images <= n.images
  {
  }

  /** Of the found volumes a run can lose those of its own two projects, which no check of the preflight looks at, and
      no others. */
  lemma FoundVolumesSurvive(initial: World, w: World, runId: string)
    requires Preserved(initial, w, runId)
    ensures forall s :: s in initial.stacks && s !in w.stacks ==> s in OwnStacks(runId)
    ensures initial.stacks !! OwnStacks(runId) ==> initial.stacks <= w.stacks
  {
    hide Project;
  }

  // ---- what removals take off the allowance ----

  lemma ProbeGone(initial: World, w: World, runId: string, a: Allowance, name: string)
    requires Covered(initial, w, runId, a) && name !in w.containers
    ensures Covered(initial, w, runId, a.(probes := a.probes - {name}))
  {
  }

  lemma ComposeGone(initial: World, w: World, runId: string, a: Allowance)
    requires Covered(initial, w, runId, a)
    requires forall k :: k in w.containers ==> w.containers[k].project != Project(runId)
    requires ComposeStack(Project(runId)) !in w.stacks
    ensures Covered(initial, w, runId, a.(compose := false, purged := a.purged + {ComposeStack(Project(runId))}))
  {
  }

  lemma SupabaseGone(initial: World, w: World, runId: string, a: Allowance)
    requires Covered(initial, w, runId, a)
    requires forall k :: k in w.containers ==> !EndsWith(k, Project(runId))
    requires SupabaseStack(Project(runId)) !in w.stacks
    ensures Covered(initial, w, runId, a.(supabase := false, purged := a.purged + {SupabaseStack(Project(runId))}))
  {
  }

  lemma ImageGone(initial: World, w: World, runId: string, a: Allowance, tag: string)
    requires Covered(initial, w, runId, a) && tag !in w.images
    ensures Covered(initial, w, runId, a.(images := a.images - {tag}))
  {
  }

  lemma DirectoryGone(initial: World, w: World, runId: string, a: Allowance)
    requires Covered(initial, w, runId, a) && w.directory.None?
    ensures Covered(initial, w, runId, a.(directory := false))
  {
  }

  predicate Below(a: Allowance, b: Allowance) {
    && a.probes <= b.probes && a.images <= b.images && (a.compose ==> b.compose) && (a.supabase ==> b.supabase)
    && (a.directory ==> b.directory) && b.purged <= a.purged
  }

  lemma CoveredMore(initial: World, w: World, runId: string, a: Allowance, b: Allowance)
    requires Covered(initial, w, runId, a) && Below(a, b)
    ensures Covered(initial, w, runId, b)
  {
  }

  /** A directory that was not made is not answered for. */
  lemma CoveredLess(initial: World, w: World, n: World, runId: string, a: Allowance)
    requires Covered(initial, w, runId, a.(directory := false)) && n.directory == w.directory
    requires Covered(initial, n, runId, a)
    ensures Covered(initial, n, runId, a.(directory := false))
  {
  }

  lemma OwnedFlags(runId: string, a: Allowance, b: Allowance)
    requires Owned(runId, a) && a.probes == b.probes && a.images == b.images && b.purged == {}
    ensures Owned(runId, b)
  {
  }

  // ---- what a list of cleanup failures names ----

  function NamedProbes(failures: seq<CleanupFailure>): set<string> {
    set f | f in failures && f.ProbeContainer? :: f.name
  }

  function NamedImages(failures: seq<CleanupFailure>): set<string> {
    set f | f in failures && f.Image? :: f.tag
  }

  function NamedBy(runId: string, failures: seq<CleanupFailure>): Allowance {
    Allowance(NamedProbes(failures), NamedImages(failures), ComposeProject(Project(runId)) in failures,
              SupabaseProject(Project(runId)) in failures, Workdir in failures, {})
  }

  /** A longer list names more. */
  lemma NamedMore(runId: string, failures: seq<CleanupFailure>, more: seq<CleanupFailure>)
    requires failures <= more
    ensures NamedProbes(failures) <= NamedProbes(more) && NamedImages(failures) <= NamedImages(more)
    ensures Below(NamedBy(runId, failures), NamedBy(runId, more))
  {
    assert forall f :: f in failures ==> f in more;
  }

  lemma NamedNow(failures: seq<CleanupFailure>, failure: CleanupFailure)
    ensures failure.ProbeContainer? ==> failure.name in NamedProbes(failures + [failure])
    ensures failure.Image? ==> failure.tag in NamedImages(failures + [failure])
  {
    assert failure in failures + [failure];
  }

  /** Nothing is left over and nothing found is missing, except that the volumes of the run's own projects are gone. */
  ghost predicate Restored(initial: World, w: World, runId: string) {
    && w.containers == initial.containers && w.images == initial.images
    && w.stacks == initial.stacks - OwnStacks(runId) && (w.directory.Some? ==> initial.directory.Some?)
  }

  /** With an empty list of failures and both projects removed the machine is as it was found. */
  lemma NothingNamedIsRestored(initial: World, w: World, runId: string)
    requires Tracks(initial, w, runId, NamedBy(runId, [])) && w.stacks !! OwnStacks(runId)
    ensures Restored(initial, w, runId)
  {
  }
}
