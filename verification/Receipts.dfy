/** The records of scripts/promote_release.py: what it asks of the providers and of the disk, the receipt it keeps, and
    what the log of a run shows. Every prefix of a log is a point where the process may have died. */
module Receipts {
  import opened Json

  datatype Provider = Railway | Vercel | Unknown

  /** A target of the plan; `scope` stands for its project, environment, service and team. */
  datatype Target = Target(provider: Provider, scope: string, rollback: string)

  datatype Plan = Plan(migrationHead: string, releaseSha: string, targets: seq<Target>)

  datatype DeploymentState = SUCCESS | FAILED | CRASHED | REMOVED | CANCELED | SKIPPED | Pending(state: string)

  datatype Deployment = Deployment(id: string, state: DeploymentState)

  /** The release settings a target had before. */
  type Settings = map<string, Option<string>>

  datatype Status = Started | Submitted | ProviderSuccess | Failed

  /** One result of the receipt. */
  datatype Entry = Entry(target: Target, status: Status, previous: Option<Settings>, id: Option<string>)

  datatype Receipt = Receipt(targets: seq<Target>, results: seq<Entry>, executed: bool)

  /** Everything the program asks of the world. The last three of the provider requests change something there. */
  datatype Request =
    | VerifyRelease | QualityChecks
    | ListDeployments(target: Target) | InspectRollback(target: Target) | ListReady(target: Target)
    | ListVariables(target: Target)
    | SetVariables(target: Target) | RailwayUp(target: Target) | VercelDeploy(target: Target)
    | WriteReceipt(receipt: Receipt)

  /** What came back. A malformed answer is a `Refused` one. */
  datatype Reply =
    | Done | Verified(migrationHead: string)
    | Deployments(items: seq<Deployment>) | Inspected(ready: bool, url: string) | ReadyUrls(urls: seq<string>)
    | Variables(settings: Settings) | Accepted(id: string, urlValid: bool)
    | Refused | Interrupted

  datatype Event = Event(request: Request, reply: Reply)

  predicate IsMutation(request: Request) {
    request.SetVariables? || request.RailwayUp? || request.VercelDeploy?
  }

  // ---- the receipt on disk ----

  /** The receipt on disk after a log: the last one written, each write being atomic. */
  function Disk(log: seq<Event>): Option<Receipt>
    decreases |log|
  {
    if log == [] then None
    else
      var last := log[|log| - 1];
      if last.request.WriteReceipt? && last.reply.Done? then Some(last.request.receipt)
      else Disk(log[..|log| - 1])
  }

  lemma DiskAfter(log: seq<Event>, e: Event)
    ensures Disk(log + [e]) ==
            if e.request.WriteReceipt? && e.reply.Done? then Some(e.request.receipt) else Disk(log)
  {
    assert (log + [e])[..|log|] == log;
  }

  /** What is on disk was written at some point. */
  lemma {:induction false} DiskWasWritten(log: seq<Event>) returns (k: nat)
    requires Disk(log).Some?
    ensures k < |log| && log[k].request == WriteReceipt(Disk(log).value)
    decreases |log|
  {
    var last := log[|log| - 1];
    if last.request.WriteReceipt? && last.reply.Done? {
      k := |log| - 1;
    } else {
      k := DiskWasWritten(log[..|log| - 1]);
    }
  }

  predicate Written(e: Event) {
    e.request.WriteReceipt? && e.reply.Done?
  }

  predicate LastWritten(log: seq<Event>, k: int, r: Receipt) {
    0 <= k < |log| && log[k] == Event(WriteReceipt(r), Done) && forall m :: k < m < |log| ==> !Written(log[m])
  }

  /** The receipt on disk is the last one whose write succeeded. */
  lemma {:induction false} DiskIsLastWrite(log: seq<Event>, r: Receipt)
    ensures Disk(log) == Some(r) <==> exists k :: LastWritten(log, k, r)
    decreases |log|
  {
    if log != [] {
      var init, e := log[..|log| - 1], log[|log| - 1];
      DiskIsLastWrite(init, r);
      if Written(e) {
        assert LastWritten(log, |log| - 1, e.request.receipt);
      } else {
        forall k ensures LastWritten(log, k, r) <==> LastWritten(init, k, r) {
        }
      }
    }
  }

  // ---- what a log proves about a target ----

  /** What an inventory says about a deployment: the first entry with its id. */
  function StateOf(items: seq<Deployment>, id: string): Option<DeploymentState> {
    if items == [] then None
    else if items[0].id == id then Some(items[0].state)
    else StateOf(items[1..], id)
  }

  predicate Terminal(state: DeploymentState) {
    state.FAILED? || state.CRASHED? || state.REMOVED? || state.CANCELED? || state.SKIPPED?
  }

  predicate PollSays(e: Event, target: Target, id: string, state: DeploymentState) {
    e.request == ListDeployments(target) && e.reply.Deployments? && StateOf(e.reply.items, id) == Some(state)
  }

  predicate PollEnds(e: Event, target: Target, id: string) {
    && e.request == ListDeployments(target) && e.reply.Deployments?
    && StateOf(e.reply.items, id).Some? && Terminal(StateOf(e.reply.items, id).value)
  }

  /** The entry is the first one of an inventory with this id. */
  predicate FirstWith(items: seq<Deployment>, i: int, id: string) {
    0 <= i < |items| && items[i].id == id && forall h :: 0 <= h < i ==> items[h].id != id
  }

  lemma {:induction false} StateIsFirst(items: seq<Deployment>, id: string)
    ensures forall i :: FirstWith(items, i, id) ==> StateOf(items, id) == Some(items[i].state)
    ensures StateOf(items, id).Some? ==> exists i :: FirstWith(items, i, id)
  {
    if items != [] {
      var rest := items[1..];
      StateIsFirst(rest, id);
      if items[0].id == id {
        assert FirstWith(items, 0, id);
      } else {
        forall i | FirstWith(items, i, id) ensures StateOf(items, id) == Some(items[i].state) {
          assert FirstWith(rest, i - 1, id) by {
            forall h | 0 <= h < i - 1 ensures rest[h].id != id {
              assert rest[h] == items[h + 1];
            }
          }
        }
        if StateOf(rest, id).Some? {
          var i :| FirstWith(rest, i, id);
          assert FirstWith(items, i + 1, id) by {
            forall h | 0 <= h < i + 1 ensures items[h].id != id {
              assert h == 0 || items[h] == rest[h - 1];
            }
          }
        }
      }
    }
  }

  /** A poll shows the state of the first entry with the id. */
  lemma PollMeans(e: Event, target: Target, id: string, state: DeploymentState)
    ensures PollSays(e, target, id, state) <==>
            && e.request == ListDeployments(target) && e.reply.Deployments?
            && exists i :: FirstWith(e.reply.items, i, id) && e.reply.items[i].state == state
  {
    if e.reply.Deployments? {
      StateIsFirst(e.reply.items, id);
    }
  }

  /** The waiting ends in failure for five states and for no other. */
  lemma EndMeans(e: Event, target: Target, id: string)
    ensures PollEnds(e, target, id) <==>
            exists state :: state in {FAILED, CRASHED, REMOVED, CANCELED, SKIPPED} && PollSays(e, target, id, state)
  {
    if PollEnds(e, target, id) {
      var state := StateOf(e.reply.items, id).value;
      assert state in {FAILED, CRASHED, REMOVED, CANCELED, SKIPPED} && PollSays(e, target, id, state);
    }
  }

  /** The provider accepted a submission of this target at this place in the log and named it. */
  predicate AcceptedAt(log: seq<Event>, k: int, target: Target, id: string) {
    && 0 <= k < |log| && log[k].reply.Accepted? && log[k].reply.id == id
    && log[k].request == (if target.provider.Railway? then RailwayUp(target) else VercelDeploy(target))
  }

  /** A poll after the submission showed success, and no poll in between showed a terminal failure. */
  predicate SucceededAt(log: seq<Event>, k: int, m: int, target: Target, id: string) {
    && AcceptedAt(log, k, target, id) && k < m < |log| && PollSays(log[m], target, id, SUCCESS)
    && forall j :: k < j < m ==> !PollEnds(log[j], target, id)
  }

  /** A status that claims something is backed by the log. */
  ghost predicate Backed(log: seq<Event>, entry: Entry) {
    && (entry.status.Submitted? || entry.status.ProviderSuccess? ==>
          entry.id.Some? && exists k :: AcceptedAt(log, k, entry.target, entry.id.value))
    && (entry.status.ProviderSuccess? ==> exists k, m :: SucceededAt(log, k, m, entry.target, entry.id.value))
    && (entry.target.provider.Railway? ==>
          entry.previous.Some? && exists k :: CapturedAt(log, k, entry.target, entry.previous.value))
  }

  /** The settings a target had were read from the provider. */
  predicate CapturedAt(log: seq<Event>, k: int, target: Target, settings: Settings) {
    0 <= k < |log| && log[k] == Event(ListVariables(target), Variables(settings))
  }

  /** The status a target is left with when all went well. */
  predicate Final(entry: Entry) {
    entry.status == if entry.target.provider.Railway? then ProviderSuccess else Submitted
  }

  /** A receipt fit to be on disk: the results are a prefix of the plan's targets in order, all but the last are final,
      claims are backed by the log, and `executed` is claimed only when every target is final. */
  ghost predicate SoundReceipt(log: seq<Event>, r: Receipt, targets: seq<Target>) {
    && |r.results| <= |targets|
    && (forall i :: 0 <= i < |r.results| ==> r.results[i].target == targets[i] && Backed(log, r.results[i]))
    && (forall i :: 0 <= i < |r.results| - 1 ==> Final(r.results[i]))
    && (r.executed ==> |r.results| == |targets| && forall i :: 0 <= i < |r.results| ==> Final(r.results[i]))
  }

  lemma BackedMore(log: seq<Event>, more: seq<Event>, entry: Entry)
    requires log <= more && Backed(log, entry)
    ensures Backed(more, entry)
  {
    hide SucceededAt;
    if entry.target.provider.Railway? {
      var c :| CapturedAt(log, c, entry.target, entry.previous.value);
      assert CapturedAt(more, c, entry.target, entry.previous.value);
    }
    if entry.status.Submitted? || entry.status.ProviderSuccess? {
      var k :| AcceptedAt(log, k, entry.target, entry.id.value);
      assert AcceptedAt(more, k, entry.target, entry.id.value);
    }
    if entry.status.ProviderSuccess? {
      var k, m :| SucceededAt(log, k, m, entry.target, entry.id.value);
      SucceededMore(log, more, k, m, entry.target, entry.id.value);
    }
  }

  lemma SucceededMore(log: seq<Event>, more: seq<Event>, k: int, m: int, target: Target, id: string)
    requires log <= more && SucceededAt(log, k, m, target, id)
    ensures SucceededAt(more, k, m, target, id)
  {
    hide PollEnds, PollSays;
    forall j | k < j < m ensures !PollEnds(more[j], target, id) {
      assert !PollEnds(log[j], target, id);
    }
  }

  lemma SoundMore(log: seq<Event>, more: seq<Event>, r: Receipt, targets: seq<Target>)
    requires log <= more && SoundReceipt(log, r, targets)
    ensures SoundReceipt(more, r, targets)
  {
    hide Backed, Final;
    forall i | 0 <= i < |r.results| ensures Backed(more, r.results[i]) {
      BackedMore(log, more, r.results[i]);
    }
  }

  // ---- the gate ----

  /** What a preflight must have seen: the rollback deployment is one that works now. */
  predicate RollbackSeen(log: seq<Event>, target: Target) {
    match target.provider
    case Railway =>
      exists k :: 0 <= k < |log| && ShowsRollback(log[k], target)
    case Vercel =>
      exists k, m :: 0 <= k < m < |log| && ShowsReady(log[k], log[m], target)
    case Unknown => false
  }

  predicate ShowsRollback(e: Event, target: Target) {
    && e.request == ListDeployments(target) && e.reply.Deployments?
    && exists i :: 0 <= i < |e.reply.items| && e.reply.items[i] == Deployment(target.rollback, SUCCESS)
  }

  predicate ShowsReady(inspected: Event, listed: Event, target: Target) {
    && inspected.request == InspectRollback(target) && inspected.reply.Inspected? && inspected.reply.ready
    && listed.request == ListReady(target) && listed.reply.ReadyUrls? && inspected.reply.url in listed.reply.urls
  }

  /** The release is verified, the source checks passed and every target passed its preflight. */
  ghost predicate GatePassed(log: seq<Event>, plan: Plan, sha: string) {
    && (exists k :: 0 <= k < |log| && log[k] == Event(VerifyRelease, Verified(plan.migrationHead)))
    && (exists k :: 0 <= k < |log| && log[k] == Event(QualityChecks, Done))
    && plan.releaseSha == sha
    && forall t :: t in plan.targets ==> RollbackSeen(log, t)
  }

  lemma RollbackSeenMore(log: seq<Event>, more: seq<Event>, target: Target)
    requires log <= more && RollbackSeen(log, target)
    ensures RollbackSeen(more, target)
  {
    hide ShowsRollback, ShowsReady;
    if target.provider.Railway? {
      var k :| 0 <= k < |log| && ShowsRollback(log[k], target);
      assert ShowsRollback(more[k], target);
    } else {
      var k, m :| 0 <= k < m < |log| && ShowsReady(log[k], log[m], target);
      assert ShowsReady(more[k], more[m], target);
    }
  }

  lemma GateMore(log: seq<Event>, more: seq<Event>, plan: Plan, sha: string)
    requires log <= more && GatePassed(log, plan, sha)
    ensures GatePassed(more, plan, sha)
  {
    hide RollbackSeen;
    var k :| 0 <= k < |log| && log[k] == Event(VerifyRelease, Verified(plan.migrationHead));
    assert more[k] == log[k];
    var q :| 0 <= q < |log| && log[q] == Event(QualityChecks, Done);
    assert more[q] == log[q];
    forall t | t in plan.targets ensures RollbackSeen(more, t) {
      RollbackSeenMore(log, more, t);
    }
  }

  // ---- what may stop a promotion ----

  /** A reply that gives the program a reason to stop. */
  predicate Hinders(log: seq<Event>, k: int, plan: Plan) {
    && 0 <= k < |log|
    && var reply := log[k].reply;
       match log[k].request
       case VerifyRelease => reply != Verified(plan.migrationHead)
       case QualityChecks => !reply.Done?
       case ListDeployments(target) =>
         !reply.Deployments? || !ShowsRollback(log[k], target) || ShowsTerminal(reply.items)
       case InspectRollback(_) => !reply.Inspected? || !reply.ready
       case ListReady(target) => k == 0 || !ShowsReady(log[k - 1], log[k], target)
       case ListVariables(_) => !reply.Variables?
       case SetVariables(_) => !reply.Done?
       case RailwayUp(_) => !reply.Accepted?
       case VercelDeploy(_) => !reply.Accepted? || !reply.urlValid
       case WriteReceipt(_) => !reply.Done?
  }

  predicate ShowsTerminal(items: seq<Deployment>) {
    exists i :: 0 <= i < |items| && Terminal(items[i].state)
  }

  predicate Hindered(log: seq<Event>, plan: Plan) {
    exists k :: 0 <= k < |log| && Hinders(log, k, plan)
  }

  lemma HinderedMore(log: seq<Event>, more: seq<Event>, plan: Plan)
    requires log <= more && Hindered(log, plan)
    ensures Hindered(more, plan)
  {
    hide ShowsRollback, ShowsReady, ShowsTerminal;
    var k :| 0 <= k < |log| && Hinders(log, k, plan);
    assert Hinders(more, k, plan);
  }

  lemma LastHinders(log: seq<Event>, plan: Plan)
    requires Hinders(log, |log| - 1, plan)
    ensures Hindered(log, plan)
  {
  }

  lemma {:induction false} StateIsListed(items: seq<Deployment>, id: string)
    requires StateOf(items, id).Some? && Terminal(StateOf(items, id).value)
    ensures ShowsTerminal(items)
  {
    if items[0].id == id {
      assert Terminal(items[0].state);
    } else {
      StateIsListed(items[1..], id);
      var i :| 0 <= i < |items[1..]| && Terminal(items[1..][i].state);
      assert Terminal(items[i + 1].state);
    }
  }

  // ---- the protocol, as a property of every prefix of the log ----

  /** The receipt on disk already names this target as the one in progress. */
  predicate Announced(disk: Option<Receipt>, target: Target) {
    && disk.Some? && disk.value.results != []
    && var last := disk.value.results[|disk.value.results| - 1];
       last.target == target && last.status == Started && (target.provider.Railway? ==> last.previous.Some?)
  }

  /** What a recorded result may become: its target, the settings recorded with it and an id once it has one stay, and
      a final or failed result stays as it is. */
  predicate Continues(was: Entry, now: Entry) {
    && now.target == was.target && now.previous == was.previous
    && (was.id.Some? ==> now.id == was.id)
    && (was.status.Submitted? ==> !now.status.Started?)
    && (Final(was) || was.status.ProviderSuccess? || was.status.Failed? ==> now == was)
  }

  /** Nothing recorded is taken back. */
  predicate Keeps(disk: Option<Receipt>, r: Receipt) {
    disk.Some? ==>
      && |disk.value.results| <= |r.results| && disk.value.targets == r.targets
      && (disk.value.executed ==> r.executed)
      && forall i :: 0 <= i < |disk.value.results| ==> Continues(disk.value.results[i], r.results[i])
  }

  lemma KeepsItself(r: Receipt)
    ensures Keeps(Some(r), r)
  {
  }

  lemma KeepsFurther(a: Receipt, b: Receipt, c: Receipt)
    requires Keeps(Some(a), b) && Keeps(Some(b), c)
    ensures Keeps(Some(a), c)
  {
    hide Continues;
    forall i | 0 <= i < |a.results| ensures Continues(a.results[i], c.results[i]) {
      assert Continues(a.results[i], b.results[i]) && Continues(b.results[i], c.results[i]);
      ContinuesFurther(a.results[i], b.results[i], c.results[i]);
    }
  }

  lemma ContinuesFurther(a: Entry, b: Entry, c: Entry)
    requires Continues(a, b) && Continues(b, c)
    ensures Continues(a, c)
  {
  }

  /** A request may be made at this point: changes need the gate and the announcement, a build needs
      its settings in place, receipts must be sound. */
  ghost predicate MayAsk(log: seq<Event>, request: Request, plan: Plan, sha: string) {
    && (IsMutation(request) ==> GatePassed(log, plan, sha) && Announced(Disk(log), request.target))
    && (request.RailwayUp? ==> log != [] && log[|log| - 1] == Event(SetVariables(request.target), Done))
    && (request.WriteReceipt? ==>
          SoundReceipt(log, request.receipt, plan.targets) && Keeps(Disk(log), request.receipt))
  }

  ghost predicate Protocol(log: seq<Event>, plan: Plan, sha: string) {
    forall k :: 0 <= k < |log| ==> MayAsk(log[..k], log[k].request, plan, sha)
  }

  lemma ProtocolMore(log: seq<Event>, e: Event, plan: Plan, sha: string)
    requires Protocol(log, plan, sha) && MayAsk(log, e.request, plan, sha)
    ensures Protocol(log + [e], plan, sha)
  {
    hide MayAsk;
    var more := log + [e];
    forall k | 0 <= k < |more| ensures MayAsk(more[..k], more[k].request, plan, sha) {
      if k < |log| {
        assert more[..k] == log[..k];
      } else {
        assert more[..k] == log;
      }
    }
  }

  /** At every point where the process may die, the receipt on disk is sound. */
  lemma DiskIsSound(log: seq<Event>, plan: Plan, sha: string, k: nat)
    requires Protocol(log, plan, sha) && k <= |log| && Disk(log[..k]).Some?
    ensures SoundReceipt(log[..k], Disk(log[..k]).value, plan.targets)
  {
    hide SoundReceipt;
    var j := DiskWasWritten(log[..k]);
    assert MayAsk(log[..j], log[j].request, plan, sha);
    SoundMore(log[..j], log[..k], Disk(log[..k]).value, plan.targets);
  }

  /** Between two points where the process may die, the results on disk only continue. */
  lemma {:induction false} DiskKeeps(log: seq<Event>, plan: Plan, sha: string, j: nat, k: nat)
    requires Protocol(log, plan, sha) && j <= k <= |log| && Disk(log[..j]).Some?
    ensures Disk(log[..k]).Some? && Keeps(Disk(log[..j]), Disk(log[..k]).value)
    decreases k
  {
    hide SoundReceipt, GatePassed, Announced, Keeps;
    if j < k {
      DiskKeeps(log, plan, sha, j, k - 1);
      assert log[..k] == log[..k - 1] + [log[k - 1]];
      DiskAfter(log[..k - 1], log[k - 1]);
      assert MayAsk(log[..k - 1], log[k - 1].request, plan, sha);
      var before, after := Disk(log[..k - 1]).value, Disk(log[..k]).value;
      KeepsItself(before);
      KeepsFurther(Disk(log[..j]).value, before, after);
    } else {
      KeepsItself(Disk(log[..j]).value);
    }
  }

  // ---- what the protocol means ----

  /** A result on disk is that of the target of a change, with the settings that target had before. */
  ghost predicate Recorded(log: seq<Event>, entry: Entry, target: Target) {
    && entry.target == target
    && (target.provider.Railway? ==>
          entry.previous.Some? && exists c :: CapturedAt(log, c, target, entry.previous.value))
  }

  /** Write-ahead: at every point where the process may die, the receipt on disk names every target that the providers
      were ever asked to change, and for a Railway target the settings it had, read before the change. */
  lemma ChangedTargetsAreOnDisk(log: seq<Event>, plan: Plan, sha: string, j: nat, k: nat)
    requires Protocol(log, plan, sha) && j <= k <= |log| && j < |log|
    requires log[j].request.SetVariables? || log[j].request.RailwayUp? || log[j].request.VercelDeploy?
    ensures Disk(log[..k]).Some?
    ensures exists i :: 0 <= i < |Disk(log[..k]).value.results|
                        && Recorded(log[..j], Disk(log[..k]).value.results[i], log[j].request.target)
  {
    hide Protocol, SoundReceipt, Recorded, Disk;
    AnnouncedIsRecorded(log, plan, sha, j);
    DiskKeeps(log, plan, sha, j, k);
    var was, now := Disk(log[..j]).value, Disk(log[..k]).value;
    var i := |was.results| - 1;
    assert Continues(was.results[i], now.results[i]);
    StaysRecorded(log[..j], was.results[i], now.results[i], log[j].request.target);
  }

  lemma StaysRecorded(log: seq<Event>, was: Entry, now: Entry, target: Target)
    requires Recorded(log, was, target) && Continues(was, now)
    ensures Recorded(log, now, target)
  {
    hide CapturedAt;
  }

  lemma AnnouncedIsRecorded(log: seq<Event>, plan: Plan, sha: string, j: nat)
    requires Protocol(log, plan, sha) && j < |log| && IsMutation(log[j].request)
    ensures Disk(log[..j]).Some? && Disk(log[..j]).value.results != []
    ensures var results := Disk(log[..j]).value.results;
            Recorded(log[..j], results[|results| - 1], log[j].request.target)
  {
    hide GatePassed, Final, Protocol, Disk;
    AtMutation(log, plan, sha, j);
    DiskIsSound(log, plan, sha, j);
  }

  lemma AtMutation(log: seq<Event>, plan: Plan, sha: string, j: nat)
    requires Protocol(log, plan, sha) && j < |log| && IsMutation(log[j].request)
    ensures GatePassed(log[..j], plan, sha) && Announced(Disk(log[..j]), log[j].request.target)
  {
    hide GatePassed, Announced, SoundReceipt;
    assert MayAsk(log[..j], log[j].request, plan, sha);
  }

  /** The settings on disk when a Railway target is first changed were read from the provider before that. */
  lemma SettingsAreReadFirst(log: seq<Event>, plan: Plan, sha: string, j: nat)
    requires Protocol(log, plan, sha) && j < |log|
    requires log[j].request.SetVariables? || log[j].request.RailwayUp? || log[j].request.VercelDeploy?
    requires log[j].request.target.provider.Railway?
    ensures var disk := Disk(log[..j]);
            && disk.Some? && disk.value.results != []
            && var last := disk.value.results[|disk.value.results| - 1];
               last.previous.Some? && exists k :: CapturedAt(log[..j], k, log[j].request.target, last.previous.value)
  {
    hide GatePassed, Final, Protocol;
    AtMutation(log, plan, sha, j);
    DiskIsSound(log, plan, sha, j);
  }

  /** Gated: no provider is asked to change anything before the release is verified, the source checks passed and every
      target of the plan has passed its preflight. */
  lemma ChangesAreGated(log: seq<Event>, plan: Plan, sha: string, j: nat)
    requires Protocol(log, plan, sha) && j < |log|
    requires log[j].request.SetVariables? || log[j].request.RailwayUp? || log[j].request.VercelDeploy?
    ensures exists k :: 0 <= k < j && log[k] == Event(VerifyRelease, Verified(plan.migrationHead))
    ensures exists k :: 0 <= k < j && log[k] == Event(QualityChecks, Done)
    ensures forall t :: t in plan.targets ==> RollbackSeen(log[..j], t)
  {
    hide Protocol, RollbackSeen, Announced;
    AtMutation(log, plan, sha, j);
    var k :| 0 <= k < j && log[..j][k] == Event(VerifyRelease, Verified(plan.migrationHead));
    assert log[k] == Event(VerifyRelease, Verified(plan.migrationHead));
    var q :| 0 <= q < j && log[..j][q] == Event(QualityChecks, Done);
    assert log[q] == Event(QualityChecks, Done);
  }

  /** What the gate saw of each target: its rollback listed as a success, or inspected as ready and listed as such. */
  lemma RollbacksWork(log: seq<Event>, plan: Plan, sha: string, j: nat, t: Target)
    requires Protocol(log, plan, sha) && j < |log| && t in plan.targets
    requires log[j].request.SetVariables? || log[j].request.RailwayUp? || log[j].request.VercelDeploy?
    ensures t.provider.Railway? || t.provider.Vercel?
    ensures t.provider.Railway? ==>
              exists k :: && 0 <= k < j && log[k].request == ListDeployments(t) && log[k].reply.Deployments?
                          && Deployment(t.rollback, SUCCESS) in log[k].reply.items
    ensures t.provider.Vercel? ==>
              exists k, m :: && 0 <= k < m < j
                             && log[k].request == InspectRollback(t) && log[k].reply.Inspected? && log[k].reply.ready
                             && log[m].request == ListReady(t) && log[m].reply.ReadyUrls?
                             && log[k].reply.url in log[m].reply.urls
  {
    hide Protocol, Announced;
    AtMutation(log, plan, sha, j);
    assert RollbackSeen(log[..j], t);
    if t.provider.Railway? {
      var k :| 0 <= k < j && ShowsRollback(log[..j][k], t);
      assert log[k].request == ListDeployments(t);
    } else {
      var k, m :| 0 <= k < m < j && ShowsReady(log[..j][k], log[..j][m], t);
      assert log[k].request == InspectRollback(t) && log[m].request == ListReady(t);
    }
  }

  /** Complete: once the receipt on disk says `executed`, every target of the plan was accepted under the recorded id,
      and every Railway target had a poll showing success with no earlier one showing a terminal failure. */
  lemma ExecutedMeansComplete(log: seq<Event>, plan: Plan, sha: string, k: nat)
    requires Protocol(log, plan, sha) && k <= |log| && Disk(log[..k]).Some? && Disk(log[..k]).value.executed
    ensures var results := Disk(log[..k]).value.results;
            && |results| == |plan.targets|
            && forall i :: 0 <= i < |results| ==>
                 && results[i].target == plan.targets[i] && results[i].id.Some?
                 && (exists s :: AcceptedAt(log[..k], s, results[i].target, results[i].id.value))
                 && (results[i].target.provider.Railway? ==>
                       exists s, m :: SucceededAt(log[..k], s, m, results[i].target, results[i].id.value))
  {
    hide Protocol, AcceptedAt, SucceededAt;
    DiskIsSound(log, plan, sha, k);
    var results := Disk(log[..k]).value.results;
    forall i | 0 <= i < |results|
      ensures results[i].id.Some?
      ensures exists s :: AcceptedAt(log[..k], s, results[i].target, results[i].id.value)
      ensures results[i].target.provider.Railway? ==>
                exists s, m :: SucceededAt(log[..k], s, m, results[i].target, results[i].id.value)
    {
      assert Backed(log[..k], results[i]) && Final(results[i]);
    }
  }

  /** After a crash at most one target is in doubt: the results on disk are a prefix of the plan in order, and every
      one but the last has its final good status. */
  lemma AtMostOneInDoubt(log: seq<Event>, plan: Plan, sha: string, k: nat)
    requires Protocol(log, plan, sha) && k <= |log| && Disk(log[..k]).Some?
    ensures var results := Disk(log[..k]).value.results;
            && |results| <= |plan.targets|
            && (forall i :: 0 <= i < |results| ==> results[i].target == plan.targets[i])
            && forall i :: 0 <= i < |results| - 1 ==>
                 results[i].status == if plan.targets[i].provider.Railway? then ProviderSuccess else Submitted
  {
    hide Protocol, Backed;
    DiskIsSound(log, plan, sha, k);
  }

  lemma ChangesLeaveATrace(log: seq<Event>, plan: Plan, sha: string, j: nat)
    requires Protocol(log, plan, sha) && j < |log| && IsMutation(log[j].request)
    ensures Disk(log).Some? && Disk(log).value.results != []
  {
    hide Protocol, GatePassed;
    AtMutation(log, plan, sha, j);
    DiskKeeps(log, plan, sha, j, |log|);
    assert log[..|log|] == log;
  }

  /** While the receipt on disk has no result, nothing has been changed anywhere. */
  lemma NothingAnnouncedNothingChanged(log: seq<Event>, plan: Plan, sha: string)
    requires Protocol(log, plan, sha) && (Disk(log).Some? ==> Disk(log).value.results == [])
    ensures forall j :: 0 <= j < |log| ==>
              !log[j].request.SetVariables? && !log[j].request.RailwayUp? && !log[j].request.VercelDeploy?
  {
    hide Protocol, Disk;
    forall j | 0 <= j < |log| ensures !IsMutation(log[j].request) {
      if IsMutation(log[j].request) {
        ChangesLeaveATrace(log, plan, sha, j);
      }
    }
  }
}
