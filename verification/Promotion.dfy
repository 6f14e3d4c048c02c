/** scripts/promote_release.py: the promotion of a release to its targets, one after the other, behind a gate and under
    a receipt written ahead of every change. */
module Promotion {
  import opened Json
  import opened Receipts

  /** What an exception is: a DeploymentResponseError carries the id it saw; KeyboardInterrupt is not an `Exception`. */
  datatype Error = ValueError | ResponseError(id: string) | OsError | TimedOut | KeyboardInterrupt

  const DEADLINE_SECONDS: int := 1800
  const POLL_SECONDS: nat := 5

  /** What may end the program with its last outcome not on disk: an interrupt, and a receipt that cannot be written. */
  predicate MayBeUnsaved(error: Error) {
    error == OsError || error == KeyboardInterrupt
  }

  /** A failed command raises ValueError. */
  function ErrorOf(reply: Reply): Option<Error> {
    match reply
    case Refused => Some(ValueError)
    case Interrupted => Some(KeyboardInterrupt)
    case _ => None
  }

  function Last(r: Receipt): Entry
    requires r.results != []
  {
    r.results[|r.results| - 1]
  }

  function WithLast(r: Receipt, entry: Entry): Receipt
    requires r.results != []
  {
    r.(results := r.results[|r.results| - 1 := entry])
  }

  /** The receipts differ in their last result only. */
  predicate SameBefore(r: Receipt, s: Receipt) {
    && |r.results| == |s.results| && r.results != [] && r.targets == s.targets && r.executed == s.executed
    && r.results[..|r.results| - 1] == s.results[..|s.results| - 1]
  }

  predicate AllFinal(r: Receipt) {
    forall i :: 0 <= i < |r.results| ==> Final(r.results[i])
  }

  lemma LastReplaced(log: seq<Event>, r: Receipt, targets: seq<Target>, entry: Entry)
    requires SoundReceipt(log, r, targets) && r.results != [] && !r.executed
    requires entry.target == Last(r).target && Backed(log, entry)
    ensures SoundReceipt(log, WithLast(r, entry), targets)
  {
    hide Backed, Final;
  }

  lemma EntryAdded(log: seq<Event>, r: Receipt, targets: seq<Target>, entry: Entry)
    requires SoundReceipt(log, r, targets) && AllFinal(r) && !r.executed && |r.results| < |targets|
    requires entry.target == targets[|r.results|] && Backed(log, entry)
    ensures SoundReceipt(log, r.(results := r.results + [entry]), targets)
  {
    hide Backed, Final;
  }

  lemma LastIsBacked(log: seq<Event>, r: Receipt, targets: seq<Target>)
    requires SoundReceipt(log, r, targets) && r.results != []
    ensures Backed(log, Last(r))
  {
    hide Backed, Final;
  }

  lemma StartedIsBacked(log: seq<Event>, entry: Entry)
    requires entry.status.Started?
    requires entry.target.provider.Railway? ==>
               entry.previous.Some? && CapturedAt(log, |log| - 1, entry.target, entry.previous.value)
    ensures Backed(log, entry)
  {
  }

  /** A failure keeps what was recorded, and claims nothing. */
  lemma FailureBacked(log: seq<Event>, entry: Entry, failed: Entry)
    requires Backed(log, entry) && failed.status.Failed?
    requires failed.target == entry.target && failed.previous == entry.previous
    ensures Backed(log, failed)
  {
  }

  lemma AcceptanceBacks(log: seq<Event>, at: int, entry: Entry, id: string)
    requires Backed(log, entry) && AcceptedAt(log, at, entry.target, id)
    ensures Backed(log, entry.(status := Submitted, id := Some(id)))
  {
    hide AcceptedAt, SucceededAt, CapturedAt;
  }

  lemma SuccessBacks(log: seq<Event>, at: int, m: int, entry: Entry, id: string)
    requires Backed(log, entry) && entry.id == Some(id) && SucceededAt(log, at, m, entry.target, id)
    ensures Backed(log, entry.(status := ProviderSuccess))
  {
    hide CapturedAt, PollSays, PollEnds;
  }

  lemma AcceptedMore(log: seq<Event>, more: seq<Event>, at: int, target: Target, id: string)
    requires log <= more && AcceptedAt(log, at, target, id)
    ensures AcceptedAt(more, at, target, id)
  {
  }

  /** Every acceptance of the target from this place in the log on is the one named. */
  ghost predicate Names(log: seq<Event>, from: int, target: Target, named: Option<string>) {
    forall at, id :: from <= at && AcceptedAt(log, at, target, id) ==> named == Some(id)
  }

  /** Nothing was asked for here that changes something at a provider. */
  ghost predicate Unchanging(log: seq<Event>, from: nat, until: nat) {
    forall k :: from <= k < until && k < |log| ==> !IsMutation(log[k].request)
  }

  lemma NamesMore(log: seq<Event>, more: seq<Event>, from: int, target: Target, named: Option<string>)
    requires Names(log, from, target, named) && log <= more && Unchanging(more, |log|, |more|)
    ensures Names(more, from, target, named)
  {
    forall at, id | from <= at && AcceptedAt(more, at, target, id) ensures named == Some(id) {
      assert AcceptedAt(log, at, target, id);
    }
  }

  lemma UnchangingMore(log: seq<Event>, more: seq<Event>, from: nat)
    requires Unchanging(log, from, |log|) && log <= more
    ensures Unchanging(more, from, |log|)
  {
  }

  lemma NamesEarlier(log: seq<Event>, from: nat, until: nat, target: Target, named: Option<string>)
    requires Names(log, until, target, named) && Unchanging(log, from, until)
    ensures Names(log, from, target, named)
  {
  }

  lemma AllFinalNow(before: Receipt, after: Receipt)
    requires SameBefore(before, after) && Final(Last(after))
    requires forall i :: 0 <= i < |before.results| - 1 ==> Final(before.results[i])
    ensures AllFinal(after)
  {
    hide Final;
    forall i | 0 <= i < |after.results| ensures Final(after.results[i]) {
      if i < |after.results| - 1 {
        assert after.results[..|after.results| - 1][i] == before.results[..|before.results| - 1][i];
      }
    }
  }

  lemma Beginning(plan: Plan, sha: string)
    ensures Protocol([], plan, sha) && Disk([]) == None
    ensures SoundReceipt([], Receipt(plan.targets, [], false), plan.targets)
  {
  }

  /** The release was verified with the schema head of the plan, and every target's rollback was seen working. */
  ghost predicate Examined(log: seq<Event>, plan: Plan) {
    && (exists k :: 0 <= k < |log| && log[k] == Event(VerifyRelease, Verified(plan.migrationHead)))
    && (forall t :: t in plan.targets ==> RollbackSeen(log, t))
  }

  lemma ExaminedMore(log: seq<Event>, more: seq<Event>, plan: Plan)
    requires log <= more && Examined(log, plan)
    ensures Examined(more, plan)
  {
    hide RollbackSeen;
    var k :| 0 <= k < |log| && log[k] == Event(VerifyRelease, Verified(plan.migrationHead));
    assert more[k] == log[k];
    forall t | t in plan.targets ensures RollbackSeen(more, t) {
      RollbackSeenMore(log, more, t);
    }
  }

  /** The target's deployment was accepted, half an hour has passed since, and no poll in that time said it ended. */
  ghost predicate GaveUpOn(log: seq<Event>, clock: seq<int>, now: int, at: int, target: Target, id: string) {
    && |clock| == |log| && target.provider.Railway? && AcceptedAt(log, at, target, id)
    && clock[at] + 1800 <= now
    && forall j :: at < j < |log| ==> !PollEnds(log[j], target, id)
  }

  /** A poll that did not show success, answered before the deadline and five seconds or more before the next. */
  predicate PolledAt(log: seq<Event>, clock: seq<int>, j: nat, deadline: int, next: int, target: Target, id: string)
    requires j < |log| && j < |clock|
  {
    && log[j].request == ListDeployments(target) && !PollSays(log[j], target, id, SUCCESS)
    && clock[j] < deadline && clock[j] + 5 <= next
  }

  predicate FollowedUp(log: seq<Event>, clock: seq<int>, j: nat, deadline: int, target: Target, id: string)
    requires |clock| == |log| && j + 1 < |log|
  {
    PolledAt(log, clock, j, deadline, clock[j + 1], target, id)
  }

  /** All polls but the last are such polls. */
  predicate Polling(log: seq<Event>, clock: seq<int>, from: nat, deadline: int, target: Target, id: string)
    requires |clock| == |log|
  {
    forall j :: from <= j < |log| - 1 ==> FollowedUp(log, clock, j, deadline, target, id)
  }

  lemma NoneSucceeded(log: seq<Event>, clock: seq<int>, from: nat, deadline: int, now: int, target: Target, id: string)
    requires |clock| == |log| && Polling(log, clock, from, deadline, target, id)
    requires |log| == from || (log != [] && PolledAt(log, clock, |log| - 1, now, now, target, id))
    ensures forall j :: from <= j < |log| ==> !PollSays(log[j], target, id, SUCCESS)
  {
    hide PollSays;
    forall j | from <= j < |log| ensures !PollSays(log[j], target, id, SUCCESS) {
      if j < |log| - 1 {
        assert FollowedUp(log, clock, j, deadline, target, id);
      }
    }
  }

  lemma NoPollYet(log: seq<Event>, clock: seq<int>, target: Target, id: string)
    requires |clock| == |log|
    ensures forall deadline :: Polling(log, clock, |log|, deadline, target, id)
  {
  }

  lemma PollingOn(log: seq<Event>, clock: seq<int>, was: int, more: seq<Event>, times: seq<int>, now: int, from: nat,
                  deadline: int, target: Target, id: string)
    requires |clock| == |log| && Polling(log, clock, from, deadline, target, id) && from <= |log|
    requires |log| == from || PolledAt(log, clock, |log| - 1, was, was, target, id)
    requires was < deadline && was <= now && log <= more && clock <= times
    requires (more == log && times == clock) || (|more| == |log| + 1 && times == clock + [now])
    ensures |times| == |more| && Polling(more, times, from, deadline, target, id)
  {
    hide PollSays;
    forall j | from <= j < |more| - 1 ensures FollowedUp(more, times, j, deadline, target, id) {
      if j < |log| - 1 {
        assert FollowedUp(log, clock, j, deadline, target, id);
      }
    }
  }

  ghost predicate GaveUp(log: seq<Event>, clock: seq<int>, now: int, target: Target) {
    exists at, id :: GaveUpOn(log, clock, now, at, target, id)
  }

  /** Writing the receipt does not end the deployment. */
  lemma GaveUpMore(log: seq<Event>, clock: seq<int>, now: int, e: Event, later: int, target: Target)
    requires GaveUp(log, clock, now, target) && e.request.WriteReceipt? && now <= later
    ensures GaveUp(log + [e], clock + [later], later, target)
  {
    hide AcceptedAt, PollEnds;
    var at, id :| GaveUpOn(log, clock, now, at, target, id);
    AcceptedMore(log, log + [e], at, target, id);
    assert !PollEnds(e, target, id) by {
      NoPoll(e, target, id);
    }
    assert at < |clock| by {
      AcceptedWithin(log, at, target, id);
    }
    assert GaveUpOn(log + [e], clock + [later], later, at, target, id);
  }

  lemma NoPoll(e: Event, target: Target, id: string)
    requires e.request.WriteReceipt?
    ensures !PollEnds(e, target, id)
  {
  }

  lemma AcceptedWithin(log: seq<Event>, at: int, target: Target, id: string)
    requires AcceptedAt(log, at, target, id)
    ensures 0 <= at < |log|
  {
  }

  class Promoter {
    const plan: Plan
    const sha: string
    /** How the world answers: any function of the request and of how many came before. */
    const answer: (Request, nat) -> Reply
    /** How long a request or a sleep takes beyond its nominal time. */
    const delay: nat -> nat
    /** Whether a target's identifiers have the required form. */
    const wellFormed: Target -> bool
    var log: seq<Event>
    /** When each request was answered. */
    ghost var clock: seq<int>
    var receipt: Receipt
    var now: int

    constructor (plan: Plan, sha: string, answer: (Request, nat) -> Reply, delay: nat -> nat,
                 wellFormed: Target -> bool)
      ensures this.plan == plan && this.sha == sha && log == [] && clock == []
    {
      this.plan, this.sha, this.answer, this.delay, this.wellFormed := plan, sha, answer, delay, wellFormed;
      log, clock, receipt, now := [], [], Receipt(plan.targets, [], false), 0;
    }

    /** The log keeps to the protocol and the receipt in memory could be written now. */
    ghost predicate Ready()
      reads this
    {
      && Protocol(log, plan, sha) && SoundReceipt(log, receipt, plan.targets) && Keeps(Disk(log), receipt)
      && |clock| == |log| && forall k :: 0 <= k < |clock| ==> clock[k] <= now
    }

    /** Why the program may stop: it gave up waiting, a target is not one it handles, or a reply was not as needed. */
    ghost predicate Excused(error: Error, target: Target)
      reads this
    {
      ExcusedBy(log, clock, now, error, target)
    }

    ghost predicate ExcusedBy(log: seq<Event>, clock: seq<int>, now: int, error: Error, target: Target) {
      || (error == TimedOut && GaveUp(log, clock, now, target))
      || !wellFormed(target) || target.provider.Unknown? || Hindered(log, plan)
    }

    method Ask(request: Request) returns (reply: Reply)
      requires Ready() && MayAsk(log, request, plan, sha)
      requires request.WriteReceipt? ==> request.receipt == receipt
      modifies this`log, this`clock, this`now
      ensures Ready() && log == old(log) + [Event(request, reply)] && now >= old(now) && clock == old(clock) + [now]
      ensures Disk(log) == if request.WriteReceipt? && reply.Done? then Some(request.receipt) else Disk(old(log))
    {
      hide SoundReceipt, Protocol, MayAsk;
      reply := answer(request, |log|);
      var e := Event(request, reply);
      ProtocolMore(log, e, plan, sha);
      DiskAfter(log, e);
      SoundMore(log, log + [e], receipt, plan.targets);
      now := now + delay(|log|);
      log, clock := log + [e], clock + [now];
    }

    /** A request that changes nothing may be made at any time. */
    method Inquire(request: Request) returns (reply: Reply, error: Option<Error>)
      requires Ready() && !IsMutation(request) && !request.WriteReceipt?
      modifies this`log, this`clock, this`now
      ensures Ready() && log == old(log) + [Event(request, reply)] && now >= old(now) && Disk(log) == Disk(old(log))
      ensures clock == old(clock) + [now]
      ensures error.None? <==> !reply.Refused? && !reply.Interrupted?
      ensures error.Some? ==> error.value == ValueError || error.value == KeyboardInterrupt
    {
      hide Protocol, SoundReceipt, Keeps, Disk;
      reply := Ask(request);
      error := ErrorOf(reply);
    }

    /** The receipt is written as it stands, whole or not at all. */
    method Save() returns (error: Option<Error>)
      requires Ready()
      modifies this`log, this`clock, this`now
      ensures Ready() && now >= old(now) && clock == old(clock) + [now]
      ensures |log| == |old(log)| + 1 && old(log) <= log && log[|log| - 1].request.WriteReceipt?
      ensures error.None? ==> Disk(log) == Some(receipt)
      ensures error.Some? ==> Disk(log) == Disk(old(log)) && Hindered(log, plan)
      ensures error.Some? ==> error.value == OsError || error.value == KeyboardInterrupt
    {
      hide Protocol, SoundReceipt, Disk;
      var reply := Ask(WriteReceipt(receipt));
      assert !reply.Done? ==> Hinders(log, |log| - 1, plan);
      if reply.Done? {
        error := None;
      } else if reply.Interrupted? {
        error := Some(KeyboardInterrupt);
      } else {
        error := Some(OsError);
      }
    }

    method RailwayDeployments(target: Target) returns (items: seq<Deployment>, error: Option<Error>)
      requires Ready()
      modifies this`log, this`clock, this`now
      ensures Ready() && now >= old(now) && Disk(log) == Disk(old(log)) && old(log) <= log && old(clock) <= clock
      ensures error.None? ==> log == old(log) + [Event(ListDeployments(target), Deployments(items))]
      ensures error.Some? ==> Excused(error.value, target)
      ensures error.Some? ==> error.value == ValueError || error.value == KeyboardInterrupt
      ensures Unchanging(log, |old(log)|, |log|)
      ensures (log == old(log) && clock == old(clock)) || (|log| == |old(log)| + 1 && clock == old(clock) + [now])
    {
      hide Ready, Disk, Hindered;
      if !wellFormed(target) {
        return [], Some(ValueError);
      }
      var reply;
      reply, error := Inquire(ListDeployments(target));
      if error.None? && reply.Deployments? {
        return reply.items, None;
      }
      LastHinders(log, plan);
      return [], if error.Some? then error else Some(ValueError);
    }

    /** Read-only: the rollback deployment of the target must be one that works. */
    method Preflight(target: Target) returns (error: Option<Error>)
      requires Ready()
      modifies this`log, this`clock, this`now
      ensures Ready() && Disk(log) == Disk(old(log)) && old(log) <= log
      ensures error.None? ==> RollbackSeen(log, target)
      ensures error.Some? ==> Excused(error.value, target)
    {
      hide Ready, Disk, Hindered;
      if target.provider.Railway? {
        var items;
        items, error := RailwayDeployments(target);
        if error.Some? {
          return;
        }
        if exists i :: 0 <= i < |items| && items[i] == Deployment(target.rollback, SUCCESS) {
          assert ShowsRollback(log[|log| - 1], target);
          return None;
        }
        LastHinders(log, plan);
        return Some(ValueError);
      }
      if target.provider.Vercel? {
        error := PreflightVercel(target);
        return;
      }
      return Some(ValueError);
    }

    method PreflightVercel(target: Target) returns (error: Option<Error>)
      requires Ready() && target.provider.Vercel?
      modifies this`log, this`clock, this`now
      ensures Ready() && Disk(log) == Disk(old(log)) && old(log) <= log
      ensures error.None? ==> RollbackSeen(log, target)
      ensures error.Some? ==> Excused(error.value, target)
    {
      hide Ready, Disk, Hindered;
      if !wellFormed(target) {
        return Some(ValueError);
      }
      var inspected, listed;
      inspected, error := Inquire(InspectRollback(target));
      if error.Some? {
        LastHinders(log, plan);
        return;
      }
      listed, error := Inquire(ListReady(target));
      if error.Some? {
        LastHinders(log, plan);
        return;
      }
      if inspected.Inspected? && listed.ReadyUrls? && inspected.ready && inspected.url in listed.urls {
        assert ShowsReady(log[|log| - 2], log[|log| - 1], target);
        return None;
      }
      LastHinders(log, plan);
      return Some(ValueError);
    }

    /** The settings a rollback would restore. */
    method PreviousReleaseEnvironment(target: Target) returns (settings: Settings, error: Option<Error>)
      requires Ready()
      modifies this`log, this`clock, this`now
      ensures Ready() && Disk(log) == Disk(old(log)) && old(log) <= log
      ensures error.None? ==> CapturedAt(log, |log| - 1, target, settings)
      ensures error.Some? ==> Excused(error.value, target)
      ensures Unchanging(log, |old(log)|, |log|)
    {
      hide Ready, Disk, Hindered;
      if !wellFormed(target) {
        return map[], Some(ValueError);
      }
      var reply;
      reply, error := Inquire(ListVariables(target));
      if error.None? && reply.Variables? {
        return reply.settings, None;
      }
      LastHinders(log, plan);
      return map[], if error.Some? then error else Some(ValueError);
    }

    /** Hands the verified source to the provider: the id it was accepted under. */
    method Deploy(target: Target) returns (id: string, error: Option<Error>)
      requires Ready() && GatePassed(log, plan, sha) && Announced(Disk(log), target)
      modifies this`log, this`clock, this`now
      ensures Ready() && Disk(log) == Disk(old(log)) && old(log) <= log
      ensures error.None? ==> AcceptedAt(log, |log| - 1, target, id)
      ensures error.Some? ==> Excused(error.value, target)
      ensures error.None? || error.value.ResponseError? ==> Names(log, |old(log)|, target, Some(id))
      ensures error.Some? && !error.value.ResponseError? ==> Names(log, |old(log)|, target, None)
      ensures error.Some? && error.value.ResponseError? ==> error.value.id == id
    {
      hide GatePassed, Protocol, SoundReceipt, Keeps, Disk, Announced, Hindered;
      id := "";
      if target.provider.Railway? {
        if !wellFormed(target) {
          return id, Some(ValueError);
        }
        var stored := Ask(SetVariables(target));
        if !stored.Done? {
          LastHinders(log, plan);
          return id, Some(if stored.Interrupted? then KeyboardInterrupt else ValueError);
        }
        GateMore(old(log), log, plan, sha);
        var reply := Ask(RailwayUp(target));
        if reply.Accepted? {
          return reply.id, None;
        }
        LastHinders(log, plan);
        return id, Some(if reply.Interrupted? then KeyboardInterrupt else ValueError);
      }
      var reply := Ask(VercelDeploy(target));
      if reply.Accepted? && reply.urlValid {
        return reply.id, None;
      }
      LastHinders(log, plan);
      if reply.Accepted? {
        return reply.id, Some(ResponseError(reply.id));
      }
      return id, Some(if reply.Interrupted? then KeyboardInterrupt else ValueError);
    }

    method Sleep(seconds: nat)
      requires Ready()
      modifies this`now
      ensures Ready() && now >= old(now) + seconds
    {
      hide Protocol, SoundReceipt, Keeps, Disk;
      now := now + seconds + delay(|log|);
    }

    /** Polls until the deployment succeeds, ends otherwise, or thirty minutes have passed. `at` is where the log shows
        the submission. */
    method WaitForRailway(target: Target, id: string, ghost at: int) returns (error: Option<Error>)
      requires Ready() && target.provider.Railway? && AcceptedAt(log, at, target, id)
      requires forall j :: at < j < |log| ==> !PollEnds(log[j], target, id)
      modifies this`log, this`clock, this`now
      ensures Ready() && Disk(log) == Disk(old(log)) && old(log) <= log
      ensures error.None? ==> SucceededAt(log, at, |log| - 1, target, id)
      ensures error.Some? ==> Excused(error.value, target)
      ensures error == Some(TimedOut) ==> now >= old(now) + 1800 && Excused(TimedOut, target)
      ensures error == Some(TimedOut) ==>
                forall j :: |old(log)| <= j < |log| ==> !PollSays(log[j], target, id, SUCCESS)
      ensures error.Some? ==> !error.value.ResponseError?
      ensures Unchanging(log, |old(log)|, |log|)
      ensures |clock| == |log| && Polling(log, clock, |old(log)|, old(now) + 1800, target, id)
    {
      hide Ready, Disk, Hindered, Polling;
      var deadline := now + DEADLINE_SECONDS;
      Counted();
      NoPollYet(log, clock, target, id);
      Stamped(at);
      ghost var accepted := clock;
      while now < deadline
        invariant Ready() && Disk(log) == Disk(old(log)) && old(log) <= log && accepted <= clock
        invariant forall j :: at < j < |log| ==> !PollEnds(log[j], target, id)
        invariant Unchanging(log, |old(log)|, |log|)
        invariant |clock| == |log| && Polling(log, clock, |old(log)|, deadline, target, id)
        invariant |log| == |old(log)| || PolledAt(log, clock, |log| - 1, now, now, target, id)
        decreases deadline - now
      {
        ghost var before, times, was := log, clock, now;
        var items;
        items, error := RailwayDeployments(target);
        PollingOn(before, times, was, log, clock, now, |old(log)|, deadline, target, id);
        if error.Some? {
          return;
        }
        var state := StateOf(items, id);
        if state.Some? {
          if state.value.SUCCESS? {
            return None;
          }
          if Terminal(state.value) {
            StateIsListed(items, id);
            LastHinders(log, plan);
            return Some(ValueError);
          }
        }
        Sleep(POLL_SECONDS);
      }
      Counted();
      AcceptedMore(old(log), log, at, target, id);
      assert GaveUpOn(log, clock, now, at, target, id);
      NoneSucceeded(log, clock, |old(log)|, deadline, now, target, id);
      return Some(TimedOut);
    }

    lemma ExcusedMore(log: seq<Event>, clock: seq<int>, now: int, e: Event, later: int, error: Error, target: Target)
      requires ExcusedBy(log, clock, now, error, target) && e.request.WriteReceipt? && now <= later
      ensures ExcusedBy(log + [e], clock + [later], later, error, target)
    {
      hide Hindered, GaveUp;
      if Hindered(log, plan) {
        HinderedMore(log, log + [e], plan);
      } else if error == TimedOut && GaveUp(log, clock, now, target) {
        GaveUpMore(log, clock, now, e, later, target);
      }
    }

    lemma HinderedExcuses(error: Error, target: Target)
      requires Hindered(log, plan)
      ensures Excused(error, target)
    {
      hide Hindered;
    }

    /** What was answered was answered by now. */
    lemma Stamped(at: int)
      requires Ready() && 0 <= at < |log|
      ensures |clock| == |log| && clock[at] <= now
    {
      hide Protocol, SoundReceipt, Keeps, Disk;
    }

    lemma Counted()
      requires Ready()
      ensures |clock| == |log|
    {
      hide Protocol, SoundReceipt, Keeps, Disk;
    }

    /** The last result is that of a target being promoted. */
    ghost predicate InProgress(target: Target)
      reads this
    {
      && receipt.results != [] && Last(receipt).target == target && !receipt.executed
      && GatePassed(log, plan, sha)
    }

    /** Why the whole promotion may fail: besides what stops a target, the plan is not for this release. */
    ghost predicate Failing(error: Error)
      reads this
    {
      || (error == TimedOut && exists t :: t in plan.targets && GaveUp(log, clock, now, t))
      || Hindered(log, plan) || plan.releaseSha != sha || plan.targets == []
      || exists t :: t in plan.targets && (!wellFormed(t) || t.provider.Unknown?)
    }

    /** An entry that may follow what the receipt on disk says of the target in progress. */
    ghost predicate Follows(entry: Entry)
      reads this
    {
      && Disk(log).Some? && |Disk(log).value.results| == |receipt.results| > 0
      && Continues(Last(Disk(log).value), entry)
    }

    /** On disk the target in progress has neither succeeded nor failed. */
    ghost predicate Undecided()
      reads this
    {
      && receipt.results != [] && Follows(Last(receipt))
      && var was := Last(Disk(log).value);
         (was.status.Started? || was.status.Submitted?) && !Final(was)
    }

    /** `outcome` is the last result of the receipt, so changing the one changes the other. */
    method Update(entry: Entry)
      requires Ready() && receipt.results != [] && !receipt.executed
      requires entry.target == Last(receipt).target && Backed(log, entry) && Follows(entry)
      modifies this`receipt
      ensures Ready() && receipt == WithLast(old(receipt), entry)
    {
      hide Protocol, Backed, Disk, Continues;
      LastReplaced(log, receipt, plan.targets, entry);
      receipt := WithLast(receipt, entry);
    }

    /** The body of the `try`: submit, record, and for Railway wait. */
    method Submit(target: Target) returns (error: Option<Error>)
      requires Ready() && InProgress(target) && Disk(log) == Some(receipt) && Announced(Disk(log), target)
      requires Last(receipt).id.None?
      modifies this`log, this`clock, this`now, this`receipt
      ensures Ready() && InProgress(target) && old(log) <= log && SameBefore(old(receipt), receipt)
      ensures error.None? ==> Final(Last(receipt))
      ensures error.Some? ==> Excused(error.value, target) && Undecided()
      ensures error.Some? && error.value.ResponseError? ==>
                Last(Disk(log).value).id.None? && Names(log, |old(log)|, target, Some(error.value.id))
      ensures error.None? || !error.value.ResponseError? ==> Names(log, |old(log)|, target, Last(receipt).id)
    {
      hide Protocol, Disk, Keeps, Hindered, GatePassed, AcceptedAt, SucceededAt, Backed, SoundReceipt, Names;
      var id;
      id, error := Deploy(target);
      GateMore(old(log), log, plan, sha);
      if error.Some? {
        return;
      }
      ghost var at, submitted := |log| - 1, log;
      LastIsBacked(log, receipt, plan.targets);
      AcceptanceBacks(log, at, Last(receipt), id);
      Update(Last(receipt).(status := Submitted, id := Some(id)));
      error := Save();
      GateMore(submitted, log, plan, sha);
      NamesMore(submitted, log, |old(log)|, target, Some(id));
      if error.Some? || !target.provider.Railway? {
        return;
      }
      ghost var saved := log;
      AcceptedMore(submitted, log, at, target, id);
      error := WaitForRailway(target, id, at);
      GateMore(saved, log, plan, sha);
      NamesMore(saved, log, |old(log)|, target, Some(id));
      if error.None? {
        LastIsBacked(log, receipt, plan.targets);
        SuccessBacks(log, at, |log| - 1, Last(receipt), id);
        Update(Last(receipt).(status := ProviderSuccess));
      }
    }

    /** The `except` block: the last result has failed, under the id a malformed response gave it. */
    method RecordFailure(target: Target, error: Error)
      requires Ready() && InProgress(target) && Undecided()
      requires error.ResponseError? ==> Last(Disk(log).value).id.None?
      modifies this`receipt
      ensures Ready() && InProgress(target) && SameBefore(old(receipt), receipt) && Last(receipt).status.Failed?
      ensures Last(receipt).id == if error.ResponseError? then Some(error.id) else Last(old(receipt)).id
      ensures Last(receipt).previous == Last(old(receipt)).previous
    {
      hide Protocol, Disk, Backed, SoundReceipt, GatePassed;
      var failed := Last(receipt).(status := Failed);
      if error.ResponseError? {
        failed := failed.(id := Some(error.id));
      }
      LastIsBacked(log, receipt, plan.targets);
      FailureBacked(log, Last(receipt), failed);
      Update(failed);
    }

    /** Before the `try`: the target is added to the receipt, a Railway one with its settings, and put on disk. */
    method Announce(target: Target) returns (error: Option<Error>)
      requires Ready() && GatePassed(log, plan, sha) && !receipt.executed && AllFinal(receipt)
      requires |receipt.results| < |plan.targets| && target == plan.targets[|receipt.results|]
      modifies this`log, this`clock, this`now, this`receipt
      ensures Ready() && GatePassed(log, plan, sha) && !receipt.executed && old(log) <= log
      ensures Unchanging(log, |old(log)|, |log|) && old(receipt).results <= receipt.results
      ensures error.None? ==>
                && |receipt.results| == |old(receipt).results| + 1 && InProgress(target)
                && Disk(log) == Some(receipt) && Announced(Disk(log), target) && Last(receipt).id.None?
      ensures error.Some? && |receipt.results| > |old(receipt).results| ==> MayBeUnsaved(error.value)
      ensures error.Some? && !MayBeUnsaved(error.value) ==> receipt == old(receipt)
      ensures error.Some? ==> Excused(error.value, target)
    {
      hide Protocol, Disk, Hindered, GatePassed, Backed, SoundReceipt, Final, ExcusedBy;
      var outcome := Entry(target, Started, None, None);
      if target.provider.Railway? {
        var settings;
        settings, error := PreviousReleaseEnvironment(target);
        GateMore(old(log), log, plan, sha);
        if error.Some? {
          return;
        }
        outcome := outcome.(previous := Some(settings));
      }
      ghost var captured := log;
      StartedIsBacked(log, outcome);
      EntryAdded(log, receipt, plan.targets, outcome);
      receipt := receipt.(results := receipt.results + [outcome]);
      error := Save();
      GateMore(captured, log, plan, sha);
      if error.Some? {
        HinderedExcuses(error.value, target);
      }
    }

    /** `try`, `except` and `finally`: submit, and whatever happens write the outcome. */
    method Attempt(target: Target) returns (error: Option<Error>)
      requires Ready() && InProgress(target) && Disk(log) == Some(receipt) && Announced(Disk(log), target)
      requires Last(receipt).id.None?
      modifies this`log, this`clock, this`now, this`receipt
      ensures Ready() && InProgress(target) && old(log) <= log && SameBefore(old(receipt), receipt)
      ensures error.None? ==> Final(Last(receipt)) && Disk(log) == Some(receipt)
      ensures error.Some? && !MayBeUnsaved(error.value) ==>
                && Disk(log) == Some(receipt) && Last(receipt).status.Failed?
                && (error.value.ResponseError? ==> Last(receipt).id == Some(error.value.id))
      ensures error.None? || !MayBeUnsaved(error.value) ==>
                Names(log, |old(log)|, target, Last(receipt).id)
      ensures error.Some? ==> Excused(error.value, target)
    {
      hide Protocol, Disk, Hindered, GatePassed, Backed, SoundReceipt, Final, ExcusedBy, Names;
      error := Submit(target);
      if error.Some? && error != Some(KeyboardInterrupt) {
        RecordFailure(target, error.value);
      }
      ghost var done, stamps, time := log, clock, now;
      assert error.Some? ==> ExcusedBy(done, stamps, time, error.value, target);
      var unsaved := Save();
      GateMore(done, log, plan, sha);
      if unsaved.Some? {
        HinderedExcuses(unsaved.value, target);
        return unsaved;
      }
      if error.Some? {
        ExcusedMore(done, stamps, time, log[|done|], now, error.value, target);
        assert log == done + [log[|done|]];
      }
      if error != Some(KeyboardInterrupt) {
        NamesMore(done, log, |old(log)|, target, Last(receipt).id);
      }
    }

    /** One round of the loop. */
    method PromoteTarget(target: Target) returns (error: Option<Error>)
      requires Ready() && GatePassed(log, plan, sha) && !receipt.executed && AllFinal(receipt)
      requires |receipt.results| < |plan.targets| && target == plan.targets[|receipt.results|]
      modifies this`log, this`clock, this`now, this`receipt
      ensures Ready() && GatePassed(log, plan, sha) && !receipt.executed
      ensures error.None? ==> AllFinal(receipt) && |receipt.results| == |old(receipt).results| + 1
      ensures error.None? ==> Disk(log) == Some(receipt) && Names(log, |old(log)|, target, Last(receipt).id)
      ensures old(log) <= log && |receipt.results| >= |old(receipt).results|
      ensures error.Some? && !MayBeUnsaved(error.value) && |receipt.results| == |old(receipt).results| ==>
                receipt == old(receipt)
      ensures error.Some? && !MayBeUnsaved(error.value) && |receipt.results| > |old(receipt).results| ==>
                && Disk(log) == Some(receipt) && Last(receipt).target == target && Last(receipt).status.Failed?
                && (error.value.ResponseError? ==> Last(receipt).id == Some(error.value.id))
                && Names(log, |old(log)|, target, Last(receipt).id)
      ensures error.Some? ==> Excused(error.value, target)
    {
      hide Ready, Disk, GatePassed, Final, Excused, Names, Announced, IsMutation;
      error := Announce(target);
      if error.Some? {
        return;
      }
      ghost var announced, before := receipt, log;
      error := Attempt(target);
      UnchangingMore(before, log, |old(log)|);
      if error.None? || !MayBeUnsaved(error.value) {
        NamesEarlier(log, |old(log)|, |before|, target, Last(receipt).id);
      }
      if error.None? {
        AllFinalNow(announced, receipt);
      }
    }

    /** Everything before the receipt: the release, the source checks, the plan and the targets. */
    method Admit(execute: bool) returns (error: Option<Error>)
      requires Ready()
      modifies this`log, this`clock, this`now
      ensures Ready() && Disk(log) == Disk(old(log))
      ensures error.None? ==> Examined(log, plan) && plan.releaseSha == sha && plan.targets != []
      ensures error.None? && execute ==> GatePassed(log, plan, sha)
      ensures error.Some? ==> Failing(error.value)
    {
      hide Ready, Disk, RollbackSeen, Hindered;
      var reply;
      reply, error := Inquire(VerifyRelease);
      if error.Some? {
        LastHinders(log, plan);
        return;
      }
      if !reply.Verified? {
        LastHinders(log, plan);
        return Some(ValueError);
      }
      if reply.migrationHead != plan.migrationHead {
        LastHinders(log, plan);
      }
      ghost var released := log;
      ghost var verified := |log| - 1;
      if execute {
        var checks;
        checks, error := Inquire(QualityChecks);
        if error.Some? {
          LastHinders(log, plan);
          return;
        }
        if !checks.Done? {
          LastHinders(log, plan);
          return Some(ValueError);
        }
      }
      if Hindered(released, plan) {
        HinderedMore(released, log, plan);
      }
      ghost var checked := |log| - 1;
      if plan.migrationHead != reply.migrationHead || plan.releaseSha != sha || plan.targets == [] {
        return Some(ValueError);
      }
      ghost var before := log;
      for i := 0 to |plan.targets|
        invariant Ready() && Disk(log) == Disk(old(log)) && before <= log
        invariant forall t :: t in plan.targets[..i] ==> RollbackSeen(log, t)
      {
        ghost var earlier := log;
        error := Preflight(plan.targets[i]);
        if error.Some? {
          return;
        }
        forall t | t in plan.targets[..i] ensures RollbackSeen(log, t) {
          RollbackSeenMore(earlier, log, t);
        }
        assert plan.targets[..i + 1] == plan.targets[..i] + [plan.targets[i]];
      }
      assert plan.targets[..|plan.targets|] == plan.targets;
      assert log[verified] == Event(VerifyRelease, Verified(plan.migrationHead));
      if execute {
        assert log[checked] == Event(QualityChecks, Done);
      }
      error := None;
    }

    /** `main` once its arguments are read: a rehearsal, or with `execute` the promotion of every target in turn. */
    method Promote(execute: bool) returns (error: Option<Error>)
      requires log == [] && clock == [] && receipt == Receipt(plan.targets, [], false)
      modifies this`log, this`clock, this`now, this`receipt
      ensures Protocol(log, plan, sha)
      ensures error.None? ==> Examined(log, plan) && plan.releaseSha == sha && plan.targets != []
      ensures error.None? ==> Disk(log) == Some(receipt) && (receipt.executed <==> execute)
      ensures error.None? && execute ==> |receipt.results| == |plan.targets| && AllFinal(receipt)
      ensures error.Some? ==> Failing(error.value)
      ensures error.Some? && !MayBeUnsaved(error.value) ==> AllFinal(receipt) || FailureOnDisk()
      ensures !execute ==> receipt.results == [] && forall j :: 0 <= j < |log| ==> !IsMutation(log[j].request)
    {
      hide Protocol, GatePassed, Disk, Backed, Final, Hindered, Examined;
      Beginning(plan, sha);
      assert log == [] && Ready();
      error := Admit(execute);
      ghost var admitted := log;
      if error.None? {
        error := Save();
      }
      if error.None? && execute {
        GateMore(admitted, log, plan, sha);
        error := PromoteTargets();
        if error.Some? {
          return;
        }
        receipt := receipt.(executed := true);
      }
      if error.None? {
        error := Save();
        ExaminedMore(admitted, log, plan);
      }
      if !execute {
        NothingAnnouncedNothingChanged(log, plan, sha);
      }
    }

    /** The failure of the target in progress is recorded. */
    ghost predicate FailureOnDisk()
      reads this
    {
      Disk(log) == Some(receipt) && receipt.results != [] && Last(receipt).status.Failed?
    }

    method PromoteTargets() returns (error: Option<Error>)
      requires Ready() && GatePassed(log, plan, sha) && receipt == Receipt(plan.targets, [], false)
      modifies this`log, this`clock, this`now, this`receipt
      ensures Ready() && !receipt.executed && old(log) <= log
      ensures error.None? ==> |receipt.results| == |plan.targets| && AllFinal(receipt)
      ensures error.Some? ==> Failing(error.value)
      ensures error.Some? && !MayBeUnsaved(error.value) ==> AllFinal(receipt) || FailureOnDisk()
    {
      hide Ready, GatePassed, Disk, Final, Hindered;
      error := None;
      for i := 0 to |plan.targets|
        invariant Ready() && GatePassed(log, plan, sha) && !receipt.executed && error.None? && old(log) <= log
        invariant |receipt.results| == i && AllFinal(receipt)
      {
        error := PromoteTarget(plan.targets[i]);
        if error.Some? {
          return;
        }
      }
    }
  }
}
