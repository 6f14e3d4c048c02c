/** The JWKS cache of apps/api/src/auth/supabase-token-verifier.ts: `keyFor` and `refreshKeys`, cut at their awaits,
    and every interleaving of concurrent calls. */
module KeyCache {
  import opened Json
  import opened Jwks

  const JWKS_TTL_MS: int := 600_000
  const JWKS_REFRESH_COOLDOWN_MS: int := 10_000

  type Ticket = nat

  /** The fields of the verifier; `refreshing` is the shared promise, named by the fetch it stands for. */
  datatype Cache = Cache(keys: KeySet, keysExpireAt: int, nextForcedRefreshAt: int, refreshing: Option<Ticket>)

  const EMPTY_CACHE := Cache(map[], 0, 0, None)

  /** How `refreshKeys` leaves its caller: with nothing to wait for, or waiting for a fetch, perhaps a new one. */
  datatype Progress = Done | Joined | Started(at: int)

  /** `refreshKeys` up to its first await. `t` and `u` are its two readings of the clock, `ticket` names a new fetch. */
  function RefreshKeys(c: Cache, force: bool, t: int, u: int, ticket: Ticket): (Cache, Progress) {
    if !force && t < c.keysExpireAt then (c, Done)
    else if c.refreshing.Some? then (c, Joined)
    else if force && u < c.nextForcedRefreshAt then (c, Done)
    else
      var d := if force then c.(nextForcedRefreshAt := u + JWKS_REFRESH_COOLDOWN_MS) else c;
      (d.(refreshing := Some(ticket)), Started(u))
  }

  /** The end of a fetch: keys and expiry on success, and in either case the promise is cleared. */
  function Settle(c: Cache, result: FetchResult, t: int): Cache {
    if result.Fetched? then c.(keys := result.keys, keysExpireAt := t + JWKS_TTL_MS, refreshing := None)
    else c.(refreshing := None)
  }

  /** The verifier object. Each method runs from one await to the next. */
  class SupabaseTokenVerifier {
    var keys: KeySet
    var keysExpireAt: int
    var nextForcedRefreshAt: int
    var refreshPromise: Option<Ticket>

    function State(): Cache
      reads this
    {
      Cache(keys, keysExpireAt, nextForcedRefreshAt, refreshPromise)
    }

    constructor ()
      ensures State() == EMPTY_CACHE
    {
      keys, keysExpireAt, nextForcedRefreshAt, refreshPromise := map[], 0, 0, None;
    }

    method Refresh(force: bool, t: int, u: int, ticket: Ticket) returns (p: Progress)
      modifies this
      ensures (State(), p) == RefreshKeys(old(State()), force, t, u, ticket)
    {
      if !force && t < keysExpireAt {
        return Done;
      }
      if refreshPromise.Some? {
        return Joined;
      }
      if force {
        if u < nextForcedRefreshAt {
          return Done;
        }
        nextForcedRefreshAt := u + JWKS_REFRESH_COOLDOWN_MS;
      }
      refreshPromise := Some(ticket);
      return Started(u);
    }

    /** `fetchKeys` once the answer is in, and the initiator's `finally`. */
    method Finish(answer: Answer, importKey: Importer, t: int) returns (result: FetchResult)
      modifies this
      ensures State() == Settle(old(State()), result, t)
      ensures ResultOf(answer, importKey, result) && (result.Fetched? ==> keys == result.keys)
      ensures result.Rejected? ==> keys == old(keys) && keysExpireAt == old(keysExpireAt)
    {
      result := FetchKeys(answer, importKey);
      if result.Fetched? {
        keys := result.keys;
        keysExpireAt := t + JWKS_TTL_MS;
      }
      refreshPromise := None;
    }

    /** `keyFor` from its start: whether it first awaits a refresh. */
    method BeginKeyFor(r: int, t: int, u: int, ticket: Ticket) returns (p: Progress, looked: bool)
      modifies this
      ensures looked <==> r < old(keysExpireAt)
      ensures looked ==> State() == old(State()) && p == Done
      ensures !looked ==> (State(), p) == RefreshKeys(old(State()), false, t, u, ticket)
    {
      if r >= keysExpireAt {
        p := Refresh(false, t, u, ticket);
        looked := false;
      } else {
        p, looked := Done, true;
      }
    }

    /** `keyFor` at its first lookup: the key, or a forced refresh. */
    method LookUp(keyId: string, t: int, u: int, ticket: Ticket) returns (key: Option<Key>, p: Progress)
      modifies this
      ensures keyId in old(keys) ==> key == Some(old(keys)[keyId]) && State() == old(State()) && p == Done
      ensures keyId !in old(keys) ==>
                key == None && (State(), p) == RefreshKeys(old(State()), true, t, u, ticket)
    {
      if keyId in keys {
        return Some(keys[keyId]), Done;
      }
      p := Refresh(true, t, u, ticket);
      key := None;
    }

    /** `keyFor` after a forced refresh: the key if it is there by now. */
    method LookUpAgain(keyId: string) returns (key: Option<Key>)
      ensures key == if keyId in keys then Some(keys[keyId]) else None
    {
      return if keyId in keys then Some(keys[keyId]) else None;
    }
  }

  // ---- all interleavings ----

  /** Where a call of `keyFor` stands. `checkedAt` is its own reading of the clock for the expiry check, `lookedAt` the
      one when it had looked the key up in vain. */
  datatype Task =
    | Called(keyId: string)
    | AwaitingRefresh(keyId: string, checkedAt: int)
    | Refreshed(keyId: string, checkedAt: int)
    | AwaitingForced(keyId: string, checkedAt: int, lookedAt: int)
    | Forced(keyId: string, checkedAt: int, lookedAt: int)
    | Returned(keyId: string, checkedAt: int, key: Key, install: nat)
    | Failed(problem: Problem)

  /** A successful fetch: when it was installed, what it installed and from which document. */
  datatype Install = Install(at: int, keys: KeySet, source: Answer)

  /** A fetch sent out: when, and after how many installs. */
  datatype Start = Start(at: int, installs: nat)

  /** The verifier, the calls in progress, the fetches on the network, the clock, and what has happened so far. */
  datatype System = System(
    now: int, cache: Cache, tasks: map<nat, Task>, inFlight: set<Ticket>, nextTicket: Ticket,
    installs: seq<Install>, forcedStarts: seq<Start>, expiryStarts: seq<Start>)

  predicate Initial(s: System) {
    s.now >= 0 && s == System(s.now, EMPTY_CACHE, map[], {}, 0, [], [], [])
  }

  /** One step: the clock advances, a call arrives, a call runs to its next await, or the fetch in flight settles.
      The clock is read up to three times within a step and never runs backwards. */
  datatype Step =
    | Tick(t: int)
    | Arrive(id: nat, keyId: string)
    | Begin(id: nat, r: int, t: int, u: int)
    | ResumeRefreshed(id: nat, t: int, u: int)
    | ResumeForced(id: nat)
    | Answered(ticket: Ticket, answer: Answer, result: FetchResult, t: int)

  ghost predicate ResultOf(answer: Answer, importKey: Importer, result: FetchResult) {
    && (result.Fetched? <==> Installable(answer, importKey))
    && (result.Fetched? ==>
          result.keys != map[] && Holds(result.keys, Get(answer.payload.fields, "keys").items, importKey))
    && (result == Rejected(NotAuthenticated) <==> answer.Document? && !answer.payload.Obj?)
  }

  ghost predicate Enabled(s: System, importKey: Importer, step: Step) {
    match step
    case Tick(t) => s.now <= t
    case Arrive(id, _) => id !in s.tasks
    case Begin(id, r, t, u) => id in s.tasks && s.tasks[id].Called? && s.now <= r <= t <= u
    case ResumeRefreshed(id, t, u) => id in s.tasks && s.tasks[id].Refreshed? && s.now <= t <= u
    case ResumeForced(id) => id in s.tasks && s.tasks[id].Forced?
    case Answered(ticket, answer, result, t) =>
      ticket in s.inFlight && s.now <= t && ResultOf(answer, importKey, result)
  }

  /** `refreshKeys` within the system: a started fetch goes out on the network. */
  function Refreshing(s: System, force: bool, t: int, u: int): (System, Progress) {
    var (c, p) := RefreshKeys(s.cache, force, t, u, s.nextTicket);
    if p.Started? then
      var start := Start(p.at, |s.installs|);
      (s.(now := u, cache := c, inFlight := s.inFlight + {s.nextTicket}, nextTicket := s.nextTicket + 1,
          forcedStarts := if force then s.forcedStarts + [start] else s.forcedStarts,
          expiryStarts := if force then s.expiryStarts else s.expiryStarts + [start]), p)
    else (s.(now := u, cache := c), p)
  }

  /** The first lookup of a call. */
  function LookedUp(s: System, id: nat, keyId: string, checkedAt: int, t: int, u: int): System {
    if keyId in s.cache.keys then
      s.(now := u, tasks := s.tasks[id := Returned(keyId, checkedAt, s.cache.keys[keyId], |s.installs|)])
    else
      var (n, p) := Refreshing(s, true, t, u);
      n.(tasks := n.tasks[id :=
           if p == Done then Forced(keyId, checkedAt, u) else AwaitingForced(keyId, checkedAt, u)])
  }

  function Woken(task: Task, result: FetchResult): Task {
    if task.AwaitingRefresh? then
      if result.Fetched? then Refreshed(task.keyId, task.checkedAt) else Failed(result.problem)
    else if task.AwaitingForced? then
      if result.Fetched? then Forced(task.keyId, task.checkedAt, task.lookedAt) else Failed(result.problem)
    else task
  }

  function Apply(s: System, step: Step): System {
    match step
    case Tick(t) => s.(now := t)
    case Arrive(id, keyId) => s.(tasks := s.tasks[id := Called(keyId)])
    case Begin(id, r, t, u) =>
      if id !in s.tasks || !s.tasks[id].Called? then s
      else
        var keyId := s.tasks[id].keyId;
        if r >= s.cache.keysExpireAt then
          var (n, p) := Refreshing(s, false, t, u);
          n.(tasks := n.tasks[id := if p == Done then Refreshed(keyId, r) else AwaitingRefresh(keyId, r)])
        else LookedUp(s, id, keyId, r, t, u)
    case ResumeRefreshed(id, t, u) =>
      if id !in s.tasks || !s.tasks[id].Refreshed? then s
      else LookedUp(s, id, s.tasks[id].keyId, s.tasks[id].checkedAt, t, u)
    case ResumeForced(id) =>
      if id !in s.tasks || !s.tasks[id].Forced? then s
      else
        var task := s.tasks[id];
        s.(tasks := s.tasks[id :=
             if task.keyId in s.cache.keys then
               Returned(task.keyId, task.checkedAt, s.cache.keys[task.keyId], |s.installs|)
             else Failed(NotAuthenticated)])
    case Answered(ticket, answer, result, t) =>
      s.(now := t, cache := Settle(s.cache, result, t), inFlight := s.inFlight - {ticket},
         tasks := map id | id in s.tasks :: Woken(s.tasks[id], result),
         installs := if result.Fetched? then s.installs + [Install(t, result.keys, answer)] else s.installs)
  }

  // ---- the invariant ----

  ghost predicate CacheAgrees(s: System) {
    if s.installs == [] then s.cache.keys == map[] && s.cache.keysExpireAt == 0
    else
      var last := s.installs[|s.installs| - 1];
      s.cache.keys == last.keys && s.cache.keysExpireAt == last.at + JWKS_TTL_MS
  }

  ghost predicate InstallsSound(s: System, importKey: Importer) {
    && (forall i :: 0 <= i < |s.installs| ==>
          && Installable(s.installs[i].source, importKey)
          && Holds(s.installs[i].keys, Get(s.installs[i].source.payload.fields, "keys").items, importKey))
    && (forall i, j :: 0 <= i <= j < |s.installs| ==> s.installs[i].at <= s.installs[j].at)
    && (forall i :: 0 <= i < |s.installs| ==> 0 <= s.installs[i].at <= s.now)
  }

  ghost predicate SingleFlight(s: System) {
    && (s.cache.refreshing.None? ==> s.inFlight == {})
    && (s.cache.refreshing.Some? ==> s.inFlight == {s.cache.refreshing.value})
    && (forall k :: k in s.inFlight ==> k < s.nextTicket)
  }

  ghost predicate ForcedSpaced(s: System) {
    && (forall i :: 0 <= i < |s.forcedStarts| - 1 ==>
          s.forcedStarts[i].at + JWKS_REFRESH_COOLDOWN_MS <= s.forcedStarts[i + 1].at)
    && (s.forcedStarts != [] ==>
          s.cache.nextForcedRefreshAt == s.forcedStarts[|s.forcedStarts| - 1].at + JWKS_REFRESH_COOLDOWN_MS)
    && (s.forcedStarts == [] ==> s.cache.nextForcedRefreshAt == 0)
    && (forall i :: 0 <= i < |s.forcedStarts| ==> s.forcedStarts[i].at <= s.now)
  }

  ghost predicate ExpirySpaced(s: System) {
    forall i :: 0 <= i < |s.expiryStarts| ==>
      var start := s.expiryStarts[i];
      && start.installs <= |s.installs|
      && forall j :: 0 <= j < start.installs ==> s.installs[j].at + JWKS_TTL_MS <= start.at
  }

  /** The newest install is recent for a check made at that time. */
  ghost predicate Recent(s: System, checkedAt: int) {
    s.installs != [] && checkedAt < s.installs[|s.installs| - 1].at + JWKS_TTL_MS
  }

  /** A forced fetch had been sent less than the cooldown before. */
  ghost predicate CoolingDown(s: System, at: int) {
    exists k :: 0 <= k < |s.forcedStarts|
                && s.forcedStarts[k].at <= at < s.forcedStarts[k].at + JWKS_REFRESH_COOLDOWN_MS
  }

  /** Keys have been installed since. */
  ghost predicate InstalledSince(s: System, at: int) {
    s.installs != [] && at <= s.installs[|s.installs| - 1].at
  }

  ghost predicate TaskSound(s: System, task: Task) {
    match task
    case AwaitingRefresh(_, checkedAt) => checkedAt <= s.now && s.cache.refreshing.Some?
    case Refreshed(_, checkedAt) => Recent(s, checkedAt)
    case AwaitingForced(_, checkedAt, lookedAt) =>
      Recent(s, checkedAt) && s.cache.refreshing.Some? && lookedAt <= s.now
    case Forced(_, checkedAt, lookedAt) =>
      Recent(s, checkedAt) && (CoolingDown(s, lookedAt) || InstalledSince(s, lookedAt))
    case Returned(keyId, checkedAt, key, install) =>
      && 0 < install <= |s.installs|
      && keyId in s.installs[install - 1].keys && s.installs[install - 1].keys[keyId] == key
      && checkedAt < s.installs[install - 1].at + JWKS_TTL_MS
    case _ => true
  }

  ghost predicate TasksSound(s: System) {
    forall id :: id in s.tasks ==> TaskSound(s, s.tasks[id])
  }

  /** Everything but the tasks. */
  ghost predicate Core(s: System, importKey: Importer) {
    && s.now >= 0
    && CacheAgrees(s) && InstallsSound(s, importKey) && SingleFlight(s) && ForcedSpaced(s) && ExpirySpaced(s)
  }

  ghost predicate Inv(s: System, importKey: Importer) {
    Core(s, importKey) && TasksSound(s)
  }

  // ---- every step keeps it ----

  /** Nothing a task relies on is lost when the clock advances and installs are only added. */
  lemma TasksKept(s: System, n: System)
    requires TasksSound(s) && n.tasks == s.tasks && n.installs == s.installs && s.now <= n.now
    requires s.forcedStarts <= n.forcedStarts
    requires s.cache.refreshing.Some? ==> n.cache.refreshing.Some?
    ensures TasksSound(n)
  {
    forall id | id in n.tasks ensures TaskSound(n, n.tasks[id]) {
      assert TaskSound(s, s.tasks[id]);
    }
  }

  lemma TaskAdded(s: System, id: nat, task: Task)
    requires TasksSound(s) && TaskSound(s, task)
    ensures TasksSound(s.(tasks := s.tasks[id := task]))
  {
    var n := s.(tasks := s.tasks[id := task]);
    forall k | k in n.tasks ensures TaskSound(n, n.tasks[k]) {
      if k != id {
        assert TaskSound(s, s.tasks[k]);
      }
    }
  }

  /** The core says nothing about the tasks, and survives the clock advancing. */
  lemma CoreOnly(s: System, importKey: Importer, n: System)
    requires Core(s, importKey) && s.now <= n.now && n == s.(now := n.now, tasks := n.tasks)
    ensures Core(n, importKey)
  {
    hide Holds, Installable;
  }

  lemma InvWithTask(s: System, importKey: Importer, id: nat, task: Task)
    requires Inv(s, importKey) && TaskSound(s, task)
    ensures Inv(s.(tasks := s.tasks[id := task]), importKey)
  {
    hide Core, TasksSound, TaskSound;
    CoreOnly(s, importKey, s.(tasks := s.tasks[id := task]));
    TaskAdded(s, id, task);
  }

  /** What `Refreshing` leaves behind when it starts a fetch. */
  function StartedFrom(s: System, force: bool, u: int): System {
    var start := Start(u, |s.installs|);
    var c := s.cache.(refreshing := Some(s.nextTicket));
    var n := s.(now := u, inFlight := {s.nextTicket}, nextTicket := s.nextTicket + 1);
    if force then
      n.(cache := c.(nextForcedRefreshAt := u + JWKS_REFRESH_COOLDOWN_MS), forcedStarts := s.forcedStarts + [start])
    else n.(cache := c, expiryStarts := s.expiryStarts + [start])
  }

  /** The two ways `refreshKeys` can go. */
  lemma RefreshingCases(s: System, force: bool, t: int, u: int)
    requires SingleFlight(s)
    ensures var (n, p) := Refreshing(s, force, t, u);
            && n.cache.keys == s.cache.keys && n.installs == s.installs && n.tasks == s.tasks && n.now == u
            && s.forcedStarts <= n.forcedStarts
            && (p != Done ==> n.cache.refreshing.Some?)
            && (s.cache.refreshing.Some? ==> n.cache.refreshing.Some?)
            && (!force && s.cache.keysExpireAt <= t ==> p != Done)
            && if p.Started? then
                 n == StartedFrom(s, force, u) && s.cache.refreshing.None?
                 && (if force then s.cache.nextForcedRefreshAt <= u else s.cache.keysExpireAt <= t)
               else n == s.(now := u)
  {
  }

  lemma StartedCore(s: System, importKey: Importer, force: bool, u: int)
    requires Core(s, importKey) && s.now <= u
    requires if force then s.cache.nextForcedRefreshAt <= u else s.cache.keysExpireAt <= u
    ensures Core(StartedFrom(s, force, u), importKey)
  {
    hide Holds, Installable;
    if !force {
      InstallsExpired(s, importKey, u);
    }
  }

  /** Once the newest install has expired, all have. */
  lemma InstallsExpired(s: System, importKey: Importer, u: int)
    requires CacheAgrees(s) && InstallsSound(s, importKey) && s.cache.keysExpireAt <= u
    ensures forall j :: 0 <= j < |s.installs| ==> s.installs[j].at + JWKS_TTL_MS <= u
  {
    hide Holds, Installable;
    forall j | 0 <= j < |s.installs| ensures s.installs[j].at + JWKS_TTL_MS <= u {
      assert s.installs[j].at <= s.installs[|s.installs| - 1].at;
    }
  }

  lemma RefreshingKeeps(s: System, importKey: Importer, force: bool, t: int, u: int)
    requires Inv(s, importKey) && s.now <= t <= u
    ensures Inv(Refreshing(s, force, t, u).0, importKey)
  {
    hide Refreshing, StartedFrom, CacheAgrees, InstallsSound, ForcedSpaced, ExpirySpaced, TasksSound, SingleFlight;
    RefreshingCases(s, force, t, u);
    var (n, p) := Refreshing(s, force, t, u);
    TasksKept(s, n);
    if p.Started? {
      StartedCore(s, importKey, force, u);
    } else {
      CoreOnly(s, importKey, n);
    }
  }

  lemma LookedUpKeeps(s: System, importKey: Importer, id: nat, keyId: string, checkedAt: int, t: int, u: int)
    requires Inv(s, importKey) && s.now <= t <= u && Recent(s, checkedAt)
    ensures Inv(LookedUp(s, id, keyId, checkedAt, t, u), importKey)
  {
    hide Core, TasksSound, Refreshing;
    if keyId in s.cache.keys {
      var n := s.(now := u);
      TickKeeps(s, importKey, u);
      NewestHolds(s, importKey, keyId);
      InvWithTask(n, importKey, id, Returned(keyId, checkedAt, s.cache.keys[keyId], |s.installs|));
    } else {
      RefreshingKeeps(s, importKey, true, t, u);
      InvFlight(s, importKey);
      RefreshingCases(s, true, t, u);
      var (n, p) := Refreshing(s, true, t, u);
      if p == Done {
        SuppressedIsCooling(s, t, u);
      }
      InvWithTask(n, importKey, id,
                  if p == Done then Forced(keyId, checkedAt, u) else AwaitingForced(keyId, checkedAt, u));
    }
  }

  /** A forced refresh that is not let through comes too soon after another. */
  lemma SuppressedIsCooling(s: System, t: int, u: int)
    requires 0 <= s.now <= t <= u && SingleFlight(s) && ForcedSpaced(s)
    requires Refreshing(s, true, t, u).1 == Done
    ensures CoolingDown(Refreshing(s, true, t, u).0, u)
  {
    RefreshingCases(s, true, t, u);
    var last := |s.forcedStarts| - 1;
    assert s.forcedStarts[last].at <= u < s.forcedStarts[last].at + JWKS_REFRESH_COOLDOWN_MS;
  }

  lemma InvFlight(s: System, importKey: Importer)
    requires Inv(s, importKey)
    ensures 0 <= s.now && SingleFlight(s) && ForcedSpaced(s)
  {
    hide CacheAgrees, InstallsSound, ExpirySpaced, TasksSound;
  }

  /** A cached key is a key of the newest install. */
  lemma NewestHolds(s: System, importKey: Importer, keyId: string)
    requires Inv(s, importKey) && keyId in s.cache.keys
    ensures s.installs != [] && s.installs[|s.installs| - 1].keys == s.cache.keys
  {
    hide InstallsSound, SingleFlight, ForcedSpaced, ExpirySpaced, TasksSound;
  }

  /** A check that found the cache unexpired was made less than the TTL after the newest install. */
  lemma UnexpiredIsRecent(s: System, importKey: Importer, r: int)
    requires Inv(s, importKey) && s.now <= r < s.cache.keysExpireAt
    ensures Recent(s, r)
  {
    hide InstallsSound, SingleFlight, ForcedSpaced, ExpirySpaced, TasksSound;
  }

  lemma BeginKeeps(s: System, importKey: Importer, id: nat, r: int, t: int, u: int)
    requires Inv(s, importKey) && Enabled(s, importKey, Begin(id, r, t, u))
    ensures Inv(Apply(s, Begin(id, r, t, u)), importKey)
  {
    hide Inv, Refreshing, LookedUp, Recent;
    var keyId := s.tasks[id].keyId;
    if r >= s.cache.keysExpireAt {
      RefreshingKeeps(s, importKey, false, t, u);
      InvFlight(s, importKey);
      RefreshingCases(s, false, t, u);
      var (n, p) := Refreshing(s, false, t, u);
      InvWithTask(n, importKey, id, AwaitingRefresh(keyId, r));
    } else {
      UnexpiredIsRecent(s, importKey, r);
      LookedUpKeeps(s, importKey, id, keyId, r, t, u);
    }
  }

  lemma ResumeForcedKeeps(s: System, importKey: Importer, id: nat)
    requires Inv(s, importKey) && Enabled(s, importKey, ResumeForced(id))
    ensures Inv(Apply(s, ResumeForced(id)), importKey)
  {
    hide Core;
    var task := s.tasks[id];
    assert TaskSound(s, task);
    if task.keyId in s.cache.keys {
      NewestHolds(s, importKey, task.keyId);
      InvWithTask(s, importKey, id, Returned(task.keyId, task.checkedAt, s.cache.keys[task.keyId], |s.installs|));
    } else {
      InvWithTask(s, importKey, id, Failed(NotAuthenticated));
    }
  }

  lemma AnsweredKeeps(s: System, importKey: Importer, ticket: Ticket, answer: Answer, result: FetchResult, t: int)
    requires Inv(s, importKey) && Enabled(s, importKey, Answered(ticket, answer, result, t))
    ensures Inv(Apply(s, Answered(ticket, answer, result, t)), importKey)
  {
    hide Installable, Holds, CacheAgrees, InstallsSound, ForcedSpaced, ExpirySpaced, TasksSound;
    var n := Apply(s, Answered(ticket, answer, result, t));
    AnsweredInstalls(s, importKey, result, answer, t, n);
    AnsweredStarts(s, n);
    AnsweredTasks(s, result, t, n);
  }

  lemma AnsweredInstalls(s: System, importKey: Importer, result: FetchResult, answer: Answer, t: int, n: System)
    requires 0 <= s.now <= t && CacheAgrees(s) && InstallsSound(s, importKey) && ResultOf(answer, importKey, result)
    requires n.now == t && n.cache == Settle(s.cache, result, t)
    requires n.installs == if result.Fetched? then s.installs + [Install(t, result.keys, answer)] else s.installs
    ensures CacheAgrees(n) && InstallsSound(n, importKey)
    ensures forall i :: 0 <= i < |s.installs| ==> s.installs[i].at <= s.now
  {
    hide Holds, Installable;
  }

  lemma AnsweredStarts(s: System, n: System)
    requires ForcedSpaced(s) && ExpirySpaced(s) && s.now <= n.now
    requires n.forcedStarts == s.forcedStarts && n.expiryStarts == s.expiryStarts && s.installs <= n.installs
    requires n.cache.nextForcedRefreshAt == s.cache.nextForcedRefreshAt
    ensures ForcedSpaced(n) && ExpirySpaced(n)
  {
  }

  lemma AnsweredTasks(s: System, result: FetchResult, t: int, n: System)
    requires TasksSound(s) && s.now <= t && n.forcedStarts == s.forcedStarts
    requires n.tasks == map id | id in s.tasks :: Woken(s.tasks[id], result)
    requires if result.Fetched? then
               s.installs <= n.installs && |n.installs| == |s.installs| + 1 && n.installs[|s.installs|].at == t
             else n.installs == s.installs
    requires forall i :: 0 <= i < |s.installs| ==> s.installs[i].at <= s.now
    ensures TasksSound(n)
  {
    forall id | id in n.tasks ensures TaskSound(n, n.tasks[id]) {
      WokenSound(s, s.tasks[id], result, t, n);
    }
  }

  lemma WokenSound(s: System, task: Task, result: FetchResult, t: int, n: System)
    requires TaskSound(s, task) && s.now <= t && n.forcedStarts == s.forcedStarts
    requires if result.Fetched? then
               s.installs <= n.installs && |n.installs| == |s.installs| + 1 && n.installs[|s.installs|].at == t
             else n.installs == s.installs
    requires forall i :: 0 <= i < |s.installs| ==> s.installs[i].at <= s.now
    ensures TaskSound(n, Woken(task, result))
  {
  }

  /** Every enabled step keeps the invariant. */
  lemma StepKeeps(s: System, importKey: Importer, step: Step)
    requires Inv(s, importKey) && Enabled(s, importKey, step)
    ensures Inv(Apply(s, step), importKey)
  {
    hide Inv, LookedUp, Refreshing;
    match step {
      case Tick(t) => TickKeeps(s, importKey, t);
      case Arrive(id, keyId) => ArriveKeeps(s, importKey, id, keyId);
      case Begin(id, r, t, u) => BeginKeeps(s, importKey, id, r, t, u);
      case ResumeRefreshed(id, t, u) => ResumeRefreshedKeeps(s, importKey, id, t, u);
      case ResumeForced(id) => ResumeForcedKeeps(s, importKey, id);
      case Answered(ticket, answer, result, t) => AnsweredKeeps(s, importKey, ticket, answer, result, t);
    }
  }

  lemma TickKeeps(s: System, importKey: Importer, t: int)
    requires Inv(s, importKey) && s.now <= t
    ensures Inv(s.(now := t), importKey)
  {
    hide Core, TasksSound;
    CoreOnly(s, importKey, s.(now := t));
    TasksKept(s, s.(now := t));
  }

  lemma ArriveKeeps(s: System, importKey: Importer, id: nat, keyId: string)
    requires Inv(s, importKey)
    ensures Inv(s.(tasks := s.tasks[id := Called(keyId)]), importKey)
  {
    InvWithTask(s, importKey, id, Called(keyId));
  }

  lemma ResumeRefreshedKeeps(s: System, importKey: Importer, id: nat, t: int, u: int)
    requires Inv(s, importKey) && Enabled(s, importKey, ResumeRefreshed(id, t, u))
    ensures Inv(Apply(s, ResumeRefreshed(id, t, u)), importKey)
  {
    assert TaskSound(s, s.tasks[id]);
    LookedUpKeeps(s, importKey, id, s.tasks[id].keyId, s.tasks[id].checkedAt, t, u);
  }

  // ---- runs ----

  /** A run: any number of concurrent calls, clock readings and answers, in any order. */
  ghost predicate Run(states: seq<System>, steps: seq<Step>, importKey: Importer) {
    && |states| == |steps| + 1 && Initial(states[0])
    && forall i :: 0 <= i < |steps| ==>
                     Enabled(states[i], importKey, steps[i]) && states[i + 1] == Apply(states[i], steps[i])
  }

  lemma {:induction false} RunKeeps(states: seq<System>, steps: seq<Step>, importKey: Importer, i: nat)
    requires Run(states, steps, importKey) && i < |states|
    ensures Inv(states[i], importKey)
  {
    hide Apply, Enabled;
    if i == 0 {
      InitialHolds(states[0], importKey);
    } else {
      RunKeeps(states, steps, importKey, i - 1);
      assert states[i - 1 + 1] == Apply(states[i - 1], steps[i - 1]);
      StepKeeps(states[i - 1], importKey, steps[i - 1]);
    }
  }

  lemma InitialHolds(s: System, importKey: Importer)
    requires Initial(s)
    ensures Inv(s, importKey)
  {
  }

  /** Freshness: a key `keyFor` returns is of a key set installed less than ten minutes before the call's own expiry
      check, or after it. */
  lemma ReturnedKeysAreFresh(states: seq<System>, steps: seq<Step>, importKey: Importer, i: nat, id: nat)
    requires Run(states, steps, importKey) && i < |states|
    requires id in states[i].tasks && states[i].tasks[id].Returned?
    ensures var task := states[i].tasks[id];
            exists install :: install in states[i].installs
                              && task.keyId in install.keys && install.keys[task.keyId] == task.key
                              && task.checkedAt - 600_000 < install.at
  {
    RunKeeps(states, steps, importKey, i);
    var s := states[i];
    var task := s.tasks[id];
    assert TaskSound(s, task);
    assert s.installs[task.install - 1] in s.installs;
  }

  /** Single flight: at most one fetch is on the network. */
  lemma AtMostOneFetch(states: seq<System>, steps: seq<Step>, importKey: Importer, i: nat)
    requires Run(states, steps, importKey) && i < |states|
    ensures |states[i].inFlight| <= 1
    ensures states[i].inFlight == {} <==> states[i].cache.refreshing.None?
  {
    RunKeeps(states, steps, importKey, i);
  }

  /** Rate bound: the forced fetches from the i-th to the j-th start, answered or not, span j - i times ten seconds. */
  lemma ForcedFetchesAreSpaced(states: seq<System>, steps: seq<Step>, importKey: Importer, n: nat, i: nat, j: nat)
    requires Run(states, steps, importKey) && n < |states|
    requires i <= j < |states[n].forcedStarts|
    ensures (j - i) * 10_000 <= states[n].forcedStarts[j].at - states[n].forcedStarts[i].at
  {
    RunKeeps(states, steps, importKey, n);
    SpacedApart(states[n], i, j);
  }

  lemma {:induction false} SpacedApart(s: System, i: nat, j: nat)
    requires ForcedSpaced(s) && i <= j < |s.forcedStarts|
    ensures (j - i) * JWKS_REFRESH_COOLDOWN_MS <= s.forcedStarts[j].at - s.forcedStarts[i].at
    decreases j
  {
    if i < j {
      SpacedApart(s, i, j - 1);
      assert s.forcedStarts[j - 1].at + JWKS_REFRESH_COOLDOWN_MS <= s.forcedStarts[j - 1 + 1].at;
    }
  }

  /** A fetch started because of expiry comes at least ten minutes after every install before it. */
  lemma ExpiryFetchesWaitForTtl(states: seq<System>, steps: seq<Step>, importKey: Importer, n: nat, i: nat, j: nat)
    requires Run(states, steps, importKey) && n < |states|
    requires i < |states[n].expiryStarts| && j < states[n].expiryStarts[i].installs
    ensures j < |states[n].installs|
    ensures states[n].installs[j].at + 600_000 <= states[n].expiryStarts[i].at
  {
    RunKeeps(states, steps, importKey, n);
  }

  /** The cache is empty, or exactly the eligible entries of the last document that could be installed. */
  lemma CacheMirrorsSource(states: seq<System>, steps: seq<Step>, importKey: Importer, n: nat)
    requires Run(states, steps, importKey) && n < |states|
    ensures var s := states[n];
            if s.installs == [] then s.cache.keys == map[]
            else
              var source := s.installs[|s.installs| - 1].source;
              Installable(source, importKey)
              && Holds(s.cache.keys, Get(source.payload.fields, "keys").items, importKey)
  {
    RunKeeps(states, steps, importKey, n);
  }

  /** A fetch that brings nothing installable leaves the keys and their expiry alone and fails its waiters. */
  lemma FailedFetchChangesNothing(s: System, importKey: Importer, ticket: Ticket, answer: Answer,
                                  result: FetchResult, t: int)
    requires Inv(s, importKey) && Enabled(s, importKey, Answered(ticket, answer, result, t))
    requires !Installable(answer, importKey)
    ensures var n := Apply(s, Answered(ticket, answer, result, t));
            && n.cache.keys == s.cache.keys && n.cache.keysExpireAt == s.cache.keysExpireAt
            && n.installs == s.installs && n.cache.refreshing == None
            && forall id :: id in s.tasks && (s.tasks[id].AwaitingRefresh? || s.tasks[id].AwaitingForced?) ==>
                              n.tasks[id] == Failed(result.problem)
  {
  }

  // ---- what a call does, on every run ----

  /** The keys that count: those of the newest install, while it is less than ten minutes old. */
  predicate Current(s: System, at: int) {
    s.installs != [] && at < s.installs[|s.installs| - 1].at + 600_000
  }

  predicate Known(s: System, keyId: string) {
    s.installs != [] && keyId in s.installs[|s.installs| - 1].keys
  }

  /** The step brings a call to its first lookup, at that time. */
  predicate LooksUp(s: System, step: Step, id: nat, at: int) {
    && id in s.tasks
    && match step
       case Begin(i, r, _, u) => i == id && s.tasks[id].Called? && Current(s, r) && u == at
       case ResumeRefreshed(i, _, u) => i == id && s.tasks[id].Refreshed? && u == at
       case _ => false
  }

  /** The last forced fetch, if there was one, was sent ten seconds ago or longer. */
  predicate MayForce(s: System, at: int) {
    s.forcedStarts == [] || s.forcedStarts[|s.forcedStarts| - 1].at + 10_000 <= at
  }

  lemma CacheIsNewest(s: System, importKey: Importer, at: int)
    requires Inv(s, importKey) && s.now <= at
    ensures Current(s, at) <==> at < s.cache.keysExpireAt
    ensures forall keyId :: Known(s, keyId) <==> keyId in s.cache.keys
    ensures s.installs != [] ==> s.cache.keys == s.installs[|s.installs| - 1].keys
    ensures MayForce(s, at) <==> s.cache.nextForcedRefreshAt <= at
    ensures (s.inFlight == {} <==> s.cache.refreshing.None?) && SingleFlight(s)
  {
    hide InstallsSound, ExpirySpaced, TasksSound;
  }

  /** A step that brings a call to its lookup is a lookup. */
  lemma LooksUpApplied(s: System, importKey: Importer, step: Step, id: nat, at: int)
    requires Inv(s, importKey) && Enabled(s, importKey, step) && LooksUp(s, step, id, at)
    ensures exists t, checkedAt ::
              s.now <= t <= at && Apply(s, step) == LookedUp(s, id, s.tasks[id].keyId, checkedAt, t, at)
  {
    hide Inv, LookedUp, Refreshing;
    match step {
      case Begin(_, r, t, u) =>
        CacheIsNewest(s, importKey, r);
        assert Apply(s, step) == LookedUp(s, id, s.tasks[id].keyId, r, t, at);
      case ResumeRefreshed(_, t, u) =>
        assert Apply(s, step) == LookedUp(s, id, s.tasks[id].keyId, s.tasks[id].checkedAt, t, at);
      case _ =>
    }
  }

  /** A key that is known is returned from the newest install, and nothing is sent. */
  lemma KnownKeyIsReturned(states: seq<System>, steps: seq<Step>, importKey: Importer, i: nat, id: nat, at: int)
    requires Run(states, steps, importKey) && i < |steps| && LooksUp(states[i], steps[i], id, at)
    requires Known(states[i], states[i].tasks[id].keyId)
    ensures var s, n := states[i], states[i + 1];
            && id in n.tasks && n.tasks[id].Returned?
            && n.tasks[id].key == s.installs[|s.installs| - 1].keys[s.tasks[id].keyId]
            && n.inFlight == s.inFlight && n.forcedStarts == s.forcedStarts && n.expiryStarts == s.expiryStarts
  {
    hide Inv, Refreshing;
    RunKeeps(states, steps, importKey, i);
    CacheIsNewest(states[i], importKey, states[i].now);
    LooksUpApplied(states[i], importKey, steps[i], id, at);
  }

  /** A key that is not known makes the call wait for a fetch: the one in flight, or a new one that is sent now, unless
      the last forced fetch is less than ten seconds old. */
  lemma MissingKeyIsFetched(states: seq<System>, steps: seq<Step>, importKey: Importer, i: nat, id: nat, at: int)
    requires Run(states, steps, importKey) && i < |steps| && LooksUp(states[i], steps[i], id, at)
    requires !Known(states[i], states[i].tasks[id].keyId)
    ensures var s, n := states[i], states[i + 1];
            && id in n.tasks && n.expiryStarts == s.expiryStarts
            && if s.inFlight != {} then
                 n.tasks[id].AwaitingForced? && n.inFlight == s.inFlight && n.forcedStarts == s.forcedStarts
               else if MayForce(s, at) then
                 && n.tasks[id].AwaitingForced? && n.inFlight == {s.nextTicket}
                 && n.forcedStarts == s.forcedStarts + [Start(at, |s.installs|)]
               else n.tasks[id].Forced? && n.inFlight == {} && n.forcedStarts == s.forcedStarts
  {
    hide Inv, Refreshing, StartedFrom;
    RunKeeps(states, steps, importKey, i);
    var s := states[i];
    LooksUpApplied(s, importKey, steps[i], id, at);
    var t, checkedAt :| s.now <= t <= at && states[i + 1] == LookedUp(s, id, s.tasks[id].keyId, checkedAt, t, at);
    CacheIsNewest(s, importKey, at);
    ForcedCases(s, t, at);
  }

  lemma ForcedCases(s: System, t: int, u: int)
    requires SingleFlight(s)
    ensures var (n, p) := Refreshing(s, true, t, u);
            && n.tasks == s.tasks && n.expiryStarts == s.expiryStarts
            && if s.inFlight != {} then p == Joined && n.inFlight == s.inFlight && n.forcedStarts == s.forcedStarts
               else if s.cache.nextForcedRefreshAt <= u then
                 && p == Started(u) && n.inFlight == {s.nextTicket}
                 && n.forcedStarts == s.forcedStarts + [Start(u, |s.installs|)]
               else p == Done && n.inFlight == {} && n.forcedStarts == s.forcedStarts
  {
  }

  /** A call that finds the newest install ten minutes old or older waits for a fetch: the one in flight, or a new one
      that is sent now. */
  lemma ExpiredCacheIsRefreshed(states: seq<System>, steps: seq<Step>, importKey: Importer, i: nat)
    requires Run(states, steps, importKey) && i < |steps| && steps[i].Begin? && !Current(states[i], steps[i].r)
    ensures var s, n, id := states[i], states[i + 1], steps[i].id;
            && id in n.tasks && n.tasks[id] == AwaitingRefresh(s.tasks[id].keyId, steps[i].r)
            && n.forcedStarts == s.forcedStarts
            && if s.inFlight != {} then n.inFlight == s.inFlight && n.expiryStarts == s.expiryStarts
               else
                 && n.inFlight == {s.nextTicket}
                 && n.expiryStarts == s.expiryStarts + [Start(steps[i].u, |s.installs|)]
  {
    hide Inv;
    RunKeeps(states, steps, importKey, i);
    CacheIsNewest(states[i], importKey, steps[i].r);
  }

  /** When the fetch ends, successfully or not, every call that waited for it goes on or fails with it. */
  lemma WaitersAreWoken(states: seq<System>, steps: seq<Step>, importKey: Importer, i: nat)
    requires Run(states, steps, importKey) && i < |steps| && steps[i].Answered?
    ensures var s, n, result := states[i], states[i + 1], steps[i].result;
            && n.inFlight == {} && n.tasks.Keys == s.tasks.Keys
            && forall id :: id in s.tasks ==>
                 var task := s.tasks[id];
                 if task.AwaitingRefresh? then
                   n.tasks[id] == if result.Fetched? then Refreshed(task.keyId, task.checkedAt)
                                  else Failed(result.problem)
                 else if task.AwaitingForced? then
                   n.tasks[id] == if result.Fetched? then Forced(task.keyId, task.checkedAt, task.lookedAt)
                                  else Failed(result.problem)
                 else n.tasks[id] == task
  {
    hide Inv;
    RunKeeps(states, steps, importKey, i);
    CacheIsNewest(states[i], importKey, states[i].now);
  }

  /** No call waits for nothing. */
  lemma WaitingNeedsAFetch(states: seq<System>, steps: seq<Step>, importKey: Importer, i: nat, id: nat)
    requires Run(states, steps, importKey) && i < |states| && id in states[i].tasks
    requires states[i].tasks[id].AwaitingRefresh? || states[i].tasks[id].AwaitingForced?
    ensures states[i].inFlight != {}
  {
    RunKeeps(states, steps, importKey, i);
    assert TaskSound(states[i], states[i].tasks[id]);
  }

  /** A call is refused for its key only if the newest install does not have it and, since the call looked it up, new
      keys were installed, or a forced fetch had been sent less than ten seconds before. */
  lemma RefusalIsJustified(states: seq<System>, steps: seq<Step>, importKey: Importer, i: nat)
    requires Run(states, steps, importKey) && i < |steps| && steps[i].ResumeForced?
    ensures var s, task := states[i], states[i].tasks[steps[i].id];
            if Known(s, task.keyId) then
              && states[i + 1].tasks[steps[i].id].Returned?
              && states[i + 1].tasks[steps[i].id].key == s.installs[|s.installs| - 1].keys[task.keyId]
            else
              && states[i + 1].tasks[steps[i].id] == Failed(NotAuthenticated)
              && ((exists k :: 0 <= k < |s.forcedStarts|
                               && s.forcedStarts[k].at <= task.lookedAt < s.forcedStarts[k].at + 10_000)
                  || (s.installs != [] && task.lookedAt <= s.installs[|s.installs| - 1].at))
  {
    hide Core;
    RunKeeps(states, steps, importKey, i);
    assert TaskSound(states[i], states[i].tasks[steps[i].id]);
    CacheIsNewest(states[i], importKey, states[i].now);
  }

  /** And nothing else ends a call with that refusal, except a document that is no object. */
  lemma OnlyRefusals(states: seq<System>, steps: seq<Step>, importKey: Importer, i: nat, id: nat)
    requires Run(states, steps, importKey) && i < |steps|
    requires id in states[i + 1].tasks && states[i + 1].tasks[id] == Failed(NotAuthenticated)
    requires id in states[i].tasks ==> states[i].tasks[id] != Failed(NotAuthenticated)
    ensures steps[i] == ResumeForced(id)
            || (steps[i].Answered? && steps[i].answer.Document? && !steps[i].answer.payload.Obj?)
  {
  }
}
