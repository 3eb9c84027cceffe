/**
 operations/src/recovery.py: automatic recovery of sandboxes, bounded per sandbox by a sliding
 window and a backoff, and overall by a number of parallel jobs.
 */
module Recovery {
  import opened Outcomes
  import opened JobStates
  import opened Jobs

  datatype Policy = Policy(
    enabled: bool,
    failureThreshold: nat,
    maxAttempts: nat,
    windowSeconds: nat,
    backoffSeconds: seq<nat>,
    stableSeconds: nat,
    agentEnabled: map<string, bool>,
    maxParallel: nat)

  datatype Health = Ready | Unhealthy | Missing | OtherHealth

  datatype Execution = Idle | NotIdle

  /** One row of the sandbox list, with the catalog's and the operator's view of it. */
  datatype Sandbox = Sandbox(
    id: string,
    agent: string,
    health: Health,
    container: Option<string>,
    loadTest: bool,
    retired: bool,
    stopped: bool)

  /** GET /sandboxes/{sid}, read right before the decision. */
  datatype Detail = Detail(execution: Execution, generation: Option<string>)

  /** state("recovery:" + sid) */
  datatype Record = Record(
    failures: nat,
    healthySince: Option<int>,
    attempts: seq<int>,
    nextAttempt: int,
    execution: Option<Execution>,
    container: Option<string>,
    generation: Option<string>)

  const NO_RECORD := Record(0, None, [], 0, None, None, None)

  /** An automatic recovery: when it was queued, and the delay imposed on the next. */
  datatype Attempt = Attempt(at: int, delay: nat)

  ghost predicate ValidPolicy(p: Policy)
  {
    p.maxAttempts >= 1 && p.windowSeconds >= 1 && |p.backoffSeconds| >= 1 && p.stableSeconds >= 1 && p.maxParallel >= 1
  }

  /** [t for t in times if now - t < window] */
  function Recent(times: seq<int>, now: int, window: nat): seq<int>
  {
    if times == [] then []
    else (if now - times[0] < window then [times[0]] else []) + Recent(times[1..], now, window)
  }

  ghost predicate Sorted(times: seq<int>)
  {
    forall i, j | 0 <= i <= j < |times| :: times[i] <= times[j]
  }

  function Times(log: seq<Attempt>): seq<int>
  {
    seq(|log|, i requires 0 <= i < |log| => log[i].at)
  }

  /** On sorted times the filter drops exactly a prefix. */
  lemma {:induction false} RecentIsSuffix(times: seq<int>, now: int, window: nat) returns (k: nat)
    requires Sorted(times)
    ensures k <= |times| && Recent(times, now, window) == times[k..]
    ensures forall j | 0 <= j < k :: now - times[j] >= window
    ensures forall j | k <= j < |times| :: now - times[j] < window
  {
    if times == [] {
      k := 0;
    } else if now - times[0] < window {
      k := 0;
      assert |times| > 1 ==> times[1..][0] >= times[0];
      var l := RecentIsSuffix(times[1..], now, window);
      assert times == [times[0]] + times[1..];
    } else {
      var l := RecentIsSuffix(times[1..], now, window);
      k := l + 1;
      assert forall j | 0 < j < |times| :: times[j] == times[1..][j - 1];
    }
  }

  /** How many of the attempts before number `i` are still in the window when it is made. */
  function InWindow(log: seq<Attempt>, i: nat, window: nat): nat
    requires i < |log|
  {
    |Recent(Times(log[..i]), log[i].at, window)|
  }

  function Delay(p: Policy, recent: nat): nat
    requires |p.backoffSeconds| >= 1
  {
    p.backoffSeconds[if recent < |p.backoffSeconds| then recent else |p.backoffSeconds| - 1]
  }

  /** Any `maxAttempts` + 1 consecutive attempts span at least a window. */
  ghost predicate Spread(p: Policy, log: seq<Attempt>)
  {
    forall i | 0 <= i && i + p.maxAttempts < |log| :: log[i + p.maxAttempts].at - log[i].at >= p.windowSeconds
  }

  /** Every delay is the backoff indexed by the attempts then in the window, and is waited out. */
  ghost predicate BackedOff(p: Policy, log: seq<Attempt>)
    requires ValidPolicy(p)
  {
    && (forall i | 0 <= i < |log| :: log[i].delay == Delay(p, InWindow(log, i, p.windowSeconds)))
    && (forall i | 0 <= i && i + 1 < |log| :: log[i + 1].at >= log[i].at + log[i].delay)
  }

  ghost predicate Bounded(p: Policy, log: seq<Attempt>)
    requires ValidPolicy(p)
  {
    Sorted(Times(log)) && Spread(p, log) && BackedOff(p, log)
  }

  /** Main result: attempts `maxAttempts` apart never fall into one window. */
  lemma WindowHoldsAtMost(p: Policy, log: seq<Attempt>, i: nat, j: nat)
    requires ValidPolicy(p) && Bounded(p, log) && j < |log| && j - i >= p.maxAttempts
    ensures log[j].at - log[i].at >= p.windowSeconds
  {
    assert Times(log)[i + p.maxAttempts] <= Times(log)[j];
  }

  /** The stored record remembers enough of the log to go on: all but `dropped`, which is out of the window for good. */
  ghost predicate Remembers(p: Policy, r: Record, log: seq<Attempt>, dropped: nat, now: int)
  {
    && (forall i | 0 <= i < |log| :: log[i].at <= now)
    && dropped <= |log| && r.attempts == Times(log)[dropped..]
    && (forall j | 0 <= j < dropped :: now - log[j].at >= p.windowSeconds)
    && (log != [] ==> r.nextAttempt == log[|log| - 1].at + log[|log| - 1].delay)
  }

  lemma {:induction false} RecentOfConcat(a: seq<int>, b: seq<int>, now: int, window: nat)
    ensures Recent(a + b, now, window) == Recent(a, now, window) + Recent(b, now, window)
  {
    if a == [] {
      assert a + b == b;
    } else {
      assert (a + b)[1..] == a[1..] + b;
      RecentOfConcat(a[1..], b, now, window);
    }
  }

  lemma {:induction false} NothingRecent(a: seq<int>, now: int, window: nat)
    requires forall i | 0 <= i < |a| :: now - a[i] >= window
    ensures Recent(a, now, window) == []
  {
    if a != [] { NothingRecent(a[1..], now, window); }
  }

  /** Counting the stored attempts is counting the whole log. */
  lemma StoredIsEnough(p: Policy, r: Record, log: seq<Attempt>, dropped: nat, now: int)
    requires Remembers(p, r, log, dropped, now)
    ensures Recent(r.attempts, now, p.windowSeconds) == Recent(Times(log), now, p.windowSeconds)
  {
    RecentOfConcat(Times(log)[..dropped], Times(log)[dropped..], now, p.windowSeconds);
    NothingRecent(Times(log)[..dropped], now, p.windowSeconds);
    assert Times(log) == Times(log)[..dropped] + Times(log)[dropped..];
  }

  lemma AttemptBacksOff(p: Policy, log: seq<Attempt>, now: int)
    requires ValidPolicy(p) && BackedOff(p, log)
    requires log != [] ==> now >= log[|log| - 1].at + log[|log| - 1].delay
    ensures BackedOff(p, log + [Attempt(now, Delay(p, |Recent(Times(log), now, p.windowSeconds)|))])
  {
    var log' := log + [Attempt(now, Delay(p, |Recent(Times(log), now, p.windowSeconds)|))];
    forall i | 0 <= i < |log'|
      ensures log'[i].delay == Delay(p, InWindow(log', i, p.windowSeconds))
    {
      if i < |log| { assert log'[..i] == log[..i]; } else { assert log'[..i] == log; }
    }
  }

  lemma AttemptSpreads(p: Policy, log: seq<Attempt>, a: Attempt)
    requires ValidPolicy(p) && Spread(p, log) && Sorted(Times(log))
    requires |Recent(Times(log), a.at, p.windowSeconds)| < p.maxAttempts
    ensures Spread(p, log + [a])
  {
    var k := RecentIsSuffix(Times(log), a.at, p.windowSeconds);
    var log' := log + [a];
    forall i | 0 <= i && i + p.maxAttempts < |log'|
      ensures log'[i + p.maxAttempts].at - log'[i].at >= p.windowSeconds
    {
      if i + p.maxAttempts == |log| { assert a.at - Times(log)[i] >= p.windowSeconds; }
    }
  }

  /** One more attempt, admitted by the stored record, keeps the whole log bounded. */
  lemma AttemptKeepsBounded(p: Policy, r: Record, log: seq<Attempt>, dropped: nat, now: int)
    requires ValidPolicy(p) && Bounded(p, log) && Remembers(p, r, log, dropped, now)
    requires log != [] ==> now >= r.nextAttempt
    requires |Recent(r.attempts, now, p.windowSeconds)| < p.maxAttempts
    ensures Bounded(p, log + [Attempt(now, Delay(p, |Recent(r.attempts, now, p.windowSeconds)|))])
  {
    StoredIsEnough(p, r, log, dropped, now);
    var attempt := Attempt(now, Delay(p, |Recent(r.attempts, now, p.windowSeconds)|));
    AttemptBacksOff(p, log, now);
    AttemptSpreads(p, log, attempt);
    var times := Times(log + [attempt]);
    assert times == Times(log) + [now];
    assert forall i | 0 <= i < |log| :: Times(log)[i] <= now;
  }

  lemma AttemptIsRemembered(p: Policy, r: Record, log: seq<Attempt>, dropped: nat, now: int) returns (dropped': nat)
    requires ValidPolicy(p) && Sorted(Times(log)) && Remembers(p, r, log, dropped, now)
    ensures var recent := Recent(r.attempts, now, p.windowSeconds);
            Remembers(p, r.(attempts := recent + [now], nextAttempt := now + Delay(p, |recent|)),
                      log + [Attempt(now, Delay(p, |recent|))], dropped', now)
  {
    StoredIsEnough(p, r, log, dropped, now);
    dropped' := RecentIsSuffix(Times(log), now, p.windowSeconds);
    var recent := Recent(r.attempts, now, p.windowSeconds);
    var log' := log + [Attempt(now, Delay(p, |recent|))];
    assert Times(log') == Times(log) + [now];
    assert Times(log')[dropped'..] == recent + [now];
    assert forall j | 0 <= j < dropped' :: Times(log)[j] == log[j].at;
  }

  lemma AttemptIsGood(p: Policy, r: Record, log: seq<Attempt>, dropped: nat, now: int) returns (dropped': nat)
    requires ValidPolicy(p) && Good(p, r, log, dropped, now) && now >= r.nextAttempt
    requires |Recent(r.attempts, now, p.windowSeconds)| < p.maxAttempts
    ensures var recent := Recent(r.attempts, now, p.windowSeconds);
            Good(p, r.(attempts := recent + [now], nextAttempt := now + Delay(p, |recent|)),
                 log + [Attempt(now, Delay(p, |recent|))], dropped', now)
  {
    AttemptKeepsBounded(p, r, log, dropped, now);
    dropped' := AttemptIsRemembered(p, r, log, dropped, now);
  }

  ghost predicate Good(p: Policy, r: Record, log: seq<Attempt>, dropped: nat, now: int)
    requires ValidPolicy(p)
  {
    Bounded(p, log) && Remembers(p, r, log, dropped, now)
  }

  /** The unbounded future of a sandbox without attempts. */
  lemma ForgottenIsGood(p: Policy, r: Record, now: int)
    requires ValidPolicy(p) && r.attempts == []
    ensures Good(p, r, [], 0, now)
  {
  }

  /** The past of a sandbox: its recoveries since the last stability reset, and how many its record forgot. */
  datatype History = History(log: seq<Attempt>, dropped: nat)

  ghost predicate AllGood(p: Policy, rs: map<string, Record>, hs: map<string, History>, now: int)
    requires ValidPolicy(p)
  {
    rs.Keys == hs.Keys && forall x | x in rs :: Good(p, rs[x], hs[x].log, hs[x].dropped, now)
  }

  // -------------------------------------------------------------- the monitor

  /** The recover jobs a task is working on. */
  function Recovering(jobs: seq<Job>): set<nat>
  {
    set i: nat | i < |jobs| && jobs[i].kind.SandboxRecover? && Executing(jobs[i].status)
  }

  /** Only the monitor submits recover jobs. */
  predicate Quiet(steps: seq<Step>)
  {
    forall i | 0 <= i < |steps| && steps[i].Submit? :: !steps[i].job.kind.SandboxRecover?
  }

  /** Whatever else happens to a job, no step makes it one that recovers. */
  lemma QuietStep(s: Tables, step: Step)
    requires step.Submit? ==> !step.job.kind.SandboxRecover?
    ensures Recovering(Next(s, step).jobs) <= Recovering(s.jobs)
  {
  }

  lemma {:induction false} QuietRun(s: Tables, steps: seq<Step>)
    requires Quiet(steps)
    ensures Recovering(Jobs.Run(s, steps).jobs) <= Recovering(s.jobs)
    decreases steps
  {
    if steps != [] {
      QuietStep(s, steps[0]);
      assert Quiet(steps[1..]);
      QuietRun(Next(s, steps[0]), steps[1..]);
    }
  }

  /** One sandbox's turn in a pass: what is read of it and when, and what others do while it is read. */
  datatype Turn = Turn(sandbox: Sandbox, detail: Detail, request: string, now: int, meanwhile: seq<Step>)

  /** A pass over the sandboxes, after what others did since the last one. */
  datatype Round = Round(between: seq<Step>, turns: seq<Turn>)

  /** Clocks never run backwards, and only the monitor submits recover jobs. */
  ghost predicate Orderly(turns: seq<Turn>, now: int)
  {
    && (forall i | 0 <= i < |turns| :: Quiet(turns[i].meanwhile) && turns[i].now >= now)
    && (forall i, j | 0 <= i <= j < |turns| :: turns[i].now <= turns[j].now)
  }

  /** The time at which the next pass may start. */
  function After(turns: seq<Turn>, now: int): int
  {
    if turns == [] then now else turns[|turns| - 1].now
  }

  ghost predicate OrderlyRounds(rounds: seq<Round>, now: int)
    decreases rounds
  {
    rounds != [] ==>
      && Quiet(rounds[0].between) && Orderly(rounds[0].turns, now)
      && OrderlyRounds(rounds[1..], After(rounds[0].turns, now))
  }

  /** Proof that the sandbox runs nothing: now, or at the last healthy sample of this very container. */
  predicate ConfirmedIdle(s: Sandbox, d: Detail, r: Record)
  {
    || d.execution == Idle
    || (r.execution == Some(Idle) && r.container == s.container && r.generation.Some? && r.generation == d.generation)
  }

  class AutoRecovery {
    const store: JobStore
    const policy: Policy
    var records: map<string, Record>
    ghost var histories: map<string, History>

    function RecordOf(id: string): Record
      reads this`records
    {
      if id in records then records[id] else NO_RECORD
    }

    ghost function HistoryOf(id: string): History
      reads this`histories
    {
      if id in histories then histories[id] else History([], 0)
    }

    ghost function LogOf(id: string): seq<Attempt>
      reads this`histories
    {
      HistoryOf(id).log
    }

    /** Every sandbox's recoveries are bounded, and so are the recover jobs in progress. */
    ghost predicate Valid(now: int)
      reads this, store
    {
      && store.Valid() && ValidPolicy(policy)
      && AllGood(policy, records, histories, now)
      && |Recovering(store.jobs)| <= policy.maxParallel
    }

    constructor (store: JobStore, policy: Policy)
      requires store.Valid() && ValidPolicy(policy) && Recovering(store.jobs) == {}
      ensures Valid(0) && this.store == store && this.policy == policy
    {
      this.store, this.policy := store, policy;
      records, histories := map[], map[];
    }

    /** While a call is awaited, and between passes, other requests and jobs proceed. */
    method Others(steps: seq<Step>)
      requires store.Valid() && Quiet(steps)
      modifies store
      ensures store.Valid() && store.State() == Jobs.Run(old(store.State()), steps)
      ensures Recovering(store.jobs) <= old(Recovering(store.jobs))
    {
      AlwaysExclusive(store.State(), steps);
      QuietRun(store.State(), steps);
      var after := Jobs.Run(Tables(store.jobs, store.tests), steps);
      store.jobs, store.tests := after.jobs, after.tests;
    }

    lemma Known(id: string, now: int)
      requires Valid(now)
      ensures Good(policy, RecordOf(id), LogOf(id), HistoryOf(id).dropped, now)
    {
      if id !in records { ForgottenIsGood(policy, NO_RECORD, now); }
    }

    method Remember(id: string, r: Record, ghost h: History, ghost now: int)
      requires Valid(now) && Good(policy, r, h.log, h.dropped, now)
      modifies this
      ensures Valid(now)
      ensures RecordOf(id) == r && HistoryOf(id) == h
      ensures forall x | x != id :: RecordOf(x) == old(RecordOf(x)) && HistoryOf(x) == old(HistoryOf(x))
    {
      records := records[id := r];
      histories := histories[id := h];
    }

    /** A ready sandbox: failures are forgotten at once, attempts after a stable period. */
    method Observe(s: Sandbox, d: Detail, now: int)
      requires Valid(now) && s.health == Ready
      modifies this
      ensures Valid(now)
      ensures forall x | x != s.id :: LogOf(x) == old(LogOf(x)) && RecordOf(x) == old(RecordOf(x))
      ensures LogOf(s.id) == [] || LogOf(s.id) == old(LogOf(s.id))
      ensures LogOf(s.id) == [] && old(LogOf(s.id)) != [] ==>
                && old(RecordOf(s.id)).healthySince.Some?
                && now - old(RecordOf(s.id)).healthySince.value >= policy.stableSeconds
      ensures RecordOf(s.id).failures == 0 && RecordOf(s.id).healthySince.Some?
      ensures RecordOf(s.id).execution == Some(d.execution) && RecordOf(s.id).container == s.container
              && RecordOf(s.id).generation == d.generation
    {
      Known(s.id, now);
      var state := RecordOf(s.id);
      ghost var history := HistoryOf(s.id);
      var since := if state.healthySince.Some? then state.healthySince.value else now;
      state := state.(failures := 0, healthySince := Some(since), execution := Some(d.execution),
                      container := s.container, generation := d.generation);
      if now - since >= policy.stableSeconds {
        state := state.(attempts := [], nextAttempt := 0);
        history := History([], 0);
        ForgottenIsGood(policy, state, now);
      }
      Remember(s.id, state, history, now);
    }

    /** Threshold, backoff, window and idleness all admit a recovery now. */
    predicate Due(s: Sandbox, d: Detail, r: Record, now: int)
    {
      && r.failures + 1 >= policy.failureThreshold && now >= r.nextAttempt
      && |Recent(r.attempts, now, policy.windowSeconds)| < policy.maxAttempts
      && ConfirmedIdle(s, d, r)
    }

    /** The store takes a new recover job for this sandbox. */
    ghost predicate Admitted(s: Sandbox, request: string)
      reads store
    {
      !Used(store.State(), request) && !Pinned(store.State(), s.agent) && !Held(store.State(), s.agent)
    }

    /** An unhealthy sandbox: counted, and recovered if threshold, backoff, window, idleness and parallelism allow. */
    method Consider(s: Sandbox, d: Detail, request: string, now: int, active: set<nat>)
      returns (active': set<nat>, stop: bool)
      requires Valid(now) && Recovering(store.jobs) <= active && |active| <= policy.maxParallel
      modifies this, store
      ensures Valid(now) && Recovering(store.jobs) <= active' && |active'| <= policy.maxParallel
      ensures forall x | x != s.id :: LogOf(x) == old(LogOf(x)) && RecordOf(x) == old(RecordOf(x))
      ensures LogOf(s.id) == old(LogOf(s.id))
              || (exists a :: LogOf(s.id) == old(LogOf(s.id)) + [a] && a.at == now)
      ensures !Due(s, d, old(RecordOf(s.id)), now) ==>
                LogOf(s.id) == old(LogOf(s.id)) && !stop && store.jobs == old(store.jobs)
      ensures Due(s, d, old(RecordOf(s.id)), now) ==> (stop <==> |active| >= policy.maxParallel)
      ensures Due(s, d, old(RecordOf(s.id)), now) && !stop ==>
                (LogOf(s.id) != old(LogOf(s.id)) <==> old(Admitted(s, request)))
      ensures LogOf(s.id) == old(LogOf(s.id)) <==> store.jobs == old(store.jobs)
      ensures RecordOf(s.id).failures == old(RecordOf(s.id)).failures + 1 && RecordOf(s.id).healthySince == None
    {
      active', stop := active, false;
      Known(s.id, now);
      var state := RecordOf(s.id);
      Remember(s.id, state.(failures := state.failures + 1, healthySince := None), HistoryOf(s.id), now);
      if !Due(s, d, state, now) { return; }
      if |active| >= policy.maxParallel { stop := true; return; }
      active' := Recover(s, request, now, active);
    }

    /** Queues the recover job and books the attempt, unless the store refuses. */
    method Recover(s: Sandbox, request: string, now: int, active: set<nat>) returns (active': set<nat>)
      requires Valid(now) && Recovering(store.jobs) <= active && |active| < policy.maxParallel
      requires now >= RecordOf(s.id).nextAttempt
      requires |Recent(RecordOf(s.id).attempts, now, policy.windowSeconds)| < policy.maxAttempts
      modifies this, store
      ensures Valid(now) && Recovering(store.jobs) <= active' && |active'| <= policy.maxParallel
      ensures forall x | x != s.id :: HistoryOf(x) == old(HistoryOf(x)) && RecordOf(x) == old(RecordOf(x))
      ensures LogOf(s.id) == old(LogOf(s.id)) <==> store.jobs == old(store.jobs)
      ensures LogOf(s.id) != old(LogOf(s.id)) <==> old(Admitted(s, request))
      ensures LogOf(s.id) == old(LogOf(s.id))
              || (exists a :: LogOf(s.id) == old(LogOf(s.id)) + [a] && a.at == now)
      ensures RecordOf(s.id).failures == old(RecordOf(s.id)).failures
              && RecordOf(s.id).healthySince == old(RecordOf(s.id)).healthySince
    {
      active' := active;
      Known(s.id, now);
      var state := RecordOf(s.id);
      var attempts := Recent(state.attempts, now, policy.windowSeconds);
      ghost var history := HistoryOf(s.id);
      var created := Queue(s, request, active);
      if created.None? { return; }
      active' := active + {created.value};
      var delay := Delay(policy, |attempts|);
      ghost var dropped := AttemptIsGood(policy, state, history.log, history.dropped, now);
      Remember(s.id, state.(attempts := attempts + [now], nextAttempt := now + delay),
               History(history.log + [Attempt(now, delay)], dropped), now);
      assert LogOf(s.id) == history.log + [Attempt(now, delay)];
    }

    /** Submits the recover job; None if the store refused it or knew the request. */
    method Queue(s: Sandbox, request: string, active: set<nat>) returns (id: Option<nat>)
      requires store.Valid() && Recovering(store.jobs) <= active
      modifies store
      ensures store.Valid()
      ensures id.None? <==> store.jobs == old(store.jobs)
      ensures id.Some? <==> old(Admitted(s, request))
      ensures id.None? ==> Recovering(store.jobs) <= active && |Recovering(store.jobs)| <= |active|
      ensures id.Some? ==> Recovering(store.jobs) <= active + {id.value} && id.value in Recovering(store.jobs)
                           && |Recovering(store.jobs)| <= |active| + 1
    {
      var submitted := store.Submit(SandboxRecover, s.id, request, request, s.agent);
      if submitted.Failure? || !submitted.value.1 {
        SubsetCard(Recovering(store.jobs), active);
        return None;
      }
      SubsetCard(Recovering(store.jobs), active + {|store.jobs| - 1});
      id := Some(|store.jobs| - 1);
    }

    /** The body of the loop in `tick`, for one sandbox. */
    method Visit(s: Sandbox, d: Detail, request: string, now: int, active: set<nat>, meanwhile: seq<Step>)
      returns (active': set<nat>, stop: bool)
      requires Quiet(meanwhile)
      requires Valid(now) && Recovering(store.jobs) <= active && |active| <= policy.maxParallel
      modifies this, store
      ensures Valid(now) && Recovering(store.jobs) <= active' && |active'| <= policy.maxParallel
      ensures forall x | x != s.id :: LogOf(x) == old(LogOf(x)) && RecordOf(x) == old(RecordOf(x))
      // A log is forgotten only after a stable period ...
      ensures LogOf(s.id) == [] && old(LogOf(s.id)) != [] ==>
                s.health == Ready && old(RecordOf(s.id)).healthySince.Some?
                && now - old(RecordOf(s.id)).healthySince.value >= policy.stableSeconds
      // ... and otherwise only grows, by one attempt, on evidence.
      ensures LogOf(s.id) !in {[], old(LogOf(s.id))} ==>
                && (exists a :: LogOf(s.id) == old(LogOf(s.id)) + [a] && a.at == now)
                && s.health in {Unhealthy, Missing} && !s.loadTest && !s.retired && !s.stopped && s.container.Some?
                && old(RecordOf(s.id)).failures + 1 >= policy.failureThreshold
                && ConfirmedIdle(s, d, old(RecordOf(s.id)))
    {
      active', stop := active, false;
      if s.loadTest || s.container.None? || (s.agent in policy.agentEnabled && !policy.agentEnabled[s.agent]) {
        return;
      }
      if s.retired || s.stopped { return; }
      for i := 0 to |store.jobs| {
        var j := store.jobs[i];
        if j.scope in {s.agent, EVERYTHING} && (Executing(j.status) || j.status == NeedsRecovery) { return; }
      }
      Others(meanwhile);
      SubsetCard(Recovering(store.jobs), active);
      if s.health == Ready {
        Observe(s, d, now);
      } else if s.health in {Unhealthy, Missing} {
        active', stop := Consider(s, d, request, now, active);
      }
    }

    /** One pass over all sandboxes. */
    method Tick(turns: seq<Turn>, ghost start: int)
      requires Valid(start) && Orderly(turns, start)
      modifies this, store
      ensures Valid(After(turns, start))
    {
      if !policy.enabled {
        Later(start, After(turns, start));
        return;
      }
      var active := Recovering(store.jobs);
      var stop := false;
      var n := 0;
      ghost var now := start;
      while n < |turns| && !stop
        invariant 0 <= n <= |turns| && Valid(now) && now == After(turns[..n], start)
        invariant Recovering(store.jobs) <= active && |active| <= policy.maxParallel
      {
        var t := turns[n];
        Later(now, t.now);
        active, stop := Visit(t.sandbox, t.detail, t.request, t.now, active, t.meanwhile);
        now, n := t.now, n + 1;
      }
      Later(now, After(turns, start));
    }

    /**
     `loop`: passes, between and within which other requests, jobs and restarts proceed. At every point the
     histories are bounded and at most `maxParallel` recover jobs execute.
     */
    method Loop(rounds: seq<Round>, ghost start: int) returns (ghost end: int)
      requires Valid(start) && OrderlyRounds(rounds, start)
      modifies this, store
      ensures start <= end && Valid(end)
    {
      end := start;
      for n := 0 to |rounds|
        invariant start <= end && Valid(end) && OrderlyRounds(rounds[n..], end)
      {
        assert rounds[n..][1..] == rounds[n + 1..];
        ghost var before := Recovering(store.jobs);
        Others(rounds[n].between);
        SubsetCard(Recovering(store.jobs), before);
        Tick(rounds[n].turns, end);
        end := After(rounds[n].turns, end);
      }
    }

    lemma Later(now: int, later: int)
      requires Valid(now) && now <= later
      ensures Valid(later)
    {
      assert forall x | x in records :: Good(policy, records[x], histories[x].log, histories[x].dropped, now);
    }
  }

  lemma {:induction false} SubsetCard<T>(a: set<T>, b: set<T>)
    requires a <= b
    ensures |a| <= |b|
  {
    assert b == a + (b - a);
  }
}
