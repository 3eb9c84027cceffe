/**
 operations/src/store.py and operations/src/load_test_store.py: job leases, retried deletions
 and load tests. The two tables share one database, so every call is one transaction.
 */
module Jobs {
  import opened Outcomes
  import opened JobStates

  const EVERYTHING: string := "*"

  datatype Kind = AgentDelete | SandboxRecover | OtherKind(name: string)

  datatype Job = Job(
    kind: Kind,
    target: string,
    scope: string,
    payload: string,
    requestId: string,
    status: Status,
    retryRequestId: Option<string>)

  datatype TestStatus = TestQueued | Preparing | TestRunning | Cancelling | Over

  /** The asyncio task of a load test: before its status check, past it, or done. */
  datatype Runner = Pending | InProgress | Ended

  /**
   `agents`: whose users the test has; `cleaning`: those with a user in state "cleaning"; `runner`: not a column,
   but the task that `LoadTests` keeps for the row.
   */
  datatype LoadTest = LoadTest(
    requestId: string,
    fingerprint: string,
    status: TestStatus,
    agents: set<string>,
    cleaning: set<string>,
    runner: Runner)

  datatype Tables = Tables(jobs: seq<Job>, tests: seq<LoadTest>)

  datatype Step =
    | Submit(job: Job)
    | Retry(id: nat, request: string, payload: string)
    | Checkpoint(id: nat, status: Status)
    | Cancel(id: nat)
    | Close(id: nat, status: Status)
    | Restart
    | CreateTest(test: LoadTest)
    | BeginTest(id: nat)                        // `run` has the lock and the catalog
    | WriteTest(id: nat, phase: TestStatus)     // `run` writes a status
    | AbortTest(id: nat)                        // `run` leaves through an exception
    | CancelTest(id: nat)
    | CleanTest(id: nat, cleaning: set<string>)
    | CleanedUser(id: nat, cleaning: set<string>)

  const EMPTY := Tables([], [])

  predicate Active(s: TestStatus)
  {
    s != Over
  }

  predicate Covers(scope: string, other: string)
  {
    scope == EVERYTHING || other == scope || other == EVERYTHING
  }

  predicate Touches(scope: string, agents: set<string>)
  {
    scope == EVERYTHING || scope in agents
  }

  // ------------------------------------------------------------------ guards

  /** A load test pins this scope: `submit` refuses. */
  predicate PinnedBy(t: LoadTest, scope: string)
  {
    if scope == EVERYTHING then Active(t.status)
    else (scope in t.agents && Active(t.status)) || scope in t.cleaning
  }

  predicate Pinned(s: Tables, scope: string)
  {
    exists i :: 0 <= i < |s.tests| && PinnedBy(s.tests[i], scope)
  }

  predicate Held(s: Tables, scope: string)
  {
    exists i :: 0 <= i < |s.jobs| && Holding(s.jobs[i].status) && Covers(scope, s.jobs[i].scope)
  }

  predicate Used(s: Tables, request: string)
  {
    exists i :: 0 <= i < |s.jobs| && s.jobs[i].requestId == request
  }

  predicate Retriable(s: Tables, id: nat)
  {
    && id < |s.jobs| && s.jobs[id].kind.AgentDelete?
    && s.jobs[id].status in {Failed, NeedsRecovery, Interrupted}
    && forall i | 0 <= i < |s.jobs| && i != id ::
         !(Holding(s.jobs[i].status) && s.jobs[i].scope in {s.jobs[id].scope, EVERYTHING})
  }

  /** `create` looks at the leases of jobs, except interrupted ones. */
  predicate Startable(s: Tables, agents: set<string>)
  {
    && (forall i | 0 <= i < |s.tests| :: !Active(s.tests[i].status))
    && (forall i | 0 <= i < |s.jobs| ::
          !((Executing(s.jobs[i].status) || s.jobs[i].status.NeedsRecovery?) && Touches(s.jobs[i].scope, agents)))
  }

  // ------------------------------------------------------------- transitions

  function Next(s: Tables, step: Step): Tables
  {
    match step
    case Submit(job) =>
      // Only queued rows are inserted; deletions are never submitted for every agent at once.
      if job.status.Queued? && (job.kind.AgentDelete? ==> job.scope != EVERYTHING)
         && !Used(s, job.requestId) && !Pinned(s, job.scope) && !Held(s, job.scope)
      then s.(jobs := s.jobs + [job]) else s
    case Retry(id, request, payload) =>
      if Retriable(s, id) && s.jobs[id].retryRequestId != Some(request)
      then s.(jobs := s.jobs[id := s.jobs[id].(status := Queued, payload := payload, retryRequestId := Some(request))])
      else s
    case Checkpoint(id, status) =>
      if id < |s.jobs| && Executing(status) && Executing(s.jobs[id].status)
      then s.(jobs := s.jobs[id := s.jobs[id].(status := status)]) else s
    case Cancel(id) =>
      if id < |s.jobs| && s.jobs[id].status in {Queued, Running, Waiting, Cancelled} && !s.jobs[id].kind.AgentDelete?
      then s.(jobs := s.jobs[id := s.jobs[id].(status := Cancelled)]) else s
    case Close(id, status) =>
      if id < |s.jobs| && !Executing(status)
      then s.(jobs := s.jobs[id := s.jobs[id].(status := status)]) else s
    case Restart =>
      Tables(seq(|s.jobs|, i requires 0 <= i < |s.jobs| => Restarted(s.jobs[i])),
             seq(|s.tests|, i requires 0 <= i < |s.tests| => s.tests[i].(status := Over, runner := Ended)))
    case CreateTest(test) =>
      if test.status.TestQueued? && test.cleaning == {} && test.runner.Pending? && Startable(s, test.agents)
      then s.(tests := s.tests + [test]) else s
    case BeginTest(id) =>
      if id < |s.tests| && s.tests[id].runner.Pending?
      then s.(tests := s.tests[id :=
        if Active(s.tests[id].status) then s.tests[id].(status := Preparing, runner := InProgress)
        else s.tests[id].(runner := Ended)]) else s
    case WriteTest(id, phase) =>
      if id < |s.tests| && s.tests[id].runner.InProgress?
      then s.(tests := s.tests[id :=
        s.tests[id].(status := phase, runner := if Active(phase) then InProgress else Ended)]) else s
    case AbortTest(id) =>
      if id < |s.tests| && !s.tests[id].runner.Ended?
      then s.(tests := s.tests[id := s.tests[id].(status := Over, runner := Ended)]) else s
    case CancelTest(id) =>
      if id < |s.tests| && Active(s.tests[id].status)
      then s.(tests := s.tests[id :=
        s.tests[id].(status := if s.tests[id].runner.Ended? then Over else Cancelling)]) else s
    case CleanTest(id, cleaning) =>
      if id < |s.tests| && !Active(s.tests[id].status) && s.tests[id].runner.Ended? && cleaning <= s.tests[id].agents
      then s.(tests := s.tests[id := s.tests[id].(cleaning := cleaning)]) else s
    case CleanedUser(id, cleaning) =>
      if id < |s.tests| && cleaning <= s.tests[id].cleaning
      then s.(tests := s.tests[id := s.tests[id].(cleaning := cleaning)]) else s
  }

  function Restarted(j: Job): Job
  {
    if j.status in {Running, Waiting, Applying} then j.(status := NeedsRecovery) else j
  }

  function Run(s: Tables, steps: seq<Step>): Tables
    decreases steps
  {
    if steps == [] then s else Run(Next(s, steps[0]), steps[1..])
  }

  // -------------------------------------------------------------- invariants

  /** At most one executing job per scope, and one on "*" excludes every other. */
  ghost predicate Exclusive(jobs: seq<Job>)
  {
    forall i, j | 0 <= i < j < |jobs| && Executing(jobs[i].status) && Executing(jobs[j].status) ::
      jobs[i].scope != jobs[j].scope && jobs[i].scope != EVERYTHING && jobs[j].scope != EVERYTHING
  }

  ghost predicate OneTest(tests: seq<LoadTest>)
  {
    forall i, j | 0 <= i < j < |tests| :: !(Active(tests[i].status) && Active(tests[j].status))
  }

  /** No executing job touches an agent of an active load test. */
  ghost predicate Apart(s: Tables)
  {
    forall i, t | 0 <= i < |s.jobs| && 0 <= t < |s.tests| && Executing(s.jobs[i].status) && Active(s.tests[t].status) ::
      !Touches(s.jobs[i].scope, s.tests[t].agents)
  }

  ghost predicate Rows(s: Tables)
  {
    && (forall i | 0 <= i < |s.jobs| && s.jobs[i].kind.AgentDelete? :: s.jobs[i].scope != EVERYTHING)
    && (forall i, j | 0 <= i < j < |s.jobs| :: s.jobs[i].requestId != s.jobs[j].requestId)
  }

  /** Whoever still runs a test runs an active one. */
  ghost predicate RunnersActive(tests: seq<LoadTest>)
  {
    forall t | 0 <= t < |tests| && !tests[t].runner.Ended? :: Active(tests[t].status)
  }

  ghost predicate Inv(s: Tables)
  {
    Rows(s) && Exclusive(s.jobs) && OneTest(s.tests) && RunnersActive(s.tests)
  }

  lemma RetryKeepsExclusive(s: Tables, step: Step)
    requires Inv(s) && step.Retry?
    ensures Inv(Next(s, step))
  {
    var d := Next(s, step);
    if d != s {
      assert d.jobs[step.id].scope == s.jobs[step.id].scope != EVERYTHING;
      assert forall i | 0 <= i < |s.jobs| && i != step.id && Executing(s.jobs[i].status) ::
          s.jobs[i].scope != s.jobs[step.id].scope && s.jobs[i].scope != EVERYTHING;
    }
  }

  lemma SubmitKeepsExclusive(s: Tables, step: Step)
    requires Inv(s) && step.Submit?
    ensures Inv(Next(s, step))
    ensures Apart(s) ==> Apart(Next(s, step))
  {
    var d := Next(s, step);
    if d != s {
      assert forall i | 0 <= i < |s.jobs| && Executing(s.jobs[i].status) :: !Covers(step.job.scope, s.jobs[i].scope);
      assert forall t | 0 <= t < |s.tests| :: !PinnedBy(s.tests[t], step.job.scope);
    }
  }

  /** `d` has the rows of `s`, and no job or load test came to life. */
  ghost predicate Shrinks(s: Tables, d: Tables)
  {
    && |d.jobs| == |s.jobs| && |d.tests| == |s.tests|
    && (forall i | 0 <= i < |s.jobs| ::
          && d.jobs[i].(status := s.jobs[i].status) == s.jobs[i]
          && (Executing(d.jobs[i].status) ==> Executing(s.jobs[i].status)))
    && (forall t | 0 <= t < |s.tests| ::
          && d.tests[t].agents == s.tests[t].agents
          && (Active(d.tests[t].status) ==> Active(s.tests[t].status)))
    && RunnersActive(d.tests)
  }

  lemma ShrinkKeepsInv(s: Tables, d: Tables)
    requires Inv(s) && Shrinks(s, d)
    ensures Inv(d)
    ensures Apart(s) ==> Apart(d)
  {
  }

  lemma CreateKeepsInv(s: Tables, step: Step)
    requires Inv(s) && step.CreateTest?
    ensures Inv(Next(s, step))
    ensures Apart(s) ==> Apart(Next(s, step))
  {
  }

  /** Steps on a row that exists bring nothing to life. */
  lemma OthersShrink(s: Tables, step: Step)
    requires Inv(s) && !step.Submit? && !step.Retry? && !step.CreateTest?
    ensures Shrinks(s, Next(s, step))
  {
  }

  lemma NextKeepsInv(s: Tables, step: Step)
    requires Inv(s)
    ensures Inv(Next(s, step))
    ensures !step.Retry? && Apart(s) ==> Apart(Next(s, step))
  {
    match step
    case Submit(_) => SubmitKeepsExclusive(s, step);
    case Retry(_, _, _) => RetryKeepsExclusive(s, step);
    case CreateTest(_) => CreateKeepsInv(s, step);
    case _ =>
      OthersShrink(s, step);
      ShrinkKeepsInv(s, Next(s, step));
  }

  /** Main result: exclusion of jobs and of load tests in every reachable store. */
  lemma {:induction false} AlwaysExclusive(s: Tables, steps: seq<Step>)
    requires Inv(s)
    ensures Inv(Run(s, steps))
    decreases steps
  {
    if steps != [] {
      NextKeepsInv(s, steps[0]);
      AlwaysExclusive(Next(s, steps[0]), steps[1..]);
    }
  }

  /** Exactly when a retried deletion keeps jobs and load tests apart. */
  lemma RetryApartIff(s: Tables, step: Step)
    requires Inv(s) && Apart(s) && step.Retry? && Next(s, step) != s
    ensures Apart(Next(s, step)) <==>
              forall t | 0 <= t < |s.tests| ::
                !(Active(s.tests[t].status) && s.jobs[step.id].scope in s.tests[t].agents)
  {
    var d := Next(s, step);
    assert d.jobs[step.id].status == Queued && d.tests == s.tests;
    assert forall t | 0 <= t < |s.tests| && Active(s.tests[t].status) && s.jobs[step.id].scope in s.tests[t].agents ::
        Touches(d.jobs[step.id].scope, d.tests[t].agents);
  }

  /** A requeued deletion meets no active load test with its scope. */
  predicate Careful(s: Tables, step: Step)
  {
    step.Retry? && Next(s, step) != s ==>
      forall t | 0 <= t < |s.tests| :: !(Active(s.tests[t].status) && s.jobs[step.id].scope in s.tests[t].agents)
  }

  predicate CarefulRun(s: Tables, steps: seq<Step>)
    decreases steps
  {
    steps == [] || (Careful(s, steps[0]) && CarefulRun(Next(s, steps[0]), steps[1..]))
  }

  ghost predicate ApartThroughout(s: Tables, steps: seq<Step>)
    decreases steps
  {
    Apart(s) && (steps == [] || ApartThroughout(Next(s, steps[0]), steps[1..]))
  }

  /** Exactly when no job ever executes on an agent under load test, in any history. */
  lemma {:induction false} AlwaysApart(s: Tables, steps: seq<Step>)
    requires Inv(s) && Apart(s)
    ensures ApartThroughout(s, steps) <==> CarefulRun(s, steps)
    decreases steps
  {
    if steps != [] {
      var d := Next(s, steps[0]);
      NextKeepsInv(s, steps[0]);
      if steps[0].Retry? && d != s { RetryApartIff(s, steps[0]); }
      if Apart(d) { AlwaysApart(d, steps[1..]); } else { assert !ApartThroughout(d, steps[1..]); }
    }
  }

  lemma TestStaysOver(s: Tables, step: Step, t: nat)
    requires Inv(s) && t < |s.tests| && !Active(s.tests[t].status)
    ensures t < |Next(s, step).tests| && !Active(Next(s, step).tests[t].status)
  {
  }

  /**
   A load test that is over never becomes active again, whatever its task, a cancellation or a
   restart still writes.
   */
  lemma {:induction false} NeverRevived(s: Tables, steps: seq<Step>, t: nat)
    requires Inv(s) && t < |s.tests| && !Active(s.tests[t].status)
    ensures t < |Run(s, steps).tests| && !Active(Run(s, steps).tests[t].status)
    decreases steps
  {
    if steps != [] {
      NextKeepsInv(s, steps[0]);
      TestStaysOver(s, steps[0], t);
      NeverRevived(Next(s, steps[0]), steps[1..], t);
    }
  }

  /** A store in which a retried deletion executes on an agent under load test. */
  lemma RetryIgnoresLoadTests()
    ensures var job := Job(AgentDelete, "a", "a", "", "r", Queued, None);
            var steps := [Submit(job), Close(0, Failed), CreateTest(LoadTest("t", "", TestQueued, {"a"}, {}, Pending)),
                          Retry(0, "again", "")];
            !Apart(Run(EMPTY, steps))
  {
    var job := Job(AgentDelete, "a", "a", "", "r", Queued, None);
    var test := LoadTest("t", "", TestQueued, {"a"}, {}, Pending);
    var s1 := Next(EMPTY, Submit(job));
    assert s1 == Tables([job], []);
    var s2 := Next(s1, Close(0, Failed));
    assert s2 == Tables([job.(status := Failed)], []);
    var s3 := Next(s2, CreateTest(test));
    assert s3 == Tables([job.(status := Failed)], [test]);
    var s4 := Next(s3, Retry(0, "again", ""));
    assert Executing(s4.jobs[0].status) && Active(s4.tests[0].status) && Touches("a", s4.tests[0].agents);
    var steps := [Submit(job), Close(0, Failed), CreateTest(test), Retry(0, "again", "")];
    assert Run(EMPTY, steps) == Run(s1, steps[1..]);
    assert Run(s1, steps[1..]) == Run(s2, steps[1..][1..]);
    assert Run(s2, steps[1..][1..]) == Run(s3, steps[1..][1..][1..]);
    assert Run(s3, steps[1..][1..][1..]) == Run(s4, []);
  }

  /** The database behind `Store` and `LoadTestStore`. */
  class JobStore {
    var jobs: seq<Job>
    var tests: seq<LoadTest>

    ghost function State(): Tables
      reads this
    {
      Tables(jobs, tests)
    }

    ghost predicate Valid()
      reads this
    {
      Inv(State())
    }

    constructor ()
      ensures Valid() && State() == EMPTY
    {
      jobs, tests := [], [];
    }

    /** Replays a known request, refuses a pinned or held scope, else queues the job. */
    method Submit(kind: Kind, target: string, payload: string, requestId: string, scope: string)
      returns (r: Result<(nat, bool)>)
      requires Valid() && (kind.AgentDelete? ==> scope != EVERYTHING)
      modifies this
      ensures Valid() && (old(Apart(State())) ==> Apart(State()))
      ensures State() == Next(old(State()), Step.Submit(Job(kind, target, scope, payload, requestId, Queued, None)))
      ensures r.Success? ==> r.value.0 < |jobs| && jobs[r.value.0].requestId == requestId
      ensures r.Success? ==> jobs[r.value.0].kind == kind && jobs[r.value.0].target == target
                             && jobs[r.value.0].payload == payload
      ensures r.Success? && r.value.1 <==>
                jobs == old(jobs) + [Job(kind, target, scope, payload, requestId, Queued, None)]
      ensures Used(old(State()), requestId) ==> (r.Success? ==> !r.value.1)
      ensures !Used(old(State()), requestId) ==>
                (r.Success? <==> !Pinned(old(State()), scope) && !Held(old(State()), scope))
    {
      ghost var before := State();
      for i := 0 to |jobs|
        invariant forall k | 0 <= k < i :: jobs[k].requestId != requestId
      {
        if jobs[i].requestId == requestId {
          if jobs[i].kind != kind || jobs[i].target != target || jobs[i].payload != payload { return Failure(409); }
          return Success((i, false));
        }
      }
      for t := 0 to |tests|
        invariant forall k | 0 <= k < t :: !PinnedBy(tests[k], scope)
      {
        if PinnedBy(tests[t], scope) { return Failure(409); }
      }
      for i := 0 to |jobs|
        invariant forall k | 0 <= k < i :: !(Holding(jobs[k].status) && Covers(scope, jobs[k].scope))
      {
        if Holding(jobs[i].status) && Covers(scope, jobs[i].scope) { return Failure(409); }
      }
      var job := Job(kind, target, scope, payload, requestId, Queued, None);
      NextKeepsInv(before, Step.Submit(job));
      jobs := jobs + [job];
      r := Success((|jobs| - 1, true));
    }

    method RetryDeletion(id: nat, request: string, payload: string) returns (r: Result<bool>)
      requires Valid()
      modifies this
      ensures Valid()
      ensures State() == Next(old(State()), Retry(id, request, payload))
      ensures r.Success? && r.value <==> Retriable(old(State()), id) && old(jobs)[id].retryRequestId != Some(request)
      ensures r.Success? && !r.value ==>
                id < |jobs| && jobs[id].retryRequestId == Some(request) && jobs[id].payload == payload
    {
      ghost var before := State();
      NextKeepsInv(before, Retry(id, request, payload));
      if id >= |jobs| { return Failure(404); }
      var job := jobs[id];
      if job.retryRequestId == Some(request) {
        if job.payload != payload { return Failure(409); }
        return Success(false);
      }
      if !job.kind.AgentDelete? || job.status !in {Failed, NeedsRecovery, Interrupted} { return Failure(409); }
      for i := 0 to |jobs|
        invariant forall k | 0 <= k < i && k != id ::
                    !(Holding(jobs[k].status) && jobs[k].scope in {job.scope, EVERYTHING})
      {
        if i != id && Holding(jobs[i].status) && jobs[i].scope in {job.scope, EVERYTHING} { return Failure(409); }
      }
      jobs := jobs[id := job.(status := Queued, payload := payload, retryRequestId := Some(request))];
      r := Success(true);
    }

    /** `transition`: the status changes only from an allowed one. */
    method Transition(id: nat, allowed: set<Status>, status: Status) returns (r: Result<()>)
      requires Valid()
      requires Executing(status) ==> forall a | a in allowed :: Executing(a)
      modifies this`jobs
      ensures Valid() && (old(Apart(State())) ==> Apart(State()))
      ensures r.Success? <==> id < |old(jobs)| && old(jobs)[id].status in allowed
      ensures jobs == if r.Success? then old(jobs)[id := old(jobs)[id].(status := status)] else old(jobs)
    {
      if id >= |jobs| { return Failure(404); }
      if jobs[id].status !in allowed { return Failure(409); }
      ghost var before := State();
      jobs := jobs[id := jobs[id].(status := status)];
      ShrinkKeepsInv(before, State());
      r := Success(());
    }

    /** `update` with the status a finished, failed or uncertain run writes. */
    method Update(id: nat, status: Status)
      requires Valid() && id < |jobs| && !Executing(status)
      modifies this`jobs
      ensures Valid() && (old(Apart(State())) ==> Apart(State()))
      ensures jobs == old(jobs)[id := old(jobs)[id].(status := status)]
    {
      ghost var before := State();
      jobs := jobs[id := jobs[id].(status := status)];
      ShrinkKeepsInv(before, State());
    }

    method CreateTest(requestId: string, fingerprint: string, agents: set<string>, selectable: bool)
      returns (r: Result<(nat, bool)>)
      requires Valid()
      modifies this`tests
      ensures Valid() && (old(Apart(State())) ==> Apart(State()))
      ensures tests == old(tests) ||
                tests == old(tests) + [LoadTest(requestId, fingerprint, TestQueued, agents, {}, Pending)]
      ensures r.Success? ==>
                r.value.0 < |tests| && tests[r.value.0].requestId == requestId &&
                  tests[r.value.0].fingerprint == fingerprint
      ensures r.Success? && r.value.1 ==> Startable(old(State()), agents) && tests != old(tests)
      ensures (forall t | 0 <= t < |old(tests)| :: old(tests)[t].requestId != requestId) ==>
                (r.Success? <==> Startable(old(State()), agents) && selectable)
    {
      for t := 0 to |tests|
        invariant forall k | 0 <= k < t :: tests[k].requestId != requestId
      {
        if tests[t].requestId == requestId {
          if tests[t].fingerprint != fingerprint { return Failure(409); }
          return Success((t, false));
        }
      }
      for t := 0 to |tests|
        invariant forall k | 0 <= k < t :: !Active(tests[k].status)
      {
        if Active(tests[t].status) { return Failure(409); }
      }
      for i := 0 to |jobs|
        invariant forall k | 0 <= k < i ::
                    !((Executing(jobs[k].status) || jobs[k].status.NeedsRecovery?) && Touches(jobs[k].scope, agents))
      {
        if (Executing(jobs[i].status) || jobs[i].status.NeedsRecovery?) && Touches(jobs[i].scope, agents) {
          return Failure(409);
        }
      }
      if !selectable { return Failure(409); }  // validate_agents
      var test := LoadTest(requestId, fingerprint, TestQueued, agents, {}, Pending);
      NextKeepsInv(State(), Step.CreateTest(test));
      tests := tests + [test];
      r := Success((|tests| - 1, true));
    }

    /** `LoadTestStore.update` with a status: any status can be written. */
    method Write(id: nat, status: TestStatus, runner: Runner)
      requires id < |tests|
      modifies this`tests
      ensures tests == old(tests)[id := old(tests)[id].(status := status, runner := runner)]
    {
      tests := tests[id := tests[id].(status := status, runner := runner)];
    }

    /** `LoadTests.run` once it has the lock and the catalog. */
    method BeginTest(id: nat)
      requires Valid() && id < |tests| && tests[id].runner.Pending?
      modifies this`tests
      ensures Valid() && (old(Apart(State())) ==> Apart(State()))
      ensures State() == Next(old(State()), Step.BeginTest(id))
      ensures tests[id].runner.InProgress? && tests[id].status == Preparing  // nobody ended it meanwhile
    {
      NextKeepsInv(State(), Step.BeginTest(id));
      var status := tests[id].status;
      var goes := Active(status);
      Write(id, if goes then Preparing else status, if goes then InProgress else Ended);
    }

    /** `LoadTests.run` goes on: it writes "running", or how the test ended. */
    method WriteTest(id: nat, phase: TestStatus)
      requires Valid() && id < |tests| && tests[id].runner.InProgress?
      modifies this`tests
      ensures Valid() && (old(Apart(State())) ==> Apart(State()))
      ensures State() == Next(old(State()), Step.WriteTest(id, phase)) && Active(old(tests)[id].status)
    {
      NextKeepsInv(State(), Step.WriteTest(id, phase));
      Write(id, phase, if Active(phase) then InProgress else Ended);
    }

    /** `LoadTests.cancel`: the task is told to stop, or the row closed if there is no task. */
    method CancelTest(id: nat)
      requires Valid() && id < |tests|
      modifies this`tests
      ensures Valid() && (old(Apart(State())) ==> Apart(State()))
      ensures State() == Next(old(State()), Step.CancelTest(id))
    {
      NextKeepsInv(State(), Step.CancelTest(id));
      if !Active(tests[id].status) { return; }
      if !tests[id].runner.Ended? {
        Write(id, Cancelling, tests[id].runner);
      } else {
        Write(id, Over, Ended);
      }
    }

    /** Service start: what was in progress is interrupted, what was queued will be started. */
    method RestartService()
      requires Valid()
      modifies this
      ensures Valid() && (old(Apart(State())) ==> Apart(State()))
      ensures State() == Next(old(State()), Restart)
    {
      ghost var before := State();
      for t := 0 to |tests|
        invariant |tests| == |before.tests| && jobs == before.jobs
        invariant forall k | 0 <= k < |tests| ::
                    tests[k] == if k < t then before.tests[k].(status := Over, runner := Ended) else before.tests[k]
      {
        tests := tests[t := tests[t].(runner := Ended)];  // no task survives the process
        if Active(tests[t].status) { tests := tests[t := tests[t].(status := Over)]; }
      }
      for i := 0 to |jobs|
        invariant |jobs| == |before.jobs| && |tests| == |before.tests|
        invariant forall k | 0 <= k < |tests| :: tests[k] == before.tests[k].(status := Over, runner := Ended)
        invariant forall k | 0 <= k < |jobs| :: jobs[k] == if k < i then Restarted(before.jobs[k]) else before.jobs[k]
      {
        if jobs[i].status in {Running, Waiting, Applying} { jobs := jobs[i := jobs[i].(status := NeedsRecovery)]; }
      }
      assert jobs == Next(before, Restart).jobs && tests == Next(before, Restart).tests;
      NextKeepsInv(before, Restart);
    }
  }
}
