/**
 The publication saga: operations/main.py, `Workflows.run` and `Workflows.reconcile` for the
 jobs `models.apply` and `agent.apply`.

 Every remote call ends in one of the ways of `Fate`. Python's exceptions are the failure
 type `Try`, so `:-` leaves a method where the source's `try` body is left.
 */
module Publication {
  import opened Outcomes
  import opened JobStates
  import opened Releases
  import opened ModelGateway
  import opened SandboxStaging

  datatype Exception = HttpException | OtherException | CancelledError | Killed

  datatype Try<+T> = Returned(value: T) | Raised(error: Exception) {
    predicate IsFailure() { Raised? }

    function PropagateFailure<U>(): Try<U>
      requires Raised?
    {
      Raised(error)
    }

    function Extract(): T
      requires Returned?
    {
      value
    }
  }

  /** A request is delivered, never arrives, or takes effect while its reply is lost. */
  datatype Fate = Delivered | NotSent(error: Exception) | ReplyLost(error: Exception)

  /** What a call meets: how its request fares, whether an operator cancels meanwhile, and what the service can do. */
  datatype Chance = Chance(fate: Fate, cancelled: bool, willing: bool)

  /** The request and its reply arrive, nobody cancels, and the service does what is asked. */
  const SMOOTH := Chance(Delivered, false, true)

  datatype Call = Bundle | Prepare | Validate | Quiesce | Apply | Verify | Commit | Fetch | Observe | Rollback | Resume

  /** The calls made so far, each with the exception it ended in. */
  datatype Log = Silence | Made(before: Log, call: Call, error: Option<Exception>)

  function ErrorOf<T>(r: Try<T>): Option<Exception>
  {
    if r.Raised? then Some(r.error) else None
  }

  function LastError(log: Log): Option<Exception>
  {
    if log.Silence? then None else log.error
  }

  /** What the caller sees of a request that arrived. */
  function Reply<T>(fate: Fate, done: Result<T>): Try<T>
  {
    if !fate.Delivered? then Raised(fate.error)
    else if done.Failure? then Raised(HttpException)
    else Returned(done.value)
  }

  datatype Kind = ModelsApply | AgentApply

  /** Every call of the course was acknowledged, except that a refused commit may have been found done. */
  predicate Completed(kind: Kind, log: Log)
  {
    var verified := Made(Made(Prepared(kind), Apply, None), Verify, None);
    log == Made(verified, Call.Commit, None) ||
      log == Made(Made(verified, Call.Commit, Some(HttpException)), Fetch, None)
  }

  /** The calls up to the apply call, all acknowledged. */
  function Prepared(kind: Kind): Log
  {
    var fetched := if kind.AgentApply? then Made(Silence, Bundle, None) else Silence;
    Made(Made(Made(fetched, Prepare, None), Validate, None), Quiesce, None)
  }

  class Job {
    const kind: Kind
    const target: string
    var status: JobStates.Status
    var releaseId: Option<string>

    constructor (kind: Kind, target: string)
      ensures this.kind == kind && this.target == target && status == Queued && releaseId == None
    {
      this.kind, this.target, status, releaseId := kind, target, Queued, None;
    }
  }

  function PayloadOf(rid: string, r: Release, configurationOf: Content -> Configuration): Payload
  {
    Payload(rid, r.version, configurationOf(r.content))
  }

  function Served(tracks: map<string, Track>): (m: map<string, Version>)
    ensures forall a | a in tracks && tracks[a].active.Some? ::
              a in m <==> Find(tracks[a].versions, tracks[a].active.value).Some?
    ensures forall a | a in m :: a in tracks && tracks[a].active == Some(m[a].number) && m[a] in tracks[a].versions
  {
    map a | a in tracks && tracks[a].active.Some? && Find(tracks[a].versions, tracks[a].active.value).Some?
      :: Find(tracks[a].versions, tracks[a].active.value).value
  }

  /** Where a run stands: its release is live, or all is as before, or neither. */
  datatype Standing = Achieved | Untouched | Unsettled

  /** What a run can change: its target's track, the releases, the gateway, the staged versions and the blocks. */
  datatype Scene = Scene(
    track: Track,
    releases: map<string, Release>,
    active: Option<Payload>,
    previous: Option<Payload>,
    overrides: map<string, nat>,
    blocked: set<string>)

  class Publisher {
    const job: Job
    const catalog: ReleaseStore
    const gateway: GatewayState
    const sandboxes: SandboxManager
    const configurationOf: Content -> Configuration

    // The local variables of `run`.
    var applied: bool
    var applyStarted: bool
    var quiesceStarted: bool
    var compensated: bool
    var commitStarted: bool
    var commitStateKnown: bool
    var release: Option<Release>
    var previous: Option<Version>
    ghost var resumed: bool  // a resume has taken effect, acknowledged or not
    // The remote calls made so far, each with its answer, by the clause of `run` that made them.
    ghost var calls: Log    // `try`
    ghost var undo: Log     // `except`: the compensation
    ghost var resumes: Log  // `finally`

    constructor (job: Job, catalog: ReleaseStore, gateway: GatewayState, sandboxes: SandboxManager,
                 configurationOf: Content -> Configuration)
      ensures this.job == job && this.catalog == catalog && this.gateway == gateway
      ensures this.sandboxes == sandboxes && this.configurationOf == configurationOf
      ensures !applied && !applyStarted && !quiesceStarted && !compensated && !commitStarted && !commitStateKnown
      ensures release.None? && previous.None? && !resumed && calls == Silence && undo == Silence && resumes == Silence
    {
      this.job, this.catalog, this.gateway, this.sandboxes := job, catalog, gateway, sandboxes;
      this.configurationOf := configurationOf;
      applied, applyStarted, quiesceStarted, compensated := false, false, false, false;
      commitStarted, commitStateKnown, release, previous, resumed := false, false, None, None, false;
      calls, undo, resumes := Silence, Silence, Silence;
    }

    // ------------------------------------------------------------------ state

    ghost predicate Ready()
      reads catalog, gateway
    {
      catalog.Valid() && gateway.Valid()
    }

    ghost function Track(): Track
      reads catalog
    {
      if job.target in catalog.document.tracks then catalog.document.tracks[job.target] else EMPTY_TRACK
    }

    ghost function Now(): Scene
      reads catalog, gateway, sandboxes
    {
      Scene(Track(), catalog.document.releases, gateway.active, gateway.previous, sandboxes.overrides,
            sandboxes.blocked)
    }

    /** The job's release as the catalog knows it. */
    ghost predicate Known(r: Release)
      reads job`releaseId, catalog
    {
      && job.releaseId.Some? && job.releaseId.value in catalog.document.releases
      && catalog.document.releases[job.releaseId.value].(committed := false) == r.(committed := false)
      && r.target == job.target
    }

    ghost predicate ReleaseCommitted()
      reads job`releaseId, catalog
    {
      && job.releaseId.Some? && job.releaseId.value in catalog.document.releases
      && catalog.document.releases[job.releaseId.value].committed
    }

    /** Releases other than `rid` are as they were. */
    ghost predicate OthersKept(before: map<string, Release>, rid: string)
      reads catalog
    {
      forall x | x in before && x != rid :: x in catalog.document.releases && catalog.document.releases[x] == before[x]
    }

    /** This gateway payload is exactly the release that the track calls active. */
    ghost predicate Agreed(active: Option<Payload>, releases: map<string, Release>, track: Track)
    {
      if active.None? then track.active.None?
      else
        var p := active.value;
        && p.releaseId in releases && releases[p.releaseId].committed && releases[p.releaseId].target == GATEWAY
        && p == PayloadOf(p.releaseId, releases[p.releaseId], configurationOf)
        && track.active == Some(p.version)
    }

    /** The gateway runs exactly the release that the catalog calls active. */
    ghost predicate Agreement()
      reads catalog, gateway
    {
      && GATEWAY in catalog.document.tracks
      && Agreed(gateway.active, catalog.document.releases, catalog.document.tracks[GATEWAY])
    }

    /** A new release that is not committed cannot disturb an agreement, nor be one. */
    lemma AgreementIff(active: Option<Payload>, before: map<string, Release>, now: Option<Payload>,
                       after: map<string, Release>,
                       track: Track, rid: string)
      requires Agreed(active, before, track) && rid !in before
      requires forall x | x in before :: x in after && after[x] == before[x]
      requires now == active || (now.Some? && now.value.releaseId == rid && (rid in after ==> !after[rid].committed))
      ensures Agreed(now, after, track) <==> now == active
    {
    }

    /** The agent's sandboxes run exactly the version that the catalog calls active. */
    ghost predicate NothingStaged()
      reads sandboxes`overrides
    {
      job.target !in sandboxes.overrides
    }

    // ----------------------------------------------------------- remote calls

    /** The worker was not killed inside the `try` body. */
    ghost predicate Alive()
      reads this`calls
    {
      LastError(calls) != Some(Killed)
    }

    /** A call of the compensation was cancelled, which `except Exception` does not catch. */
    ghost predicate WasStruck()
      reads this`undo
    {
      LastError(undo) == Some(CancelledError)
    }

    /** The worker was killed before the `finally` clause. */
    ghost predicate WasKilled()
      reads this`calls, this`undo
    {
      !Alive() || LastError(undo) == Some(Killed)
    }

    /** The worker was killed, or cancelled while the `finally` clause awaited its resume. */
    ghost predicate WasCut()
      reads this`calls, this`undo, this`resumes
    {
      WasKilled() || LastError(resumes) in {Some(CancelledError), Some(Killed)}
    }

    /** What leaves the `except` clauses: a kill, or a cancellation of the compensation. */
    ghost predicate PassesBy(r: Try<()>)
      reads this`calls, this`undo
    {
      && (r == Raised(Killed) <==> WasKilled()) && (r == Raised(CancelledError) <==> WasStruck())
      && (r.Raised? ==> r.error in {Killed, CancelledError})
    }

    /** The `finally` clause asked for a resume and was told that it is done. */
    ghost predicate Acknowledged()
      reads this`resumes
    {
      resumes == Made(Silence, Resume, None)
    }

    /** While a call is awaited an operator may cancel the job (`cancel`). */
    method Meanwhile(cancel: bool)
      modifies job`status
      ensures job.status == if cancel && old(job.status) in {Queued, Running, Waiting} then Cancelled
                            else old(job.status)
    {
      if cancel && job.status in {Queued, Running, Waiting} { job.status := Cancelled; }
    }

    /** `checkpoint`: refuses to go on once the job was cancelled. */
    method Checkpoint(next: Option<JobStates.Status>) returns (r: Try<()>)
      requires next.Some? ==> Executing(next.value)
      modifies job`status
      ensures r.Returned? <==> Executing(old(job.status))
      ensures r.Returned? && next.Some? ==> job.status == next.value
      ensures r.Raised? || next.None? ==> job.status == old(job.status)
      ensures r.Raised? ==> r.error == if old(job.status) == Cancelled then CancelledError else HttpException
    {
      if job.status == Cancelled { return Raised(CancelledError); }
      if !Executing(job.status) { return Raised(HttpException); }
      if next.Some? { job.status := next.value; }
      r := Returned(());
    }

    /** GET /agents/{aid}/bundle; a 404 leaves `previous` empty. */
    method CallBundle() returns (r: Try<Option<Version>>)
      requires Ready()
      modifies this`calls, job`status
      ensures calls == Made(old(calls), Bundle, ErrorOf(r))
      ensures job.status == old(job.status) ||
                (old(job.status) in {Queued, Running, Waiting} && job.status == Cancelled)
      ensures r.Returned? && r.value.Some? ==>
                r.value.value in Track().versions && Track().active == Some(r.value.value.number)
    {
      var chance: Chance := *;
      Meanwhile(chance.cancelled);
      var track := if job.target in catalog.document.tracks then catalog.document.tracks[job.target] else EMPTY_TRACK;
      r := Reply(chance.fate, Success(if track.active.Some? then Find(track.versions, track.active.value) else None));
      calls := Made(calls, Bundle, ErrorOf(r));
    }

    /** POST /releases/prepare: two catalog transactions, under a fresh identifier. */
    method CallPrepare(chance: Chance, rid: string, chosen: Option<nat>, draft: Content, expected: Option<nat>)
      returns (r: Try<Release>)
      requires Ready() && rid !in catalog.document.releases
      modifies this`calls, catalog, job`status
      ensures calls == Made(old(calls), Prepare, ErrorOf(r))
      ensures Ready() && catalog.document.tracks == old(catalog.document.tracks)
      ensures job.status == old(job.status) ||
                (old(job.status) in {Queued, Running, Waiting} && job.status == Cancelled)
      ensures OthersKept(old(catalog.document.releases), rid)
      ensures r.Returned? ==>
                && rid in catalog.document.releases && catalog.document.releases[rid] == r.value
                && !r.value.committed && r.value.target == job.target && job.target in catalog.document.tracks
                && r.value.oldActive == catalog.document.tracks[job.target].active
      ensures chance == SMOOTH ==>
                && job.status == old(job.status)
                && var proposed := Draft(old(catalog.document), job.target, chosen, draft, expected);
                   proposed.Success? ==> r == Returned(proposed.value.release)
    {
      Meanwhile(chance.cancelled);
      if chance.fate.NotSent? {
        r := Raised(chance.fate.error);
      } else {
        var recorded := catalog.Prepare(rid, job.target, chosen, draft, expected, !chance.willing);
        r := Reply(chance.fate, recorded);
      }
      calls := Made(calls, Prepare, ErrorOf(r));
    }

    /** The probe of an agent bundle, or the gateway's validation: neither changes anything. */
    method CallValidate(chance: Chance) returns (r: Try<()>)
      modifies this`calls, job`status
      ensures calls == Made(old(calls), Validate, ErrorOf(r))
      ensures job.status == old(job.status) ||
                (old(job.status) in {Queued, Running, Waiting} && job.status == Cancelled)
      ensures chance == SMOOTH ==> r.Returned? && job.status == old(job.status)
    {
      Meanwhile(chance.cancelled);
      r := Reply(chance.fate, if chance.willing then Success(()) else Failure(400));
      calls := Made(calls, Validate, ErrorOf(r));
    }

    method CallQuiesce(chance: Chance) returns (r: Try<()>)
      modifies this`calls, sandboxes`blocked, job`status
      ensures calls == Made(old(calls), Quiesce, ErrorOf(r))
      ensures r.Returned? ==> job.target in sandboxes.blocked
      ensures job.status == old(job.status) ||
                (old(job.status) in {Queued, Running, Waiting} && job.status == Cancelled)
      ensures chance == SMOOTH ==> r.Returned? && job.status == old(job.status)
    {
      Meanwhile(chance.cancelled);
      if chance.fate.NotSent? {
        r := Raised(chance.fate.error);
      } else {
        var done := sandboxes.Quiesce(job.target, chance.willing);
        r := Reply(chance.fate, done);
      }
      calls := Made(calls, Quiesce, ErrorOf(r));
    }

    /** Hands a version to its executor: gateway activation, or the sandbox manager's `apply`. */
    method CallApply(chance: Chance, rid: string, version: nat, content: Content, ghost undoing: bool)
      returns (r: Try<()>)
      requires Ready() && job.status == Applying
      requires job.kind.ModelsApply? && gateway.active.Some? ==> gateway.active.value.releaseId != rid
      modifies this`calls, this`undo, gateway, sandboxes
      ensures calls == if undoing then old(calls) else Made(old(calls), Apply, ErrorOf(r))
      ensures undo == if undoing then Made(old(undo), Apply, ErrorOf(r)) else old(undo)
      ensures Ready() && old(sandboxes.blocked) <= sandboxes.blocked
      ensures job.kind.ModelsApply? ==>
                var p := Payload(rid, version, configurationOf(content));
                && sandboxes.overrides == old(sandboxes.overrides) && sandboxes.installed == old(sandboxes.installed)
                && ((gateway.active == old(gateway.active) && gateway.previous == old(gateway.previous))
                    || (gateway.active == Some(p) && gateway.previous == old(gateway.active)))
                && (r.Returned? ==> gateway.active == Some(p))
                && (chance == SMOOTH && ValidRelease(p) ==> r.Returned? && sandboxes.blocked == old(sandboxes.blocked))
      ensures job.kind.AgentApply? ==>
                && gateway.active == old(gateway.active) && gateway.previous == old(gateway.previous)
                && (sandboxes.overrides == old(sandboxes.overrides)
                    || sandboxes.overrides == old(sandboxes.overrides)[job.target := version])
                && (forall k | k in old(sandboxes.installed) ::
                    k in sandboxes.installed && sandboxes.installed[k] == old(sandboxes.installed)[k])
                && (r.Returned? || sandboxes.overrides != old(sandboxes.overrides) ==>
                      && sandboxes.overrides == old(sandboxes.overrides)[job.target := version]
                      && (job.target, version) in sandboxes.installed &&
                         sandboxes.installed[(job.target, version)] == content)
    {
      if chance.fate.NotSent? {
        r := Raised(chance.fate.error);
      } else if job.kind.ModelsApply? {
        var release := Payload(rid, version, configurationOf(content));
        var activated := gateway.Activate(release, chance.willing, chance.willing);
        r := Reply(chance.fate, if activated.Success? then Success(()) else Failure(activated.status));
      } else {
        var staged := sandboxes.Apply(job.target, version, content);
        r := Reply(chance.fate, staged);
      }
      if undoing { undo := Made(undo, Apply, ErrorOf(r)); } else { calls := Made(calls, Apply, ErrorOf(r)); }
    }

    /** Checks what is running: the gateway's status, or the sandboxes of the staged version. */
    method CallVerify(chance: Chance, rid: string, ghost undoing: bool) returns (r: Try<()>)
      requires Ready() && job.status == Applying
      modifies this`calls, this`undo, sandboxes`installed, sandboxes`verified
      ensures calls == if undoing then old(calls) else Made(old(calls), Verify, ErrorOf(r))
      ensures undo == if undoing then Made(old(undo), Verify, ErrorOf(r)) else old(undo)
      ensures forall k | k in old(sandboxes.installed) ::
                k in sandboxes.installed && sandboxes.installed[k] == old(sandboxes.installed)[k]
      ensures job.kind.ModelsApply? && r.Returned? ==> gateway.active.Some? && gateway.active.value.releaseId == rid
      ensures job.kind.AgentApply? && r.Returned? && job.target in sandboxes.overrides ==>
                job.target in sandboxes.verified && sandboxes.verified[job.target] == sandboxes.overrides[job.target]
      ensures chance.fate.NotSent? ==> r == Raised(chance.fate.error)
    {
      if chance.fate.NotSent? {
        r := Raised(chance.fate.error);
      } else if job.kind.ModelsApply? {
        var status := gateway.StatusNow();
        r := Reply(chance.fate, if status.releaseId == Some(rid) && status.ready then Success(()) else Failure(503));
      } else {
        var served := Served(catalog.document.tracks);
        var done := sandboxes.Verify(job.target, if job.target in served then Some(served[job.target]) else None);
        r := Reply(chance.fate, done);
      }
      if undoing { undo := Made(undo, Verify, ErrorOf(r)); } else { calls := Made(calls, Verify, ErrorOf(r)); }
    }

    method CallCommit(rid: string) returns (r: Try<nat>)
      requires Ready()
      modifies this`calls, catalog
      ensures calls == Made(old(calls), Call.Commit, ErrorOf(r))
      ensures Ready()
      ensures catalog.document == old(catalog.document) ||
                catalog.document == Next(old(catalog.document), Step.Commit(rid))
      ensures r.Returned? ==>
                && catalog.document == Next(old(catalog.document), Step.Commit(rid))
                && rid in catalog.document.releases && catalog.document.releases[rid].committed
    {
      var fate: Fate := *;
      if fate.NotSent? {
        r := Raised(fate.error);
      } else {
        var committed := catalog.Commit(rid);
        r := Reply(fate, committed);
      }
      calls := Made(calls, Call.Commit, ErrorOf(r));
    }

    method CallFetch(rid: string) returns (r: Try<Release>)
      modifies this`calls
      ensures calls == Made(old(calls), Fetch, ErrorOf(r))
      ensures r.Returned? ==> rid in catalog.document.releases && r.value == catalog.document.releases[rid]
    {
      var fate: Fate := *;
      var found := catalog.Fetch(rid);
      r := Reply(fate, found);
      calls := Made(calls, Fetch, ErrorOf(r));
    }

    method CallResume(chance: Chance) returns (r: Try<()>, ghost landed: bool)
      modifies this`resumed, this`resumes, sandboxes`installed, sandboxes`overrides, sandboxes`blocked
      ensures resumes == Made(old(resumes), Resume, ErrorOf(r))
      ensures r.Returned? ==> landed && job.target !in sandboxes.overrides
      ensures resumed == (old(resumed) || landed)
      ensures job.target in sandboxes.blocked <==> job.target in old(sandboxes.blocked) && !landed
      ensures job.target in sandboxes.overrides ==>
                job.target in old(sandboxes.overrides) &&
                  sandboxes.overrides[job.target] == old(sandboxes.overrides)[job.target]
      ensures job.target in old(sandboxes.overrides) && job.target !in sandboxes.overrides ==>
                Track().active == Some(old(sandboxes.overrides)[job.target])
      ensures forall k | k in old(sandboxes.installed) ::
                k in sandboxes.installed && sandboxes.installed[k] == old(sandboxes.installed)[k]
      ensures chance == SMOOTH && job.target == GATEWAY && old(sandboxes.overrides) == map[] ==> r.Returned?
    {
      landed := false;
      if chance.fate.NotSent? {
        r := Raised(chance.fate.error);
      } else {
        var served := Served(catalog.document.tracks);
        var done := sandboxes.Resume(job.target, served);
        landed := done.Success?;
        r := Reply(chance.fate, done);
      }
      resumed := resumed || landed;
      resumes := Made(resumes, Resume, ErrorOf(r));
    }

    method CallRollback(chance: Chance, rid: string) returns (r: Try<()>)
      requires Ready() && job.kind.ModelsApply?
      modifies this`undo, gateway
      ensures undo == Made(old(undo), Rollback, ErrorOf(r))
      ensures Ready()
      ensures (gateway.active == old(gateway.active) && gateway.previous == old(gateway.previous))
              || (old(gateway.active).Some? && old(gateway.active).value.releaseId == rid && old(gateway.previous).Some?
                  && gateway.active == old(gateway.previous) && gateway.previous == None)
      ensures r.Returned? ==> old(gateway.previous).Some? && gateway.active == old(gateway.previous)
      ensures chance.fate.NotSent? ==> r == Raised(chance.fate.error) && gateway.active == old(gateway.active)
    {
      if chance.fate.NotSent? {
        r := Raised(chance.fate.error);
      } else {
        var undone := gateway.Rollback(rid, chance.willing, chance.willing);
        r := Reply(chance.fate, if undone.Success? then Success(()) else Failure(undone.status));
      }
      undo := Made(undo, Rollback, ErrorOf(r));
    }

    // -------------------------------------------------------------------- run

    /** A job that has just been submitted. */
    ghost predicate Fresh(rid: string)
      reads this, job, catalog, gateway, sandboxes
    {
      && Ready()
      && job.status in {Queued, Cancelled} && job.releaseId.None?
      && !applied && !applyStarted && !quiesceStarted && !compensated && !commitStarted && !commitStateKnown
      && release.None? && previous.None? && !resumed && calls == Silence && undo == Silence && resumes == Silence
      && (job.kind.ModelsApply? <==> job.target == GATEWAY)
      && Clean(rid, Now())
    }

    /** Before the run the identifier is unused, the gateway agrees with the catalog, and nothing is staged. */
    ghost predicate Clean(rid: string, was: Scene)
    {
      && rid !in was.releases
      && (job.kind.ModelsApply? ==> Agreed(was.active, was.releases, was.track))
      && (job.kind.AgentApply? ==> job.target !in was.overrides)
    }

    /** The gateway runs this release. */
    ghost predicate GatewayRuns(r: Release)
      reads job`releaseId, gateway`active
    {
      job.releaseId.Some? && gateway.active == Some(PayloadOf(job.releaseId.value, r, configurationOf))
    }

    /** The target agent runs this release's bundle, ahead of the catalog. */
    ghost predicate Stages(r: Release)
      reads sandboxes`overrides, sandboxes`installed
    {
      && job.target in sandboxes.overrides && sandboxes.overrides[job.target] == r.version
      && (job.target, r.version) in sandboxes.installed && sandboxes.installed[(job.target, r.version)] == r.content
    }

    /**
     The manager recorded the target as verified at this release's version, having started every
     sandbox that was to run.
     */
    ghost predicate VerifiedAs(r: Release)
      reads sandboxes`verified
    {
      job.target in sandboxes.verified && sandboxes.verified[job.target] == r.version
    }

    /** The catalog published exactly this release on top of `before`. */
    ghost predicate Published(r: Release, before: Track)
      reads job`releaseId, catalog
    {
      && ReleaseCommitted()
      && Track() == Releases.Track(before.versions + [Version(r.version, r.content)], Some(r.version))
    }

    /** The checkpoint "prepare", and an agent's bundle to go back to. */
    method RememberPrevious() returns (r: Try<()>)
      requires Ready() && job.status in {Queued, Cancelled} && calls == Silence && previous.None?
      modifies this`previous, this`calls, job`status
      ensures Alive() <==> r != Raised(Killed)
      ensures r.Returned? ==> calls == if job.kind.AgentApply? then Made(Silence, Bundle, None) else Silence
      ensures job.status in {Queued, Running, Cancelled}
      ensures previous.Some? ==> previous.value in Track().versions && Track().active == Some(previous.value.number)
      ensures job.kind.ModelsApply? && old(job.status) == Queued ==> r.Returned? && job.status == Running
    {
      var _ :- Checkpoint(Some(Running));
      if job.kind.AgentApply? {
        previous :- CallBundle();
      }
      r := Returned(());
    }

    /** `run` up to the checkpoint "validate": the release exists and the job remembers it. */
    method PrepareRelease(chance: Chance, rid: string, chosen: Option<nat>, draft: Content, expected: Option<nat>)
      returns (r: Try<()>)
      requires Fresh(rid)
      modifies this`release, this`previous, this`calls, job, catalog
      ensures Alive() <==> r != Raised(Killed)
      ensures r.Returned? ==>
                calls == Made(if job.kind.AgentApply? then Made(Silence, Bundle, None) else Silence, Prepare, None)
      ensures Ready() && catalog.document.tracks == old(catalog.document.tracks)
      ensures OthersKept(old(catalog.document.releases), rid)
      ensures job.releaseId in {None, Some(rid)} && !ReleaseCommitted() && Remembered()
      ensures r.Raised? ==> job.status in {Queued, Running, Cancelled}
      ensures r.Returned? ==>
                && Executing(job.status) && job.status != Applying && job.releaseId == Some(rid)
                && release.Some? && Known(release.value) && job.target in catalog.document.tracks
                && release.value.oldActive == Track().active
      ensures r.Returned? && previous.Some? ==>
                previous.value in Track().versions && Track().active == Some(previous.value.number)
      ensures chance == SMOOTH && job.kind.ModelsApply? && old(job.status) == Queued
              && Draft(old(catalog.document), GATEWAY, chosen, draft, expected).Success? ==>
                r.Returned? &&
                  release.value == Draft(old(catalog.document), GATEWAY, chosen, draft, expected).value.release
    {
      var _ :- RememberPrevious();
      var prepared :- CallPrepare(chance, rid, chosen, draft, expected);
      release := Some(prepared);
      var _ :- Checkpoint(None);
      job.releaseId := Some(rid);
      r := Returned(());
    }

    /** `run` up to the checkpoint "apply": the target is blocked, and still runs what it ran. */
    method BlockTarget(probe: Chance, quiet: Chance) returns (r: Try<()>)
      requires Executing(job.status) && job.status != Applying && !quiesceStarted && Alive()
      modifies this`quiesceStarted, this`calls, job`status, sandboxes`blocked
      ensures Alive() <==> r != Raised(Killed)
      ensures r.Returned? ==> calls == Made(Made(old(calls), Validate, None), Quiesce, None)
      ensures r.Raised? ==> job.status in {Queued, Running, Waiting, Cancelled}
      ensures r.Returned? ==> job.status == Applying && quiesceStarted && job.target in sandboxes.blocked
      ensures !quiesceStarted ==> sandboxes.blocked == old(sandboxes.blocked)
      ensures probe == quiet == SMOOTH ==> r.Returned?
    {
      var _ :- CallValidate(probe);
      var _ :- Checkpoint(Some(Waiting));
      quiesceStarted := true;
      var _ :- CallQuiesce(quiet);
      r := Checkpoint(Some(Applying));
    }

    /** The job is `applying`, its target blocked and its release known; nothing else has happened. */
    ghost predicate Poised(rid: string)
      reads this, job, catalog, gateway, sandboxes
    {
      && Ready() && Alive() && quiesceStarted && job.status == Applying && job.releaseId == Some(rid)
      && !applied && !applyStarted && !commitStarted && !commitStateKnown
      && job.target in sandboxes.blocked
      && release.Some? && Known(release.value) && !ReleaseCommitted()
      && job.target in catalog.document.tracks && release.value.oldActive == Track().active
      && (job.kind.ModelsApply? && gateway.active.Some? ==> gateway.active.value.releaseId != rid)
      && (job.kind.AgentApply? ==> NothingStaged())
    }

    /** The executor runs the release, or exactly what it ran if the apply call was never acknowledged. */
    ghost predicate Handed(was: Scene)
      reads this`applied, this`release, job`releaseId, gateway, sandboxes
    {
      match job.kind
      case ModelsApply =>
        && release.Some? && sandboxes.overrides == was.overrides
        && ((GatewayRuns(release.value) && gateway.previous == was.active)
            || (!applied && gateway.active == was.active && gateway.previous == was.previous))
      case AgentApply =>
        && release.Some? && gateway.active == was.active && gateway.previous == was.previous
        && (Stages(release.value) || (!applied && NothingStaged()))
    }

    /** `run` from the apply call to the checkpoint "commit". */
    method Deliver(rid: string, first: Chance, second: Chance) returns (r: Try<()>)
      requires Poised(rid)
      modifies this`applied, this`applyStarted, this`calls, this`undo, job`status, gateway, sandboxes
      ensures undo == old(undo) && (Alive() <==> r != Raised(Killed))
      ensures r.Returned? ==> calls == Made(Made(old(calls), Apply, None), Verify, None)
      ensures job.status == Applying
      ensures Ready() && applyStarted && (r.Returned? ==> applied)
      ensures old(sandboxes.blocked) <= sandboxes.blocked
      ensures Handed(old(Now()))
      ensures job.kind.AgentApply? && r.Returned? ==> VerifiedAs(release.value)
      ensures first == SMOOTH && job.kind.ModelsApply? && second.fate.NotSent?
              && ValidRelease(PayloadOf(rid, release.value, configurationOf)) ==>
                r == Raised(second.fate.error) && applied
    {
      applyStarted := true;
      var _ :- CallApply(first, rid, release.value.version, release.value.content, false);
      applied := true;
      var noted := Checkpoint(None);
      if noted.Raised? { return noted; }
      var _ :- CallVerify(second, rid, false);
      r := Checkpoint(None);
    }

    /** `run` from the commit call on; a lost reply is settled by asking the catalog again. */
    method CommitRelease(rid: string) returns (r: Try<()>)
      requires Ready() && job.status == Applying && job.releaseId == Some(rid) && !commitStateKnown && Alive()
      requires release.Some? && Known(release.value) && !ReleaseCommitted()
      requires job.target in catalog.document.tracks && release.value.oldActive == Track().active
      modifies this`commitStarted, this`commitStateKnown, this`calls, job`status, catalog
      ensures Alive() <==> r != Raised(Killed)
      // A refused commit is always asked about, and the state is known exactly if either call was answered.
      ensures || (calls == Made(old(calls), Call.Commit, LastError(calls)) && LastError(calls) != Some(HttpException))
              || calls == Made(Made(old(calls), Call.Commit, Some(HttpException)), Fetch, LastError(calls))
      ensures commitStateKnown <==> LastError(calls).None?
      ensures r.Returned? ==> commitStateKnown
      ensures Ready() && commitStarted
      ensures job.status == if r.Returned? then Succeeded else Applying
      ensures Known(release.value)
      ensures OthersKept(old(catalog.document.releases), rid)
      ensures if ReleaseCommitted() then Published(release.value, old(Track())) else Track() == old(Track())
      ensures r.Returned? ==> ReleaseCommitted()
      ensures r.Raised? && commitStateKnown ==> !ReleaseCommitted()
    {
      commitStarted := true;
      var committed := CallCommit(rid);
      if committed.Returned? {
        commitStateKnown := true;
      } else if committed.error == HttpException {
        var state :- CallFetch(rid);
        commitStateKnown := true;
        if !state.committed { return Raised(HttpException); }
      } else {
        return Raised(committed.error);
      }
      job.status := Succeeded;
      r := Returned(());
    }

    /** The catalog moves last, and by this release only. */
    ghost predicate Ledger(rid: string, was: Scene)
      reads this`release, this`applied, this`commitStarted, job`releaseId, catalog
    {
      && OthersKept(was.releases, rid)
      && if ReleaseCommitted() then applied && commitStarted && release.Some? && Published(release.value, was.track)
         else Track() == was.track
    }

    /** From the apply call on the job cannot be cancelled, its target is blocked and its release is known. */
    ghost predicate Begun(rid: string, was: Scene)
      reads this, job, catalog, gateway, sandboxes
    {
      match release
      case None => false
      case Some(r) =>
        && quiesceStarted && job.status in {Applying, Succeeded} && job.target in sandboxes.blocked
        && job.releaseId == Some(rid) && Known(r) && r.oldActive == was.track.active && Handed(was)
    }

    /** `run` from the apply call on. */
    method Execute(rid: string) returns (r: Try<()>)
      requires Poised(rid)
      modifies this`applied, this`applyStarted, this`commitStarted, this`commitStateKnown, this`calls, this`undo
      modifies job`status, catalog, gateway, sandboxes
      ensures undo == old(undo) && (Alive() <==> r != Raised(Killed))
      ensures r.Returned? ==> commitStateKnown && (old(calls) == Prepared(job.kind) ==> Completed(job.kind, calls))
      ensures Ready() && applyStarted && Begun(rid, old(Now())) && Ledger(rid, old(Now()))
      ensures job.status == if r.Returned? then Succeeded else Applying
      ensures job.kind.AgentApply? && r.Returned? ==> VerifiedAs(release.value)
      ensures r.Returned? ==> ReleaseCommitted()
      ensures r.Raised? && (!commitStarted || commitStateKnown) ==> !ReleaseCommitted()
    {
      var first: Chance, second: Chance := *, *;
      r := Deliver(rid, first, second);
      if r.Returned? { r := CommitRelease(rid); }
    }

    /** `run` before the apply call: nothing has happened to the target but its block. */
    method Precede(chance: Chance, probe: Chance, quiet: Chance, rid: string, chosen: Option<nat>, draft: Content,
                   expected: Option<nat>) returns (r: Try<()>)
      requires Fresh(rid)
      modifies this`release, this`previous, this`quiesceStarted, this`calls, job, catalog, sandboxes`blocked
      ensures Alive() <==> r != Raised(Killed)
      ensures r.Returned? ==> calls == Prepared(job.kind) && Poised(rid)
      ensures Ready() && catalog.document.tracks == old(catalog.document.tracks)
      ensures OthersKept(old(catalog.document.releases), rid)
      ensures job.releaseId in {None, Some(rid)} && !ReleaseCommitted() && Remembered()
      ensures r.Raised? ==> job.status in {Queued, Running, Waiting, Cancelled}
      ensures r.Returned? && previous.Some? ==>
                previous.value in Track().versions && Track().active == Some(previous.value.number)
      ensures !quiesceStarted ==> sandboxes.blocked == old(sandboxes.blocked)
      ensures chance == probe == quiet == SMOOTH && job.kind.ModelsApply? && old(job.status) == Queued
              && Draft(old(catalog.document), GATEWAY, chosen, draft, expected).Success? ==>
                r.Returned? &&
                  release.value == Draft(old(catalog.document), GATEWAY, chosen, draft, expected).value.release
    {
      var _ :- PrepareRelease(chance, rid, chosen, draft, expected);
      r := BlockTarget(probe, quiet);
    }

    /** What the `try` body leaves behind, however it is left. */
    ghost predicate Tried(rid: string, was: Scene)
      reads this, job, catalog, gateway, sandboxes
    {
      && !compensated && !resumed && undo == Silence && resumes == Silence
      && (!quiesceStarted ==> sandboxes.blocked == was.blocked)
      && match applyStarted
         case true =>
           && Ready() && Remembered() && Ledger(rid, was) && Begun(rid, was)
           && (previous.Some? ==>
                 previous.value in was.track.versions && was.track.active == Some(previous.value.number))
         case false =>  // nothing has happened to the target
           && Ready() && Remembered() && job.releaseId in {None, Some(rid)} && Ledger(rid, was)
           && !applied && !commitStarted && job.status in {Queued, Running, Waiting, Cancelled}
           && gateway.active == was.active && gateway.previous == was.previous && sandboxes.overrides == was.overrides
    }

    /** The `try` body of `run`. */
    method Attempt(rid: string, chosen: Option<nat>, draft: Content, expected: Option<nat>) returns (r: Try<()>)
      requires Fresh(rid)
      modifies this, job, catalog, gateway, sandboxes
      ensures Tried(rid, old(Now()))
      ensures Alive() <==> r != Raised(Killed)
      ensures r.Returned? ==>
                && applyStarted && commitStateKnown && ReleaseCommitted() && Completed(job.kind, calls)
                && (job.kind.AgentApply? ==> VerifiedAs(release.value))
      ensures applyStarted ==> job.status == if r.Returned? then Succeeded else Applying
      ensures r.Raised? && (!commitStarted || commitStateKnown) ==> !ReleaseCommitted()
    {
      var chance: Chance, probe: Chance, quiet: Chance := *, *, *;
      r := Precede(chance, probe, quiet, rid, chosen, draft, expected);
      if r.Returned? { r := Execute(rid); }
    }

    /** The calls of one compensation, in order, up to the first that failed. */
    ghost predicate Undid()
      reads this`undo, this`previous
    {
      if job.kind.ModelsApply? then undo == Made(Silence, Rollback, LastError(undo))
      else if previous.None? then undo == Silence
      else
        || (undo == Made(Silence, Apply, LastError(undo)) && LastError(undo).Some?)
        || undo == Made(Made(Silence, Apply, None), Verify, LastError(undo))
    }

    /** Undo an acknowledged application: gateway rollback, or re-applying the previous bundle. */
    method Compensate(rid: string, first: Chance, second: Chance) returns (r: Try<()>)
      requires Ready() && job.status == Applying && !compensated && undo == Silence
      modifies this`compensated, this`calls, this`undo, gateway, sandboxes
      ensures calls == old(calls) && Undid() && LastError(undo) == ErrorOf(r)
      ensures Ready() && old(sandboxes.blocked) <= sandboxes.blocked
      ensures compensated <==> undo != Silence && r.Returned?
      ensures job.kind.ModelsApply? ==>
                && sandboxes.overrides == old(sandboxes.overrides)
                && (compensated ==> old(gateway.previous).Some? && gateway.active == old(gateway.previous))
                && (gateway.active == old(gateway.active)
                    || (old(gateway.active).Some? && old(gateway.active).value.releaseId == rid &&
                        gateway.active == old(gateway.previous)))
      ensures job.kind.AgentApply? ==>
                && gateway.active == old(gateway.active)
                && (compensated ==>
                    previous.Some? && job.target in sandboxes.overrides &&
                      sandboxes.overrides[job.target] == previous.value.number)
                && (compensated ==>
                    job.target in sandboxes.verified && sandboxes.verified[job.target] == previous.value.number)
                && (sandboxes.overrides == old(sandboxes.overrides)
                    || (previous.Some? &&
                        sandboxes.overrides == old(sandboxes.overrides)[job.target := previous.value.number]))
                && (forall k | k in old(sandboxes.installed) ::
                    k in sandboxes.installed && sandboxes.installed[k] == old(sandboxes.installed)[k])
      ensures job.kind.ModelsApply? && first.fate.NotSent? ==>
                r == Raised(first.fate.error) && gateway.active == old(gateway.active)
    {
      if job.kind.ModelsApply? {
        var _ :- CallRollback(first, rid);
        compensated := true;
      } else if previous.Some? {
        var _ :- CallApply(first, rid, previous.value.number, previous.value.content, true);
        var _ :- CallVerify(second, rid, true);
        compensated := true;
      }
      r := Returned(());
    }

    /** Target and catalog are where they were. */
    ghost predicate Unchanged(was: Scene)
      reads job`releaseId, catalog, gateway, sandboxes
    {
      match job.kind
      case ModelsApply => Track() == was.track && !ReleaseCommitted() && gateway.active == was.active
      case AgentApply =>
        && Track() == was.track && !ReleaseCommitted()
        && (NothingStaged() || was.track.active == Some(sandboxes.overrides[job.target]))
    }

    /** If the job remembers a release, the catalog has it, for the job's target. */
    ghost predicate Remembered()
      reads job`releaseId, catalog
    {
      job.releaseId.Some? ==>
        && job.releaseId.value in catalog.document.releases
        && catalog.document.releases[job.releaseId.value].target == job.target
    }

    /** The release is published and is what the target runs. */
    ghost predicate Live(was: Scene)
      reads this`release, job`releaseId, catalog, gateway, sandboxes
    {
      match release
      case None => false
      case Some(r) =>
        && Known(r) && Published(r, was.track)
        && (job.kind.ModelsApply? ==> GatewayRuns(r))
        && (job.kind.AgentApply? ==> (NothingStaged() || Stages(r)) && VerifiedAs(r))
    }

    /** The status tells what happened: succeeded means live, and failed, interrupted or cancelled means unchanged. */
    ghost predicate Truthful(was: Scene)
      reads this`release, job, catalog, gateway, sandboxes
    {
      && (job.status == Succeeded ==> Standing(was).Achieved?)
      && (job.status in {Failed, Interrupted, Cancelled} ==> Standing(was).Untouched?)
    }

    ghost function Standing(was: Scene): Standing
      reads this`release, job`releaseId, catalog, gateway, sandboxes
    {
      if Live(was) then Achieved else if Unchanged(was) then Untouched else Unsettled
    }

    /** Whatever the catalog calls committed, the target runs; nothing else passes for the release. */
    ghost predicate Recoverable()
      reads job`releaseId, catalog, gateway, sandboxes
    {
      Ready() && Accountable()
    }

    ghost predicate Accountable()
      reads job`releaseId, catalog, gateway, sandboxes
    {
      Misleading().None?
    }

    /** The release of the job that `reconcile` would judge wrongly, if there is one. */
    ghost function Misleading(): Option<string>
      reads job`releaseId, catalog, gateway, sandboxes
    {
      if job.releaseId.None? || Backed(job.releaseId.value) then None else job.releaseId
    }

    ghost predicate Backed(rid: string)
      reads job`releaseId, catalog, gateway, sandboxes
    {
      && rid in catalog.document.releases
      && var r := catalog.document.releases[rid];
         && r.target == job.target
         && (r.committed ==> Track().active == Some(r.version))
         && (job.kind.ModelsApply? ==>
               && (r.committed ==> GatewayRuns(r))
               && (gateway.active.Some? && gateway.active.value.releaseId == rid ==> GatewayRuns(r)))
         && (job.kind.AgentApply? ==>
               && (r.committed ==> NothingStaged() || Stages(r))
               && (!NothingStaged() && sandboxes.overrides[job.target] == r.version ==> Stages(r)))
    }

    /** What a begun run leaves at its target, compensated or not. */
    ghost predicate Left(rid: string, was: Scene)
      reads this, job`releaseId, catalog, gateway, sandboxes
    {
      match release
      case None => false
      case Some(r) =>
        && job.releaseId == Some(rid) && Known(r) && r.oldActive == was.track.active
        && job.target in sandboxes.blocked
        && (job.kind.ModelsApply? ==>
              && (GatewayRuns(r) || gateway.active == was.active)
              && (ReleaseCommitted() ==> GatewayRuns(r)))
        && (job.kind.AgentApply? ==>
              && (Stages(r) || NothingStaged() || was.track.active == Some(sandboxes.overrides[job.target]))
              && (ReleaseCommitted() ==> Stages(r)))
    }

    lemma LeftIsRecoverable(rid: string, was: Scene)
      requires Ready() && Remembered() && Clean(rid, was) && Ledger(rid, was) && Left(rid, was)
      requires job.kind.ModelsApply? ==> job.target == GATEWAY
      ensures Recoverable()
    {
      var r := catalog.document.releases[rid];
      assert Releases.Sound(catalog.document, r);
    }

    /** Only an acknowledged application is compensated; an uncertain one is held. */
    method TakeBack(rid: string, ghost was: Scene) returns (r: Try<()>)
      requires Tried(rid, was) && Clean(rid, was) && job.status != Succeeded && Alive()
      requires !commitStarted || commitStateKnown ==> !ReleaseCommitted()
      modifies this`compensated, this`calls, this`undo, gateway, sandboxes
      ensures Ready() && calls == old(calls)
      ensures if applied && release.Some? && (!commitStarted || commitStateKnown) then Undid() else undo == Silence
      ensures compensated <==> undo != Silence && LastError(undo).None?
      ensures PassesBy(r)
      ensures !applyStarted ==> sandboxes.blocked == old(sandboxes.blocked) && Unchanged(was)
      ensures job.kind.AgentApply? && !applyStarted ==> NothingStaged()
      ensures applyStarted ==> Left(rid, was)
      ensures compensated ==> Unchanged(was)
      ensures WasStruck() ==> applyStarted && Stranded(rid, was)
    {
      r := Returned(());
      if applied && release.Some? && (!commitStarted || commitStateKnown) {
        var first: Chance, second: Chance := *, *;
        r := Compensate(rid, first, second);
        if r.Raised? && r.error !in {CancelledError, Killed} { r := Returned(()); }  // `except Exception: pass`
      }
    }

    /** However the `except` clauses are left, the catalog knows what to make of it, and the status is truthful. */
    lemma Concluded(rid: string, was: Scene)
      requires Ready() && Remembered() && Clean(rid, was) && Ledger(rid, was) && job.releaseId in {None, Some(rid)}
      requires if applyStarted then Left(rid, was) else Unchanged(was) && (job.kind.AgentApply? ==> NothingStaged())
      requires job.status != Succeeded && (job.status in {Failed, Interrupted, Cancelled} ==> Unchanged(was))
      requires job.kind.ModelsApply? ==> job.target == GATEWAY
      ensures Recoverable() && Truthful(was)
    {
      if applyStarted { LeftIsRecoverable(rid, was); }
      assert !(Live(was) && Unchanged(was));
    }

    /** `except asyncio.CancelledError`: nothing is undone. */
    method Stop(rid: string, ghost was: Scene)
      requires Tried(rid, was) && Clean(rid, was) && job.status != Succeeded
      requires !commitStarted || commitStateKnown ==> !ReleaseCommitted()
      requires job.kind.ModelsApply? ==> job.target == GATEWAY
      modifies job`status
      ensures Recoverable() && Truthful(was)
      ensures job.status == if old(job.status) == Cancelled then Cancelled
                            else if applyStarted then NeedsRecovery else Interrupted
    {
      if job.status != Cancelled {
        job.status := if applyStarted then NeedsRecovery else Interrupted;
      }
      Concluded(rid, was);
    }

    /** `except Exception` */
    method Fail(rid: string, ghost was: Scene) returns (r: Try<()>)
      requires Tried(rid, was) && Clean(rid, was) && job.status != Succeeded && Alive()
      requires !commitStarted || commitStateKnown ==> !ReleaseCommitted()
      requires job.kind.ModelsApply? ==> job.target == GATEWAY
      modifies this`compensated, this`calls, this`undo, job`status, gateway, sandboxes
      ensures Recoverable() && Truthful(was) && calls == old(calls)
      ensures if applied && release.Some? && (!commitStarted || commitStateKnown) then Undid() else undo == Silence
      ensures compensated <==> undo != Silence && LastError(undo).None?
      ensures PassesBy(r)
      ensures !applyStarted ==> sandboxes.blocked == old(sandboxes.blocked)
      ensures job.kind.AgentApply? && !applyStarted ==> NothingStaged()
      ensures applyStarted ==> job.target in sandboxes.blocked
      ensures job.status == if r.Raised? then old(job.status)
                            else if applyStarted && !compensated then NeedsRecovery else Failed
      ensures WasStruck() ==> applyStarted && Stranded(rid, was)
    {
      r := TakeBack(rid, was);
      if r.Returned? { job.status := if applyStarted && !compensated then NeedsRecovery else Failed; }
      Concluded(rid, was);
    }

    /** The `except` clauses of `run`. */
    method Handle(rid: string, error: Exception, ghost was: Scene) returns (r: Try<()>)
      requires Tried(rid, was) && Clean(rid, was) && job.status != Succeeded
      requires error == Killed <==> !Alive()
      requires !commitStarted || commitStateKnown ==> !ReleaseCommitted()
      requires job.kind.ModelsApply? ==> job.target == GATEWAY
      modifies this`compensated, this`calls, this`undo, job`status, gateway, sandboxes
      ensures Recoverable() && Truthful(was) && calls == old(calls)
      // Exactly an ordinary failure of an acknowledged application, with a known commit state, is compensated ...
      ensures if error !in {CancelledError, Killed} && applied && release.Some? && (!commitStarted || commitStateKnown)
              then Undid() else undo == Silence
      ensures compensated <==> undo != Silence && LastError(undo).None?
      // ... and only what its calls raise decides how the clauses are left.
      ensures PassesBy(r)
      ensures !applyStarted ==> sandboxes.blocked == old(sandboxes.blocked)
      ensures job.kind.AgentApply? && !applyStarted ==> NothingStaged()
      ensures applyStarted ==> job.target in sandboxes.blocked
      ensures r.Raised? ==> job.status == old(job.status)
      ensures r.Returned? ==>
                job.status == if applyStarted && !compensated then NeedsRecovery
                              else if error != CancelledError then Failed
                              else if old(job.status) == Cancelled then Cancelled else Interrupted
      ensures WasStruck() ==> applyStarted && Stranded(rid, was)
    {
      if error.Killed? {
        Concluded(rid, was);
        r := Raised(Killed);
      } else if error.CancelledError? {
        Stop(rid, was);
        r := Returned(());
      } else {
        r := Fail(rid, was);
      }
    }

    /** The resume that ends a run: it takes back nothing but the block and what the catalog serves by now. */
    method ReleaseTarget(ghost was: Scene) returns (answer: Try<()>)
      requires Accountable() && Truthful(was) && !resumed && resumes == Silence
      modifies this`resumed, this`resumes, sandboxes`installed, sandboxes`overrides, sandboxes`blocked
      ensures Accountable() && Truthful(was) && resumes == Made(Silence, Resume, ErrorOf(answer))
      ensures job.target in sandboxes.blocked <==> job.target in old(sandboxes.blocked) && !resumed
      ensures answer.Returned? ==> resumed && NothingStaged()
    {
      var chance: Chance := *;
      ghost var landed;
      answer, landed := CallResume(chance);
    }

    /**
     The `finally` clause of `run`, with what passes by the `except` clauses: a killed worker does not get here,
     and after a cancellation the job is still `applying`.
     */
    method Finalize(raised: Try<()>, ghost was: Scene)
      requires Accountable() && Truthful(was) && !resumed && resumes == Silence
      requires raised == Raised(Killed) <==> WasKilled()
      modifies this`resumed, this`resumes, job`status, sandboxes`installed, sandboxes`overrides, sandboxes`blocked
      ensures Accountable() && Truthful(was)
      ensures job.target in sandboxes.blocked <==> job.target in old(sandboxes.blocked) && !resumed
      // The resume is asked for once, exactly if the target was quiesced and the job is not held ...
      ensures resumes == if quiesceStarted && !WasKilled() && old(job.status) != NeedsRecovery
                         then Made(Silence, Resume, LastError(resumes)) else Silence
      // ... and the job is held exactly if it fails, unless the worker is cut.
      ensures job.status == if resumes != Silence && !Acknowledged() &&
                !WasCut() then NeedsRecovery else old(job.status)
      ensures Acknowledged() ==> resumed && NothingStaged()
      ensures resumes == Silence ==>
                !resumed && sandboxes.blocked == old(sandboxes.blocked) &&
                  sandboxes.overrides == old(sandboxes.overrides)
    {
      if quiesceStarted && raised != Raised(Killed) && job.status != NeedsRecovery {
        var answer := ReleaseTarget(was);
        if answer.Raised? && answer.error !in {CancelledError, Killed} { job.status := NeedsRecovery; }
      }
    }

    /** Begun at its target, neither compensated nor known to be committed. */
    ghost predicate Open()
      reads this`applyStarted, this`compensated, this`commitStateKnown, job`releaseId, catalog
    {
      applyStarted && !compensated && !(commitStateKnown && ReleaseCommitted())
    }

    /** `try` and `except` together. */
    method AttemptAndHandle(rid: string, chosen: Option<nat>, draft: Content, expected: Option<nat>)
      returns (r: Try<()>)
      requires Fresh(rid)
      modifies this, job, catalog, gateway, sandboxes
      ensures Recoverable() && !resumed && resumes == Silence
      ensures PassesBy(r)
      ensures r.Returned? ==> job.status in {Succeeded, Failed, Interrupted, Cancelled, NeedsRecovery}
      ensures r.Returned? ==> (job.status == NeedsRecovery <==> Open())
      ensures undo == Silence || Undid()
      ensures Truthful(old(Now())) && (job.status == Succeeded ==> Completed(job.kind, calls))
      ensures OthersKept(old(catalog.document.releases), rid) && job.releaseId in {None, Some(rid)}
      ensures WasStruck() ==> applyStarted && Stranded(rid, old(Now()))
      ensures applyStarted ==> quiesceStarted && job.target in sandboxes.blocked
      ensures !quiesceStarted ==>
                && sandboxes.blocked == old(sandboxes.blocked)
                && (job.kind.AgentApply? ==> NothingStaged())
    {
      ghost var was := Now();
      r := Attempt(rid, chosen, draft, expected);
      if r.Raised? {
        r := Handle(rid, r.error, was);
      } else {
        LeftIsRecoverable(rid, was);
      }
    }

    /** Neither committed nor reported: the gateway runs the release or what it ran before. */
    ghost predicate Stranded(rid: string, was: Scene)
      reads job, catalog, gateway
    {
      match job.kind
      case ModelsApply =>
        && job.status == Applying && job.releaseId == Some(rid) && !ReleaseCommitted() && Track() == was.track
        && (gateway.active == was.active || (gateway.active.Some? && gateway.active.value.releaseId == rid))
      case AgentApply =>
        job.status == Applying && job.releaseId == Some(rid) && !ReleaseCommitted() && Track() == was.track
    }

    /** A final status, the target released, and nothing staged. */
    ghost predicate Closed()
      reads job, sandboxes
    {
      && job.status in {Succeeded, Failed, Interrupted, Cancelled} && job.target !in sandboxes.blocked
      && (job.kind.AgentApply? ==> NothingStaged())
    }

    /** What a run that is not held means for the agreement of gateway and catalog. */
    lemma Concludes(rid: string, was: Scene)
      requires job.kind.ModelsApply? && job.target == GATEWAY && GATEWAY in catalog.document.tracks
      requires OthersKept(was.releases, rid)
      requires Clean(rid, was) && job.releaseId in {None, Some(rid)} && Truthful(was)
      requires job.status in {Succeeded, Failed, Interrupted, Cancelled} || Stranded(rid, was)
      ensures Agreement() <==> job.status == Succeeded || gateway.active == was.active
    {
      if job.status == Succeeded {
        assert Live(was) && Agreement();
      } else {
        assert Stranded(rid, was) || Unchanged(was);
        AgreementIff(was.active, was.releases, gateway.active, catalog.document.releases, was.track, rid);
      }
    }

    /** The run left its job open, and no exception passed it by: it awaits recovery with its target blocked. */
    ghost predicate Held()
      reads this, job`releaseId, catalog
    {
      !WasKilled() && !WasStruck() && Open()
    }

    /** `try`, `except` and `finally`; `handled` is the status that the `finally` clause finds. */
    method AllClauses(rid: string, chosen: Option<nat>, draft: Content, expected: Option<nat>)
      returns (ghost handled: JobStates.Status)
      requires Fresh(rid)
      modifies this, job, catalog, gateway, sandboxes
      ensures Recoverable() && Truthful(old(Now())) && OthersKept(old(catalog.document.releases), rid)
      ensures job.status == Succeeded ==> Completed(job.kind, calls)
      ensures (undo == Silence || Undid()) && job.releaseId in {None, Some(rid)}
      ensures !WasKilled() ==> handled in {Succeeded, Failed, Interrupted, Cancelled, NeedsRecovery, Applying}
      ensures !WasKilled() ==> (handled == NeedsRecovery <==> Held()) && (handled == Applying <==> WasStruck())
      ensures resumes == if quiesceStarted && !WasKilled() && handled != NeedsRecovery
                         then Made(Silence, Resume, LastError(resumes)) else Silence
      ensures job.status == if resumes != Silence && !Acknowledged() && !WasCut() then NeedsRecovery else handled
      ensures resumes == Silence ==> !resumed
      ensures Acknowledged() ==> resumed && NothingStaged()
      ensures resumed ==> job.target !in sandboxes.blocked
      ensures applyStarted ==> quiesceStarted && (job.target in sandboxes.blocked <==> !resumed)
      ensures !quiesceStarted ==> sandboxes.blocked == old(sandboxes.blocked)
      ensures WasStruck() ==> applyStarted && (job.status == Applying ==> Stranded(rid, old(Now())))
    {
      ghost var was := Now();
      var raised := AttemptAndHandle(rid, chosen, draft, expected);
      handled := job.status;
      Finalize(raised, was);
    }

    /**
     The saga, for every pattern of lost, refused and interrupted calls and of operator
     cancellations: the job ends succeeded only with its release live, ends failed, interrupted
     or cancelled only with target and catalog where they were, and otherwise awaits recovery,
     unless a cancellation strikes its compensation, or the process or the final release.
     */
    method Run(rid: string, chosen: Option<nat>, draft: Content, expected: Option<nat>)
      requires Fresh(rid)
      modifies this, job, catalog, gateway, sandboxes
      ensures Recoverable() && Truthful(old(Now()))
      ensures job.status == Succeeded ==> Completed(job.kind, calls)
      ensures undo == Silence || Undid()
      // The resume is asked for once, exactly if the target was quiesced and the job is not held.
      ensures resumes == if quiesceStarted && !WasKilled() && !Held()
                         then Made(Silence, Resume, LastError(resumes)) else Silence
      ensures Held() ==> job.status == NeedsRecovery && job.target in sandboxes.blocked
      ensures !WasCut() ==> (job.status == NeedsRecovery <==> Held() || (resumes != Silence && !Acknowledged()))
      // No block is leaked unless the worker was cut: whoever quiesced ends released with a final status, or held,
      // exactly if it was not cancelled in its compensation and then released.
      ensures !WasCut() && quiesceStarted ==>
                (Closed() || job.status == NeedsRecovery <==> !(WasStruck() && Acknowledged()))
      ensures !WasCut() ==> (job.status == Applying <==> WasStruck() && Acknowledged())
      ensures !WasCut() && !quiesceStarted ==>
                job.status in {Succeeded, Failed, Interrupted, Cancelled} && sandboxes.blocked == old(sandboxes.blocked)
      ensures Acknowledged() ==>
                resumed && job.target !in sandboxes.blocked && (job.kind.AgentApply? ==> NothingStaged())
      // From the apply call on, the block lasts exactly until a resume takes effect.
      ensures applyStarted ==> (job.target in sandboxes.blocked <==> !resumed)
      // What it means for the gateway and the catalog.
      ensures !WasCut() && job.status == Applying ==> applyStarted && quiesceStarted && Stranded(rid, old(Now()))
      ensures !WasCut() && job.kind.ModelsApply? && job.status != NeedsRecovery ==>
                (Agreement() <==> job.status != Applying || gateway.active == old(gateway.active))
    {
      ghost var was := Now();
      ghost var _ := AllClauses(rid, chosen, draft, expected);
      if job.kind.ModelsApply? && !WasCut() && job.status != NeedsRecovery { Concludes(rid, was); }
    }

    /** `lifespan`: a job whose task is gone, and that had begun, waits for an operator. */
    method Restart()
      modifies job`status
      ensures job.status == if old(job.status) in {Running, Waiting, Applying} then NeedsRecovery else old(job.status)
    {
      if job.status in {Running, Waiting, Applying} { job.status := NeedsRecovery; }
    }

    /**
     A run and the next start of the service: what is left open can be reconciled, and the catalog
     decides what holds.
     */
    method RunAndRestart(rid: string, chosen: Option<nat>, draft: Content, expected: Option<nat>)
      requires Fresh(rid)
      modifies this, job, catalog, gateway, sandboxes
      ensures Recoverable() && Truthful(old(Now()))
      ensures job.status in {Queued, Succeeded, Failed, Interrupted, Cancelled, NeedsRecovery}
      // A job held since its apply call is still blocked exactly if no resume of it took effect.
      ensures job.status == NeedsRecovery && applyStarted ==> (job.target in sandboxes.blocked <==> !resumed)
      ensures !WasCut() && WasStruck() && Acknowledged() ==>
                job.status == NeedsRecovery && job.target !in sandboxes.blocked
      // Only a run that was cut can leave its block behind a final status.
      ensures !WasCut() && quiesceStarted ==> Closed() || job.status == NeedsRecovery
    {
      Run(rid, chosen, draft, expected);
      Restart();
    }

    /** What the executor says it runs: the gateway's release id, or the verified bundle version. */
    method CallObserve(rid: string, version: nat) returns (r: Try<bool>)
      requires Recoverable() && job.releaseId == Some(rid) && catalog.document.releases[rid].version == version
      modifies this`calls, sandboxes`installed
      ensures calls == Made(old(calls), Observe, ErrorOf(r))
      ensures Recoverable()
      ensures r.Returned? && r.value ==>
                if job.kind.ModelsApply? then GatewayRuns(catalog.document.releases[rid])
                else if NothingStaged() then Track().active == Some(version) else Stages(catalog.document.releases[rid])
      ensures r.Returned? && job.kind.ModelsApply? ==> (r.value <==> GatewayRuns(catalog.document.releases[rid]))
    {
      var fate: Fate := *;
      if job.kind.ModelsApply? {
        var status := gateway.StatusNow();
        r := Reply(fate, Success(status.ready && status.releaseId == Some(rid)));
      } else {
        var served := Served(catalog.document.tracks);
        var loaded := sandboxes.Load(job.target, if job.target in served then Some(served[job.target]) else None);
        r := Reply(fate, if loaded.Failure? then Failure(503) else
          Success(job.target in sandboxes.verified && sandboxes.verified[job.target] == loaded.value == version));
      }
      calls := Made(calls, Observe, ErrorOf(r));
    }

    /** `reconcile` up to the commit: the release is committed already, or now on evidence. */
    method CommitOnEvidence(rid: string) returns (r: Try<()>)
      requires Recoverable() && job.releaseId == Some(rid)
      modifies this`calls, catalog, sandboxes`installed
      ensures Recoverable() && (r.Returned? ==> ReleaseCommitted())
      // It fails only with a call, or for want of evidence.
      ensures r.Raised? && LastError(calls).None? ==>
                !ReleaseCommitted() && (job.kind.ModelsApply? ==> !GatewayRuns(catalog.document.releases[rid]))
    {
      var release :- CallFetch(rid);
      if release.committed { return Returned(()); }
      var verified :- CallObserve(rid, release.version);
      if !verified { return Raised(HttpException); }
      var _ :- CallCommit(rid);
      r := Returned(());
    }

    /**
     `reconcile`: closes a job only on evidence. On success the release is committed, the
     target runs it and is released; on failure the job can be reconciled again.
     */
    method Reconcile() returns (r: Try<()>)
      requires Recoverable()
      modifies this`resumed, this`calls, this`resumes, job`status, catalog, sandboxes
      ensures Recoverable()
      ensures r.Raised? ==> job.status == old(job.status)
      ensures r.Returned? ==> job.status == Succeeded
      ensures old(job.status) == Succeeded ==>
                r.Returned? && catalog.document == old(catalog.document) && sandboxes.blocked == old(sandboxes.blocked)
      ensures old(job.status) !in {Succeeded, NeedsRecovery, Interrupted, Failed} ==> r.Raised?
      ensures r.Returned? && old(job.status) != Succeeded ==>
                && ReleaseCommitted() && job.target !in sandboxes.blocked && NothingStaged()
                && var release := catalog.document.releases[job.releaseId.value];
                   && Track().active == Some(release.version)
                   && (job.kind.ModelsApply? ==> GatewayRuns(release))
      // It fails only with a call, or for want of evidence.
      ensures r.Raised? && old(job.status) in {NeedsRecovery, Interrupted, Failed} && job.releaseId.Some? ==>
                || LastError(calls).Some?
                || (resumes == Made(old(resumes), Resume, LastError(resumes)) && LastError(resumes).Some?)
                || (!ReleaseCommitted() && (job.kind.ModelsApply? ==>
                      !GatewayRuns(catalog.document.releases[job.releaseId.value])))
    {
      if job.status == Succeeded { return Returned(()); }
      if job.status !in {NeedsRecovery, Interrupted, Failed} { return Raised(HttpException); }
      if job.releaseId.None? { return Raised(HttpException); }
      var _ :- CommitOnEvidence(job.releaseId.value);
      var chance: Chance := *;
      var answer, _ := CallResume(chance);
      if answer.Raised? { return answer; }
      job.status := Succeeded;
      r := Returned(());
    }

    /** A `models.apply` that meets no trouble until its verification fails. */
    method FailVerification(rid: string, draft: Content)
      requires Fresh(rid) && job.kind.ModelsApply? && job.status == Queued
      requires Draft(catalog.document, GATEWAY, None, draft, None).Success?
      requires forall n: nat :: ValidRelease(Payload(rid, n, configurationOf(draft)))
      modifies this, job, catalog, gateway, sandboxes
      ensures Ready() && job.status == Applying && job.releaseId == Some(rid) && !ReleaseCommitted()
      ensures catalog.document.tracks == old(catalog.document.tracks)
      ensures sandboxes.overrides == old(sandboxes.overrides)
      ensures gateway.active.Some? && gateway.active.value.releaseId == rid && rid in catalog.document.releases
      ensures !WasKilled() && !compensated && undo == Silence && resumes == Silence
    {
      var _ := Precede(SMOOTH, SMOOTH, SMOOTH, rid, None, draft, None);
      var _ := Deliver(rid, SMOOTH, SMOOTH.(fate := NotSent(HttpException)));
    }

    /**
     Its worker is cancelled before the rollback is sent: the `finally` clause releases the platform while the job
     is applying and the gateway runs a release that was never committed.
     */
    method StrikeRollback(rid: string, draft: Content)
      requires Fresh(rid) && job.kind.ModelsApply? && job.status == Queued && sandboxes.overrides == map[]
      requires Draft(catalog.document, GATEWAY, None, draft, None).Success?
      requires forall n: nat :: ValidRelease(Payload(rid, n, configurationOf(draft)))
      modifies this, job, catalog, gateway, sandboxes
      ensures !WasCut() && WasStruck() && Acknowledged() && Undid()
      ensures Ready() && Stranded(rid, old(Now()))
      ensures job.status == Applying && job.target !in sandboxes.blocked && !ReleaseCommitted() && !Agreement()
    {
      FailVerification(rid, draft);
      var _ := Compensate(rid, SMOOTH.(fate := NotSent(CancelledError)), SMOOTH);
      var _, _ := CallResume(SMOOTH);
    }
  }

  /** Such a run on a platform that has just been installed. */
  method StruckBeforeRollback() returns (run: Publisher)
    ensures fresh(run) && run.Ready() && run.job.kind.ModelsApply?
    ensures !run.WasCut() && run.WasStruck() && run.Acknowledged()
    ensures run.job.status == Applying && !run.ReleaseCommitted() && !run.Agreement()
    ensures run.job.target !in run.sandboxes.blocked
  {
    var job := new Job(ModelsApply, GATEWAY);
    var catalog := new ReleaseStore();
    var gateway := new GatewayState(None);
    var sandboxes := new SandboxManager();
    run := new Publisher(job, catalog, gateway, sandboxes, _ => Configuration(true, [], true));
    run.StrikeRollback("release", "models");
  }
}
