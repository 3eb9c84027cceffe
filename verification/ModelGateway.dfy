/**
 model_gateway/src/state.py: checking a release and switching the gateway to it.
 Building a LiteLLM router and writing a file can fail; each is a boolean a caller passes in.
 */
module ModelGateway {
  import opened Outcomes

  /** `model_info.id` of a deployment: absent, a string, or some other JSON value. */
  datatype Identifier = Absent | Text(text: string) | NotText

  datatype Deployment = Deployment(wellShaped: bool, named: bool, modelIsText: bool, id: Identifier)

  datatype Configuration = Configuration(
    hasModelList: bool,
    deployments: seq<Deployment>,
    routerSettingsIsObject: bool)

  datatype Payload = Payload(releaseId: string, version: nat, configuration: Configuration)

  /** What the service answers about itself. */
  datatype Status = Status(ready: bool, releaseId: Option<string>, version: Option<nat>)

  /** active.json */
  datatype Saved = Saved(active: Payload, previous: Option<Payload>)

  predicate WellFormed(d: Deployment)
  {
    d.wellShaped && d.named && d.modelIsText && d.id != NotText
  }

  /** Distinct deployments never share a non-empty identifier. */
  predicate DistinctIds(ds: seq<Deployment>)
  {
    forall i, j | 0 <= i < j < |ds| && ds[i].id.Text? && ds[i].id.text != "" :: ds[i].id != ds[j].id
  }

  predicate ValidRelease(p: Payload)
  {
    && p.releaseId != "" && p.configuration.hasModelList
    && |p.configuration.deployments| <= 1000 && p.configuration.routerSettingsIsObject
    && (forall i | 0 <= i < |p.configuration.deployments| :: WellFormed(p.configuration.deployments[i]))
    && DistinctIds(p.configuration.deployments)
  }

  method ValidateRelease(p: Payload) returns (r: Result<Payload>)
    ensures r == if ValidRelease(p) then Success(p) else Failure(422)
  {
    if p.releaseId == "" || !p.configuration.hasModelList { return Failure(422); }
    var entries := p.configuration.deployments;
    if |entries| > 1000 || !p.configuration.routerSettingsIsObject { return Failure(422); }
    var ids: set<Identifier> := {};
    for i := 0 to |entries|
      invariant ids == set k | 0 <= k < i :: entries[k].id
      invariant forall k | 0 <= k < i :: WellFormed(entries[k])
      invariant forall k, l | 0 <= k < l < i && entries[k].id.Text? && entries[k].id.text != "" ::
                 entries[k].id != entries[l].id
    {
      var entry := entries[i];
      if !entry.wellShaped || !entry.named || !entry.modelIsText { return Failure(422); }
      if entry.id == NotText { return Failure(422); }
      if entry.id.Text? && entry.id.text != "" && entry.id in ids { return Failure(422); }
      ids := ids + {entry.id};
    }
    r := Success(p);
  }

  class GatewayState {
    var active: Option<Payload>
    var previous: Option<Payload>
    var router: Option<Configuration>
    var file: Option<Saved>

    /** Memory and disk agree after every call, so a restart resumes exactly here. */
    ghost predicate Valid()
      reads this
    {
      && (active.None? ==> previous.None? && router.None? && file.None?)
      && (active.Some? ==> router == Some(active.value.configuration) && file == Some(Saved(active.value, previous)))
    }

    /** A file that was only ever written by this class holds releases that passed the checks. */
    ghost predicate Checked()
      reads this
    {
      (active.Some? ==> ValidRelease(active.value)) && (previous.Some? ==> ValidRelease(previous.value))
    }

    /** Process start: everything is rebuilt from active.json. With an invalid active release there is no start. */
    constructor (stored: Option<Saved>)
      requires stored.Some? ==> ValidRelease(stored.value.active)
      ensures Valid() && file == stored
      ensures active == (if stored.Some? then Some(stored.value.active) else None)
      ensures previous == (if stored.Some? then stored.value.previous else None)
    {
      file := stored;
      if stored.Some? {
        active, previous, router := Some(stored.value.active), stored.value.previous,
          Some(stored.value.active.configuration);
      } else {
        active, previous, router := None, None, None;
      }
    }

    function StatusNow(): (s: Status)
      reads this
      ensures Valid() ==> (s.ready <==> active.Some?)
      ensures s.releaseId.Some? <==> active.Some?
    {
      Status(router.Some?,
             if active.Some? then Some(active.value.releaseId) else None,
             if active.Some? then Some(active.value.version) else None)
    }

    method Validate(p: Payload, builds: bool) returns (r: Result<string>)
      ensures r.Success? <==> ValidRelease(p) && builds
    {
      var _ :- ValidateRelease(p);
      if !builds { return Failure(500); }
      r := Success(p.releaseId);
    }

    /** Re-activating the active release changes nothing; a new one becomes active and the old one previous. */
    method Activate(p: Payload, builds: bool, writes: bool) returns (r: Result<Status>)
      requires Valid()
      modifies this
      ensures Valid() && (old(Checked()) ==> Checked())
      ensures r.Success? <==>
                && ValidRelease(p)
                && (if old(active).Some? && old(active).value.releaseId == p.releaseId
                    then old(active).value == p else builds && writes)
      ensures r.Success? ==> active == Some(p) && r.value == StatusNow()
      ensures r.Success? && old(active) != Some(p) ==> previous == old(active)
      ensures r.Failure? || old(active) == Some(p) ==> active == old(active) && previous == old(previous)
    {
      var release :- ValidateRelease(p);
      if active.Some? && active.value.releaseId == release.releaseId {
        if active.value != release { return Failure(409); }
        return Success(StatusNow());
      }
      if !builds || !writes { return Failure(500); }
      file := Some(Saved(release, active));
      previous, active, router := active, Some(release), Some(release.configuration);
      r := Success(StatusNow());
    }

    /** Undoes the last activation, once. */
    method Rollback(releaseId: string, builds: bool, writes: bool) returns (r: Result<Status>)
      requires Valid()
      modifies this
      ensures Valid() && (old(Checked()) ==> Checked())
      ensures r.Success? <==>
                && old(active).Some? && old(active).value.releaseId == releaseId
                && old(previous).Some? && builds && writes
      ensures r.Success? ==> active == old(previous) && previous == None && r.value == StatusNow()
      ensures r.Failure? ==> active == old(active) && previous == old(previous)
    {
      if active.None? || active.value.releaseId != releaseId { return Failure(409); }
      if previous.None? { return Failure(409); }
      if !builds || !writes { return Failure(500); }
      file := Some(Saved(previous.value, None));
      active, previous, router := previous, None, Some(previous.value.configuration);
      r := Success(StatusNow());
    }
  }

  /** An acknowledged activation of a new release is undone by one rollback and not by two. */
  method RollbackUndoesActivation(g: GatewayState, p: Payload) returns (undone: bool, again: bool)
    requires g.Valid() && g.active.Some? && ValidRelease(p) && g.active.value.releaseId != p.releaseId
    modifies g
    ensures undone && !again
    ensures g.Valid() && g.active == old(g.active) && g.previous == None
  {
    var a := g.Activate(p, true, true);
    var b := g.Rollback(p.releaseId, true, true);
    undone := b.Success?;
    var c := g.Rollback(p.releaseId, true, true);
    again := c.Success?;
  }
}
