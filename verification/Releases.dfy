/**
 Releases of catalog_service/main.py: two-transaction `prepare`, single-transaction
 `commit`, and the agent life cycle as far as it creates and deletes version tracks.

 The gateway and every agent own one track of immutable versions; the gateway's is
 stored under the target "*", which no agent identifier can equal.
 */
module Releases {
  import opened Outcomes

  const GATEWAY: string := "*"

  /** What a version freezes: the models of the gateway, or one agent's configuration. */
  type Content = string

  datatype Version = Version(number: nat, content: Content)

  datatype Track = Track(versions: seq<Version>, active: Option<nat>)

  datatype Release = Release(
    target: string,
    version: nat,
    content: Content,
    oldActive: Option<nat>,
    committed: bool)

  /** A `prepare` request between its read and its write. */
  datatype Proposal = Proposal(revision: nat, release: Release)

  datatype Catalog = Catalog(
    revision: nat,
    tracks: map<string, Track>,
    archived: set<string>,
    deleting: set<string>,
    tombstones: set<string>,
    releases: map<string, Release>,
    proposals: map<nat, Proposal>)

  datatype Step =
    | BeginPrepare(call: nat, target: string, chosen: Option<nat>, draft: Content, expected: Option<nat>)
    | FinishPrepare(call: nat, rid: string)
    | Commit(rid: string)
    | CreateAgent(aid: string)
    | Archive(aid: string)
    | Restore(aid: string)
    | MarkDeleting(aid: string)
    | DeleteAgent(aid: string)
    | OtherEdit

  const EMPTY_TRACK := Track([], None)
  const EMPTY := Catalog(0, map[GATEWAY := EMPTY_TRACK], {}, {}, {}, map[], map[])

  /** next((v for v in versions if v.number == n), None) */
  function Find(versions: seq<Version>, n: nat): (r: Option<Version>)
    ensures r.Some? ==> r.value in versions && r.value.number == n
    ensures r.None? ==> forall v | v in versions :: v.number != n
  {
    if versions == [] then None
    else if versions[0].number == n then Some(versions[0])
    else Find(versions[1..], n)
  }

  /** First half of `prepare`: everything it computes from its own read. */
  function Draft(c: Catalog, target: string, chosen: Option<nat>, draft: Content, expected: Option<nat>)
    : Result<Proposal>
  {
    if expected.Some? && expected.value != c.revision then Failure(409)
    else if target !in c.tracks then Failure(404)
    else if target in c.deleting then Failure(409)
    else
      var track := c.tracks[target];
      var source := if chosen.Some? && chosen.value != 0 then Find(track.versions, chosen.value)
                    else Some(Version(0, draft));
      if source.None? then Failure(404)
      else Success(Proposal(c.revision,
                            Release(target, |track.versions| + 1, source.value.content, track.active, false)))
  }

  /** Second half of `prepare`: the edit that is refused once the revision moved. */
  function Record(c: Catalog, p: Proposal, rid: string): Result<Catalog>
  {
    if p.revision != c.revision then Failure(409)
    else Success(c.(revision := c.revision + 1, releases := c.releases[rid := p.release]))
  }

  function Committed(c: Catalog, rid: string): Result<Catalog>
  {
    if rid !in c.releases then Failure(404)
    else
      var r := c.releases[rid];
      if r.committed then Success(c.(revision := c.revision + 1))
      else if r.target !in c.tracks then Failure(500)
      else if c.tracks[r.target].active != r.oldActive then Failure(409)
      else
        var t := c.tracks[r.target];
        Success(c.(revision := c.revision + 1,
                   tracks := c.tracks[r.target := Track(t.versions + [Version(r.version, r.content)], Some(r.version))],
                   releases := c.releases[rid := r.(committed := true)]))
  }

  function Kept(c: Catalog, r: Result<Catalog>): Catalog
  {
    if r.Success? then r.value else c
  }

  function WithLifecycle(c: Catalog, aid: string, archived: set<string>, deleting: set<string>): Catalog
  {
    if aid == GATEWAY || aid !in c.tracks then c
    else c.(revision := c.revision + 1, archived := archived, deleting := deleting)
  }

  function Next(c: Catalog, s: Step): Catalog
  {
    match s
    case BeginPrepare(call, target, chosen, draft, expected) =>
      var p := Draft(c, target, chosen, draft, expected);
      if p.Success? then c.(proposals := c.proposals[call := p.value]) else c
    case FinishPrepare(call, rid) =>
      if call in c.proposals && rid !in c.releases  // rid is a fresh UUID
      then Kept(c, Record(c, c.proposals[call], rid)) else c
    case Commit(rid) => Kept(c, Committed(c, rid))
    case CreateAgent(aid) =>
      if aid == GATEWAY || aid in c.tracks || aid in c.tombstones then c
      else c.(revision := c.revision + 1, tracks := c.tracks[aid := EMPTY_TRACK])
    case Archive(aid) => WithLifecycle(c, aid, c.archived + {aid}, c.deleting - {aid})
    case Restore(aid) => WithLifecycle(c, aid, c.archived - {aid}, c.deleting - {aid})
    case MarkDeleting(aid) => WithLifecycle(c, aid, c.archived - {aid}, c.deleting + {aid})
    case DeleteAgent(aid) =>
      if aid == GATEWAY || aid !in c.tracks || aid !in c.archived + c.deleting then c
      else c.(revision := c.revision + 1, tracks := c.tracks - {aid}, tombstones := c.tombstones + {aid},
              archived := c.archived - {aid}, deleting := c.deleting - {aid})
    case OtherEdit => c.(revision := c.revision + 1)
  }

  function Run(c: Catalog, steps: seq<Step>): Catalog
    decreases steps
  {
    if steps == [] then c else Run(Next(c, steps[0]), steps[1..])
  }

  /** Numbered 1..n in order; none active exactly when there is no version, else the last. */
  predicate Dense(t: Track)
  {
    && (forall i | 0 <= i < |t.versions| :: t.versions[i].number == i + 1)
    && t.active == (if t.versions == [] then None else Some(|t.versions|))
  }

  predicate Follows(r: Release)
  {
    r.version == (if r.oldActive.None? then 1 else r.oldActive.value + 1)
  }

  /** A proposal is what `Draft` would still compute, unless the revision moved on. */
  predicate Honest(c: Catalog, p: Proposal)
  {
    && p.revision <= c.revision
    && Follows(p.release) && !p.release.committed
    && (p.revision == c.revision ==>
          p.release.target in c.tracks && p.release.oldActive == c.tracks[p.release.target].active)
    && (p.release.target in c.tracks ==> p.release.version <= |c.tracks[p.release.target].versions| + 1)
    && (p.release.target in c.tracks || p.release.target in c.tombstones)
  }

  predicate Sound(c: Catalog, r: Release)
  {
    && Follows(r)
    && (r.target in c.tracks || r.target in c.tombstones)
    && (r.target in c.tracks ==>
          var vs := c.tracks[r.target].versions;
          && r.version <= |vs| + 1
          && (r.committed ==> 1 <= r.version <= |vs| && vs[r.version - 1] == Version(r.version, r.content)))
  }

  /** Two committed releases of one target share a version. */
  predicate Clash(c: Catalog, x: string, y: string)
    requires x in c.releases && y in c.releases
  {
    && c.releases[x].committed && c.releases[y].committed
    && c.releases[x].target == c.releases[y].target && c.releases[x].target in c.tracks
    && c.releases[x].version == c.releases[y].version
  }

  ghost predicate Inv(c: Catalog)
  {
    && GATEWAY in c.tracks && GATEWAY !in c.deleting && GATEWAY !in c.tombstones
    && c.tracks.Keys !! c.tombstones
    && (forall a {:trigger Dense(c.tracks[a])} | a in c.tracks :: Dense(c.tracks[a]))
    && (forall rid {:trigger Sound(c, c.releases[rid])} | rid in c.releases :: Sound(c, c.releases[rid]))
    && (forall call {:trigger Honest(c, c.proposals[call])} | call in c.proposals :: Honest(c, c.proposals[call]))
    && (forall x, y {:trigger Clash(c, x, y)} | x in c.releases && y in c.releases && x != y :: !Clash(c, x, y))
  }

  lemma CommitKeepsInv(c: Catalog, rid: string)
    requires Inv(c)
    ensures Inv(Kept(c, Committed(c, rid)))
  {
    var d := Kept(c, Committed(c, rid));
    if Committed(c, rid).Success? && !c.releases[rid].committed {
      var r := c.releases[rid];
      var t := c.tracks[r.target];
      assert Dense(t) && Sound(c, r);
      assert Dense(d.tracks[r.target]);
      forall x | x in d.releases ensures Sound(d, d.releases[x]) { assert Sound(c, c.releases[x]); }
      forall a | a in d.tracks ensures Dense(d.tracks[a]) { assert Dense(c.tracks[a]); }
      forall x, y | x in d.releases && y in d.releases && x != y ensures !Clash(d, x, y) {
        assert !Clash(c, x, y) && Sound(c, c.releases[x]) && Sound(c, c.releases[y]);
      }
    } else {
      KeptReleases(c, d);
    }
    forall call | call in d.proposals ensures Honest(d, d.proposals[call]) { assert Honest(c, c.proposals[call]); }
  }

  /** The tracks and releases of `d` are those of `c`. */
  lemma KeptReleases(c: Catalog, d: Catalog)
    requires Inv(c) && d.tracks == c.tracks && d.releases == c.releases && d.tombstones == c.tombstones
    ensures forall a | a in d.tracks :: Dense(d.tracks[a])
    ensures forall rid | rid in d.releases :: Sound(d, d.releases[rid])
    ensures forall x, y {:trigger Clash(d, x, y)} | x in d.releases && y in d.releases && x != y :: !Clash(d, x, y)
  {
    forall rid | rid in d.releases ensures Sound(d, d.releases[rid]) { assert Sound(c, c.releases[rid]); }
    forall a | a in d.tracks ensures Dense(d.tracks[a]) { assert Dense(c.tracks[a]); }
    forall x, y | x in d.releases && y in d.releases && x != y ensures !Clash(d, x, y) { assert !Clash(c, x, y); }
  }

  lemma PrepareKeepsInv(c: Catalog, s: Step)
    requires Inv(c) && (s.BeginPrepare? || s.FinishPrepare?)
    ensures Inv(Next(c, s))
  {
    var d := Next(c, s);
    assert d.tracks == c.tracks && d.tombstones == c.tombstones;
    forall a | a in d.tracks ensures Dense(d.tracks[a]) { assert Dense(c.tracks[a]); }
    forall call | call in c.proposals ensures Honest(d, c.proposals[call]) { assert Honest(c, c.proposals[call]); }
    forall rid | rid in c.releases ensures Sound(d, c.releases[rid]) { assert Sound(c, c.releases[rid]); }
    forall x, y | x in d.releases && y in d.releases && x != y ensures !Clash(d, x, y) {
      if x in c.releases && y in c.releases { assert !Clash(c, x, y); }
    }
  }

  lemma LifecycleKeepsInv(c: Catalog, s: Step)
    requires Inv(c) && !s.BeginPrepare? && !s.FinishPrepare? && !s.Commit?
    ensures Inv(Next(c, s))
  {
    var d := Next(c, s);
    assert d.releases == c.releases && d.proposals == c.proposals;
    forall a | a in d.tracks ensures Dense(d.tracks[a]) { if a in c.tracks { assert Dense(c.tracks[a]); } }
    forall call | call in d.proposals ensures Honest(d, d.proposals[call]) { assert Honest(c, c.proposals[call]); }
    forall rid | rid in c.releases ensures Sound(d, c.releases[rid]) { assert Sound(c, c.releases[rid]); }
    forall x, y | x in d.releases && y in d.releases && x != y ensures !Clash(d, x, y) { assert !Clash(c, x, y); }
  }

  lemma NextKeepsInv(c: Catalog, s: Step)
    requires Inv(c)
    ensures Inv(Next(c, s))
  {
    match s
    case BeginPrepare(_, _, _, _, _) => PrepareKeepsInv(c, s);
    case FinishPrepare(_, _) => PrepareKeepsInv(c, s);
    case Commit(rid) => CommitKeepsInv(c, rid);
    case _ => LifecycleKeepsInv(c, s);
  }

  lemma {:induction false} RunKeepsInv(c: Catalog, steps: seq<Step>)
    requires Inv(c)
    ensures Inv(Run(c, steps))
    decreases steps
  {
    if steps != [] {
      NextKeepsInv(c, steps[0]);
      RunKeepsInv(Next(c, steps[0]), steps[1..]);
    }
  }

  /** Main result: dense version numbers after any interleaving of requests. */
  lemma VersionsStayDense(steps: seq<Step>)
    ensures var c := Run(EMPTY, steps);
            forall a | a in c.tracks ::
              && (forall i | 0 <= i < |c.tracks[a].versions| :: c.tracks[a].versions[i].number == i + 1)
              && (c.tracks[a].active.None? <==> c.tracks[a].versions == [])
              && (c.tracks[a].active.Some? ==> c.tracks[a].active.value == |c.tracks[a].versions|)
  {
    RunKeepsInv(EMPTY, steps);
    var c := Run(EMPTY, steps);
    assert forall a | a in c.tracks :: Dense(c.tracks[a]);
  }

  /** Its predecessor is no longer active, or its agent is gone. */
  predicate Stale(c: Catalog, rid: string)
  {
    && rid in c.releases && !c.releases[rid].committed
    && (c.releases[rid].target in c.tracks ==>
          c.tracks[c.releases[rid].target].active != c.releases[rid].oldActive)
  }

  /** One step only extends a track, removes it for good, or leaves it alone. */
  predicate Extends(c: Catalog, d: Catalog, target: string)
  {
    && (target in c.tracks && target in d.tracks ==> c.tracks[target].versions <= d.tracks[target].versions)
    && (target in c.tombstones ==> target in d.tombstones)
    && (target in c.tracks && target !in d.tracks ==> target in d.tombstones)
  }

  lemma StepExtends(c: Catalog, s: Step, target: string)
    requires Inv(c)
    ensures Extends(c, Next(c, s), target)
  {
  }

  lemma StaleStep(c: Catalog, s: Step, rid: string)
    requires Inv(c) && Stale(c, rid)
    ensures Stale(Next(c, s), rid) && Next(c, s).releases[rid] == c.releases[rid]
  {
    var d := Next(c, s);
    var target := c.releases[rid].target;
    assert Sound(c, c.releases[rid]);
    NextKeepsInv(c, s);
    StepExtends(c, s, target);
    assert target in d.tracks ==> Dense(d.tracks[target]);
    assert target in c.tracks ==> Dense(c.tracks[target]);
  }

  /** A release whose predecessor is no longer active is lost for good. */
  lemma {:induction false} StaleNeverCommits(c: Catalog, rid: string, steps: seq<Step>)
    requires Inv(c) && Stale(c, rid)
    ensures var d := Run(c, steps);
            && rid in d.releases && d.releases[rid] == c.releases[rid]
            && Committed(d, rid).Failure?
    decreases steps
  {
    if steps != [] {
      NextKeepsInv(c, steps[0]);
      StaleStep(c, steps[0], rid);
      StaleNeverCommits(Next(c, steps[0]), rid, steps[1..]);
    }
  }

  /** Published history is append-only while the target lives, and a retired target stays retired. */
  lemma {:induction false} HistoryIsAppendOnly(c: Catalog, target: string, steps: seq<Step>)
    requires Inv(c)
    ensures Inv(Run(c, steps)) && Extends(c, Run(c, steps), target)
    decreases steps
  {
    if steps != [] {
      var d := Next(c, steps[0]);
      NextKeepsInv(c, steps[0]);
      StepExtends(c, steps[0], target);
      HistoryIsAppendOnly(d, target, steps[1..]);
    }
  }

  /** A committed release is found under its own number, with its own content, ever after. */
  lemma CommittedStaysPublished(c: Catalog, rid: string, steps: seq<Step>)
    requires Inv(c) && Committed(c, rid).Success?
    ensures var d := Run(Committed(c, rid).value, steps);
            && rid in d.releases && d.releases[rid].committed
            && (d.releases[rid].target in d.tracks ==>
                  var vs := d.tracks[d.releases[rid].target].versions;
                  && 1 <= d.releases[rid].version <= |vs|
                  && vs[d.releases[rid].version - 1] == Version(d.releases[rid].version, d.releases[rid].content))
  {
    var c1 := Committed(c, rid).value;
    CommitKeepsInv(c, rid);
    ReleaseRowsPersist(c1, rid, steps);
    RunKeepsInv(c1, steps);
    assert Sound(Run(c1, steps), Run(c1, steps).releases[rid]);
  }

  lemma {:induction false} ReleaseRowsPersist(c: Catalog, rid: string, steps: seq<Step>)
    requires rid in c.releases
    ensures var d := Run(c, steps);
            rid in d.releases && d.releases[rid].(committed := c.releases[rid].committed) == c.releases[rid]
            && (c.releases[rid].committed ==> d.releases[rid].committed)
    decreases steps
  {
    if steps != [] { ReleaseRowsPersist(Next(c, steps[0]), rid, steps[1..]); }
  }

  /** Whatever happens in between, committing one release twice appends it once. */
  lemma CommitTwiceAppendsOnce(c: Catalog, rid: string, steps: seq<Step>)
    requires Inv(c) && Committed(c, rid).Success?
    ensures var d := Run(Committed(c, rid).value, steps);
            Committed(d, rid) == Success(d.(revision := d.revision + 1))
  {
    CommittedStaysPublished(c, rid, steps);
  }

  /** The store: one SQLite row holding the document, rewritten whole by every edit. */
  class ReleaseStore {
    var document: Catalog

    ghost predicate Valid()
      reads this
    {
      Inv(document)
    }

    constructor ()
      ensures Valid() && document == EMPTY
    {
      document := EMPTY;
    }

    method BeginPrepare(call: nat, target: string, chosen: Option<nat>, draft: Content, expected: Option<nat>)
      returns (r: Result<Proposal>)
      requires Valid()
      modifies this
      ensures Valid() && document == Next(old(document), Step.BeginPrepare(call, target, chosen, draft, expected))
      ensures r == Draft(old(document), target, chosen, draft, expected)
    {
      NextKeepsInv(document, Step.BeginPrepare(call, target, chosen, draft, expected));
      if expected.Some? && expected.value != document.revision { return Failure(409); }
      if target !in document.tracks { return Failure(404); }
      if target in document.deleting { return Failure(409); }
      var track := document.tracks[target];
      var content := draft;
      if chosen.Some? && chosen.value != 0 {
        var found := Find(track.versions, chosen.value);
        if found.None? { return Failure(404); }
        content := found.value.content;
      }
      var p := Proposal(document.revision, Release(target, |track.versions| + 1, content, track.active, false));
      document := document.(proposals := document.proposals[call := p]);
      r := Success(p);
    }

    method FinishPrepare(call: nat, rid: string) returns (r: Result<Release>)
      requires Valid() && call in document.proposals && rid !in document.releases
      modifies this
      ensures Valid() && document == Next(old(document), Step.FinishPrepare(call, rid))
      ensures r.Success? <==> old(document.proposals[call].revision == document.revision)
      ensures r.Success? ==>
                rid in document.releases && document.releases[rid] == r.value == old(document.proposals[call].release)
    {
      NextKeepsInv(document, Step.FinishPrepare(call, rid));
      var p := document.proposals[call];
      if p.revision != document.revision { return Failure(409); }
      document := document.(revision := document.revision + 1, releases := document.releases[rid := p.release]);
      r := Success(p.release);
    }

    /** Both halves of one `prepare` request; another edit may fall in between. */
    method Prepare(rid: string, target: string, chosen: Option<nat>, draft: Content, expected: Option<nat>,
                   otherEdit: bool) returns (r: Result<Release>)
      requires Valid() && rid !in document.releases
      modifies this
      ensures Valid() && document.tracks == old(document.tracks)
      ensures r.Success? <==> Draft(old(document), target, chosen, draft, expected).Success? && !otherEdit
      ensures r.Success? ==> r.value == Draft(old(document), target, chosen, draft, expected).value.release
      ensures document.releases == old(document.releases) ||
                (rid in document.releases && document.releases == old(document.releases)[rid := document.releases[rid]])
      ensures r.Success? ==>
                && rid in document.releases && document.releases[rid] == r.value && !r.value.committed
                && r.value.target == target && target in document.tracks &&
                   r.value.oldActive == document.tracks[target].active
    {
      var _ :- BeginPrepare(0, target, chosen, draft, expected);
      if otherEdit {
        NextKeepsInv(document, OtherEdit);
        document := document.(revision := document.revision + 1);
      }
      r := FinishPrepare(0, rid);
    }

    method Fetch(rid: string) returns (r: Result<Release>)
      ensures r == if rid in document.releases then Success(document.releases[rid]) else Failure(404)
    {
      if rid !in document.releases { return Failure(404); }
      r := Success(document.releases[rid]);
    }

    method Commit(rid: string) returns (r: Result<nat>)
      requires Valid()
      modifies this
      ensures Valid() && document == Next(old(document), Step.Commit(rid))
      ensures r.Success? <==> Committed(old(document), rid).Success?
      ensures r.Success? ==>
                rid in document.releases && document.releases[rid].committed &&
                  r.value == document.releases[rid].version
    {
      NextKeepsInv(document, Step.Commit(rid));
      if rid !in document.releases { return Failure(404); }
      var value := document.releases[rid];
      if value.committed {
        document := document.(revision := document.revision + 1);
        return Success(value.version);
      }
      if value.target !in document.tracks { return Failure(500); }
      var track := document.tracks[value.target];
      if track.active != value.oldActive { return Failure(409); }
      track := track.(versions := track.versions + [Version(value.version, value.content)]);
      track := track.(active := Some(value.version));
      value := value.(committed := true);
      document := document.(revision := document.revision + 1,
                            tracks := document.tracks[value.target := track],
                            releases := document.releases[rid := value]);
      r := Success(value.version);
    }
  }
}
