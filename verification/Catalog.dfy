/**
 The catalog document of catalog_service: models, resources, agent drafts and templates, and
 every edit of management.py, main.py, admin_api.py, agent_templates.py and transfers.py.
 */
module Catalog {
  import opened Outcomes

  datatype Binding = Binding(id: string, version: nat)

  datatype Config = Config(
    enabled: bool,
    allowed: seq<string>,
    default: Option<string>,
    small: Option<string>,
    bindings: seq<Binding>,
    cpu: Option<int>,
    memoryMb: Option<int>,
    instructions: nat)  // length of the instructions

  datatype Model = Model(enabled: bool, legacy: bool, provider: string)

  datatype ResourceKind = Skill | Mcp | Hook

  datatype Artifact = Artifact(name: Option<string>, content: string)

  datatype Published = Published(number: nat, artifact: Artifact)

  datatype Resource = Resource(
    kind: ResourceKind,
    name: string,
    owner: Option<string>,
    archived: bool,
    draft: Artifact,
    versions: seq<Published>)

  datatype AgentVersion = AgentVersion(number: nat, config: Config)

  datatype Lifecycle = Live | Archived | Deleting

  datatype Agent = Agent(draft: Config, versions: seq<AgentVersion>, active: Option<nat>, lifecycle: Lifecycle)

  datatype Template = Template(config: Config, imported: bool)

  datatype Document = Document(
    revision: nat,
    models: map<string, Model>,
    resources: map<string, Resource>,
    agents: map<string, Agent>,
    tombstones: map<string, Option<string>>,  // retired agent -> request that deleted it
    templates: map<string, Template>)

  // ---------------------------------------------------------------- queries

  /** resource_version */
  function FindVersion(vs: seq<Published>, n: nat): Option<Published>
  {
    if vs == [] then None else if vs[0].number == n then Some(vs[0]) else FindVersion(vs[1..], n)
  }

  /** agent_config */
  function FindConfig(vs: seq<AgentVersion>, active: Option<nat>): Option<Config>
  {
    if vs == [] then None
    else if active == Some(vs[0].number) then Some(vs[0].config)
    else FindConfig(vs[1..], active)
  }

  predicate Mentions(c: Config, mid: string, enabledOnly: bool)
  {
    mid in c.allowed && (!enabledOnly || c.enabled)
  }

  /** model_references */
  function ModelReferences(d: Document, mid: string, enabledOnly: bool): set<string>
  {
    set aid | aid in d.agents &&
              (Mentions(d.agents[aid].draft, mid, enabledOnly) ||
               (var c := FindConfig(d.agents[aid].versions, d.agents[aid].active);
                c.Some? && Mentions(c.value, mid, enabledOnly)))
  }

  predicate Binds(c: Config, rid: string)
  {
    exists i :: 0 <= i < |c.bindings| && c.bindings[i].id == rid
  }

  /** resource_lifecycle: drafts, every version ever published, and templates. */
  predicate ResourceReferenced(d: Document, rid: string)
  {
    || (exists aid :: aid in d.agents && Binds(d.agents[aid].draft, rid))
    || (exists aid, i ::
        aid in d.agents && 0 <= i < |d.agents[aid].versions| && Binds(d.agents[aid].versions[i].config, rid))
    || (exists tid :: tid in d.templates && Binds(d.templates[tid].config, rid))
  }

  // -------------------------------------------------------------- integrity

  predicate ModelsResolve(models: map<string, Model>, c: Config)
  {
    && (forall i | 0 <= i < |c.allowed| :: c.allowed[i] in models && (c.enabled ==> models[c.allowed[i]].enabled))
    && c.default.Some? && c.default.value in c.allowed
    && (c.small.Some? && c.small.value != "" ==> c.small.value in c.allowed)
  }

  predicate BindingResolves(resources: map<string, Resource>, aid: string, b: Binding)
  {
    && b.id in resources && FindVersion(resources[b.id].versions, b.version).Some?
    && (resources[b.id].owner.None? || resources[b.id].owner == Some(aid))
  }

  /** Every reference of this configuration resolves, as a draft of this agent. */
  predicate Resolves(d: Document, aid: string, c: Config)
  {
    ModelsResolve(d.models, c) && forall i | 0 <= i < |c.bindings| :: BindingResolves(d.resources, aid, c.bindings[i])
  }

  ghost predicate Integrity(d: Document)
  {
    && (forall aid | aid in d.agents :: Resolves(d, aid, d.agents[aid].draft))
    && d.agents.Keys !! d.tombstones.Keys
  }

  function NameOf(r: Resource, version: nat): (ResourceKind, string)
  {
    var v := FindVersion(r.versions, version);
    (r.kind, if v.Some? && v.value.artifact.name.Some? then v.value.artifact.name.value else r.name)
  }

  function RuntimeName(d: Document, b: Binding): (ResourceKind, string)
    requires b.id in d.resources
  {
    NameOf(d.resources[b.id], b.version)
  }

  predicate AcceptableBindings(d: Document, aid: string, bs: seq<Binding>)
  {
    && (forall i | 0 <= i < |bs| :: BindingResolves(d.resources, aid, bs[i]))
    && (forall i, j | 0 <= i < j < |bs| :: bs[i].id != bs[j].id && RuntimeName(d, bs[i]) != RuntimeName(d, bs[j]))
  }

  function BoundIds(bs: seq<Binding>): set<string>
  {
    set i | 0 <= i < |bs| :: bs[i].id
  }

  function RuntimeNames(d: Document, bs: seq<Binding>): set<(ResourceKind, string)>
    requires forall i | 0 <= i < |bs| :: bs[i].id in d.resources
  {
    set i | 0 <= i < |bs| :: RuntimeName(d, bs[i])
  }

  lemma NamesSnoc(d: Document, bs: seq<Binding>, b: Binding)
    requires forall i | 0 <= i < |bs| :: bs[i].id in d.resources
    requires b.id in d.resources
    ensures RuntimeNames(d, bs + [b]) == RuntimeNames(d, bs) + {RuntimeName(d, b)}
  {
    var more := bs + [b];
    forall x | x in RuntimeNames(d, bs) + {RuntimeName(d, b)} ensures x in RuntimeNames(d, more) {
      if x == RuntimeName(d, b) {
        assert more[|bs|] == b;
      } else {
        var i :| 0 <= i < |bs| && x == RuntimeName(d, bs[i]);
        assert more[i] == bs[i];
      }
    }
  }

  lemma IdsSnoc(bs: seq<Binding>, b: Binding)
    ensures BoundIds(bs + [b]) == BoundIds(bs) + {b.id}
  {
    var more := bs + [b];
    forall x | x in BoundIds(bs) + {b.id} ensures x in BoundIds(more) {
      if x == b.id {
        assert more[|bs|] == b;
      } else {
        var i :| 0 <= i < |bs| && x == bs[i].id;
        assert more[i] == bs[i];
      }
    }
  }

  lemma AcceptableMore(d: Document, aid: string, bs: seq<Binding>, b: Binding)
    requires AcceptableBindings(d, aid, bs) && BindingResolves(d.resources, aid, b)
    requires b.id !in BoundIds(bs) && RuntimeName(d, b) !in RuntimeNames(d, bs)
    ensures AcceptableBindings(d, aid, bs + [b])
  {
    var more, n := bs + [b], |bs|;
    assert more[n] == b && forall i | 0 <= i < n :: more[i] == bs[i];
    forall i | 0 <= i < n ensures bs[i].id != b.id && RuntimeName(d, bs[i]) != RuntimeName(d, b) {
      assert bs[i].id in BoundIds(bs) && RuntimeName(d, bs[i]) in RuntimeNames(d, bs);
    }
  }

  lemma AcceptableLess(d: Document, aid: string, bs: seq<Binding>, b: Binding)
    requires AcceptableBindings(d, aid, bs) && AcceptableBindings(d, aid, bs + [b])
    ensures BindingResolves(d.resources, aid, b) && b.id !in BoundIds(bs) && RuntimeName(d, b) !in RuntimeNames(d, bs)
  {
    var more, n := bs + [b], |bs|;
    assert more[n] == b && forall i | 0 <= i < n :: more[i] == bs[i];
  }

  /** One more binding is acceptable exactly when it resolves and repeats neither an id nor a runtime name. */
  lemma AcceptableSnoc(d: Document, aid: string, bs: seq<Binding>, b: Binding)
    requires AcceptableBindings(d, aid, bs)
    ensures AcceptableBindings(d, aid, bs + [b]) <==>
              && BindingResolves(d.resources, aid, b)
              && b.id !in BoundIds(bs) && RuntimeName(d, b) !in RuntimeNames(d, bs)
  {
    if AcceptableBindings(d, aid, bs + [b]) {
      AcceptableLess(d, aid, bs, b);
    } else if BindingResolves(d.resources, aid, b) && b.id !in BoundIds(bs) &&
       RuntimeName(d, b) !in RuntimeNames(d, bs) {
      AcceptableMore(d, aid, bs, b);
    }
  }

  predicate Distinct<T(==)>(s: seq<T>)
  {
    forall i, j | 0 <= i < j < |s| :: s[i] != s[j]
  }

  predicate AcceptableSettings(models: map<string, Model>, c: Config)
  {
    && (c.cpu.Some? ==> c.cpu.value in {1, 2, 4, 8})
    && (c.memoryMb.Some? ==> c.memoryMb.value in {1024, 2048, 4096, 8192})
    && c.allowed != [] && Distinct(c.allowed) && ModelsResolve(models, c)
    && c.instructions <= 200000
  }

  /** What `validate_agent` accepts. */
  predicate Acceptable(d: Document, aid: string, c: Config)
  {
    AcceptableSettings(d.models, c) && AcceptableBindings(d, aid, c.bindings)
  }

  // ----------------------------------------------------------- preservation

  /** Resources only gain versions, and keep their owner. */
  predicate Grows(a: Resource, b: Resource)
  {
    a.versions <= b.versions && a.owner == b.owner
  }

  lemma {:induction false} FindInLonger(a: seq<Published>, b: seq<Published>, n: nat)
    requires a <= b && FindVersion(a, n).Some?
    ensures FindVersion(b, n) == FindVersion(a, n)
  {
    if a[0].number != n { FindInLonger(a[1..], b[1..], n); }
  }

  lemma ResolvesInLarger(d: Document, e: Document, aid: string, c: Config)
    requires Resolves(d, aid, c)
    requires forall i | 0 <= i < |c.allowed| ::
               c.allowed[i] in e.models && (c.enabled ==> e.models[c.allowed[i]].enabled)
    requires forall i | 0 <= i < |c.bindings| ::
               c.bindings[i].id in e.resources && Grows(d.resources[c.bindings[i].id], e.resources[c.bindings[i].id])
    ensures Resolves(e, aid, c)
  {
    forall i | 0 <= i < |c.bindings| ensures BindingResolves(e.resources, aid, c.bindings[i]) {
      var b := c.bindings[i];
      assert BindingResolves(d.resources, aid, b);
      FindInLonger(d.resources[b.id].versions, e.resources[b.id].versions, b.version);
    }
  }

  /** Storing a model keeps every draft, if no enabled draft loses it. */
  lemma ModelStored(d: Document, mid: string, m: Model)
    requires Integrity(d)
    requires !m.enabled ==> mid !in d.models || ModelReferences(d, mid, true) == {}
    ensures Integrity(d.(models := d.models[mid := m]))
  {
    var e := d.(models := d.models[mid := m]);
    forall aid | aid in d.agents ensures Resolves(e, aid, d.agents[aid].draft) {
      var c := d.agents[aid].draft;
      assert aid !in ModelReferences(d, mid, true) ==> !Mentions(c, mid, true);
      ResolvesInLarger(d, e, aid, c);
    }
  }

  lemma ModelDropped(d: Document, mid: string)
    requires Integrity(d) && ModelReferences(d, mid, false) == {}
    ensures Integrity(d.(models := d.models - {mid}))
  {
    var e := d.(models := d.models - {mid});
    forall aid | aid in d.agents ensures Resolves(e, aid, d.agents[aid].draft) {
      assert aid !in ModelReferences(d, mid, false) ==> !Mentions(d.agents[aid].draft, mid, false);
      ResolvesInLarger(d, e, aid, d.agents[aid].draft);
    }
  }

  /** Resources that only grow, or that nobody binds, keep every draft. */
  lemma ResourcesChanged(d: Document, resources: map<string, Resource>)
    requires Integrity(d)
    requires forall aid, i | aid in d.agents && 0 <= i < |d.agents[aid].draft.bindings| ::
               var id := d.agents[aid].draft.bindings[i].id;
               id in resources && id in d.resources && Grows(d.resources[id], resources[id])
    ensures Integrity(d.(resources := resources))
  {
    var e := d.(resources := resources);
    forall aid | aid in d.agents ensures Resolves(e, aid, d.agents[aid].draft) {
      ResolvesInLarger(d, e, aid, d.agents[aid].draft);
    }
  }

  lemma ResourcesAdded(d: Document, resources: map<string, Resource>)
    requires Integrity(d)
    requires forall x | x in d.resources :: x in resources && Grows(d.resources[x], resources[x])
    ensures Integrity(d.(resources := resources))
  {
    forall aid, i | aid in d.agents && 0 <= i < |d.agents[aid].draft.bindings|
      ensures d.agents[aid].draft.bindings[i].id in d.resources
    {
      assert BindingResolves(d.resources, aid, d.agents[aid].draft.bindings[i]);
    }
    ResourcesChanged(d, resources);
  }

  lemma ResourceStored(d: Document, rid: string, r: Resource)
    requires Integrity(d) && (rid in d.resources ==> Grows(d.resources[rid], r))
    ensures Integrity(d.(resources := d.resources[rid := r]))
  {
    ResourcesAdded(d, d.resources[rid := r]);
  }

  lemma ResourceDropped(d: Document, rid: string)
    requires Integrity(d) && !ResourceReferenced(d, rid)
    ensures Integrity(d.(resources := d.resources - {rid}))
  {
    forall aid, i | aid in d.agents && 0 <= i < |d.agents[aid].draft.bindings|
      ensures d.agents[aid].draft.bindings[i].id in d.resources - {rid}
    {
      assert BindingResolves(d.resources, aid, d.agents[aid].draft.bindings[i]);
      assert !Binds(d.agents[aid].draft, rid);
    }
    ResourcesChanged(d, d.resources - {rid});
  }

  function WithoutPrivate(resources: map<string, Resource>, aid: string): map<string, Resource>
  {
    map rid | rid in resources && resources[rid].owner != Some(aid) :: resources[rid]
  }

  /** Deleting an agent takes its private resources along; nobody else can have bound them. */
  lemma AgentDropped(d: Document, aid: string, request: Option<string>)
    requires Integrity(d) && aid in d.agents
    ensures Integrity(d.(resources := WithoutPrivate(d.resources, aid), agents := d.agents - {aid},
                         tombstones := d.tombstones[aid := request]))
  {
    var less := d.(agents := d.agents - {aid});
    forall x, i | x in less.agents && 0 <= i < |less.agents[x].draft.bindings|
      ensures less.agents[x].draft.bindings[i].id in WithoutPrivate(d.resources, aid)
    {
      assert BindingResolves(d.resources, x, d.agents[x].draft.bindings[i]);
    }
    assert Integrity(less) by {
      forall x | x in less.agents ensures Resolves(less, x, less.agents[x].draft) {
        assert Resolves(d, x, d.agents[x].draft);
      }
    }
    ResourcesChanged(less, WithoutPrivate(d.resources, aid));
  }

  lemma AgentStored(d: Document, aid: string, a: Agent)
    requires Integrity(d) && aid !in d.tombstones && Resolves(d, aid, a.draft)
    ensures Integrity(d.(agents := d.agents[aid := a]))
  {
    var e := d.(agents := d.agents[aid := a]);
    forall x | x in e.agents ensures Resolves(e, x, e.agents[x].draft) {
      if x != aid { assert Resolves(d, x, d.agents[x].draft); }
    }
  }

  // ------------------------------------------------------------------ edits

  /** One entry of a model import. */
  datatype Item = Item(id: string, model: Model)

  predicate ItemAccepted(d: Document, item: Item, replace: bool)
  {
    && (item.id in d.models ==> replace) && !item.model.legacy && item.model.provider != "legacy"
    && (item.model.enabled || ModelReferences(d, item.id, true) == {})
  }

  /** Each item is acceptable by itself, and none is given twice. */
  predicate Importable(d: Document, items: seq<Item>, replace: bool)
  {
    && (forall i | 0 <= i < |items| :: ItemAccepted(d, items[i], replace))
    && (forall i, j | 0 <= i < j < |items| :: items[i].id != items[j].id)
  }

  function ItemIds(items: seq<Item>): set<string>
  {
    set i | i in items :: i.id
  }

  lemma ImportableSnoc(d: Document, items: seq<Item>, item: Item, replace: bool)
    requires Importable(d, items, replace)
    ensures Importable(d, items + [item], replace) <==> ItemAccepted(d, item, replace) && item.id !in ItemIds(items)
    ensures ItemIds(items + [item]) == ItemIds(items) + {item.id}
  {
    var more := items + [item];
    assert more[|items|] == item && forall i | 0 <= i < |items| :: more[i] == items[i] && items[i] in items;
    if item.id in ItemIds(items) {
      var x :| x in items && x.id == item.id;
      var i :| 0 <= i < |items| && items[i] == x;
      assert more[i].id == more[|items|].id;
    }
    forall x | x in ItemIds(items) + {item.id} ensures x in ItemIds(more) {
      if x == item.id { assert item in more; } else { var y :| y in items && y.id == x; assert y in more; }
    }
  }

  /** Every item is stored as given, and nothing else changed. */
  ghost predicate Took(before: map<string, Model>, after: map<string, Model>, items: seq<Item>)
  {
    && (forall i | i in items :: i.id in after && after[i.id] == i.model)
    && (forall mid | mid !in ItemIds(items) :: mid in after <==> mid in before)
    && (forall mid | mid !in ItemIds(items) && mid in before && mid in after :: after[mid] == before[mid])
  }

  lemma TookSnoc(before: map<string, Model>, after: map<string, Model>, items: seq<Item>, item: Item)
    requires Took(before, after, items) && item.id !in ItemIds(items)
    ensures Took(before, after[item.id := item.model], items + [item])
  {
    var more := items + [item];
    assert item in more && forall i | i in items :: i in more && i.id in ItemIds(items);
    forall mid | mid in ItemIds(items) || mid == item.id ensures mid in ItemIds(more) {
      if mid != item.id { var y :| y in items && y.id == mid; assert y in more; }
    }
  }

  /** The binding is as in the source, or names the copy of a private resource. */
  predicate CopiedBinding(before: map<string, Resource>, after: map<string, Resource>, source: string, aid: string,
                          newId: string, from: Binding, to: Binding)
  {
    && from.id in before && to.id in after && to.version == from.version
    && (if before[from.id].owner == Some(source)
        then to.id == newId && after[newId] == before[from.id].(owner := Some(aid))
        else to == from)
  }

  ghost predicate Copied(before: map<string, Resource>, after: map<string, Resource>, source: string, aid: string,
                         newIds: seq<string>, from: seq<Binding>, to: seq<Binding>)
  {
    && |to| == |from| <= |newIds|
    && forall i | 0 <= i < |from| :: CopiedBinding(before, after, source, aid, newIds[i], from[i], to[i])
  }

  /** Published versions of every resource are numbered from 1. */
  ghost predicate Numbered(resources: map<string, Resource>)
  {
    forall rid, i | rid in resources && 0 <= i < |resources[rid].versions| :: resources[rid].versions[i].number == i + 1
  }

  /** What no edit takes back: the revision, the tombstones, and the published versions of a surviving resource. */
  ghost predicate Advances(a: Document, b: Document)
  {
    && a.revision <= b.revision && a.tombstones.Keys <= b.tombstones.Keys
    && forall rid | rid in a.resources && rid in b.resources ::
         Grows(a.resources[rid], b.resources[rid]) && a.resources[rid].kind == b.resources[rid].kind
  }

  // ---------------------------------------------------------------- changes

  /** What one entry of an edit does to the document. */
  datatype Change =
    | PutModel(mid: string, model: Model)
    | DropModel(mid: string)
    | PutResource(rid: string, resource: Resource)
    | AddCopies(copies: map<string, Resource>)
    | Publish(rid: string, artifact: Artifact)
    | DropResource(rid: string)
    | PutDraft(aid: string, draft: Config)
    | SetLifecycle(aid: string, lifecycle: Lifecycle)
    | PublishVersion(aid: string, version: AgentVersion)
    | DropAgent(aid: string, request: Option<string>)
    | AddTemplates(templates: map<string, Template>)

  function NextPublished(r: Resource, artifact: Artifact): Published
  {
    Published(|r.versions| + 1, artifact)
  }

  /** The published versions come from a resource there is. */
  predicate CopiesVersions(resources: map<string, Resource>, r: Resource)
  {
    exists source :: source in resources && r.versions == resources[source].versions
  }

  /** The guards under which the catalog makes this change. */
  ghost predicate Allowed(d: Document, c: Change)
  {
    match c
    case PutModel(mid, m) => !m.enabled ==> mid !in d.models || ModelReferences(d, mid, true) == {}
    case DropModel(mid) => mid in d.models && ModelReferences(d, mid, false) == {}
    case PutResource(rid, r) =>
      if rid in d.resources
      then r == d.resources[rid].(name := r.name, archived := r.archived, draft := r.draft)
      else r.versions == []
    case AddCopies(copies) =>
      copies.Keys !! d.resources.Keys && forall x | x in copies :: CopiesVersions(d.resources, copies[x])
    case Publish(rid, _) => rid in d.resources
    case DropResource(rid) => rid in d.resources && d.resources[rid].archived && !ResourceReferenced(d, rid)
    case PutDraft(aid, draft) =>
      && aid !in d.tombstones && (aid in d.agents ==> d.agents[aid].lifecycle != Deleting)
      && Acceptable(d, aid, draft)
    case SetLifecycle(aid, _) => aid in d.agents
    case PublishVersion(aid, _) => aid in d.agents
    case DropAgent(aid, _) => aid in d.agents && d.agents[aid].lifecycle != Live
    case AddTemplates(templates) => templates.Keys !! d.templates.Keys
  }

  function Changed(d: Document, c: Change): Document
  {
    match c
    case PutModel(mid, m) => d.(models := d.models[mid := m])
    case DropModel(mid) => d.(models := d.models - {mid})
    case PutResource(rid, r) => d.(resources := d.resources[rid := r])
    case AddCopies(copies) => d.(resources := d.resources + copies)
    case Publish(rid, artifact) =>
      if rid !in d.resources then d
      else
        var r := d.resources[rid];
        d.(resources := d.resources[rid := r.(versions := r.versions + [NextPublished(r, artifact)])])
    case DropResource(rid) => d.(resources := d.resources - {rid})
    case PutDraft(aid, draft) =>
      var agent := if aid in d.agents then d.agents[aid].(draft := draft) else Agent(draft, [], None, Live);
      d.(agents := d.agents[aid := agent])
    case SetLifecycle(aid, state) =>
      if aid !in d.agents then d else d.(agents := d.agents[aid := d.agents[aid].(lifecycle := state)])
    case PublishVersion(aid, version) =>
      if aid !in d.agents then d
      else
        var a := d.agents[aid];
        d.(agents := d.agents[aid := a.(versions := a.versions + [version], active := Some(version.number))])
    case DropAgent(aid, request) =>
      d.(resources := WithoutPrivate(d.resources, aid), agents := d.agents - {aid},
         tombstones := d.tombstones[aid := request])
    case AddTemplates(templates) => d.(templates := d.templates + templates)
  }

  /** One change keeps integrity and the numbering, and takes back nothing of `Advances`. */
  lemma ChangeKeeps(d: Document, c: Change)
    requires Integrity(d) && Numbered(d.resources) && Allowed(d, c)
    ensures Integrity(Changed(d, c)) && Numbered(Changed(d, c).resources) && Advances(d, Changed(d, c))
  {
    match c
    case PutModel(mid, m) => ModelStored(d, mid, m);
    case DropModel(mid) => ModelDropped(d, mid);
    case PutResource(rid, r) => ResourceStored(d, rid, r);
    case AddCopies(copies) => CopiesKeep(d, copies);
    case Publish(rid, artifact) =>
      ResourceStored(d, rid, Changed(d, c).resources[rid]);
    case DropResource(rid) => ResourceDropped(d, rid);
    case PutDraft(aid, _) => AgentStored(d, aid, Changed(d, c).agents[aid]);
    case SetLifecycle(aid, _) => AgentStored(d, aid, Changed(d, c).agents[aid]);
    case PublishVersion(aid, _) => AgentStored(d, aid, Changed(d, c).agents[aid]);
    case DropAgent(aid, request) => AgentDropped(d, aid, request);
    case AddTemplates(templates) => TemplatesKeep(d, d.templates + templates);
  }

  lemma CopiesKeep(d: Document, copies: map<string, Resource>)
    requires Integrity(d) && Numbered(d.resources) && Allowed(d, AddCopies(copies))
    ensures Integrity(d.(resources := d.resources + copies)) && Numbered(d.resources + copies)
  {
    ResourcesAdded(d, d.resources + copies);
    forall x | x in copies
      ensures forall i | 0 <= i < |copies[x].versions| :: copies[x].versions[i].number == i + 1
    {
      var source :| source in d.resources && copies[x].versions == d.resources[source].versions;
    }
  }

  lemma TemplatesKeep(d: Document, templates: map<string, Template>)
    requires Integrity(d)
    ensures Integrity(d.(templates := templates))
  {
    var e := d.(templates := templates);
    forall aid | aid in e.agents ensures Resolves(e, aid, e.agents[aid].draft) {
      assert Resolves(d, aid, d.agents[aid].draft);
    }
  }

  function Play(d: Document, cs: seq<Change>): Document
  {
    if cs == [] then d else Changed(Play(d, cs[..|cs| - 1]), cs[|cs| - 1])
  }

  ghost predicate Legal(d: Document, cs: seq<Change>)
  {
    cs != [] ==> Legal(d, cs[..|cs| - 1]) && Allowed(Play(d, cs[..|cs| - 1]), cs[|cs| - 1])
  }

  lemma PlaySnoc(d: Document, cs: seq<Change>, c: Change)
    ensures Play(d, cs + [c]) == Changed(Play(d, cs), c)
    ensures Legal(d, cs + [c]) <==> Legal(d, cs) && Allowed(Play(d, cs), c)
  {
    assert (cs + [c])[..|cs|] == cs;
  }

  lemma PlayOne(d: Document, c: Change)
    ensures Play(d, [c]) == Changed(d, c) && (Legal(d, [c]) <==> Allowed(d, c))
  {
    PlaySnoc(d, [], c);
    assert [] + [c] == [c];
  }

  predicate Additive(c: Change)
  {
    !c.DropModel? && !c.DropResource? && !c.DropAgent?
  }

  /** An edit removes something, or stores any number of things. */
  predicate OneEdit(cs: seq<Change>)
  {
    |cs| <= 1 || forall c | c in cs :: Additive(c)
  }

  lemma NothingDropped(d: Document, c: Change)
    requires Additive(c)
    ensures d.resources.Keys <= Changed(d, c).resources.Keys
  {
  }

  lemma {:induction false} AdditiveGrows(d: Document, cs: seq<Change>)
    requires Legal(d, cs) && forall c | c in cs :: Additive(c)
    ensures d.resources.Keys <= Play(d, cs).resources.Keys
    decreases |cs|
  {
    if cs != [] {
      AdditiveGrows(d, cs[..|cs| - 1]);
      NothingDropped(Play(d, cs[..|cs| - 1]), cs[|cs| - 1]);
    }
  }

  /** Any edit whose changes are made under their guards, one after the other. */
  lemma {:induction false} PlayKeeps(d: Document, cs: seq<Change>)
    requires Integrity(d) && Numbered(d.resources) && Legal(d, cs) && OneEdit(cs)
    ensures Integrity(Play(d, cs)) && Numbered(Play(d, cs).resources) && Advances(d, Play(d, cs))
    decreases |cs|
  {
    if cs != [] {
      var front := cs[..|cs| - 1];
      PlayKeeps(d, front);
      ChangeKeeps(Play(d, front), cs[|cs| - 1]);
      if |cs| > 1 {
        AdditiveGrows(d, front);
      }
    }
  }

  /** The transition relation of the document: nothing happens, or an edit is stored under the next revision. */
  ghost predicate Edited(a: Document, b: Document)
  {
    a == b || exists cs :: OneEdit(cs) && Legal(a, cs) && b == Play(a, cs).(revision := a.revision + 1)
  }

  lemma RevisionKeeps(d: Document, n: nat)
    requires Integrity(d)
    ensures Integrity(d.(revision := n))
  {
    forall aid | aid in d.agents ensures Resolves(d.(revision := n), aid, d.agents[aid].draft) {
      assert Resolves(d, aid, d.agents[aid].draft);
    }
  }

  lemma EditedKeeps(a: Document, b: Document)
    requires Integrity(a) && Numbered(a.resources) && Edited(a, b)
    ensures Integrity(b) && Numbered(b.resources) && Advances(a, b)
  {
    if a != b {
      var cs :| OneEdit(cs) && Legal(a, cs) && b == Play(a, cs).(revision := a.revision + 1);
      PlayKeeps(a, cs);
      RevisionKeeps(Play(a, cs), b.revision);
    }
  }

  /** A history of the document: it starts empty, and each state follows from the one before by an edit. */
  ghost predicate History(h: seq<Document>)
  {
    && h != [] && h[0] == Document(0, map[], map[], map[], map[], map[])
    && forall i | 0 < i < |h| :: Edited(h[i - 1], h[i])
  }

  /** Every reference of every draft resolves in every state the document can reach. */
  lemma {:induction false} AlwaysSound(h: seq<Document>, i: nat)
    requires History(h) && i < |h|
    ensures Integrity(h[i]) && Numbered(h[i].resources)
    ensures i > 0 ==> Advances(h[i - 1], h[i])
  {
    if i > 0 {
      AlwaysSound(h, i - 1);
      EditedKeeps(h[i - 1], h[i]);
    }
  }

  lemma {:induction false} RetiredForever(h: seq<Document>, i: nat, j: nat, aid: string)
    requires History(h) && i <= j < |h| && aid in h[i].tombstones
    ensures aid in h[j].tombstones && aid !in h[j].agents
    decreases j
  {
    if i < j { RetiredForever(h, i, j - 1, aid); }
    AlwaysSound(h, j);
  }

  /** What a pinned binding resolves to never changes while the resource exists. */
  lemma {:induction false} PinnedForever(h: seq<Document>, i: nat, j: nat, b: Binding)
    requires History(h) && i <= j < |h|
    requires forall k | i <= k <= j :: b.id in h[k].resources
    requires FindVersion(h[i].resources[b.id].versions, b.version).Some?
    ensures FindVersion(h[j].resources[b.id].versions, b.version)
            == FindVersion(h[i].resources[b.id].versions, b.version)
    decreases j
  {
    if i < j {
      PinnedForever(h, i, j - 1, b);
      AlwaysSound(h, j);
      FindInLonger(h[j - 1].resources[b.id].versions, h[j].resources[b.id].versions, b.version);
    }
  }

  function Renamed(m: map<string, string>, id: string): string
  {
    if id in m then m[id] else id
  }

  function RenamedOption(m: map<string, string>, id: Option<string>): Option<string>
  {
    if id.Some? && id.value != "" then Some(Renamed(m, id.value)) else id
  }

  function RenamedAll(m: map<string, string>, ids: seq<string>): seq<string>
  {
    seq(|ids|, i requires 0 <= i < |ids| => Renamed(m, ids[i]))
  }

  /** `restore`: a selected resource replaces the binding; otherwise an imported template pins version 1. */
  function Rebound(chosen: map<string, Binding>, imported: bool, b: Binding): Binding
  {
    if b.id in chosen then chosen[b.id] else if imported then Binding(b.id, 1) else b
  }

  function RestoredConfig(t: Template, models: map<string, string>, chosen: map<string, Binding>): Config
  {
    t.config.(
      allowed := RenamedAll(models, t.config.allowed),
      default := if t.config.default.Some? then Some(Renamed(models, t.config.default.value)) else None,
      small := RenamedOption(models, t.config.small),
      bindings := seq(|t.config.bindings|,
                      i requires 0 <= i < |t.config.bindings| => Rebound(chosen, t.imported, t.config.bindings[i])))
  }

  lemma CopiedResolves(d: Document, e: Document, source: string, aid: string, newId: string, from: Binding, to: Binding)
    requires CopiedBinding(d.resources, e.resources, source, aid, newId, from, to) &&
               BindingResolves(d.resources, source, from)
    requires from.id in e.resources && e.resources[from.id] == d.resources[from.id]
    ensures BindingResolves(e.resources, aid, to) && RuntimeName(e, to) == RuntimeName(d, from)
  {
  }

  /** No two bindings share a runtime name, and a shared resource is bound once. */
  predicate Copyable(d: Document, source: string, c: Config)
    requires forall i | 0 <= i < |c.bindings| :: c.bindings[i].id in d.resources
  {
    && AcceptableSettings(d.models, c)
    && forall i, j | 0 <= i < j < |c.bindings| ::
         && RuntimeName(d, c.bindings[i]) != RuntimeName(d, c.bindings[j])
         && (c.bindings[i].id == c.bindings[j].id ==> d.resources[c.bindings[i].id].owner == Some(source))
  }

  /** When the copy of a draft is acceptable for its new owner; a copy of an acceptable draft always is. */
  lemma CopyIsAcceptable(d: Document, e: Document, source: string, aid: string, newIds: seq<string>, draft: Config,
                         to: seq<Binding>)
    requires Resolves(d, source, draft) && e == d.(resources := e.resources)
    requires Copied(d.resources, e.resources, source, aid, newIds, draft.bindings, to)
    requires Distinct(newIds) && forall i | 0 <= i < |newIds| :: newIds[i] !in d.resources
    requires forall x | x in d.resources :: x in e.resources && e.resources[x] == d.resources[x]
    ensures forall i | 0 <= i < |draft.bindings| :: draft.bindings[i].id in d.resources
    ensures Acceptable(e, aid, draft.(bindings := to)) <==> Copyable(d, source, draft)
    ensures Acceptable(d, source, draft) ==> Copyable(d, source, draft)
  {
    var from := draft.bindings;
    forall i | 0 <= i < |from|
      ensures BindingResolves(e.resources, aid, to[i]) && RuntimeName(e, to[i]) == RuntimeName(d, from[i])
      ensures BindingResolves(d.resources, source, from[i])
    {
      assert CopiedBinding(d.resources, e.resources, source, aid, newIds[i], from[i], to[i]);
      CopiedResolves(d, e, source, aid, newIds[i], from[i], to[i]);
    }
    forall i, j | 0 <= i < j < |to|
      ensures to[i].id == to[j].id <==>
                from[i].id == from[j].id && d.resources[from[i].id].owner != Some(source)
    {
      assert CopiedBinding(d.resources, e.resources, source, aid, newIds[i], from[i], to[i]);
      assert CopiedBinding(d.resources, e.resources, source, aid, newIds[j], from[j], to[j]);
    }
    CopyDistinct(d, e, source, from, to);
  }

  lemma CopyDistinct(d: Document, e: Document, source: string, from: seq<Binding>, to: seq<Binding>)
    requires |from| == |to|
    requires forall i | 0 <= i < |from| :: from[i].id in d.resources && to[i].id in e.resources &&
                                           RuntimeName(e, to[i]) == RuntimeName(d, from[i])
    requires forall i, j | 0 <= i < j < |to| :: to[i].id == to[j].id <==>
               from[i].id == from[j].id && d.resources[from[i].id].owner != Some(source)
    ensures (forall i, j | 0 <= i < j < |to| :: to[i].id != to[j].id && RuntimeName(e, to[i]) != RuntimeName(e, to[j]))
            <==> forall i, j | 0 <= i < j < |from| :: RuntimeName(d, from[i]) != RuntimeName(d, from[j]) &&
                   (from[i].id == from[j].id ==> d.resources[from[i].id].owner == Some(source))
  {
    forall i, j | 0 <= i < j < |to|
      ensures to[i].id != to[j].id && RuntimeName(e, to[i]) != RuntimeName(e, to[j]) <==>
                RuntimeName(d, from[i]) != RuntimeName(d, from[j]) &&
                (from[i].id == from[j].id ==> d.resources[from[i].id].owner == Some(source))
    {
    }
  }

  /** Copying an agent is one edit of two changes: the private resources, then the draft that binds them. */
  lemma CopyLegal(d: Document, resources: map<string, Resource>, aid: string, draft: Config) returns (cs: seq<Change>)
    requires forall x | x in d.resources :: x in resources && resources[x] == d.resources[x]
    requires forall x | x in resources && x !in d.resources :: CopiesVersions(d.resources, resources[x])
    requires aid !in d.agents && aid !in d.tombstones && Acceptable(d.(resources := resources), aid, draft)
    ensures OneEdit(cs) && Legal(d, cs)
    ensures Play(d, cs) == d.(resources := resources, agents := d.agents[aid := Agent(draft, [], None, Live)])
  {
    var copies := AddCopies(resources - d.resources.Keys);
    assert d.resources + copies.copies == resources;
    PlayOne(d, copies);
    PlaySnoc(d, [copies], PutDraft(aid, draft));
    cs := [copies] + [PutDraft(aid, draft)];
  }

  /** The first `items` of an import are stored in `data`, by legal changes. */
  ghost predicate Importing(d: Document, items: seq<Item>, replace: bool, cs: seq<Change>, data: Document)
  {
    && data == d.(models := data.models) && Importable(d, items, replace) && Took(d.models, data.models, items)
    && Legal(d, cs) && data == Play(d, cs) && forall c | c in cs :: c.PutModel?
  }

  /** An item is judged against the changed models as it would be against the original ones. */
  lemma JudgedAlike(d: Document, items: seq<Item>, replace: bool, cs: seq<Change>, data: Document, mid: string)
    requires Importing(d, items, replace, cs, data) && mid !in ItemIds(items)
    ensures mid in data.models <==> mid in d.models
    ensures ModelReferences(data, mid, true) == ModelReferences(d, mid, true)
  {
  }

  /** What the loop looks at decides whether the import can still be accepted. */
  lemma Judged(d: Document, items: seq<Item>, n: nat, replace: bool, cs: seq<Change>, data: Document)
    requires n < |items| && Importing(d, items[..n], replace, cs, data)
    ensures Importable(d, items, replace) ==> ItemAccepted(d, items[n], replace) && items[n].id !in ItemIds(items[..n])
    ensures items[n].id !in ItemIds(items[..n]) ==>
              && (items[n].id in data.models <==> items[n].id in d.models)
              && ModelReferences(data, items[n].id, true) == ModelReferences(d, items[n].id, true)
    ensures ItemIds(items[..n + 1]) == ItemIds(items[..n]) + {items[n].id}
  {
    assert items[..n + 1] == items[..n] + [items[n]];
    ImportableSnoc(d, items[..n], items[n], replace);
    assert Importable(d, items, replace) ==> Importable(d, items[..n + 1], replace);
    if items[n].id !in ItemIds(items[..n]) { JudgedAlike(d, items[..n], replace, cs, data, items[n].id); }
  }

  lemma ImportingNext(d: Document, items: seq<Item>, n: nat, replace: bool, cs: seq<Change>, data: Document)
    requires n < |items| && Importing(d, items[..n], replace, cs, data)
    requires ItemAccepted(d, items[n], replace) && items[n].id !in ItemIds(items[..n])
    ensures Importing(d, items[..n + 1], replace, cs + [PutModel(items[n].id, items[n].model)],
                      data.(models := data.models[items[n].id := items[n].model]))
  {
    var item := items[n];
    assert items[..n + 1] == items[..n] + [item];
    JudgedAlike(d, items[..n], replace, cs, data, item.id);
    PlaySnoc(d, cs, PutModel(item.id, item.model));
    ImportableSnoc(d, items[..n], item, replace);
    TookSnoc(d.models, data.models, items[..n], item);
  }

  datatype Action = Archive | Restore | Delete | Unknown

  datatype AgentAction = ArchiveAgent | RestoreAgent | MarkDeleting | DeleteAgent | UnknownAction

  class CatalogStore {
    var document: Document

    ghost predicate Valid()
      reads this
    {
      Integrity(document) && Numbered(document.resources)
    }

    constructor ()
      ensures Valid() && document == Document(0, map[], map[], map[], map[], map[])
    {
      document := Document(0, map[], map[], map[], map[], map[]);
    }

    predicate Current(expected: Option<nat>)
      reads this
    {
      expected.None? || expected.value == document.revision
    }

    /** The end of `edit`: the changed document is stored under the next revision. */
    method Store(d: Document, ghost cs: seq<Change>)
      requires Valid() && OneEdit(cs) && Legal(document, cs) && d == Play(document, cs)
      modifies this`document
      ensures Valid() && Edited(old(document), document)
      ensures document == d.(revision := old(document.revision) + 1)
    {
      PlayKeeps(document, cs);
      RevisionKeeps(d, document.revision + 1);
      document := d.(revision := document.revision + 1);
    }

    /** An edit of one change. */
    method StoreOne(d: Document, ghost c: Change)
      requires Valid() && Allowed(document, c) && d == Changed(document, c)
      modifies this`document
      ensures Valid() && Edited(old(document), document)
      ensures document == d.(revision := old(document.revision) + 1)
    {
      PlayOne(document, c);
      Store(d, [c]);
    }

    method ValidateAgent(d: Document, aid: string, c: Config) returns (r: Result<()>)
      ensures r.Success? <==> Acceptable(d, aid, c)
    {
      if c.cpu.Some? && c.cpu.value !in {1, 2, 4, 8} { return Failure(400); }
      if c.memoryMb.Some? && c.memoryMb.value !in {1024, 2048, 4096, 8192} { return Failure(400); }
      if c.allowed == [] { return Failure(400); }
      for i := 0 to |c.allowed|
        invariant Distinct(c.allowed[..i])
      {
        if c.allowed[i] in c.allowed[..i] { return Failure(400); }
      }
      assert c.allowed[..|c.allowed|] == c.allowed;
      for i := 0 to |c.allowed|
        invariant forall k | 0 <= k < i :: c.allowed[k] in d.models && (c.enabled ==> d.models[c.allowed[k]].enabled)
      {
        if c.allowed[i] !in d.models || (c.enabled && !d.models[c.allowed[i]].enabled) { return Failure(400); }
      }
      if c.default.None? || c.default.value !in c.allowed { return Failure(400); }
      if c.small.Some? && c.small.value != "" && c.small.value !in c.allowed { return Failure(400); }
      var _ :- ValidateBindings(d, aid, c.bindings);
      if c.instructions > 200000 { return Failure(400); }
      r := Success(());
    }

    method ValidateBindings(d: Document, aid: string, bs: seq<Binding>) returns (r: Result<()>)
      ensures r.Success? <==> AcceptableBindings(d, aid, bs)
    {
      var names: set<(ResourceKind, string)>, ids: set<string> := {}, {};
      for i := 0 to |bs|
        invariant AcceptableBindings(d, aid, bs[..i])
        invariant ids == BoundIds(bs[..i]) && names == RuntimeNames(d, bs[..i])
      {
        var b := bs[i];
        AcceptableSnoc(d, aid, bs[..i], b);
        assert bs[..i + 1] == bs[..i] + [b];
        assert AcceptableBindings(d, aid, bs) ==> AcceptableBindings(d, aid, bs[..i + 1]);
        if b.id !in d.resources { return Failure(404); }
        if FindVersion(d.resources[b.id].versions, b.version).None? { return Failure(404); }
        if d.resources[b.id].owner.Some? && d.resources[b.id].owner != Some(aid) { return Failure(403); }
        var key := RuntimeName(d, b);
        if key in names || b.id in ids { return Failure(400); }
        NamesSnoc(d, bs[..i], b);
        IdsSnoc(bs[..i], b);
        names, ids := names + {key}, ids + {b.id};
      }
      assert bs[..|bs|] == bs;
      r := Success(());
    }

    // ---------------------------------------------------------------- models

    method SaveModel(mid: string, value: Model, wellFormed: bool, expected: Option<nat>) returns (r: Result<()>)
      requires Valid()
      modifies this`document
      ensures Valid() && Edited(old(document), document)
      ensures r.Success? <==>
                && (expected.None? || expected.value == old(document).revision) && wellFormed
                && (value.provider == "legacy" ==> mid in old(document).models && old(document).models[mid].legacy)
                && (!value.enabled ==> ModelReferences(old(document), mid, true) == {})
      ensures document == if r.Success?
                          then old(document).(revision := old(document).revision + 1,
                                              models := old(document).models[mid := value])
                          else old(document)
    {
      if !Current(expected) { return Failure(409); }
      if !wellFormed { return Failure(400); }
      if value.provider == "legacy" && !(mid in document.models && document.models[mid].legacy) { return Failure(400); }
      if !value.enabled && ModelReferences(document, mid, true) != {} { return Failure(409); }
      StoreOne(document.(models := document.models[mid := value]), PutModel(mid, value));
      r := Success(());
    }

    /** Stores the items one after the other in a copy of the models; accepted exactly if `Importable`. */
    method Imported(d: Document, items: seq<Item>, replace: bool) returns (r: Result<Document>, ghost cs: seq<Change>)
      ensures r.Success? <==> Importable(d, items, replace)
      ensures r.Success? ==> r.value == d.(models := r.value.models) && Took(d.models, r.value.models, items)
      ensures r.Success? ==> OneEdit(cs) && Legal(d, cs) && r.value == Play(d, cs)
    {
      cs := [];
      var data := d;
      var ids: set<string> := {};
      for n := 0 to |items|
        invariant Importing(d, items[..n], replace, cs, data) && ids == ItemIds(items[..n])
      {
        var Item(mid, value) := items[n];
        Judged(d, items, n, replace, cs, data);
        if mid in ids { return Failure(400), cs; }
        ids := ids + {mid};
        if mid in data.models && !replace { return Failure(409), cs; }
        if value.legacy || value.provider == "legacy" { return Failure(400), cs; }
        if !value.enabled && ModelReferences(data, mid, true) != {} { return Failure(409), cs; }
        ImportingNext(d, items, n, replace, cs, data);
        cs, data := cs + [PutModel(mid, value)], data.(models := data.models[mid := value]);
      }
      assert items[..|items|] == items;
      r := Success(data);
    }

    /** All or nothing: a refused item leaves the document as it was. */
    method ImportModels(items: seq<Item>, replace: bool, wellFormed: bool, expected: Option<nat>)
      returns (r: Result<()>)
      requires Valid()
      modifies this`document
      ensures Valid() && Edited(old(document), document)
      ensures r.Failure? ==> document == old(document)
      ensures r.Success? <==>
                && 1 <= |items| <= 100 && wellFormed && (expected.None? || expected.value == old(document).revision)
                && Importable(old(document), items, replace)
      ensures r.Success? ==>
                && document == old(document).(revision := old(document).revision + 1, models := document.models)
                && Took(old(document).models, document.models, items)
    {
      if |items| == 0 || |items| > 100 || !wellFormed { return Failure(400); }
      if !Current(expected) { return Failure(409); }
      var data, cs :- Imported(document, items, replace);
      Store(data, cs);
      r := Success(());
    }

    method DeleteModel(mid: string, expected: Option<nat>) returns (r: Result<()>)
      requires Valid()
      modifies this`document
      ensures Valid() && Edited(old(document), document)
      ensures r.Success? <==>
                && (expected.None? || expected.value == old(document).revision) && mid in old(document).models
                && ModelReferences(old(document), mid, false) == {}
      ensures document == if r.Success?
                          then old(document).(revision := old(document).revision + 1,
                                              models := old(document).models - {mid})
                          else old(document)
    {
      if !Current(expected) { return Failure(409); }
      if mid !in document.models { return Failure(404); }
      if ModelReferences(document, mid, false) != {} { return Failure(409); }
      StoreOne(document.(models := document.models - {mid}), DropModel(mid));
      r := Success(());
    }

    // ---------------------------------------------------------------- agents

    method SaveAgent(aid: string, value: Config, expected: Option<nat>) returns (r: Result<()>)
      requires Valid()
      modifies this`document
      ensures Valid() && Edited(old(document), document)
      ensures r.Success? <==>
                && (expected.None? || expected.value == old(document).revision)
                && aid !in old(document).tombstones
                && (aid in old(document).agents ==> old(document).agents[aid].lifecycle != Deleting)
                && Acceptable(old(document), aid, value)
      ensures document == if r.Failure? then old(document)
                          else old(document).(revision := old(document).revision + 1,
                                              agents := old(document).agents[aid :=
                            if aid in old(document).agents then old(document).agents[aid].(draft := value)
                            else Agent(value, [], None, Live)])
    {
      if !Current(expected) { return Failure(409); }
      if aid in document.tombstones { return Failure(409); }
      if aid in document.agents && document.agents[aid].lifecycle == Deleting { return Failure(409); }
      var _ :- ValidateAgent(document, aid, value);
      var agent := if aid in document.agents then document.agents[aid].(draft := value)
                   else Agent(value, [], None, Live);
      StoreOne(document.(agents := document.agents[aid := agent]), PutDraft(aid, value));
      r := Success(());
    }

    /** Bindings of a copied draft: the source's own resources are copied for the new owner. */
    method CopyBindings(before: map<string, Resource>, source: string, aid: string, from: seq<Binding>,
                        newIds: seq<string>)
      returns (resources: map<string, Resource>, bindings: seq<Binding>)
      requires forall i | 0 <= i < |from| :: from[i].id in before
      requires |newIds| == |from| && Distinct(newIds) && forall i | 0 <= i < |newIds| :: newIds[i] !in before
      ensures forall x | x in before :: x in resources && resources[x] == before[x]
      ensures forall x | x in resources && x !in before :: CopiesVersions(before, resources[x])
      ensures Copied(before, resources, source, aid, newIds, from, bindings)
    {
      resources, bindings := before, [];
      for n := 0 to |from|
        invariant |bindings| == n
        invariant forall x | x in resources && x !in before :: CopiesVersions(before, resources[x])
        invariant forall x | x in before :: x in resources && resources[x] == before[x]
        invariant forall x | x in resources :: x in before || x in newIds[..n]
        invariant forall i | 0 <= i < n ::
                    CopiedBinding(before, resources, source, aid, newIds[i], from[i], bindings[i])
      {
        var b, resource := from[n], resources[from[n].id];
        if resource.owner == Some(source) {
          assert newIds[n] !in newIds[..n];
          assert resource.versions == before[from[n].id].versions;
          resources := resources[newIds[n] := resource.(owner := Some(aid))];
          b := Binding(newIds[n], b.version);
        }
        bindings := bindings + [b];
      }
    }

    method CopyAgent(aid: string, source: string, newIds: seq<string>, expected: Option<nat>) returns (r: Result<()>)
      requires Valid()
      requires source in document.agents ==> |newIds| == |document.agents[source].draft.bindings|
      requires Distinct(newIds) && forall i | 0 <= i < |newIds| :: newIds[i] !in document.resources  // fresh UUIDs
      modifies this`document
      ensures Valid() && Edited(old(document), document)
      ensures r.Failure? ==> document == old(document)
      ensures r.Success? <==>
                && (expected.None? || expected.value == old(document).revision)
                && aid !in old(document).agents && aid !in old(document).tombstones && source in old(document).agents
                && old(document).agents[source].lifecycle != Deleting
                && Copyable(old(document), source, old(document).agents[source].draft)
      ensures r.Success? ==>
                && aid in document.agents
                && document == old(document).(revision := old(document).revision + 1, resources := document.resources,
                                              agents := old(document).agents[aid := document.agents[aid]])
                && (forall x | x in old(document).resources ::
                    x in document.resources && document.resources[x] == old(document).resources[x])
                && var draft := old(document).agents[source].draft;
                   && document.agents[aid] ==
                      Agent(draft.(bindings := document.agents[aid].draft.bindings), [], None, Live)
                   && Copied(old(document).resources, document.resources, source, aid, newIds, draft.bindings,
                             document.agents[aid].draft.bindings)
    {
      if !Current(expected) { return Failure(409); }
      if aid in document.tombstones { return Failure(409); }
      if source in document.agents && document.agents[source].lifecycle == Deleting { return Failure(409); }
      if aid in document.agents || source !in document.agents { return Failure(409); }
      var draft := document.agents[source].draft;
      assert forall i | 0 <= i < |draft.bindings| :: BindingResolves(document.resources, source, draft.bindings[i]);
      var resources, bindings := CopyBindings(document.resources, source, aid, draft.bindings, newIds);
      var data, copied := document.(resources := resources), draft.(bindings := bindings);
      CopyIsAcceptable(document, data, source, aid, newIds, draft, bindings);
      var _ :- ValidateAgent(data, aid, copied);
      ghost var cs := CopyLegal(document, resources, aid, copied);
      Store(data.(agents := data.agents[aid := Agent(copied, [], None, Live)]), cs);
      r := Success(());
    }

    /** `restore` of agent_templates.py. */
    method RestoreTemplate(tid: string, aid: string, models: map<string, string>, chosen: map<string, Binding>,
                           wellFormed: bool)
      returns (r: Result<()>)
      requires Valid()
      modifies this`document
      ensures Valid() && Edited(old(document), document)
      ensures r.Success? <==>
                && tid in old(document).templates && wellFormed
                && aid !in old(document).agents && aid !in old(document).tombstones
                && Acceptable(old(document), aid, RestoredConfig(old(document).templates[tid], models, chosen))
      ensures document == if r.Failure? then old(document)
                          else old(document).(revision := old(document).revision + 1,
                                              agents := old(document).agents[aid :=
                            Agent(RestoredConfig(old(document).templates[tid], models, chosen), [], None, Live)])
    {
      if tid !in document.templates { return Failure(404); }
      if aid in document.agents || aid in document.tombstones { return Failure(409); }
      var cfg := RestoredConfig(document.templates[tid], models, chosen);
      if !wellFormed { return Failure(400); }
      var _ :- ValidateAgent(document, aid, cfg);
      StoreOne(document.(agents := document.agents[aid := Agent(cfg, [], None, Live)]), PutDraft(aid, cfg));
      r := Success(());
    }

    /** Archive, restore, mark as deleting, or delete for good. */
    method AgentLifecycle(aid: string, action: AgentAction, request: Option<string>, unchangedSince: bool,
                          compiledIntact: bool, expected: Option<nat>) returns (r: Result<()>)
      requires Valid()
      modifies this`document
      ensures Valid() && Edited(old(document), document)
      ensures r.Success? <==>
                && (expected.None? || expected.value == old(document).revision)
                && (if aid !in old(document).agents
                    then action == DeleteAgent &&
                      request == (if aid in old(document).tombstones then old(document).tombstones[aid] else None)
                    else unchangedSince && action != UnknownAction &&
                         (action == DeleteAgent ==> old(document).agents[aid].lifecycle != Live && compiledIntact))
      ensures r.Failure? ==> document == old(document)
      ensures r.Success? ==> document == AfterLifecycle(old(document), aid, action, request)
    {
      if !Current(expected) { return Failure(409); }
      if aid !in document.agents {
        var tombstone := if aid in document.tombstones then document.tombstones[aid] else None;
        if action != DeleteAgent || tombstone != request { return Failure(404); }
        Store(document, []);
        return Success(());
      }
      var agent := document.agents[aid];
      if !unchangedSince { return Failure(409); }
      match action {
        case DeleteAgent =>
          if agent.lifecycle == Live { return Failure(409); }
          if !compiledIntact { return Failure(409); }
          StoreOne(document.(resources := WithoutPrivate(document.resources, aid), agents := document.agents - {aid},
                             tombstones := document.tombstones[aid := request]), DropAgent(aid, request));
          return Success(());
        case ArchiveAgent => agent := agent.(lifecycle := Archived);
        case RestoreAgent => agent := agent.(lifecycle := Live);
        case MarkDeleting => agent := agent.(lifecycle := Deleting);
        case UnknownAction => return Failure(400);
      }
      StoreOne(document.(agents := document.agents[aid := agent]), SetLifecycle(aid, agent.lifecycle));
      r := Success(());
    }

    /** The catalog's share of committing a release of an agent: what it freezes counts as a reference from now on. */
    method PublishAgent(aid: string, version: AgentVersion) returns (r: Result<()>)
      requires Valid()
      modifies this`document
      ensures Valid() && Edited(old(document), document)
      ensures r.Success? <==> aid in old(document).agents
      ensures r.Failure? ==> document == old(document)
      ensures r.Success? ==>
                document == old(document).(revision := old(document).revision + 1, agents := old(document).agents[aid :=
                  var a := old(document).agents[aid];
                  a.(versions := a.versions + [version], active := Some(version.number))])
      ensures r.Success? ==>
                forall i | 0 <= i < |version.config.bindings| ::
                  ResourceReferenced(document, version.config.bindings[i].id)
    {
      if aid !in document.agents { return Failure(500); }
      var a := document.agents[aid];
      a := a.(versions := a.versions + [version], active := Some(version.number));
      StoreOne(document.(agents := document.agents[aid := a]), PublishVersion(aid, version));
      assert a.versions[|a.versions| - 1] == version;
      assert forall i | 0 <= i < |version.config.bindings| ::
          Binds(document.agents[aid].versions[|a.versions| - 1].config, version.config.bindings[i].id);
      r := Success(());
    }

    // ------------------------------------------------------------- resources

    /** A hook or an MCP resource is created or its draft replaced. */
    method SaveResource(rid: string, kind: ResourceKind, name: string, owner: Option<string>, archived: bool,
                        draft: Artifact, wellFormed: bool, expected: Option<nat>) returns (r: Result<()>)
      requires Valid()
      modifies this`document
      ensures Valid() && Edited(old(document), document)
      ensures r.Success? <==>
                && (expected.None? || expected.value == old(document).revision) && wellFormed
                && OwnerAccepts(old(document), owner)
                && (if rid in old(document).resources
                    then old(document).resources[rid].kind == kind && old(document).resources[rid].owner == owner
                    else kind != Skill)
      ensures document == if r.Failure? then old(document)
                          else old(document).(revision := old(document).revision + 1,
                                              resources := old(document).resources[rid :=
                            if rid in old(document).resources
                            then old(document).resources[rid].(name := name, archived := archived, draft := draft)
                            else Resource(kind, name, owner, false, draft, [])])
    {
      if !Current(expected) { return Failure(409); }
      if owner.Some? && owner.value !in document.agents { return Failure(400); }
      if owner.Some? && document.agents[owner.value].lifecycle == Deleting { return Failure(409); }
      var known := rid in document.resources;
      if known && (document.resources[rid].kind != kind || document.resources[rid].owner != owner) {
        return Failure(400);
      }
      if !wellFormed { return Failure(400); }
      if kind == Skill && !known { return Failure(400); }
      var resource := if known then document.resources[rid].(name := name, archived := archived, draft := draft)
                      else Resource(kind, name, owner, false, draft, []);
      StoreOne(document.(resources := document.resources[rid := resource]), PutResource(rid, resource));
      r := Success(());
    }

    method UploadSkill(rid: string, owner: Option<string>, name: string, draft: Artifact, expected: Option<nat>)
      returns (r: Result<()>)
      requires Valid()
      modifies this`document
      ensures Valid() && Edited(old(document), document)
      ensures r.Success? <==>
                && (expected.None? || expected.value == old(document).revision) && OwnerAccepts(old(document), owner)
                && (rid in old(document).resources ==>
                      old(document).resources[rid].kind == Skill && old(document).resources[rid].owner == owner)
      ensures document == if r.Failure? then old(document)
                          else old(document).(revision := old(document).revision + 1,
                                              resources := old(document).resources[rid :=
                            if rid in old(document).resources
                            then old(document).resources[rid].(name := name, draft := draft)
                            else Resource(Skill, name, owner, false, draft, [])])
    {
      if !Current(expected) { return Failure(409); }
      if owner.Some? && owner.value !in document.agents { return Failure(400); }
      if owner.Some? && document.agents[owner.value].lifecycle == Deleting { return Failure(409); }
      var resource := Resource(Skill, name, owner, false, draft, []);
      if rid in document.resources {
        resource := document.resources[rid];
        if resource.kind != Skill || resource.owner != owner { return Failure(400); }
        resource := resource.(name := name, draft := draft);
      }
      StoreOne(document.(resources := document.resources[rid := resource]), PutResource(rid, resource));
      r := Success(());
    }

    method ResourceLifecycle(rid: string, action: Action, expected: Option<nat>) returns (r: Result<()>)
      requires Valid()
      modifies this`document
      ensures Valid() && Edited(old(document), document)
      ensures r.Success? <==>
                && (expected.None? || expected.value == old(document).revision)
                && rid in old(document).resources && action != Unknown
                && (action == Delete ==>
                    old(document).resources[rid].archived && !ResourceReferenced(old(document), rid))
      ensures document == if r.Failure? then old(document)
                          else old(document).(revision := old(document).revision + 1, resources :=
                            if action == Delete then old(document).resources - {rid}
                            else old(document).resources[rid :=
                              old(document).resources[rid].(archived := action == Archive)])
    {
      if !Current(expected) { return Failure(409); }
      if rid !in document.resources { return Failure(404); }
      var resource := document.resources[rid];
      if action == Archive || action == Restore {
        resource := resource.(archived := action == Archive);
        StoreOne(document.(resources := document.resources[rid := resource]), PutResource(rid, resource));
        return Success(());
      }
      if action != Delete { return Failure(400); }
      if !resource.archived { return Failure(409); }
      if ResourceReferenced(document, rid) { return Failure(409); }
      StoreOne(document.(resources := document.resources - {rid}), DropResource(rid));
      r := Success(());
    }

    method CopyResource(source: string, rid: string, owner: Option<string>, expected: Option<nat>)
      returns (r: Result<()>)
      requires Valid()
      modifies this`document
      ensures Valid() && Edited(old(document), document)
      ensures r.Success? <==>
                && (expected.None? || expected.value == old(document).revision)
                && source in old(document).resources && rid !in old(document).resources
                && (owner.Some? ==> owner.value in old(document).agents)
      ensures document == if r.Failure? then old(document)
                          else old(document).(revision := old(document).revision + 1,
                                              resources := old(document).resources[rid :=
                            old(document).resources[source].(owner := owner, archived := false)])
    {
      if !Current(expected) { return Failure(409); }
      if source !in document.resources || rid in document.resources { return Failure(409); }
      if owner.Some? && owner.value !in document.agents { return Failure(404); }
      var resource := document.resources[source].(owner := owner, archived := false);
      StoreOne(document.(resources := document.resources[rid := resource]), AddCopies(map[rid := resource]));
      r := Success(());
    }

    /** The end of `publish`: `draft` was read before the validation, `checked` is what the validation made of it. */
    method PublishResource(rid: string, draft: Artifact, checked: Artifact) returns (r: Result<nat>)
      requires Valid()
      modifies this`document
      ensures Valid() && Edited(old(document), document)
      ensures r.Success? <==>
                rid in old(document).resources && !old(document).resources[rid].archived &&
                  old(document).resources[rid].draft == draft
      ensures r.Failure? ==> document == old(document)
      ensures r.Success? ==> var was := old(document).resources[rid];
                && document == old(document).(revision := old(document).revision + 1,
                     resources := old(document).resources[rid :=
                       was.(versions := was.versions + [Published(r.value, checked)])])
                && FindVersion(was.versions, r.value).None?
                && FindVersion(document.resources[rid].versions, r.value) == Some(Published(r.value, checked))
    {
      if rid !in document.resources || document.resources[rid].archived || document.resources[rid].draft != draft {
        return Failure(409);
      }
      var was := document.resources[rid];
      var number := |was.versions| + 1;
      NextVersionIsNew(was.versions, 0, Published(number, checked));
      var more := was.(versions := was.versions + [Published(number, checked)]);
      StoreOne(document.(resources := document.resources[rid := more]), Publish(rid, checked));
      r := Success(number);
    }
  }

  /** The versions after the first `skipped` ones: the next number is not among them, and finds what is appended. */
  lemma {:induction false} NextVersionIsNew(vs: seq<Published>, skipped: nat, next: Published)
    requires forall i | 0 <= i < |vs| :: vs[i].number == skipped + i + 1
    requires next.number == skipped + |vs| + 1
    ensures FindVersion(vs, next.number) == None && FindVersion(vs + [next], next.number) == Some(next)
  {
    if vs != [] {
      NextVersionIsNew(vs[1..], skipped + 1, next);
      assert (vs + [next])[1..] == vs[1..] + [next];
    }
  }

  function AfterLifecycle(was: Document, aid: string, action: AgentAction, request: Option<string>): Document
  {
    var d := was.(revision := was.revision + 1);
    if aid !in d.agents then d  // the deletion was repeated
    else if action == DeleteAgent then
      d.(agents := d.agents - {aid}, tombstones := d.tombstones[aid := request],
         resources := WithoutPrivate(d.resources, aid))
    else
      var state := if action == ArchiveAgent then Archived else if action == MarkDeleting then Deleting else Live;
      d.(agents := d.agents[aid := d.agents[aid].(lifecycle := state)])
  }

  predicate OwnerAccepts(d: Document, owner: Option<string>)
  {
    owner.Some? ==> owner.value in d.agents && d.agents[owner.value].lifecycle != Deleting
  }
}
