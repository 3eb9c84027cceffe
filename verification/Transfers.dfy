/**
 Committing an import preview (catalog_service/src/transfers.py): one transaction stores the selected
 models and resource drafts, adds the preview's templates with their references remapped, and remembers
 the outcome for a repeated commit.
 */
module Transfers {
  import opened Outcomes
  import opened Catalog

  datatype Item =
    | ModelItem(id: string, model: Model)
    | ResourceItem(id: string, kind: ResourceKind, name: string, draft: Artifact)
    | Broken

  datatype Selection = Selection(key: string, target: string, replace: bool)

  datatype Committed = Committed(selections: seq<Selection>, templates: seq<string>)

  datatype Preview = Preview(
    expires: int,
    revision: nat,
    items: map<string, Item>,
    templates: seq<Template>,
    result: Option<Committed>)

  function Chosen(items: map<string, Item>, s: Selection): Item
  {
    if s.key in items then items[s.key] else Broken
  }

  /** This selection can be committed into the document. */
  predicate CanImport(d: Document, items: map<string, Item>, s: Selection)
  {
    match Chosen(items, s)
    case Broken => false
    case ModelItem(_, model) =>
      s.target in d.models ==> s.replace && (model.enabled || ModelReferences(d, s.target, false) == {})
    case ResourceItem(_, kind, _, _) =>
      s.target in d.resources ==> s.replace && d.resources[s.target].kind == kind && d.resources[s.target].owner.None?
  }

  function ImportedResource(d: Document, i: Item, target: string): Resource
    requires i.ResourceItem?
  {
    if target in d.resources then d.resources[target].(name := i.name, draft := i.draft)
    else Resource(i.kind, i.name, None, false, i.draft, [])
  }

  /** The destination of this selection holds the selected entry. */
  predicate Holds(d: Document, e: Document, items: map<string, Item>, s: Selection)
  {
    match Chosen(items, s)
    case Broken => false
    case ModelItem(_, model) => s.target in e.models && e.models[s.target] == model
    case ResourceItem(_, _, _, _) =>
      s.target in e.resources && e.resources[s.target] == ImportedResource(d, Chosen(items, s), s.target)
  }

  /** Models and resources have identities of their own. */
  function Destination(items: map<string, Item>, s: Selection): (bool, string)
  {
    (Chosen(items, s).ModelItem?, s.target)
  }

  predicate Targets(items: map<string, Item>, sel: seq<Selection>, model: bool, target: string)
  {
    exists k :: 0 <= k < |sel| && Destination(items, sel[k]) == (model, target)
  }

  predicate Claimed(items: map<string, Item>, sel: seq<Selection>, s: Selection)
  {
    Targets(items, sel, Chosen(items, s).ModelItem?, s.target)
  }

  ghost predicate DistinctDestinations(items: map<string, Item>, sel: seq<Selection>)
  {
    forall i, j | 0 <= i < j < |sel| :: Destination(items, sel[i]) != Destination(items, sel[j])
  }

  /** The document after the selections: each destination holds its entry, everything else is untouched. */
  ghost predicate Merged(d: Document, e: Document, items: map<string, Item>, sel: seq<Selection>)
  {
    && e == d.(models := e.models, resources := e.resources)
    && (forall k | 0 <= k < |sel| :: Holds(d, e, items, sel[k]))
    && (forall m | m in d.models && !Targets(items, sel, true, m) :: m in e.models && e.models[m] == d.models[m])
    && (forall r | r in d.resources && !Targets(items, sel, false, r) ::
        r in e.resources && e.resources[r] == d.resources[r])
    && (forall m | m in e.models && !Targets(items, sel, true, m) :: m in d.models)
    && (forall r | r in e.resources && !Targets(items, sel, false, r) :: r in d.resources)
  }

  // -------------------------------------------------------- remapped templates

  /** The mapping of `commit`: a later selection of the same entry wins. */
  function Mapped(items: map<string, Item>, sel: seq<Selection>, model: bool, id: string): string
  {
    if sel == [] then id
    else
      var s := sel[|sel| - 1];
      var i := Chosen(items, s);
      if i != Broken && i.id == id && i.ModelItem? == model then s.target
      else Mapped(items, sel[..|sel| - 1], model, id)
  }

  predicate Selected(items: map<string, Item>, sel: seq<Selection>, model: bool, id: string)
  {
    exists k :: 0 <= k < |sel| && Chosen(items, sel[k]) != Broken && Chosen(items, sel[k]).id == id &&
      Chosen(items, sel[k]).ModelItem? == model
  }

  function RemapOption(items: map<string, Item>, sel: seq<Selection>, id: Option<string>): Option<string>
  {
    if id.Some? && id.value != "" then Some(Mapped(items, sel, true, id.value)) else id
  }

  /** remap_template */
  function Remapped(items: map<string, Item>, sel: seq<Selection>, t: Template): Template
  {
    Template(t.config.(
      default := RemapOption(items, sel, t.config.default),
      small := RemapOption(items, sel, t.config.small),
      allowed := seq(|t.config.allowed|,
                     i requires 0 <= i < |t.config.allowed| => Mapped(items, sel, true, t.config.allowed[i])),
      bindings := seq(|t.config.bindings|, i requires 0 <= i < |t.config.bindings| =>
        t.config.bindings[i].(id := Mapped(items, sel, false, t.config.bindings[i].id)))), true)
  }

  lemma {:induction false} MappedIsTarget(items: map<string, Item>, sel: seq<Selection>, model: bool, id: string)
    ensures if Selected(items, sel, model, id) then Targets(items, sel, model, Mapped(items, sel, model, id))
            else Mapped(items, sel, model, id) == id
    decreases |sel|
  {
    if sel != [] {
      var front := sel[..|sel| - 1];
      MappedIsTarget(items, front, model, id);
      var last := Chosen(items, sel[|sel| - 1]);
      if !(last != Broken && last.id == id && last.ModelItem? == model) {
        if Selected(items, sel, model, id) {
          var k :| 0 <= k < |sel| && Chosen(items, sel[k]) != Broken && Chosen(items, sel[k]).id == id &&
            Chosen(items, sel[k]).ModelItem? == model;
          assert front[k] == sel[k];
          var j :| 0 <= j < |front| && Destination(items, front[j]) == (model, Mapped(items, front, model, id));
          assert sel[j] == front[j];
        } else {
          assert forall k | 0 <= k < |front| :: front[k] == sel[k];
        }
      }
    }
  }

  /** A model or resource that came along in the same commit resolves for the imported template. */
  lemma TemplateResolves(d: Document, e: Document, items: map<string, Item>, sel: seq<Selection>, t: Template)
    requires Merged(d, e, items, sel)
    ensures forall i | 0 <= i < |t.config.allowed| && Selected(items, sel, true, t.config.allowed[i]) ::
              Remapped(items, sel, t).config.allowed[i] in e.models
    ensures forall i | 0 <= i < |t.config.bindings| && Selected(items, sel, false, t.config.bindings[i].id) ::
              Remapped(items, sel, t).config.bindings[i].id in e.resources
    ensures forall i | 0 <= i < |t.config.allowed| && !Selected(items, sel, true, t.config.allowed[i]) ::
              Remapped(items, sel, t).config.allowed[i] == t.config.allowed[i]
  {
    forall i | 0 <= i < |t.config.allowed|
      ensures Selected(items, sel, true, t.config.allowed[i]) ==> Remapped(items, sel, t).config.allowed[i] in e.models
      ensures !Selected(items, sel, true, t.config.allowed[i]) ==>
                Remapped(items, sel, t).config.allowed[i] == t.config.allowed[i]
    {
      MappedIsTarget(items, sel, true, t.config.allowed[i]);
      if Selected(items, sel, true, t.config.allowed[i]) {
        TargetHeld(d, e, items, sel, true, Mapped(items, sel, true, t.config.allowed[i]));
      }
    }
    forall i | 0 <= i < |t.config.bindings| && Selected(items, sel, false, t.config.bindings[i].id)
      ensures Remapped(items, sel, t).config.bindings[i].id in e.resources
    {
      MappedIsTarget(items, sel, false, t.config.bindings[i].id);
      TargetHeld(d, e, items, sel, false, Mapped(items, sel, false, t.config.bindings[i].id));
    }
  }

  lemma TargetHeld(d: Document, e: Document, items: map<string, Item>, sel: seq<Selection>, model: bool, target: string)
    requires Merged(d, e, items, sel) && Targets(items, sel, model, target)
    ensures if model then target in e.models else target in e.resources
  {
    var k :| 0 <= k < |sel| && Destination(items, sel[k]) == (model, target);
    assert Holds(d, e, items, sel[k]);
  }

  // ------------------------------------------------------------------- commit

  function Put(e: Document, items: map<string, Item>, s: Selection): Document
  {
    match Chosen(items, s)
    case Broken => e
    case ModelItem(_, model) => e.(models := e.models[s.target := model])
    case ResourceItem(_, _, _, _) =>
      e.(resources := e.resources[s.target := ImportedResource(e, Chosen(items, s), s.target)])
  }

  /** A destination nobody wrote yet still holds what the original document holds there. */
  lemma StillImportable(d: Document, e: Document, items: map<string, Item>, sel: seq<Selection>, s: Selection)
    requires Merged(d, e, items, sel) && !Claimed(items, sel, s)
    ensures CanImport(e, items, s) <==> CanImport(d, items, s)
    ensures Chosen(items, s).ResourceItem? ==>
              ImportedResource(e, Chosen(items, s), s.target) == ImportedResource(d, Chosen(items, s), s.target)
  {
    assert ModelReferences(e, s.target, false) == ModelReferences(d, s.target, false);
  }

  /** Storing one more entry at a destination of its own. */
  lemma MergedSnoc(d: Document, e: Document, items: map<string, Item>, sel: seq<Selection>, s: Selection)
    requires Merged(d, e, items, sel) && Chosen(items, s) != Broken && !Claimed(items, sel, s)
    ensures Merged(d, Put(e, items, s), items, sel + [s])
  {
    var f, more := Put(e, items, s), sel + [s];
    StillImportable(d, e, items, sel, s);
    forall k | 0 <= k < |more| ensures Holds(d, f, items, more[k]) {
      if k < |sel| { assert Holds(d, e, items, sel[k]) && Destination(items, sel[k]) != Destination(items, s); }
    }
    assert more[|sel|] == s;
    forall model, x | Targets(items, sel, model, x) || (model, x) == Destination(items, s)
      ensures Targets(items, more, model, x)
    {
      if Targets(items, sel, model, x) {
        var k :| 0 <= k < |sel| && Destination(items, sel[k]) == (model, x);
        assert more[k] == sel[k];
      }
    }
  }

  /** Storing an entry, as a change of the catalog document. */
  function PutChange(e: Document, items: map<string, Item>, s: Selection): Change
    requires Chosen(items, s) != Broken
  {
    match Chosen(items, s)
    case ModelItem(_, model) => PutModel(s.target, model)
    case ResourceItem(_, _, _, _) => PutResource(s.target, ImportedResource(e, Chosen(items, s), s.target))
  }

  /** The entries stored so far are a legal edit. */
  ghost predicate Staged(d: Document, e: Document, cs: seq<Change>)
  {
    Legal(d, cs) && e == Play(d, cs) && forall c | c in cs :: c.PutModel? || c.PutResource?
  }

  lemma StagedSnoc(d: Document, e: Document, cs: seq<Change>, items: map<string, Item>, s: Selection)
    requires Staged(d, e, cs) && CanImport(e, items, s)
    ensures Staged(d, Put(e, items, s), cs + [PutChange(e, items, s)])
  {
    if Chosen(items, s).ModelItem? {
      assert ModelReferences(e, s.target, true) <= ModelReferences(e, s.target, false);
    }
    PlaySnoc(d, cs, PutChange(e, items, s));
  }

  lemma DistinctSnoc(items: map<string, Item>, sel: seq<Selection>, s: Selection)
    requires DistinctDestinations(items, sel)
    ensures DistinctDestinations(items, sel + [s]) <==> !Claimed(items, sel, s)
  {
    var more := sel + [s];
    assert more[|sel|] == s && forall k | 0 <= k < |sel| :: more[k] == sel[k];
    if Claimed(items, sel, s) {
      var k :| 0 <= k < |sel| && Destination(items, sel[k]) == Destination(items, s);
      assert Destination(items, more[k]) == Destination(items, more[|sel|]);
    }
  }

  /** What `commit` refuses an entry for. */
  method CheckEntry(catalog: Document, items: map<string, Item>, s: Selection) returns (r: Result<()>)
    requires Chosen(items, s) != Broken
    ensures r.Success? <==> CanImport(catalog, items, s)
  {
    var i := Chosen(items, s);
    var known := if i.ModelItem? then s.target in catalog.models else s.target in catalog.resources;
    if known && !s.replace { return Failure(409); }
    if known && i.ResourceItem? &&
       (catalog.resources[s.target].kind != i.kind || catalog.resources[s.target].owner.Some?) {
      return Failure(409);
    }
    if i.ModelItem? && known && !i.model.enabled && ModelReferences(catalog, s.target, false) != {} {
      return Failure(409);
    }
    r := Success(());
  }

  /** Every entry can be imported, and no destination is claimed twice. */
  ghost predicate AllImportable(d: Document, items: map<string, Item>, sel: seq<Selection>)
  {
    DistinctDestinations(items, sel) && forall k | 0 <= k < |sel| :: CanImport(d, items, sel[k])
  }

  lemma NextImportable(d: Document, items: map<string, Item>, sel: seq<Selection>, n: nat)
    requires AllImportable(d, items, sel) && n < |sel|
    ensures CanImport(d, items, sel[n]) && !Claimed(items, sel[..n], sel[n])
  {
    assert sel[..n + 1] == sel[..n] + [sel[n]];
    DistinctSnoc(items, sel[..n], sel[n]);
  }

  /** The selections so far are all importable and stored. */
  ghost predicate Staging(d: Document, e: Document, cs: seq<Change>, items: map<string, Item>, sel: seq<Selection>)
  {
    Merged(d, e, items, sel) && Staged(d, e, cs) && AllImportable(d, items, sel)
  }

  lemma StagingSnoc(d: Document, e: Document, cs: seq<Change>, items: map<string, Item>, sel: seq<Selection>,
                    s: Selection)
    requires Staging(d, e, cs, items, sel) && CanImport(e, items, s) && !Claimed(items, sel, s)
    ensures Staging(d, Put(e, items, s), cs + [PutChange(e, items, s)], items, sel + [s])
  {
    StillImportable(d, e, items, sel, s);
    DistinctSnoc(items, sel, s);
    StagedSnoc(d, e, cs, items, s);
    MergedSnoc(d, e, items, sel, s);
  }

  /** The loop over the selections, in a copy of the catalog. */
  method Stage(d: Document, items: map<string, Item>, sel: seq<Selection>)
    returns (r: Result<Document>, ghost cs: seq<Change>)
    ensures r.Success? <==> AllImportable(d, items, sel)
    ensures r.Success? ==> Merged(d, r.value, items, sel) && Staged(d, r.value, cs)
  {
    cs := [];
    var catalog := d;
    var seen: set<(bool, string)> := {};
    for n := 0 to |sel|
      invariant Staging(d, catalog, cs, items, sel[..n])
      invariant forall x :: x in seen <==> Targets(items, sel[..n], x.0, x.1)
    {
      var s := sel[n];
      assert sel[..n + 1] == sel[..n] + [s];
      TargetsSnoc(items, sel[..n], s);
      if AllImportable(d, items, sel) { NextImportable(d, items, sel, n); }
      if Chosen(items, s) == Broken { return Failure(400), cs; }
      if Destination(items, s) in seen { return Failure(400), cs; }
      seen := seen + {Destination(items, s)};
      StillImportable(d, catalog, items, sel[..n], s);
      var _ :- CheckEntry(catalog, items, s);
      StagingSnoc(d, catalog, cs, items, sel[..n], s);
      cs, catalog := cs + [PutChange(catalog, items, s)], Put(catalog, items, s);
    }
    assert sel[..|sel|] == sel;
    r := Success(catalog);
  }

  lemma TargetsSnoc(items: map<string, Item>, sel: seq<Selection>, s: Selection)
    ensures forall x: (bool, string) ::
              Targets(items, sel + [s], x.0, x.1) <==> Targets(items, sel, x.0, x.1) || x == Destination(items, s)
  {
    var more := sel + [s];
    assert more[|sel|] == s;
    forall x: (bool, string) | Targets(items, sel, x.0, x.1) ensures Targets(items, more, x.0, x.1) {
      var k :| 0 <= k < |sel| && Destination(items, sel[k]) == x;
      assert more[k] == sel[k];
    }
  }

  class ImportStore {
    const store: CatalogStore
    var previews: map<string, Preview>

    constructor (store: CatalogStore)
      ensures this.store == store && previews == map[]
    {
      this.store, previews := store, map[];
    }

    /**
     One SQLite transaction: the catalog and the remembered outcome change together or not at all. A repeated
     commit answers as the first one did and changes nothing.
     */
    method Commit(pid: string, now: int, sel: seq<Selection>, ids: seq<string>) returns (r: Result<seq<string>>)
      requires store.Valid()
      requires pid in previews ==> |ids| == |previews[pid].templates|
      requires Distinct(ids) && forall i | 0 <= i < |ids| :: ids[i] !in store.document.templates  // fresh UUIDs
      modifies this`previews, store`document
      ensures store.Valid() && Edited(old(store.document), store.document)
      ensures r.Success? <==> pid in old(previews) && Accepted(old(previews)[pid], old(store.document), now, sel)
      ensures r.Failure? || old(previews)[pid].result.Some? ==>
                store.document == old(store.document) && previews == old(previews)
      ensures r.Success? ==> pid in previews && previews[pid].result == Some(Committed(sel, r.value))
      ensures r.Success? && old(previews)[pid].result.None? ==>
                && r.value == ids && previews == old(previews)[pid := previews[pid]]
                && previews[pid] == old(previews)[pid].(result := Some(Committed(sel, ids)))
                && Imported(old(store.document), store.document, old(previews)[pid], sel, ids)
    {
      if pid !in previews || previews[pid].expires < now { return Failure(409); }
      var preview := previews[pid];
      if preview.result.Some? {
        if preview.result.value.selections != sel { return Failure(409); }
        return Success(preview.result.value.templates);
      }
      if store.document.revision != preview.revision { return Failure(409); }
      if sel == [] { return Failure(400); }
      var was := store.document;
      var catalog, cs :- Stage(was, preview.items, sel);
      var templates := RemapTemplates(catalog.templates, preview, sel, ids);
      ghost var more := AddTemplates(templates - catalog.templates.Keys);
      assert catalog.templates + more.templates == templates;
      PlaySnoc(was, cs, more);
      store.Store(catalog.(templates := templates), cs + [more]);
      previews := previews[pid := preview.(result := Some(Committed(sel, ids)))];
      r := Success(ids);
    }
  }

  predicate Accepted(p: Preview, d: Document, now: int, sel: seq<Selection>)
  {
    && now <= p.expires
    && (if p.result.Some? then p.result.value.selections == sel
        else && d.revision == p.revision && sel != []
             && (forall i, j | 0 <= i < j < |sel| :: Destination(p.items, sel[i]) != Destination(p.items, sel[j]))
             && forall k | 0 <= k < |sel| :: CanImport(d, p.items, sel[k]))
  }

  /** The committed document: the selections merged, and the preview's templates added with remapped references. */
  ghost predicate Imported(d: Document, e: Document, p: Preview, sel: seq<Selection>, ids: seq<string>)
  {
    && e.revision == d.revision + 1 && |ids| == |p.templates|
    && Merged(d, e.(revision := d.revision, templates := d.templates), p.items, sel)
    && (forall t | t in d.templates :: t in e.templates && e.templates[t] == d.templates[t])
    && (forall t | t in e.templates :: t in d.templates || t in ids)
    && (forall i | 0 <= i < |ids| ::
        ids[i] in e.templates && e.templates[ids[i]] == Remapped(p.items, sel, p.templates[i]))
  }

  method RemapTemplates(templates: map<string, Template>, p: Preview, sel: seq<Selection>, ids: seq<string>)
    returns (r: map<string, Template>)
    requires |ids| == |p.templates| && Distinct(ids) && forall i | 0 <= i < |ids| :: ids[i] !in templates
    ensures forall t | t in templates :: t in r && r[t] == templates[t]
    ensures forall t | t in r :: t in templates || t in ids
    ensures forall i | 0 <= i < |ids| :: ids[i] in r && r[ids[i]] == Remapped(p.items, sel, p.templates[i])
  {
    r := templates;
    for n := 0 to |ids|
      invariant forall t | t in templates :: t in r && r[t] == templates[t]
      invariant forall t | t in r :: t in templates || t in ids
      invariant forall i | 0 <= i < n :: ids[i] in r && r[ids[i]] == Remapped(p.items, sel, p.templates[i])
    {
      r := r[ids[n] := Remapped(p.items, sel, p.templates[n])];
    }
  }
}
