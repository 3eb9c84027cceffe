/**
 The lifecycle actions of sandbox_manager/main.py that a publication uses, with the staged
 overrides of sandbox_manager/catalog_client.py. An action can break off between any two of
 its effects; `*` chooses where.
 */
module SandboxStaging {
  import opened Outcomes
  import opened Releases

  class SandboxManager {
    /** applied.json: the version an agent runs although the catalog has not committed it. */
    var overrides: map<string, nat>
    /** versions/<number>/<agent>: immutable once written. */
    var installed: map<(string, nat), Content>
    var blocked: set<string>
    var verified: map<string, nat>

    constructor ()
      ensures overrides == map[] && installed == map[] && blocked == {} && verified == map[]
    {
      overrides, installed, blocked, verified := map[], map[], {}, map[];
    }

    /** Writes a bundle once; a second, different bundle under the same number is refused. */
    method InstallBundle(agent: string, version: nat, content: Content) returns (r: Result<()>)
      modifies this`installed
      ensures r.Success? <==> ((agent, version) in old(installed) ==> old(installed)[(agent, version)] == content)
      ensures r.Success? ==> installed == old(installed)[(agent, version) := content]
      ensures r.Failure? ==> installed == old(installed)
    {
      if (agent, version) in installed {
        if installed[(agent, version)] != content { return Failure(409); }
        assert installed == installed[(agent, version) := content];
        return Success(());
      }
      installed := installed[(agent, version) := content];
      r := Success(());
    }

    method Quiesce(target: string, drained: bool) returns (r: Result<()>)
      modifies this`blocked
      ensures blocked == old(blocked) + {target} && (r.Success? <==> drained)
    {
      blocked := blocked + {target};
      if !drained { return Failure(409); }
      r := Success(());
    }

    method Apply(target: string, version: nat, content: Content) returns (r: Result<()>)
      modifies this
      ensures blocked == old(blocked) + {target}
      ensures overrides == old(overrides) || overrides == old(overrides)[target := version]
      ensures installed == old(installed) || installed == old(installed)[(target, version) := content]
      ensures overrides != old(overrides) ==> (target, version) in installed && installed[(target, version)] == content
      ensures (target, version) in old(installed) && old(installed)[(target, version)] != content ==>
                r.Failure? && overrides == old(overrides) && installed == old(installed)
      ensures r.Success? ==>
                && overrides == old(overrides)[target := version]
                && (target, version) in installed && installed[(target, version)] == content
      ensures verified == old(verified) || verified == old(verified) - {target}
      ensures r.Success? || overrides != old(overrides) ==> target !in verified
    {
      var drained: bool, staged: bool, removed: bool := *, *, *;
      blocked := blocked + {target};
      if !drained { return Failure(409); }
      verified := verified - {target};
      var _ :- InstallBundle(target, version, content);
      if !staged { return Failure(422); }
      overrides := overrides[target := version];
      if !removed { return Failure(409); }
      r := Success(());
    }

    /** `catalog.load`: the staged version, else the one the catalog serves. */
    method Load(agent: string, served: Option<Version>) returns (r: Result<nat>)
      modifies this`installed
      ensures agent in overrides ==> installed == old(installed) && (r.Success? ==> r.value == overrides[agent])
      ensures agent !in overrides && r.Success? ==> served.Some? && r.value == served.value.number
      ensures installed == old(installed) ||
              (served.Some? && installed == old(installed)[(agent, served.value.number) := served.value.content])
      ensures forall k | k in old(installed) :: k in installed && installed[k] == old(installed)[k]
    {
      var readable: bool := *;
      if !readable { return Failure(503); }
      if agent in overrides { return Success(overrides[agent]); }
      if served.None? { return Failure(404); }
      var _ :- InstallBundle(agent, served.value.number, served.value.content);
      r := Success(served.value.number);
    }

    method Verify(target: string, served: Option<Version>) returns (r: Result<()>)
      modifies this`installed, this`verified
      ensures forall k | k in old(installed) :: k in installed && installed[k] == old(installed)[k]
      ensures verified == old(verified) ||
              (target in verified && verified == old(verified)[target := verified[target]] &&
               (if target in overrides then verified[target] == overrides[target]
                else served.Some? && verified[target] == served.value.number))
      ensures r.Success? ==> target in verified && (target in overrides ==> verified[target] == overrides[target])
    {
      var started: bool := *;
      var version :- Load(target, served);
      if !started { return Failure(503); }
      verified := verified[target := version];
      r := Success(());
    }

    /** `RemoteCatalog.commit`: drops a staged override once the catalog serves that very version. */
    method CommitOverride(agent: string, served: Option<Version>) returns (r: Result<()>)
      requires agent in overrides
      modifies this`installed, this`overrides
      ensures r.Success? ==>
                served.Some? && served.value.number == old(overrides)[agent] && overrides == old(overrides) - {agent}
      ensures r.Failure? ==> overrides == old(overrides)
      ensures forall k | k in old(installed) :: k in installed && installed[k] == old(installed)[k]
      ensures r.Success? ==>
                (agent, served.value.number) in installed &&
                  installed[(agent, served.value.number)] == served.value.content
    {
      var readable: bool := *;
      if !readable || served.None? { return Failure(503); }
      var _ :- InstallBundle(agent, served.value.number, served.value.content);
      if served.value.number != overrides[agent] { return Failure(409); }
      overrides := overrides - {agent};
      r := Success(());
    }

    method Resume(target: string, served: map<string, Version>) returns (r: Result<()>)
      modifies this`installed, this`overrides, this`blocked
      ensures r.Success? ==> blocked == old(blocked) - {target}
      ensures r.Failure? ==> blocked == old(blocked)
      ensures target == GATEWAY && old(overrides) == map[] ==> r.Success?
      ensures r.Success? ==> target !in overrides && (target == GATEWAY ==> overrides == map[])
      ensures forall a | a in overrides :: a in old(overrides) && overrides[a] == old(overrides)[a]
      ensures forall a | a in old(overrides) && a !in overrides ::
                a in served && served[a].number == old(overrides)[a]
                && (a, served[a].number) in installed && installed[(a, served[a].number)] == served[a].content
      ensures target != GATEWAY ==> forall a | a in old(overrides) && a != target :: a in overrides
      ensures forall k | k in old(installed) :: k in installed && installed[k] == old(installed)[k]
    {
      var pending := if target == GATEWAY then overrides.Keys else if target in overrides then {target} else {};
      while pending != {}
        invariant pending <= overrides.Keys && blocked == old(blocked)
        invariant forall a | a in overrides :: a in old(overrides) && overrides[a] == old(overrides)[a]
        invariant forall a | a in old(overrides) && a !in overrides ::
                    a in served && served[a].number == old(overrides)[a]
                    && (a, served[a].number) in installed && installed[(a, served[a].number)] == served[a].content
        invariant target != GATEWAY ==> forall a | a in old(overrides) && a != target :: a in overrides
        invariant target == GATEWAY ==> overrides.Keys == pending
        invariant target != GATEWAY ==> pending <= {target} && (target in overrides ==> target in pending)
        invariant forall k | k in old(installed) :: k in installed && installed[k] == old(installed)[k]
        decreases pending
      {
        var agent :| agent in pending;
        var _ :- CommitOverride(agent, if agent in served then Some(served[agent]) else None);
        pending := pending - {agent};
      }
      blocked := blocked - {target};
      r := Success(());
    }
  }
}
