/**
 The sandbox registry's session routes (sandbox_manager/registry.py) and the recorder that groups their
 commits (sandbox_manager/native_router.py).
 */
module Sessions {
  import opened Outcomes

  datatype Sandbox = Sandbox(
    agent: string,
    user: string,
    container: Option<string>,
    port: Option<int>,
    status: string,
    image: string,
    active: int,
    created: int)

  datatype Route = Route(sandbox: string, agent: string, user: string, path: string, created: int, active: int)

  datatype Tables = Tables(sandboxes: map<string, Sandbox>, sessions: map<string, Route>)

  datatype Entry = Entry(session: string, sandbox: string, agent: string, user: string, path: string)

  datatype Reason = UnknownSandbox | OwnerMismatch | BoundElsewhere

  datatype Outcome = Recorded(route: Route) | Refused(reason: Reason)

  /** The two clock readings of one entry. */
  datatype Times = Times(session: int, sandbox: int)

  /** An entry as a batch meets it. */
  datatype Timed = Timed(entry: Entry, at: Times)

  predicate SameRoute(r: Route, e: Entry)
  {
    r.sandbox == e.sandbox && r.agent == e.agent && r.user == e.user && r.path == e.path
  }

  /** Recording one entry on its own. */
  function Record(t: Tables, e: Entry, at: Times): (Tables, Outcome)
  {
    if e.sandbox !in t.sandboxes then (t, Refused(UnknownSandbox))
    else if t.sandboxes[e.sandbox].agent != e.agent || t.sandboxes[e.sandbox].user != e.user
    then (t, Refused(OwnerMismatch))
    else if e.session in t.sessions && !SameRoute(t.sessions[e.session], e) then (t, Refused(BoundElsewhere))
    else
      var route := if e.session in t.sessions then t.sessions[e.session].(active := at.session)
                   else Route(e.sandbox, e.agent, e.user, e.path, at.session, at.session);
      (Tables(t.sandboxes[e.sandbox := t.sandboxes[e.sandbox].(active := at.sandbox)], t.sessions[e.session := route]),
        Recorded(route))
  }

  /** Recording the entries one by one. */
  function RecordAll(t: Tables, es: seq<Timed>): (r: (Tables, seq<Outcome>))
    ensures |r.1| == |es|
    decreases |es|
  {
    if es == [] then (t, []) else
      var n := |es| - 1;
      var before := RecordAll(t, es[..n]);
      var last := Record(before.0, es[n].entry, es[n].at);
      (last.0, before.1 + [last.1])
  }

  lemma RecordAllSnoc(t: Tables, es: seq<Timed>, e: Timed)
    ensures var before := RecordAll(t, es);
            var last := Record(before.0, e.entry, e.at);
            RecordAll(t, es + [e]) == (last.0, before.1 + [last.1])
  {
    assert (es + [e])[..|es|] == es;
  }

  function Without(es: seq<Timed>, i: nat): seq<Timed>
    requires i < |es|
  {
    es[..i] + es[i + 1..]
  }

  /** A refused entry leaves no trace: without it, the other entries leave the same tables. */
  lemma {:induction false} RefusedLeavesNoTrace(t: Tables, es: seq<Timed>, i: nat)
    requires i < |es| && RecordAll(t, es).1[i].Refused?
    ensures RecordAll(t, es).0 == RecordAll(t, Without(es, i)).0
    decreases |es|
  {
    var n := |es| - 1;
    if i < n {
      RefusedLeavesNoTrace(t, es[..n], i);
      assert Without(es, i) == Without(es[..n], i) + [es[n]];
      RecordAllSnoc(t, Without(es[..n], i), es[n]);
    } else {
      assert Without(es, i) == es[..n];
    }
  }

  // ------------------------------------------------------------ over histories

  datatype Step =
    | RecordStep(entry: Entry, times: Times)
    | Upsert(id: string, row: Sandbox)
    | Mark(id: string, status: string, now: int)
    | Touch(id: string, now: int)
    | Health(id: string, status: string)
    | ForgetAgent(agent: string)  // the permanent deletion of an agent
    | ForgetSandbox(id: string)   // load-test cleanup

  predicate Owner(s: Sandbox, agent: string, user: string)
  {
    s.agent == agent && s.user == user
  }

  predicate HasOwner(t: Tables, agent: string, user: string)
  {
    exists id :: id in t.sandboxes && Owner(t.sandboxes[id], agent, user)
  }

  /** The row of an owner; unique in every reachable table. */
  ghost function RowOf(t: Tables, agent: string, user: string): string
    requires HasOwner(t, agent, user)
  {
    var id :| id in t.sandboxes && Owner(t.sandboxes[id], agent, user); id
  }

  /** INSERT ... ON CONFLICT(agent_id, username) DO UPDATE; a taken sandbox id breaks the primary key. */
  ghost function Upserted(t: Tables, id: string, row: Sandbox): Tables
  {
    if id in t.sandboxes && !Owner(t.sandboxes[id], row.agent, row.user) then t
    else if HasOwner(t, row.agent, row.user) then
      var known := RowOf(t, row.agent, row.user);
      t.(sandboxes := t.sandboxes[known := t.sandboxes[known].(container := row.container, port := row.port,
           status := row.status, image := row.image, active := row.active)])
    else t.(sandboxes := t.sandboxes[id := row.(created := row.active)])
  }

  ghost function Next(t: Tables, s: Step): Tables
  {
    match s
    case RecordStep(e, times) => Record(t, e, times).0
    case Upsert(id, row) => Upserted(t, id, row)
    case Mark(id, status, now) =>
      if id in t.sandboxes
      then t.(sandboxes := t.sandboxes[id := t.sandboxes[id].(status := status, active := now)])
      else t
    case Touch(id, now) =>
      if id in t.sandboxes then t.(sandboxes := t.sandboxes[id := t.sandboxes[id].(active := now)]) else t
    case Health(id, status) =>
      if id in t.sandboxes then t.(sandboxes := t.sandboxes[id := t.sandboxes[id].(status := status)]) else t
    case ForgetAgent(agent) =>
      Tables(map id | id in t.sandboxes && t.sandboxes[id].agent != agent :: t.sandboxes[id],
             map x | x in t.sessions && t.sessions[x].agent != agent :: t.sessions[x])
    case ForgetSandbox(id) =>
      Tables(t.sandboxes - {id}, map x | x in t.sessions && t.sessions[x].sandbox != id :: t.sessions[x])
  }

  ghost function Run(t: Tables, steps: seq<Step>): Tables
    decreases |steps|
  {
    if steps == [] then t else Next(Run(t, steps[..|steps| - 1]), steps[|steps| - 1])
  }

  /** Every session's owner is its sandbox's owner, and an owner has one sandbox. */
  ghost predicate Owned(t: Tables)
  {
    && (forall x | x in t.sessions ::
          t.sessions[x].sandbox in t.sandboxes &&
            Owner(t.sandboxes[t.sessions[x].sandbox], t.sessions[x].agent, t.sessions[x].user))
    && (forall a, b | a in t.sandboxes && b in t.sandboxes &&
        Owner(t.sandboxes[a], t.sandboxes[b].agent, t.sandboxes[b].user) :: a == b)
  }

  /** Rewriting a row without changing its owner. */
  lemma RowChanged(t: Tables, id: string, row: Sandbox)
    requires Owned(t) && id in t.sandboxes && Owner(row, t.sandboxes[id].agent, t.sandboxes[id].user)
    ensures Owned(t.(sandboxes := t.sandboxes[id := row]))
  {
  }

  lemma UpsertKeepsOwned(t: Tables, id: string, row: Sandbox)
    requires Owned(t)
    ensures Owned(Upserted(t, id, row))
  {
    if id in t.sandboxes && !Owner(t.sandboxes[id], row.agent, row.user) {
    } else if HasOwner(t, row.agent, row.user) {
      var known := RowOf(t, row.agent, row.user);
      RowChanged(t, known, t.sandboxes[known].(container := row.container, port := row.port,
                 status := row.status, image := row.image, active := row.active));
    } else {
      assert id !in t.sandboxes;
    }
  }

  lemma NextKeepsOwned(t: Tables, s: Step)
    requires Owned(t)
    ensures Owned(Next(t, s))
  {
    match s
    case RecordStep(e, times) =>
      if e.sandbox in t.sandboxes { RowChanged(t, e.sandbox, t.sandboxes[e.sandbox].(active := times.sandbox)); }
    case Upsert(id, row) => UpsertKeepsOwned(t, id, row);
    case Mark(id, status, now) =>
      if id in t.sandboxes { RowChanged(t, id, t.sandboxes[id].(status := status, active := now)); }
    case Touch(id, now) => if id in t.sandboxes { RowChanged(t, id, t.sandboxes[id].(active := now)); }
    case Health(id, status) => if id in t.sandboxes { RowChanged(t, id, t.sandboxes[id].(status := status)); }
    case _ =>
  }

  lemma {:induction false} AlwaysOwned(t: Tables, steps: seq<Step>)
    requires Owned(t)
    ensures Owned(Run(t, steps))
    decreases |steps|
  {
    if steps != [] {
      AlwaysOwned(t, steps[..|steps| - 1]);
      NextKeepsOwned(Run(t, steps[..|steps| - 1]), steps[|steps| - 1]);
    }
  }

  predicate SameBinding(a: Route, b: Route)
  {
    a.sandbox == b.sandbox && a.agent == b.agent && a.user == b.user && a.path == b.path && a.created == b.created
  }

  /** While a session exists, its route never changes; only its last activity moves. */
  lemma {:induction false} BoundForever(t: Tables, steps: seq<Step>, x: string)
    requires x in t.sessions
    requires forall k | 0 <= k <= |steps| :: x in Run(t, steps[..k]).sessions
    ensures x in Run(t, steps).sessions && SameBinding(t.sessions[x], Run(t, steps).sessions[x])
    decreases |steps|
  {
    assert steps[..|steps|] == steps;
    if steps != [] {
      var front := steps[..|steps| - 1];
      forall k | 0 <= k <= |front| ensures x in Run(t, front[..k]).sessions { assert front[..k] == steps[..k]; }
      BoundForever(t, front, x);
    }
  }

  // ------------------------------------------------------------------ registry

  class Registry {
    var sandboxes: map<string, Sandbox>
    var sessions: map<string, Route>

    ghost function Contents(): Tables
      reads this
    {
      Tables(sandboxes, sessions)
    }

    constructor ()
      ensures Contents() == Tables(map[], map[]) && Owned(Contents())
    {
      sandboxes, sessions := map[], map[];
    }

    /** The statements of one entry, up to the exception if it raises one; nothing is undone here. */
    method Insert(e: Entry, at: Times) returns (r: Outcome)
      modifies this
      ensures r == Record(old(Contents()), e, at).1
      ensures r.Recorded? ==> Contents() == Record(old(Contents()), e, at).0
    {
      if e.sandbox !in sandboxes { return Refused(UnknownSandbox); }
      if sandboxes[e.sandbox].agent != e.agent || sandboxes[e.sandbox].user != e.user { return Refused(OwnerMismatch); }
      if e.session in sessions {
        sessions := sessions[e.session := sessions[e.session].(active := at.session)];
      } else {
        sessions := sessions[e.session := Route(e.sandbox, e.agent, e.user, e.path, at.session, at.session)];
      }
      var route := sessions[e.session];
      if !SameRoute(route, e) { return Refused(BoundElsewhere); }
      sandboxes := sandboxes[e.sandbox := sandboxes[e.sandbox].(active := at.sandbox)];
      r := Recorded(route);
    }

    /** `commits` tells whether the transaction of the whole batch commits; otherwise it is rolled back. */
    method RecordSessionsBatch(es: seq<Timed>, commits: bool) returns (ok: bool, results: seq<Outcome>)
      modifies this
      ensures ok == commits
      ensures ok ==> (Contents(), results) == RecordAll(old(Contents()), es)
      ensures !ok ==> Contents() == old(Contents())
    {
      var before := (sandboxes, sessions);
      ok, results := true, [];
      for n := 0 to |es|
        invariant (Contents(), results) == RecordAll(old(Contents()), es[..n])
      {
        var savepoint := (sandboxes, sessions);
        var result := Insert(es[n].entry, es[n].at);
        if result.Refused? {
          sandboxes, sessions := savepoint.0, savepoint.1;
        }
        results := results + [result];
        assert es[..n + 1][..n] == es[..n];
      }
      assert es[..|es|] == es;
      if !commits {
        sandboxes, sessions := before.0, before.1;
        ok := false;
      }
    }

    method RecordSession(e: Timed) returns (r: Outcome)
      modifies this
      ensures (Contents(), r) == Record(old(Contents()), e.entry, e.at)
    {
      RecordAllSnoc(Contents(), [], e);
      assert [] + [e] == [e];
      var _, results := RecordSessionsBatch([e], true);
      r := results[0];
    }

    /** Nothing when the statement breaks the primary key. */
    method UpsertSandbox(id: string, row: Sandbox) returns (r: Option<string>)
      requires Owned(Contents())
      modifies this`sandboxes
      ensures Owned(Contents()) && Contents() == Upserted(old(Contents()), id, row)
      ensures r.None? <==> id in old(sandboxes) && !Owner(old(sandboxes)[id], row.agent, row.user)
      ensures r.Some? ==>
                && r.value in sandboxes && Shows(Observation(id, row), sandboxes[r.value])
                && sandboxes == old(sandboxes)[r.value := sandboxes[r.value]]
    {
      UpsertKeepsOwned(Contents(), id, row);
      if id in sandboxes && !Owner(sandboxes[id], row.agent, row.user) { return None; }
      if known :| known in sandboxes && Owner(sandboxes[known], row.agent, row.user) {
        assert HasOwner(Contents(), row.agent, row.user);
        sandboxes := sandboxes[known := sandboxes[known].(container := row.container, port := row.port,
          status := row.status, image := row.image, active := row.active)];
        r := Some(known);
      } else {
        sandboxes := sandboxes[id := row.(created := row.active)];
        r := Some(id);
      }
    }

    /** Observed sandboxes are refreshed, all others marked missing; sessions stay. */
    method Reconcile(observed: seq<Observation>, now: int) returns (r: Option<set<string>>)
      requires Owned(Contents())
      modifies this`sandboxes
      ensures Owned(Contents()) && old(sandboxes).Keys <= sandboxes.Keys
      ensures r.Some? ==> forall id | id in sandboxes ::
                if id in r.value
                then id in old(sandboxes) && sandboxes[id] == old(sandboxes)[id].(status := "missing", active := now)
                else Seen(observed, sandboxes[id])
    {
      var seen: set<string> := {};
      assert observed[..0] == [];
      for n := 0 to |observed|
        invariant Owned(Contents()) && Refreshed(old(sandboxes), sandboxes, seen, observed[..n])
      {
        ghost var before := sandboxes;
        var id := UpsertSandbox(observed[n].id, observed[n].row);
        if id.None? { return None; }
        RefreshedSnoc(old(sandboxes), before, sandboxes, seen, observed[..n], observed[n], id.value);
        assert observed[..n + 1] == observed[..n] + [observed[n]];
        seen := seen + {id.value};
      }
      assert observed[..|observed|] == observed;
      var missing := set id | id in sandboxes && id !in seen;
      MissingKeepsOwned(Contents(), missing, now);
      sandboxes := MarkMissing(sandboxes, missing, now);
      r := Some(missing);
    }
  }

  function MarkMissing(sandboxes: map<string, Sandbox>, missing: set<string>, now: int): map<string, Sandbox>
  {
    map id | id in sandboxes ::
      if id in missing then sandboxes[id].(status := "missing", active := now) else sandboxes[id]
  }

  lemma MissingKeepsOwned(t: Tables, missing: set<string>, now: int)
    requires Owned(t)
    ensures Owned(t.(sandboxes := MarkMissing(t.sandboxes, missing, now)))
  {
  }

  lemma RefreshedSnoc(first: map<string, Sandbox>, before: map<string, Sandbox>, after: map<string, Sandbox>,
                      seen: set<string>, os: seq<Observation>, o: Observation, id: string)
    requires Refreshed(first, before, seen, os)
    requires id in after && Shows(o, after[id]) && after == before[id := after[id]]
    ensures Refreshed(first, after, seen + {id}, os + [o])
  {
    forall x | x in seen + {id} ensures Seen(os + [o], after[x]) {
      if x == id {
        assert o in os + [o];
      } else {
        var p :| p in os && Shows(p, before[x]);
        assert p in os + [o];
      }
    }
  }

  // ----------------------------------------------------------------- reconcile

  /** What a container inspection found. */
  datatype Observation = Observation(id: string, row: Sandbox)

  predicate Shows(o: Observation, s: Sandbox)
  {
    Owner(s, o.row.agent, o.row.user) && s.container == o.row.container && s.status == o.row.status
  }

  predicate Seen(os: seq<Observation>, s: Sandbox)
  {
    exists o :: o in os && Shows(o, s)
  }

  /** The rows of `seen` show one of the observations; the others are as they were. */
  ghost predicate Refreshed(before: map<string, Sandbox>, after: map<string, Sandbox>, seen: set<string>,
                            os: seq<Observation>)
  {
    && before.Keys + seen == after.Keys
    && (forall id | id in after && id !in seen :: after[id] == before[id])
    && (forall id | id in seen :: Seen(os, after[id]))
  }

  // ------------------------------------------------------------------ recorder

  /** A caller waiting in `record`, identified by its future. */
  datatype Ticket = Ticket(future: nat, e: Timed)

  datatype Answer = Told(outcome: Outcome) | Raised

  function Entries(ts: seq<Ticket>): seq<Timed>
  {
    seq(|ts|, i requires 0 <= i < |ts| => ts[i].e)
  }

  ghost predicate Sound(asked: seq<Ticket>, done: seq<Ticket>, batch: seq<Ticket>, pending: seq<Ticket>, worker: bool,
                        futures: map<nat, Answer>, abandoned: set<nat>)
  {
    && asked == done + batch + pending
    && |batch| <= 64 && (pending != [] || batch != [] ==> worker)
    && (forall i | 0 <= i < |asked| :: asked[i].future == i)
    && (forall f | f in futures :: f < |done|)
    && (forall i | 0 <= i < |done| :: i in futures || i in abandoned)
  }

  lemma BatchNumbers(asked: seq<Ticket>, done: seq<Ticket>, batch: seq<Ticket>, pending: seq<Ticket>, worker: bool,
                     futures: map<nat, Answer>, abandoned: set<nat>)
    requires Sound(asked, done, batch, pending, worker, futures, abandoned)
    ensures forall i | 0 <= i < |batch| :: batch[i].future == |done| + i
  {
    forall i | 0 <= i < |batch| ensures batch[i].future == |done| + i { assert batch[i] == asked[|done| + i]; }
  }

  /** After the batch was answered, everyone in it is told or gone. */
  lemma FlushSound(asked: seq<Ticket>, done: seq<Ticket>, batch: seq<Ticket>, pending: seq<Ticket>, worker: bool,
                   futures: map<nat, Answer>, abandoned: set<nat>, told: map<nat, Answer>)
    requires Sound(asked, done, batch, pending, worker, futures, abandoned)
    requires forall f | f in futures :: f in told
    requires forall i | 0 <= i < |batch| && batch[i].future !in abandoned :: batch[i].future in told
    requires forall f | f in told :: f in futures || exists i :: 0 <= i < |batch| && batch[i].future == f
    ensures Sound(asked, done + batch, [], pending, pending != [], told, abandoned)
  {
    BatchNumbers(asked, done, batch, pending, worker, futures, abandoned);
    assert asked == (done + batch) + [] + pending;
    forall i | |done| <= i < |done + batch| ensures i in told || i in abandoned {
      assert batch[i - |done|].future == i;
    }
  }

  /** Between its awaits, the worker has at most one batch out for committing. */
  class SessionRecorder {
    const registry: Registry
    var pending: seq<Ticket>
    var batch: seq<Ticket>
    var worker: bool
    var futures: map<nat, Answer>
    var abandoned: set<nat>  // futures whose caller was cancelled
    ghost var asked: seq<Ticket>  // everything ever recorded
    ghost var done: seq<Ticket>

    /** Nothing is lost or reordered, and a worker runs while anyone waits. */
    ghost predicate Valid()
      reads this
    {
      Sound(asked, done, batch, pending, worker, futures, abandoned)
    }

    constructor (registry: Registry)
      ensures Valid() && asked == [] && this.registry == registry
    {
      this.registry, pending, batch, worker, futures, abandoned := registry, [], [], false, map[], {};
      asked, done := [], [];
    }

    /** `record`, up to its await. */
    method Ask(e: Timed, future: nat)
      requires Valid() && future == |asked|
      modifies this`pending, this`worker, this`asked
      ensures Valid() && asked == old(asked) + [Ticket(future, e)] && pending == old(pending) + [Ticket(future, e)]
    {
      pending := pending + [Ticket(future, e)];
      asked := asked + [Ticket(future, e)];
      if !worker { worker := true; }
    }

    method Abandon(future: nat)
      requires Valid() && future !in futures
      modifies this`abandoned
      ensures Valid() && abandoned == old(abandoned) + {future}
    {
      abandoned := abandoned + {future};
    }

    /** The worker after its pause: it takes the next batch. */
    method Take()
      requires Valid() && worker && batch == [] && pending != []
      modifies this`pending, this`batch
      ensures Valid() && batch + pending == old(pending) && 0 < |batch| && (|batch| == 64 || pending == [])
    {
      var n := if |pending| < 64 then |pending| else 64;
      assert pending == pending[..n] + pending[n..];
      batch, pending := pending[..n], pending[n..];
    }

    /**
     The batch is committed and its callers are told: each the outcome of its own entry, or all of them that
     the commit failed. The worker stops when nobody is left.
     */
    method Flush(commits: bool)
      requires Valid() && worker && batch != []
      modifies this`batch, this`worker, this`futures, this`done, registry
      ensures Valid() && batch == [] && done == old(done) + old(batch)
      ensures registry.Contents() == if commits
                then RecordAll(old(registry.Contents()), Entries(old(batch))).0
                else old(registry.Contents())
      ensures forall f | f in old(futures) :: f in futures && futures[f] == old(futures)[f]
      ensures forall i | 0 <= i < |old(batch)| && old(batch)[i].future !in abandoned ::
                && old(batch)[i].future in futures
                && futures[old(batch)[i].future] ==
                   if commits then Told(RecordAll(old(registry.Contents()), Entries(old(batch))).1[i]) else Raised
    {
      BatchNumbers(asked, done, batch, pending, worker, futures, abandoned);
      var ok, results := registry.RecordSessionsBatch(Entries(batch), commits);
      var answers := if ok then seq(|results|, i requires 0 <= i < |results| => Told(results[i]))
                     else seq(|batch|, _ => Raised);
      var told := Answered(futures, abandoned, batch, answers);
      FlushSound(asked, done, batch, pending, worker, futures, abandoned, told);
      futures := told;
      done := done + batch;
      batch := [];
      worker := pending != [];
    }
  }

  /** The loop that resolves the futures of a batch; the one of a cancelled caller is already done. */
  method Answered(futures: map<nat, Answer>, abandoned: set<nat>, batch: seq<Ticket>, answers: seq<Answer>)
    returns (r: map<nat, Answer>)
    requires |answers| == |batch|
    requires forall i, j | 0 <= i < j < |batch| :: batch[i].future != batch[j].future
    requires forall i | 0 <= i < |batch| :: batch[i].future !in futures
    ensures forall f | f in futures :: f in r && r[f] == futures[f]
    ensures forall i | 0 <= i < |batch| && batch[i].future !in abandoned ::
              batch[i].future in r && r[batch[i].future] == answers[i]
    ensures forall f | f in r :: f in futures || exists i :: 0 <= i < |batch| && batch[i].future == f
  {
    r := futures;
    for n := 0 to |batch|
      invariant forall f | f in futures :: f in r && r[f] == futures[f]
      invariant forall i | 0 <= i < n && batch[i].future !in abandoned ::
                 batch[i].future in r && r[batch[i].future] == answers[i]
      invariant forall f | f in r :: f in futures || exists i :: 0 <= i < n && batch[i].future == f
    {
      if batch[n].future in abandoned { continue; }
      r := r[batch[n].future := answers[n]];
    }
  }
}
