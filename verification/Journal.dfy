/**
 The command journals: `commands` of sandbox_manager/main.py, shared by the agent actions and the sandbox
 actions, and `cleanups` of file_service/coordination.py. A request runs in stretches between its awaits;
 requests interleave, bodies may fail, and the service may crash between any two stretches.
 */
module Journal {
  import opened Outcomes

  datatype Row = Row(payload: string, result: Option<string>)

  /** Agent action, sandbox action, file cleanup: they look up and reserve in different ways. */
  datatype Kind = AgentAction | SandboxAction | FileCleanup

  datatype Reason = BadKey | KeyReused | Interrupted | AlreadyExecuting | AlreadyStarted | CheckFailed | BodyFailed

  datatype Phase =
    | Waiting
    | Cleared  // looked up, nothing found
    | Running  // the body has started
    | Answered(result: string)
    | Refused(reason: Reason)

  datatype Request = Request(kind: Kind, key: string, payload: string, phase: Phase)

  datatype Event =
    | Started(key: string, payload: string)
    | Completed(key: string, result: string)
    | Replied(key: string, payload: string, result: string)

  /** `log` is what happened; nothing reads it. */
  datatype State = State(rows: map<string, Row>, requests: map<nat, Request>, log: seq<Event>)

  datatype Step =
    | Arrive(id: nat, kind: Kind, key: string, payload: string)
    | Lookup(id: nat)
    | Reserve(id: nat)
    | GiveUp(id: nat)              // a check between the lookup and the reservation fails
    | Finish(id: nat, result: string)
    | Fail(id: nat)                // the body raises
    | Crash

  function Enter(kind: Kind, key: string): Phase
  {
    if kind != AgentAction && (key == "" || |key| > 256) then Refused(BadKey) else Waiting
  }

  /** What a lookup answers. */
  function Found(row: Row, payload: string): Phase
  {
    if row.payload != payload then Refused(KeyReused)
    else if row.result.None? then Refused(Interrupted)
    else Answered(row.result.value)
  }

  /** What a reservation answers when the key is taken meanwhile. */
  function Taken(kind: Kind, row: Row, payload: string): Phase
  {
    if kind == FileCleanup then Refused(AlreadyStarted)
    else if row.payload != payload || row.result.None? then Refused(AlreadyExecuting)
    else Answered(row.result.value)
  }

  function With(s: State, id: nat, phase: Phase): State
    requires id in s.requests
  {
    var q := s.requests[id];
    s.(requests := s.requests[id := q.(phase := phase)],
       log := s.log + (if phase.Answered? then [Replied(q.key, q.payload, phase.result)] else []))
  }

  function Begun(s: State, id: nat): State
    requires id in s.requests
  {
    var q := s.requests[id];
    With(s, id, Running).(rows := s.rows[q.key := Row(q.payload, None)], log := s.log + [Started(q.key, q.payload)])
  }

  predicate InPhase(s: State, id: nat, phase: Phase)
  {
    id in s.requests && s.requests[id].phase == phase
  }

  function Next(s: State, step: Step): State
  {
    match step
    case Arrive(id, kind, key, payload) =>
      if id in s.requests then s else s.(requests := s.requests[id := Request(kind, key, payload, Enter(kind, key))])
    case Lookup(id) =>
      if !InPhase(s, id, Waiting) then s else
        var q := s.requests[id];
        if q.key in s.rows then With(s, id, Found(s.rows[q.key], q.payload))
        else if q.kind == AgentAction then Begun(s, id)  // inserted in the same stretch
        else With(s, id, Cleared)
    case Reserve(id) =>
      if !InPhase(s, id, Cleared) then s else
        var q := s.requests[id];
        if q.key in s.rows then With(s, id, Taken(q.kind, s.rows[q.key], q.payload)) else Begun(s, id)
    case GiveUp(id) => if InPhase(s, id, Cleared) then With(s, id, Refused(CheckFailed)) else s
    case Finish(id, result) =>
      if !InPhase(s, id, Running) then s else
        var q := s.requests[id];
        var t := s.(rows := s.rows[q.key :=
                      Row(if q.key in s.rows then s.rows[q.key].payload else q.payload, Some(result))],
                    log := s.log + [Completed(q.key, result)]);
        With(t, id, Answered(result))
    case Fail(id) => if InPhase(s, id, Running) then With(s, id, Refused(BodyFailed)) else s
    case Crash => s.(requests := map[])
  }

  function Run(s: State, steps: seq<Step>): State
    decreases |steps|
  {
    if steps == [] then s else Next(Run(s, steps[..|steps| - 1]), steps[|steps| - 1])
  }

  const EMPTY := State(map[], map[], [])

  function Starts(log: seq<Event>, key: string): nat
  {
    if log == [] then 0 else
      Starts(log[..|log| - 1], key) + (if log[|log| - 1].Started? && log[|log| - 1].key == key then 1 else 0)
  }

  lemma StartsSnoc(log: seq<Event>, e: Event, key: string)
    ensures Starts(log + [e], key) == Starts(log, key) + (if e.Started? && e.key == key then 1 else 0)
  {
    assert (log + [e])[..|log|] == log;
  }

  /** The event is what the journal's row says. */
  predicate Witnessed(rows: map<string, Row>, e: Event)
  {
    && e.key in rows
    && match e
       case Started(_, payload) => rows[e.key].payload == payload
       case Completed(_, result) => rows[e.key].result == Some(result)
       case Replied(_, payload, result) => rows[e.key] == Row(payload, Some(result))
  }

  ghost predicate Inv(s: State)
  {
    && (forall key :: Starts(s.log, key) == if key in s.rows then 1 else 0)
    && (forall i | 0 <= i < |s.log| :: Witnessed(s.rows, s.log[i]))
    && (forall id | id in s.requests && s.requests[id].phase == Running ::
          s.requests[id].key in s.rows && s.rows[s.requests[id].key] == Row(s.requests[id].payload, None))
    && (forall a, b | InPhase(s, a, Running) && InPhase(s, b, Running) && s.requests[a].key == s.requests[b].key ::
        a == b)
  }

  lemma PhaseKeepsInv(s: State, id: nat, phase: Phase)
    requires Inv(s) && id in s.requests && phase != Running
    requires phase.Answered? ==>
               s.requests[id].key in s.rows &&
                 s.rows[s.requests[id].key] == Row(s.requests[id].payload, Some(phase.result))
    ensures Inv(With(s, id, phase))
  {
    var q, t := s.requests[id], With(s, id, phase);
    if phase.Answered? {
      forall key ensures Starts(t.log, key) == Starts(s.log, key) {
        StartsSnoc(s.log, Replied(q.key, q.payload, phase.result), key);
      }
    } else {
      assert t.log == s.log;
    }
    assert forall x | InPhase(t, x, Running) :: x != id && InPhase(s, x, Running);
  }

  lemma BeginKeepsInv(s: State, id: nat)
    requires Inv(s) && id in s.requests && s.requests[id].key !in s.rows
    ensures Inv(Begun(s, id))
  {
    var q, t := s.requests[id], Begun(s, id);
    forall key ensures Starts(t.log, key) == Starts(s.log, key) + if key == q.key then 1 else 0 {
      StartsSnoc(s.log, Started(q.key, q.payload), key);
    }
    assert forall x | InPhase(t, x, Running) && x != id :: InPhase(s, x, Running);
  }

  lemma FinishKeepsInv(s: State, id: nat, result: string)
    requires Inv(s) && InPhase(s, id, Running)
    ensures Inv(Next(s, Finish(id, result)))
  {
    var q := s.requests[id];
    var t := Next(s, Finish(id, result));
    var mid := s.log + [Completed(q.key, result)];
    assert t.log == mid + [Replied(q.key, q.payload, result)];
    forall key ensures Starts(t.log, key) == Starts(s.log, key) {
      StartsSnoc(s.log, Completed(q.key, result), key);
      StartsSnoc(mid, Replied(q.key, q.payload, result), key);
    }
    forall i | 0 <= i < |t.log| ensures Witnessed(t.rows, t.log[i]) {
      if i < |s.log| { assert Witnessed(s.rows, s.log[i]); }
    }
    assert forall x | InPhase(t, x, Running) :: x != id && InPhase(s, x, Running);
  }

  lemma NextKeepsInv(s: State, step: Step)
    requires Inv(s)
    ensures Inv(Next(s, step))
  {
    match step
    case Arrive(id, kind, key, payload) =>
      var t := Next(s, step);
      assert forall x | InPhase(t, x, Running) :: InPhase(s, x, Running);
    case Lookup(id) =>
      if InPhase(s, id, Waiting) {
        var q := s.requests[id];
        if q.key in s.rows { PhaseKeepsInv(s, id, Found(s.rows[q.key], q.payload)); }
        else if q.kind == AgentAction { BeginKeepsInv(s, id); }
        else { PhaseKeepsInv(s, id, Cleared); }
      }
    case Reserve(id) =>
      if InPhase(s, id, Cleared) {
        var q := s.requests[id];
        if q.key in s.rows {
          PhaseKeepsInv(s, id, Taken(q.kind, s.rows[q.key], q.payload));
        } else {
          BeginKeepsInv(s, id);
        }
      }
    case GiveUp(id) => if InPhase(s, id, Cleared) { PhaseKeepsInv(s, id, Refused(CheckFailed)); }
    case Finish(id, result) => if InPhase(s, id, Running) { FinishKeepsInv(s, id, result); }
    case Fail(id) => if InPhase(s, id, Running) { PhaseKeepsInv(s, id, Refused(BodyFailed)); }
    case Crash =>
  }

  lemma {:induction false} RunKeepsInv(steps: seq<Step>)
    ensures Inv(Run(EMPTY, steps))
    decreases |steps|
  {
    if steps != [] {
      RunKeepsInv(steps[..|steps| - 1]);
      NextKeepsInv(Run(EMPTY, steps[..|steps| - 1]), steps[|steps| - 1]);
    }
  }

  // ------------------------------------------------------------------- results

  /** However requests interleave, fail and crash, the body of a command starts at most once. */
  lemma StartsAtMostOnce(steps: seq<Step>, key: string)
    ensures Starts(Run(EMPTY, steps).log, key) <= 1
  {
    RunKeepsInv(steps);
  }

  /** All answers under one key are for one payload and give one result, the recorded one. */
  lemma RepliesAgree(steps: seq<Step>, i: nat, j: nat)
    requires var log := Run(EMPTY, steps).log;
             i < |log| && j < |log| && log[i].Replied? && log[j].Replied? && log[i].key == log[j].key
    ensures Run(EMPTY, steps).log[i] == Run(EMPTY, steps).log[j]
  {
    RunKeepsInv(steps);
    var s := Run(EMPTY, steps);
    assert Witnessed(s.rows, s.log[i]) && Witnessed(s.rows, s.log[j]);
  }

  /** Once a result is recorded, it stays. */
  lemma {:induction false} ResultStays(s: State, steps: seq<Step>, key: string)
    requires Inv(s) && key in s.rows && s.rows[key].result.Some?
    ensures Inv(Run(s, steps)) && key in Run(s, steps).rows && Run(s, steps).rows[key] == s.rows[key]
    decreases |steps|
  {
    if steps != [] {
      ResultStays(s, steps[..|steps| - 1], key);
      NextKeepsInv(Run(s, steps[..|steps| - 1]), steps[|steps| - 1]);
    }
  }

  /** The body started, its request is gone, and no result was recorded. */
  ghost predicate Orphaned(s: State, key: string)
  {
    && key in s.rows && s.rows[key].result.None?
    && forall id | InPhase(s, id, Running) :: s.requests[id].key != key
  }

  lemma OrphanStep(s: State, step: Step, key: string)
    requires Inv(s) && Orphaned(s, key)
    ensures Orphaned(Next(s, step), key)
  {
    var t := Next(s, step);
    forall id | InPhase(t, id, Running) ensures t.requests[id].key != key {
      if !InPhase(s, id, Running) {
        assert step == Lookup(id) || step == Reserve(id);
      }
    }
  }

  /** An interrupted command is never run again, and never answered, whatever is retried. */
  lemma {:induction false} InterruptedForever(s: State, steps: seq<Step>, key: string)
    requires Inv(s) && Orphaned(s, key)
    ensures Inv(Run(s, steps)) && Orphaned(Run(s, steps), key) && Starts(Run(s, steps).log, key) == 1
    ensures forall i | 0 <= i < |Run(s, steps).log| && Run(s, steps).log[i].Replied? :: Run(s, steps).log[i].key != key
    decreases |steps|
  {
    if steps != [] {
      var front := steps[..|steps| - 1];
      InterruptedForever(s, front, key);
      NextKeepsInv(Run(s, front), steps[|steps| - 1]);
      OrphanStep(Run(s, front), steps[|steps| - 1], key);
    }
    var t := Run(s, steps);
    forall i | 0 <= i < |t.log| && t.log[i].Replied? ensures t.log[i].key != key { assert Witnessed(t.rows, t.log[i]); }
  }

  /** A crash or an exception in the middle of a body orphans its command. */
  lemma BreakOrphans(s: State, id: nat)
    requires Inv(s) && InPhase(s, id, Running)
    ensures Orphaned(Next(s, Crash), s.requests[id].key) && Orphaned(Next(s, Fail(id)), s.requests[id].key)
  {
    var t := Next(s, Fail(id));
    assert forall x | InPhase(t, x, Running) :: x != id && InPhase(s, x, Running);
  }

  /** Another payload under a used key is refused, before and after the result is known. */
  lemma OtherPayloadRefused(s: State, id: nat)
    requires Inv(s) && InPhase(s, id, Waiting) && s.requests[id].key in s.rows &&
               s.rows[s.requests[id].key].payload != s.requests[id].payload
    ensures InPhase(Next(s, Lookup(id)), id, Refused(KeyReused)) && Next(s, Lookup(id)).rows == s.rows &&
              Next(s, Lookup(id)).log == s.log
  {
    assert s.log + [] == s.log;
  }

  /** A repeated request after completion is answered with the recorded result, and its body does not run. */
  lemma ReplayAnswers(s: State, id: nat)
    requires Inv(s) && InPhase(s, id, Waiting)
    requires var q := s.requests[id];
             q.key in s.rows && s.rows[q.key].payload == q.payload && s.rows[q.key].result.Some?
    ensures InPhase(Next(s, Lookup(id)), id, Answered(s.rows[s.requests[id].key].result.value)) &&
              Next(s, Lookup(id)).rows == s.rows
    ensures forall key :: Starts(Next(s, Lookup(id)).log, key) == Starts(s.log, key)
  {
    NextKeepsInv(s, Lookup(id));
  }

  // ------------------------------------------------------------------- service

  class JournalService {
    var rows: map<string, Row>
    var requests: map<nat, Request>
    ghost var log: seq<Event>

    ghost function Now(): State
      reads this
    {
      State(rows, requests, log)
    }

    constructor ()
      ensures Now() == EMPTY && Inv(Now())
    {
      rows, requests, log := map[], map[], [];
      new;
      assert forall key :: Starts([], key) == 0;
    }

    method Move(id: nat, phase: Phase)
      requires id in requests
      modifies this`requests, this`log
      ensures Now() == With(old(Now()), id, phase)
    {
      var q := requests[id];
      log := log + (if phase.Answered? then [Replied(q.key, q.payload, phase.result)] else []);
      requests := requests[id := q.(phase := phase)];
    }

    /** INSERT INTO ... VALUES(?,?,NULL), and the body begins. */
    method Insert(id: nat)
      requires id in requests && requests[id].key !in rows
      modifies this
      ensures Now() == Begun(old(Now()), id)
    {
      var q := requests[id];
      rows := rows[q.key := Row(q.payload, None)];
      log := log + [Started(q.key, q.payload)];
      requests := requests[id := q.(phase := Running)];
    }

    method Arrive(id: nat, kind: Kind, key: string, payload: string)
      requires Inv(Now()) && id !in requests
      modifies this
      ensures Now() == Next(old(Now()), Step.Arrive(id, kind, key, payload)) && Inv(Now())
    {
      NextKeepsInv(Now(), Step.Arrive(id, kind, key, payload));
      var phase := Waiting;
      if kind != AgentAction && (key == "" || |key| > 256) { phase := Refused(BadKey); }
      requests := requests[id := Request(kind, key, payload, phase)];
    }

    method Lookup(id: nat)
      requires Inv(Now()) && InPhase(Now(), id, Waiting)
      modifies this
      ensures Now() == Next(old(Now()), Step.Lookup(id)) && Inv(Now())
    {
      NextKeepsInv(Now(), Step.Lookup(id));
      var q := requests[id];
      if q.key in rows {
        var row := rows[q.key];
        if row.payload != q.payload {
          Move(id, Refused(KeyReused));
        } else if row.result.None? {
          Move(id, Refused(Interrupted));
        } else {
          Move(id, Answered(row.result.value));
        }
      } else if q.kind == AgentAction {
        Insert(id);
      } else {
        Move(id, Cleared);
      }
    }

    /** BEGIN IMMEDIATE and a second look for a sandbox action; the primary key alone for a file cleanup. */
    method Reserve(id: nat)
      requires Inv(Now()) && InPhase(Now(), id, Cleared)
      modifies this
      ensures Now() == Next(old(Now()), Step.Reserve(id)) && Inv(Now())
    {
      NextKeepsInv(Now(), Step.Reserve(id));
      var q := requests[id];
      if q.key !in rows {
        Insert(id);
      } else if q.kind == FileCleanup {
        Move(id, Refused(AlreadyStarted));
      } else if rows[q.key].payload != q.payload || rows[q.key].result.None? {
        Move(id, Refused(AlreadyExecuting));
      } else {
        Move(id, Answered(rows[q.key].result.value));
      }
    }

    method Finish(id: nat, result: string)
      requires Inv(Now()) && InPhase(Now(), id, Running)
      modifies this
      ensures Now() == Next(old(Now()), Step.Finish(id, result)) && Inv(Now())
    {
      NextKeepsInv(Now(), Step.Finish(id, result));
      var q := requests[id];
      rows := rows[q.key := rows[q.key].(result := Some(result))];
      log := log + [Completed(q.key, result)];
      Move(id, Answered(result));
    }
  }
}
