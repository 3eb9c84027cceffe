/**
 Sandbox admission, leases, draining and eviction: the asyncio tasks of
 sandbox_manager/native_router.py (`proxy`, `_stream_sse`), backend.py (`acquire`, `release`),
 health.py (`_check_sandbox`) and main.py (`drain`, `remove_records`, `sandbox_action`).

 Each method is one stretch of code between two awaits, so any sequence of calls is one
 interleaving. `tasks` is where each request task stands; the code itself only sees counters.
 */
module Admission {

  const EVERYTHING: string := "*"

  /** A sandbox belongs to one user of one agent. */
  datatype Owner = Owner(agent: string, user: string)

  /** What a request task will do next. */
  datatype Phase =
    | Arrived(o: Owner)     // counted in `acquiring`; has not yet got the owner's lock
    | Locked(o: Owner)      // in the lock, past the second block check
    | Starting(o: Owner)    // past the third block check: the container is being prepared
    | Serving(o: Owner)     // leased to an ordinary request
    | Opening(o: Owner)     // leased to an event stream without upstream headers yet
    | Streaming(o: Owner)   // leased to an event stream, counted as observer
    | Releasing(o: Owner)   // last lease, kept until the idle timestamp is durable

  /** What the counters count. */
  datatype Kind = Attempts(agent: string) | Leases(o: Owner) | Streams(o: Owner)

  predicate Is(p: Phase, k: Kind)
  {
    match k
    case Attempts(a) => (p.Arrived? || p.Locked? || p.Starting?) && p.o.agent == a
    case Leases(o) => (p.Serving? || p.Opening? || p.Streaming? || p.Releasing?) && p.o == o
    case Streams(o) => p.Streaming? && p.o == o
  }

  function Members(tasks: map<nat, Phase>, k: Kind): (s: set<nat>)
    ensures forall t :: t in s <==> t in tasks && Is(tasks[t], k)
  {
    set t | t in tasks && Is(tasks[t], k)
  }

  function Count(tasks: map<nat, Phase>, k: Kind): nat
  {
    |Members(tasks, k)|
  }

  lemma CountAdd(tasks: map<nat, Phase>, t: nat, p: Phase, k: Kind)
    requires t !in tasks
    ensures Count(tasks[t := p], k) == Count(tasks, k) + (if Is(p, k) then 1 else 0)
  {
    assert Members(tasks[t := p], k) == if Is(p, k) then Members(tasks, k) + {t} else Members(tasks, k);
  }

  lemma CountRemove(tasks: map<nat, Phase>, t: nat, k: Kind)
    requires t in tasks
    ensures Count(tasks, k) == Count(tasks - {t}, k) + (if Is(tasks[t], k) then 1 else 0)
  {
    CountAdd(tasks - {t}, t, tasks[t], k);
    assert (tasks - {t})[t := tasks[t]] == tasks;
  }

  lemma CountMove(tasks: map<nat, Phase>, t: nat, p: Phase, k: Kind)
    requires t in tasks
    ensures Count(tasks[t := p], k) + (if Is(tasks[t], k) then 1 else 0) ==
              Count(tasks, k) + (if Is(p, k) then 1 else 0)
  {
    CountRemove(tasks, t, k);
    CountAdd(tasks - {t}, t, p, k);
    assert (tasks - {t})[t := p] == tasks[t := p];
  }

  /** A counted phase has a positive count, so no counter is ever decremented below zero. */
  lemma CountPositive(tasks: map<nat, Phase>, t: nat, k: Kind)
    requires t in tasks && Is(tasks[t], k)
    ensures Count(tasks, k) >= 1
  {
    assert t in Members(tasks, k);
  }

  lemma CountZero(tasks: map<nat, Phase>, k: Kind)
    requires Count(tasks, k) == 0
    ensures forall t | t in tasks :: !Is(tasks[t], k)
  {
    forall t | t in tasks ensures !Is(tasks[t], k) {
      if Is(tasks[t], k) { CountPositive(tasks, t, k); }
    }
  }

  /** Observers are leases: as many non-stream leases as the difference, at least. */
  lemma {:induction false} StreamsAreLeases(tasks: map<nat, Phase>, o: Owner)
    ensures Count(tasks, Streams(o)) <= Count(tasks, Leases(o))
    ensures Count(tasks, Streams(o)) == Count(tasks, Leases(o)) ==>
              forall t | t in tasks && Is(tasks[t], Leases(o)) :: tasks[t].Streaming?
  {
    var streams, leases := Members(tasks, Streams(o)), Members(tasks, Leases(o));
    assert leases == streams + (leases - streams);
    if |streams| == |leases| {
      assert leases - streams == {};
      assert forall t | t in leases :: t in streams;
    }
  }

  function Get<K>(m: map<K, nat>, k: K): nat
  {
    if k in m then m[k] else 0
  }

  /** Who has a sandbox's lock besides a request task, and what it found. */
  datatype Keeper =
    | ByRequest(t: nat)
    | Checking              // the health monitor, or an operator's action
    | CondemnedIdle         // ... which saw no lease at all
    | CondemnedQuiet        // ... which saw no lease but those of streams

  /** A lifecycle action on one agent (or on "*"), under that agent's action lock. */
  datatype Action =
    | Blocking              // the agent is blocked; `drain` is polling
    | Drained               // `drain` has returned
    | Removing(o: Owner)    // `remove_records` found no active lease of this sandbox

  /** Tasks in the critical section hold the owner's lock; a verdict under the lock stays true. */
  ghost predicate LocksHeld(locks: map<Owner, Keeper>, inUse: map<Owner, nat>, tasks: map<nat, Phase>)
  {
    && (forall t | t in tasks && (tasks[t].Locked? || tasks[t].Starting?) ::
          tasks[t].o in locks && locks[tasks[t].o] == ByRequest(t))
    && (forall o | o in locks && locks[o] == CondemnedIdle :: Get(inUse, o) == 0)
    && (forall o, t | o in locks && locks[o] == CondemnedQuiet && t in tasks ::
          !(tasks[t].Serving? && tasks[t].o == o) && !(tasks[t].Opening? && tasks[t].o == o))
  }

  /**
   From the return of `drain` until the block goes, with or without an action under way, no acquisition is past
   its block checks; a sandbox being removed serves nobody.
   */
  ghost predicate ActionsSafe(actions: map<string, Action>, drained: set<string>, blocked: set<string>,
                              tasks: map<nat, Phase>)
  {
    && (forall a | a in actions :: a in blocked)
    && drained <= blocked
    && (forall a | a in actions && !actions[a].Blocking? :: a in drained)
    && (forall a, t | a in drained && t in tasks && (a == EVERYTHING || tasks[t].o.agent == a) ::
          !tasks[t].Locked? && !tasks[t].Starting?)
    && (forall a, t | a in actions && actions[a].Removing? && t in tasks && tasks[t].o == actions[a].o ::
          !tasks[t].Serving? && !tasks[t].Opening?)
    && (forall a | a in actions && actions[a].Removing? :: actions[a].o.agent == a)
  }

  /** A starting task may take its lease: it alone has the lock, and nothing is drained or condemned. */
  lemma LeaseIsSafe(locks: map<Owner, Keeper>, inUse: map<Owner, nat>, tasks: map<nat, Phase>,
                    actions: map<string, Action>, drained: set<string>, blocked: set<string>,
                    t: nat, o: Owner, p: Phase)
    requires LocksHeld(locks, inUse, tasks) && ActionsSafe(actions, drained, blocked, tasks)
    requires t in tasks && tasks[t] == Starting(o) && (p == Serving(o) || p == Opening(o))
    ensures LocksHeld(locks - {o}, inUse[o := Get(inUse, o) + 1], tasks[t := p])
    ensures ActionsSafe(actions, drained, blocked, tasks[t := p])
    ensures o in locks && locks[o] == ByRequest(t)
    ensures o.agent !in drained && EVERYTHING !in drained
  {
    assert forall u | u in tasks && u != t && (tasks[u].Locked? || tasks[u].Starting?) :: tasks[u].o != o;
    assert forall a | a in actions && actions[a].Removing? :: actions[a].o.agent == a && a in drained;
  }

  /** Phases that no lock, verdict or action is concerned with. */
  lemma OtherPhaseIsSafe(locks: map<Owner, Keeper>, inUse: map<Owner, nat>, tasks: map<nat, Phase>,
                         actions: map<string, Action>, drained: set<string>, blocked: set<string>, t: nat, p: Phase)
    requires LocksHeld(locks, inUse, tasks) && ActionsSafe(actions, drained, blocked, tasks)
    requires p.Arrived? || p.Streaming? || p.Releasing?
    ensures LocksHeld(locks, inUse, tasks[t := p]) && ActionsSafe(actions, drained, blocked, tasks[t := p])
  {
  }

  class Manager {
    var blocked: set<string>
    var acquiring: map<string, nat>
    var inUse: map<Owner, nat>
    var eventSubscribers: map<Owner, nat>
    var containers: set<Owner>
    ghost var locks: map<Owner, Keeper>
    ghost var tasks: map<nat, Phase>
    ghost var actions: map<string, Action>
    ghost var drained: set<string>  // agents whose `drain` returned under their present block

    predicate Blocked(agent: string)
      reads this`blocked
    {
      agent in blocked || EVERYTHING in blocked
    }

    /** `active_request_leases` */
    function ActiveLeases(o: Owner): int
      reads this`inUse, this`eventSubscribers
    {
      var n := Get(inUse, o) - Get(eventSubscribers, o);
      if n > 0 then n else 0
    }

    /** Every counter is exactly the number of tasks it stands for; no map keeps a zero lease. */
    ghost predicate Counted()
      reads this
    {
      && (forall a :: Get(acquiring, a) == Count(tasks, Attempts(a)))
      && (forall o :: Get(inUse, o) == Count(tasks, Leases(o)))
      && (forall o :: Get(eventSubscribers, o) == Count(tasks, Streams(o)))
      && (forall o | o in inUse :: inUse[o] > 0)
      && (forall o | o in eventSubscribers :: eventSubscribers[o] > 0)
    }

    ghost predicate Valid()
      reads this
    {
      Counted() && LocksHeld(locks, inUse, tasks) && ActionsSafe(actions, drained, blocked, tasks)
    }

    constructor ()
      ensures Valid() && tasks == map[] && actions == map[] && locks == map[] && drained == {}
    {
      blocked, acquiring, inUse, eventSubscribers, containers := {}, map[], map[], map[], {};
      locks, tasks, actions, drained := map[], map[], map[], {};
    }

    /** What the counters mean: leases not yet fully released, of which the observers are a part. */
    lemma LeaseAccounting(o: Owner)
      requires Valid()
      ensures Get(inUse, o) == Count(tasks, Leases(o))
      ensures Get(eventSubscribers, o) <= Get(inUse, o)
      ensures o in inUse <==> exists t :: t in tasks && Is(tasks[t], Leases(o))
      ensures o in eventSubscribers ==> o in inUse
    {
      StreamsAreLeases(tasks, o);
      assert Get(eventSubscribers, o) == Count(tasks, Streams(o));
      if Count(tasks, Leases(o)) == 0 { CountZero(tasks, Leases(o)); }
      else if Members(tasks, Leases(o)) != {} { var t :| t in Members(tasks, Leases(o)); }
    }

    // -------------------------------------------------------- bookkeeping

    ghost method Enter(t: nat, p: Phase)
      requires t !in tasks
      modifies this`tasks
      ensures tasks == old(tasks)[t := p]
      ensures forall k :: Count(tasks, k) == Count(old(tasks), k) + (if Is(p, k) then 1 else 0)
    {
      forall k ensures Count(tasks[t := p], k) == Count(tasks, k) + (if Is(p, k) then 1 else 0) {
        CountAdd(tasks, t, p, k);
      }
      tasks := tasks[t := p];
    }

    ghost method Move(t: nat, p: Phase)
      requires t in tasks
      modifies this`tasks
      ensures tasks == old(tasks)[t := p]
      ensures forall k ::
                Count(tasks, k) + (if Is(old(tasks)[t], k) then 1 else 0) ==
                  Count(old(tasks), k) + (if Is(p, k) then 1 else 0)
    {
      forall k
        ensures Count(tasks[t := p], k) + (if Is(tasks[t], k) then 1 else 0) ==
                  Count(tasks, k) + (if Is(p, k) then 1 else 0)
      {
        CountMove(tasks, t, p, k);
      }
      tasks := tasks[t := p];
    }

    ghost method Leave(t: nat)
      requires t in tasks
      modifies this`tasks
      ensures tasks == old(tasks) - {t}
      ensures forall k :: Count(old(tasks), k) == Count(tasks, k) + (if Is(old(tasks)[t], k) then 1 else 0)
    {
      forall k ensures Count(tasks, k) == Count(tasks - {t}, k) + (if Is(tasks[t], k) then 1 else 0) {
        CountRemove(tasks, t, k);
      }
      tasks := tasks - {t};
    }

    /** An attempt ends in a lease, and the owner's lock is returned. */
    method Lease(ghost t: nat, o: Owner, ghost next: Phase)
      requires Counted() && t in tasks && Is(tasks[t], Attempts(o.agent)) && tasks[t].o == o
      requires next == Serving(o) || next == Opening(o)
      modifies this`acquiring, this`inUse, this`containers, this`locks, this`tasks
      ensures Counted() && tasks == old(tasks)[t := next] && inUse == old(inUse)[o := Get(old(inUse), o) + 1]
      ensures locks == old(locks) - {o} && containers == old(containers) + {o}
    {
      CountPositive(tasks, t, Attempts(o.agent));
      forall k
        ensures Count(tasks[t := next], k) + (if Is(tasks[t], k) then 1 else 0) ==
                  Count(tasks, k) + (if Is(next, k) then 1 else 0)
      {
        CountMove(tasks, t, next, k);
      }
      acquiring, inUse, containers, locks, tasks :=
        acquiring[o.agent := Get(acquiring, o.agent) - 1], inUse[o := Get(inUse, o) + 1], containers + {o}, locks - {o},
          tasks[t := next];
    }

    /** An attempt ends in nothing. */
    method Drop(ghost t: nat, o: Owner)
      requires Counted() && t in tasks && Is(tasks[t], Attempts(o.agent)) && tasks[t].o == o
      modifies this`acquiring, this`tasks
      ensures Counted() && tasks == old(tasks) - {t}
    {
      CountPositive(tasks, t, Attempts(o.agent));
      acquiring := acquiring[o.agent := Get(acquiring, o.agent) - 1];
      Leave(t);
    }

    /** The first half of `release`: an intermediate lease goes at once, the last one stays. */
    method Shed(ghost t: nat, o: Owner) returns (last: bool)
      requires Counted() && t in tasks && tasks[t] == Releasing(o)
      modifies this`inUse, this`tasks
      ensures Counted() && last == (Get(old(inUse), o) <= 1)
      ensures tasks == if last then old(tasks) else old(tasks) - {t}
      ensures inUse == if last then old(inUse) else old(inUse)[o := Get(old(inUse), o) - 1]
    {
      CountPositive(tasks, t, Leases(o));
      var count := Get(inUse, o);
      last := count <= 1;
      if !last {
        inUse := inUse[o := count - 1];
        Leave(t);
      }
    }

    method StopServing(ghost t: nat, o: Owner)
      requires Counted() && t in tasks && tasks[t] in {Serving(o), Opening(o)}
      modifies this`tasks
      ensures Counted() && tasks == old(tasks)[t := Releasing(o)]
    {
      Move(t, Releasing(o));
    }

    /** The stream stops observing; its lease is now an ordinary one. */
    method Unsubscribe(ghost t: nat, o: Owner)
      requires Counted() && t in tasks && tasks[t] == Streaming(o)
      modifies this`eventSubscribers, this`tasks
      ensures Counted() && tasks == old(tasks)[t := Releasing(o)]
    {
      CountPositive(tasks, t, Streams(o));
      var remaining := Get(eventSubscribers, o) - 1;
      eventSubscribers := if remaining > 0 then eventSubscribers[o := remaining] else eventSubscribers - {o};
      Move(t, Releasing(o));
    }

    // ------------------------------------------------------- request tasks

    /** `proxy` before `acquire`. */
    method Arrive(ghost t: nat, o: Owner)
      requires Valid() && t !in tasks
      modifies this`acquiring, this`tasks
      ensures Valid() && tasks == old(tasks)[t := Arrived(o)]
    {
      OtherPhaseIsSafe(locks, inUse, tasks, actions, drained, blocked, t, Arrived(o));
      acquiring := acquiring[o.agent := Get(acquiring, o.agent) + 1];
      Enter(t, Arrived(o));
    }

    /** The first block check of `acquire`, in a worker thread. */
    method CheckBlock(ghost t: nat, o: Owner) returns (admitted: bool)
      requires Valid() && t in tasks && tasks[t] == Arrived(o)
      modifies this`acquiring, this`inUse, this`locks, this`tasks
      ensures Valid() && admitted == !Blocked(o.agent)
      ensures tasks == if admitted then old(tasks) else old(tasks) - {t}
    {
      admitted := !Blocked(o.agent);
      if !admitted { GiveUp(t, o); }
    }

    /** The acquisition fails or is cancelled: the `finally` of `proxy`, and the lock if it was held. */
    method GiveUp(ghost t: nat, o: Owner)
      requires Valid() && t in tasks && tasks[t] in {Arrived(o), Locked(o), Starting(o)}
      modifies this`acquiring, this`inUse, this`locks, this`tasks
      ensures inUse == old(inUse)
      ensures Valid() && tasks == old(tasks) - {t}
      ensures locks == if old(tasks)[t].Arrived? then old(locks) else old(locks) - {o}
    {
      if !tasks[t].Arrived? { locks := locks - {o}; }
      Drop(t, o);
    }

    /** The owner's lock is granted; the block may have been set while this task queued for it. */
    method EnterLock(ghost t: nat, o: Owner) returns (admitted: bool)
      requires Valid() && t in tasks && tasks[t] == Arrived(o) && o !in locks
      modifies this`acquiring, this`inUse, this`locks, this`tasks
      ensures inUse == old(inUse)
      ensures Valid() && admitted == !Blocked(o.agent)
      ensures tasks == if admitted then old(tasks)[t := Locked(o)] else old(tasks) - {t}
    {
      admitted := !Blocked(o.agent);
      if !admitted {
        GiveUp(t, o);
        return;
      }
      locks := locks[o := ByRequest(t)];
      Move(t, Locked(o));
    }

    /** The remote resource check answered; the block may have been set meanwhile. */
    method Recheck(ghost t: nat, o: Owner) returns (admitted: bool)
      requires Valid() && t in tasks && tasks[t] == Locked(o)
      modifies this`acquiring, this`inUse, this`locks, this`tasks
      ensures inUse == old(inUse)
      ensures Valid() && admitted == !Blocked(o.agent)
      ensures tasks == if admitted then old(tasks)[t := Starting(o)] else old(tasks) - {t}
    {
      admitted := !Blocked(o.agent);
      if !admitted {
        GiveUp(t, o);
        return;
      }
      Move(t, Starting(o));
    }

    /** The container is ready: the lease, the end of the lock and of the attempt are one step. */
    method Acquire(ghost t: nat, o: Owner, stream: bool)
      requires Valid() && t in tasks && tasks[t] == Starting(o)
      modifies this`acquiring, this`inUse, this`containers, this`locks, this`tasks
      ensures Valid() && tasks == old(tasks)[t := if stream then Opening(o) else Serving(o)]
      ensures Get(inUse, o) == Get(old(inUse), o) + 1
      // No acquisition completes from the drain until the block goes, nor while an evictor has the lock.
      ensures o.agent !in drained && EVERYTHING !in drained
      ensures old(locks)[o] == ByRequest(t) && locks == old(locks) - {o}
    {
      ghost var leased := if stream then Opening(o) else Serving(o);
      LeaseIsSafe(locks, inUse, tasks, actions, drained, blocked, t, o, leased);
      Lease(t, o, leased);
    }

    /** `_stream_sse` once the upstream headers are there. */
    method OpenStream(ghost t: nat, o: Owner)
      requires Valid() && t in tasks && tasks[t] == Opening(o)
      modifies this`eventSubscribers, this`tasks
      ensures Valid() && tasks == old(tasks)[t := Streaming(o)]
    {
      eventSubscribers := eventSubscribers[o := Get(eventSubscribers, o) + 1];
      Move(t, Streaming(o));
    }

    /** `release`, up to its await. */
    method BeginRelease(ghost t: nat, o: Owner) returns (last: bool)
      requires Valid() && t in tasks && tasks[t] in {Serving(o), Opening(o)}
      modifies this`inUse, this`tasks
      ensures Valid() && last == (Get(old(inUse), o) <= 1)
      ensures tasks == if last then old(tasks)[t := Releasing(o)] else old(tasks) - {t}
    {
      StopServing(t, o);
      last := Shed(t, o);
    }

    /** Cleanup of a stream: the observer goes first, then the lease as in `release`. */
    method CloseStream(ghost t: nat, o: Owner) returns (last: bool)
      requires Valid() && t in tasks && tasks[t] == Streaming(o)
      modifies this`inUse, this`eventSubscribers, this`tasks
      ensures Valid() && last == (Get(old(inUse), o) <= 1)
      ensures tasks == if last then old(tasks)[t := Releasing(o)] else old(tasks) - {t}
    {
      Unsubscribe(t, o);
      last := Shed(t, o);
    }

    /** Second half of `release`, after the idle timestamp was written or failed to be. */
    method EndRelease(ghost t: nat, o: Owner)
      requires Valid() && t in tasks && tasks[t] == Releasing(o)
      modifies this`inUse, this`tasks
      ensures Valid() && tasks == old(tasks) - {t}
    {
      CountPositive(tasks, t, Leases(o));
      var remaining := Get(inUse, o) - 1;
      inUse := if remaining > 0 then inUse[o := remaining] else inUse - {o};
      Leave(t);
    }

    // ------------------------------------- health monitor and sandbox actions

    /** `_check_sandbox`, `sandbox_action` or the cleanup of a load-test user gets the owner's lock. */
    method KeepLock(o: Owner)
      requires Valid() && o !in locks
      modifies this`locks
      ensures Valid() && locks == old(locks)[o := Checking]
    {
      locks := locks[o := Checking];
    }

    /** The idle evictor looks at `in_use`. */
    method CondemnIdle(o: Owner) returns (idle: bool)
      requires Valid() && o in locks && locks[o] == Checking
      modifies this`locks
      ensures Valid() && idle == (Get(inUse, o) == 0)
      ensures locks == if idle then old(locks)[o := CondemnedIdle] else old(locks)
    {
      idle := Get(inUse, o) == 0;
      if idle { locks := locks[o := CondemnedIdle]; }
    }

    /**
     An operator's stop, restart, recover or destroy looks at the active request leases, and so does the cleanup of
     a load-test user, without a drain.
     */
    method CondemnQuiet(o: Owner) returns (quiet: bool)
      requires Valid() && o in locks && locks[o] == Checking
      modifies this`locks
      ensures Valid() && quiet == (ActiveLeases(o) == 0)
      ensures locks == if quiet then old(locks)[o := CondemnedQuiet] else old(locks)
    {
      quiet := ActiveLeases(o) == 0;
      if quiet {
        StreamsAreLeases(tasks, o);
        LeasesOf(o);
        locks := locks[o := CondemnedQuiet];
      }
    }

    lemma LeasesOf(o: Owner)
      requires Valid() && ActiveLeases(o) == 0
      ensures forall t | t in tasks :: tasks[t] != Serving(o) && tasks[t] != Opening(o)
    {
      StreamsAreLeases(tasks, o);
      assert Get(inUse, o) == Count(tasks, Leases(o)) && Get(eventSubscribers, o) == Count(tasks, Streams(o));
      assert forall t | t in tasks && tasks[t] in {Serving(o), Opening(o)} :: Is(tasks[t], Leases(o));
    }

    /** After any number of awaits under the lock, the container goes. */
    method RemoveCondemned(o: Owner)
      requires Valid() && o in locks && locks[o] in {CondemnedIdle, CondemnedQuiet}
      modifies this`containers
      ensures Valid() && containers == old(containers) - {o}
      // The evictor removes only what nobody uses; an operator's action only what no request uses.
      ensures locks[o] == CondemnedIdle ==> forall t | t in tasks :: !Is(tasks[t], Leases(o))
      ensures forall t | t in tasks && tasks[t].o == o ::
                !tasks[t].Serving? && !tasks[t].Opening? && !tasks[t].Starting?
    {
      if locks[o] == CondemnedIdle {
        assert Get(inUse, o) == Count(tasks, Leases(o));
        CountZero(tasks, Leases(o));
        assert forall t | t in tasks :: !Is(tasks[t], Leases(o));
      }
      containers := containers - {o};
    }

    method ReturnLock(o: Owner)
      requires Valid() && o in locks && !locks[o].ByRequest?
      modifies this`locks
      ensures Valid() && locks == old(locks) - {o}
    {
      locks := locks - {o};
    }

    // ---------------------------------------------------- lifecycle actions

    method Block(agent: string)
      requires Valid() && agent !in actions
      modifies this`blocked, this`actions
      ensures Valid() && blocked == old(blocked) + {agent} && actions == old(actions)[agent := Blocking]
    {
      blocked := blocked + {agent};
      actions := actions[agent := Blocking];
    }

    /** One poll of `drain`: the counters are read after every sandbox was seen idle. */
    method DrainPoll(agent: string, allIdle: bool) returns (done: bool)
      requires Valid() && agent in actions && actions[agent].Blocking?
      modifies this`actions, this`drained
      ensures Valid()
      ensures actions == if done then old(actions)[agent := Drained] else old(actions)
      ensures drained == if done then old(drained) + {agent} else old(drained)
      ensures done <==> allIdle && forall t | t in tasks && (agent == EVERYTHING || tasks[t].o.agent == agent) ::
                             !tasks[t].Arrived? && !tasks[t].Locked? && !tasks[t].Starting?
    {
      var attempts := if agent == EVERYTHING then (forall a | a in acquiring :: acquiring[a] == 0)
                      else Get(acquiring, agent) == 0;
      done := attempts && allIdle;
      if !attempts {
        ghost var a := agent;
        if agent == EVERYTHING { a :| a in acquiring && acquiring[a] != 0; }
        assert Get(acquiring, a) == Count(tasks, Attempts(a)) && Members(tasks, Attempts(a)) != {};
        ghost var t :| t in Members(tasks, Attempts(a));
      }
      if done {
        forall t | t in tasks && (agent == EVERYTHING || tasks[t].o.agent == agent)
          ensures !tasks[t].Arrived? && !tasks[t].Locked? && !tasks[t].Starting?
        {
          var a := tasks[t].o.agent;
          assert Get(acquiring, a) == Count(tasks, Attempts(a));
          CountZero(tasks, Attempts(a));
          assert !Is(tasks[t], Attempts(a));
        }
        actions := actions[agent := Drained];
        drained := drained + {agent};
      }
    }

    /** `remove_records` refuses a sandbox with an active request lease. */
    method CheckRecord(agent: string, o: Owner) returns (free: bool)
      requires Valid() && agent in actions && actions[agent].Drained? && o.agent == agent
      modifies this`actions
      ensures Valid() && free == (ActiveLeases(o) == 0)
      ensures actions == if free then old(actions)[agent := Removing(o)] else old(actions)
    {
      free := ActiveLeases(o) == 0;
      if free {
        LeasesOf(o);
        actions := actions[agent := Removing(o)];
      }
    }

    /** The container is removed, some awaits after the check. */
    method RemoveRecord(agent: string, o: Owner)
      requires Valid() && agent in actions && actions[agent] == Removing(o)
      modifies this`containers, this`actions
      ensures Valid() && containers == old(containers) - {o}
      ensures actions == old(actions)[agent := Drained]
      // Nobody is being served from it, and nobody can be about to.
      ensures forall t | t in tasks && tasks[t].o == o ::
                !tasks[t].Serving? && !tasks[t].Opening? && !tasks[t].Starting? && !tasks[t].Locked?
    {
      containers := containers - {o};
      actions := actions[agent := Drained];
    }

    /** The action returns or raises; the block stays, and with it what the drain achieved. */
    method EndAction(agent: string)
      requires Valid() && agent in actions
      modifies this`actions
      ensures Valid() && actions == old(actions) - {agent}
    {
      actions := actions - {agent};
    }

    /** "resume" and "restore", which wait for the agent's action lock. */
    method Unblock(agent: string)
      requires Valid() && agent !in actions
      modifies this`blocked, this`drained
      ensures Valid() && blocked == old(blocked) - {agent} && drained == old(drained) - {agent}
    {
      blocked, drained := blocked - {agent}, drained - {agent};
    }
  }
}
