/**
 * The per-pod worker pool: a set of pod full names whose worker is busy.
 * A dispatch for a busy pod is dropped; a worker removes its pod from the
 * set only when its action returns normally.
 */
module PodWorkerPool {
  import opened Wrappers

  /** How a worker's action ended; a panic is recovered by the crash handler. */
  datatype Outcome = Returned | Panicked

  /**
   * The pool as the lock protects it (`busy`) together with the actions
   * currently executing (`running`), which the source keeps only implicitly
   * as live goroutines.
   */
  datatype Pool = Pool(busy: set<string>, running: multiset<string>)

  /** At most one action per pod, and every running action's pod is marked busy. */
  predicate Exclusive(p: Pool) {
    && (forall k | k in p.running :: p.running[k] == 1)
    && (forall k :: k in p.running ==> k in p.busy)
  }

  /** podWorkers.Run: the result's flag says whether an action was started. */
  function RunStep(p: Pool, key: string): (r: (Pool, bool))
    ensures r.1 <==> key !in p.busy
    ensures r.0.busy == p.busy + {key}
    ensures !r.1 ==> r.0 == p
    ensures r.1 ==> r.0.running == p.running + multiset{key}
    ensures Exclusive(p) ==> Exclusive(r.0)
  {
    if key in p.busy then (p, false)
    else (Pool(p.busy + {key}, p.running + multiset{key}), true)
  }

  /** The end of a worker's goroutine: the pod leaves the busy set only after a normal return. */
  function FinishStep(p: Pool, key: string, outcome: Outcome): (r: Pool)
    requires key in p.running
    ensures r.running == p.running - multiset{key}
    ensures outcome == Returned ==> r.busy == p.busy - {key}
    ensures outcome == Panicked ==> r.busy == p.busy
    ensures Exclusive(p) ==> Exclusive(r)
  {
    var running := p.running - multiset{key};
    if outcome == Returned then Pool(p.busy - {key}, running) else Pool(p.busy, running)
  }

  datatype Event = Start(key: string) | End(key: string, outcome: Outcome)

  /** One event applied to the pool; None when an End has no running action. */
  function Apply(pool: Option<Pool>, e: Event): Option<Pool> {
    match pool
    case None => None
    case Some(p) =>
      match e
      case Start(k) => Some(RunStep(p, k).0)
      case End(k, o) => if k in p.running then Some(FinishStep(p, k, o)) else None
  }

  /** The pool after a history of dispatches and worker ends, starting from an empty pool. */
  function Replay(events: seq<Event>): Option<Pool>
    decreases |events|
  {
    if events == [] then Some(Pool({}, multiset{}))
    else Apply(Replay(events[..|events| - 1]), events[|events| - 1])
  }

  lemma ReplaySnoc(events: seq<Event>, e: Event)
    ensures Replay(events + [e]) == Apply(Replay(events), e)
  {
    assert (events + [e])[..|events|] == events;
  }

  /** Mutual exclusion: no history ever has two actions running for one pod. */
  lemma {:induction false} ReplayExclusive(events: seq<Event>)
    ensures Replay(events).Some? ==> Exclusive(Replay(events).value)
    decreases |events|
  {
    if events != [] {
      ReplayExclusive(events[..|events| - 1]);
    }
  }

  /** An event that replays leaves a pod that is busy with nothing running in that state. */
  lemma ApplyKeepsStuck(pool: Pool, key: string, e: Event)
    requires key in pool.busy && key !in pool.running
    requires Apply(Some(pool), e).Some?
    ensures key in Apply(Some(pool), e).value.busy && key !in Apply(Some(pool), e).value.running
  {
    match e {
      case Start(k) =>
        assert !RunStep(pool, k).1 || k != key;
      case End(k, o) =>
        assert k in pool.running;
    }
  }

  /**
   * Every prefix of a history that replays also replays, and a pod that is
   * busy with nothing running after the prefix stays so through the rest.
   */
  lemma {:induction false} StuckStaysStuck(prefix: seq<Event>, key: string, after: seq<Event>)
    requires Replay(prefix + after).Some?
    ensures Replay(prefix).Some?
    ensures key in Replay(prefix).value.busy && key !in Replay(prefix).value.running ==>
      key in Replay(prefix + after).value.busy && key !in Replay(prefix + after).value.running
    decreases |after|
  {
    if after == [] {
      assert prefix + after == prefix;
    } else {
      var n := |after| - 1;
      var shorter := prefix + after[..n];
      assert prefix + after == shorter + [after[n]];
      ReplaySnoc(shorter, after[n]);
      assert Replay(shorter).Some?;
      StuckStaysStuck(prefix, key, after[..n]);
      if key in Replay(prefix).value.busy && key !in Replay(prefix).value.running {
        ApplyKeepsStuck(Replay(shorter).value, key, after[n]);
      }
    }
  }

  /**
   * A panicking action leaves its pod busy for good: whatever follows, the
   * pod stays in the busy set with no action running for it.
   */
  lemma PanicLeavesPodBusy(before: seq<Event>, key: string, after: seq<Event>)
    requires Replay(before + [End(key, Panicked)] + after).Some?
    ensures key in Replay(before + [End(key, Panicked)] + after).value.busy
    ensures key !in Replay(before + [End(key, Panicked)] + after).value.running
  {
    var e := End(key, Panicked);
    var prefix := before + [e];
    assert before + [End(key, Panicked)] + after == prefix + after;
    StuckStaysStuck(prefix, key, after);
    assert before + [e] == prefix + [];
    StuckStaysStuck(before, key, [e]);
    ReplaySnoc(before, e);
    var p := Replay(before).value;
    ReplayExclusive(before);
    assert key in p.running && Replay(prefix) == Some(FinishStep(p, key, Panicked));
    assert p.running[key] == 1;
  }

  /** Hence every later dispatch for that pod is dropped. */
  lemma DispatchAfterPanicDropped(before: seq<Event>, key: string, after: seq<Event>)
    requires Replay(before + [End(key, Panicked)] + after).Some?
    ensures !RunStep(Replay(before + [End(key, Panicked)] + after).value, key).1
  {
    PanicLeavesPodBusy(before, key, after);
  }

  /** The pool object: `workers` is the lock-protected set of the source. */
  class PodWorkers {
    var workers: set<string>
    ghost var running: multiset<string>

    ghost function State(): Pool
      reads this
    {
      Pool(workers, running)
    }

    ghost predicate Valid()
      reads this
    {
      Exclusive(State())
    }

    constructor ()
      ensures State() == Pool({}, multiset{})
      ensures Valid()
    {
      workers := {};
      running := multiset{};
    }

    /** Run: start a worker for `podFullName` unless one is already busy. */
    method Run(podFullName: string) returns (dispatched: bool)
      requires Valid()
      modifies this
      ensures Valid()
      ensures (State(), dispatched) == RunStep(old(State()), podFullName)
    {
      if podFullName in workers {
        return false;
      }
      workers := workers + {podFullName};
      running := running + multiset{podFullName};
      dispatched := true;
    }

    /** The worker's last steps: the pod is deleted from the set only after a normal return. */
    method Finish(podFullName: string, outcome: Outcome)
      requires Valid()
      requires podFullName in running
      modifies this
      ensures Valid()
      ensures State() == FinishStep(old(State()), podFullName, outcome)
    {
      running := running - multiset{podFullName};
      if outcome == Returned {
        workers := workers - {podFullName};
      }
    }
  }
}
