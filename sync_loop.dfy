/**
 * The kubelet's main loop: host-port conflict filtering of a new desired
 * pod list, and the reaction of the loop to each update or resync timeout.
 */
module SyncLoop {
  import opened Wrappers
  import opened KubeTypes

  // ------------------------------------------------------------ filterHostPortConflicts

  /**
   * What validation.AccumulateUniquePorts reports for a pod's containers
   * given the host ports claimed so far: whether it found a conflict, and the
   * claimed set it leaves behind (it updates the shared set in place).
   */
  datatype PortCheck = PortCheck(conflict: bool, claimed: set<int>)

  type PortAccumulator = (seq<Container>, set<int>) -> PortCheck

  /** The filter's state after a prefix of the pods: the pods kept and the host ports claimed. */
  datatype Filtering = Filtering(kept: seq<Pod>, claimed: set<int>)

  function FilterFold(accumulate: PortAccumulator, pods: seq<Pod>): Filtering
    decreases |pods|
  {
    if pods == [] then Filtering([], {})
    else
      var prev := FilterFold(accumulate, pods[..|pods| - 1]);
      var pod := pods[|pods| - 1];
      var check := accumulate(pod.manifest.containers, prev.claimed);
      Filtering(prev.kept + (if check.conflict then [] else [pod]), check.claimed)
  }

  /** The pods filterHostPortConflicts keeps. */
  function FilteredPods(accumulate: PortAccumulator, pods: seq<Pod>): seq<Pod> {
    FilterFold(accumulate, pods).kept
  }

  /** Whether the accumulator reports a conflict for pods[i], given the ports claimed before it. */
  predicate ConflictAt(accumulate: PortAccumulator, pods: seq<Pod>, i: int)
    requires 0 <= i < |pods|
  {
    accumulate(pods[i].manifest.containers, FilterFold(accumulate, pods[..i]).claimed).conflict
  }

  /** filterHostPortConflicts. */
  method FilterHostPortConflicts(pods: seq<Pod>, accumulate: PortAccumulator) returns (filtered: seq<Pod>)
    ensures filtered == FilteredPods(accumulate, pods)
  {
    filtered := [];
    var ports: set<int> := {};
    var i := 0;
    while i < |pods|
      invariant 0 <= i <= |pods|
      invariant Filtering(filtered, ports) == FilterFold(accumulate, pods[..i])
    {
      assert pods[..i + 1][..i] == pods[..i];
      var pod := pods[i];
      var errs := accumulate(pod.manifest.containers, ports);
      ports := errs.claimed;
      if errs.conflict {
        i := i + 1;
        continue;
      }
      filtered := filtered + [pod];
      i := i + 1;
    }
    assert pods[..i] == pods;
  }

  /** Whether a pod conflicts does not depend on the pods after it. */
  lemma ConflictAtPrefix(accumulate: PortAccumulator, pods: seq<Pod>, n: int, i: int)
    requires 0 <= i < n <= |pods|
    ensures ConflictAt(accumulate, pods[..n], i) == ConflictAt(accumulate, pods, i)
  {
    assert pods[..n][..i] == pods[..i];
    assert pods[..n][i] == pods[i];
  }

  /** One more pod: it is kept exactly when it does not conflict. */
  lemma FilteredSnoc(accumulate: PortAccumulator, pods: seq<Pod>)
    requires pods != []
    ensures var n := |pods| - 1;
      FilteredPods(accumulate, pods) ==
        FilteredPods(accumulate, pods[..n]) + (if ConflictAt(accumulate, pods, n) then [] else [pods[n]])
  {
  }

  /**
   * The kept pods are an order-preserving subsequence of the input: `idx`
   * lists their positions, increasing, and a position is listed exactly when
   * the accumulator reported no conflict for that pod.
   */
  lemma {:induction false} FilterKeepsUnconflicted(accumulate: PortAccumulator, pods: seq<Pod>) returns (idx: seq<int>)
    ensures var kept := FilteredPods(accumulate, pods);
      && |idx| == |kept|
      && (forall k :: 0 <= k < |idx| ==> 0 <= idx[k] < |pods| && kept[k] == pods[idx[k]])
      && (forall k, l :: 0 <= k < l < |idx| ==> idx[k] < idx[l])
      && (forall i :: 0 <= i < |pods| ==> (i in idx <==> !ConflictAt(accumulate, pods, i)))
    decreases |pods|
  {
    if pods == [] {
      idx := [];
    } else {
      var n := |pods| - 1;
      var prefix := pods[..n];
      var prev := FilterKeepsUnconflicted(accumulate, prefix);
      FilteredSnoc(accumulate, pods);
      var conflict := ConflictAt(accumulate, pods, n);
      idx := if conflict then prev else prev + [n];
      var kept := FilteredPods(accumulate, pods);
      var before := FilteredPods(accumulate, prefix);
      assert kept == before + (if conflict then [] else [pods[n]]);
      forall k | 0 <= k < |idx| ensures 0 <= idx[k] < |pods| && kept[k] == pods[idx[k]] {
        if k < |prev| {
          assert idx[k] == prev[k] && kept[k] == before[k] && prefix[prev[k]] == pods[prev[k]];
        }
      }
      forall i | 0 <= i < |pods| ensures i in idx <==> !ConflictAt(accumulate, pods, i) {
        if i < n {
          ConflictAtPrefix(accumulate, pods, n, i);
          assert i in idx <==> i in prev;
        } else {
          assert n !in prev;
        }
      }
    }
  }

  /** A conflict anywhere costs the list at least one pod; without any, the list passes unchanged. */
  lemma {:induction false} FilterDropsConflicts(accumulate: PortAccumulator, pods: seq<Pod>)
    ensures |FilteredPods(accumulate, pods)| <= |pods|
    ensures (forall i :: 0 <= i < |pods| ==> !ConflictAt(accumulate, pods, i)) ==> FilteredPods(accumulate, pods) == pods
    ensures (exists i :: 0 <= i < |pods| && ConflictAt(accumulate, pods, i)) ==> |FilteredPods(accumulate, pods)| < |pods|
    decreases |pods|
  {
    if pods != [] {
      var n := |pods| - 1;
      var prefix := pods[..n];
      FilterDropsConflicts(accumulate, prefix);
      FilteredSnoc(accumulate, pods);
      if exists i :: 0 <= i < |pods| && ConflictAt(accumulate, pods, i) {
        var i :| 0 <= i < |pods| && ConflictAt(accumulate, pods, i);
        if i < n {
          ConflictAtPrefix(accumulate, pods, n, i);
        }
      }
      if forall i :: 0 <= i < |pods| ==> !ConflictAt(accumulate, pods, i) {
        forall i | 0 <= i < n ensures !ConflictAt(accumulate, prefix, i) {
          ConflictAtPrefix(accumulate, pods, n, i);
        }
        assert prefix + [pods[n]] == pods;
      }
    }
  }

  /** The list passes unchanged exactly when no pod conflicts. */
  lemma NoConflictKeepsAll(accumulate: PortAccumulator, pods: seq<Pod>)
    ensures FilteredPods(accumulate, pods) == pods <==> forall i :: 0 <= i < |pods| ==> !ConflictAt(accumulate, pods, i)
  {
    FilterDropsConflicts(accumulate, pods);
  }

  // ------------------------------------------------------------ one step of syncLoop

  /** The operation of a pod update; any tag other than SET and UPDATE is `Other`. */
  datatype Op = Set | Update | Other

  /** What wakes the loop: an update from the channel, or the resync timer. */
  datatype Trigger = Received(op: Op, pods: seq<Pod>) | Timeout

  /** What the loop does after the trigger: sync these pods, go back to waiting, or panic. */
  datatype Action = Sync(pods: seq<Pod>) | Wait | Panic(message: string)

  /**
   * One turn of syncLoop, from the current desired list (None before any
   * SET, like the source's nil slice) to the new list and the action.
   */
  method SyncLoopStep(pods: Option<seq<Pod>>, trigger: Trigger, accumulate: PortAccumulator)
    returns (next: Option<seq<Pod>>, action: Action)
    ensures trigger.Received? && trigger.op == Set ==>
      next == Some(FilteredPods(accumulate, trigger.pods)) && action == Sync(next.value)
    ensures trigger.Received? && trigger.op == Update ==> next == pods && action == Wait
    ensures trigger.Received? && trigger.op == Other ==> next == pods && action.Panic?
    ensures trigger.Timeout? ==> next == pods && (action == if pods.Some? then Sync(pods.value) else Wait)
  {
    next := pods;
    match trigger {
      case Received(op, update) =>
        match op {
          case Set =>
            var filtered := FilterHostPortConflicts(update, accumulate);
            next := Some(filtered);
          case Update =>
            return next, Wait;
          case Other =>
            return next, Panic("syncLoop does not support incremental changes");
        }
      case Timeout =>
        if pods.None? {
          return next, Wait;
        }
    }
    action := Sync(next.value);
  }

  /** The loop over a finite run of triggers: the desired list, the lists synced, and whether it panicked. */
  datatype LoopState = LoopState(pods: Option<seq<Pod>>, synced: seq<seq<Pod>>, panicked: bool)

  function StepSpec(accumulate: PortAccumulator, s: LoopState, t: Trigger): LoopState {
    if s.panicked then s
    else
      match t
      case Received(Set, update) =>
        var filtered := FilteredPods(accumulate, update);
        LoopState(Some(filtered), s.synced + [filtered], false)
      case Received(Update, _) => s
      case Received(Other, _) => LoopState(s.pods, s.synced, true)
      case Timeout => if s.pods.Some? then LoopState(s.pods, s.synced + [s.pods.value], false) else s
  }

  function RunSpec(accumulate: PortAccumulator, triggers: seq<Trigger>): LoopState
    decreases |triggers|
  {
    if triggers == [] then LoopState(None, [], false)
    else StepSpec(accumulate, RunSpec(accumulate, triggers[..|triggers| - 1]), triggers[|triggers| - 1])
  }

  /** syncLoop fed a finite run of triggers; it stops where the source would panic. */
  method SyncLoopRun(triggers: seq<Trigger>, accumulate: PortAccumulator)
    returns (pods: Option<seq<Pod>>, synced: seq<seq<Pod>>, panicked: bool)
    ensures LoopState(pods, synced, panicked) == RunSpec(accumulate, triggers)
  {
    pods, synced, panicked := None, [], false;
    var i := 0;
    while i < |triggers| && !panicked
      invariant 0 <= i <= |triggers|
      invariant LoopState(pods, synced, panicked) == RunSpec(accumulate, triggers[..i])
      invariant panicked ==> LoopState(pods, synced, panicked) == RunSpec(accumulate, triggers)
    {
      assert triggers[..i + 1][..i] == triggers[..i];
      var action;
      pods, action := SyncLoopStep(pods, triggers[i], accumulate);
      match action {
        case Sync(list) => synced := synced + [list];
        case Wait =>
        case Panic(_) =>
          panicked := true;
          PanicStops(accumulate, triggers[..i + 1], triggers[i + 1..]);
          assert triggers[..i + 1] + triggers[i + 1..] == triggers;
      }
      i := i + 1;
    }
    if !panicked {
      assert triggers[..i] == triggers;
    }
  }

  /** After a panic nothing more happens. */
  lemma {:induction false} PanicStops(accumulate: PortAccumulator, before: seq<Trigger>, after: seq<Trigger>)
    requires RunSpec(accumulate, before).panicked
    ensures RunSpec(accumulate, before + after) == RunSpec(accumulate, before)
    decreases |after|
  {
    if after != [] {
      var n := |after| - 1;
      var all := before + after;
      assert all[..|all| - 1] == before + after[..n];
      PanicStops(accumulate, before, after[..n]);
      assert RunSpec(accumulate, all) == StepSpec(accumulate, RunSpec(accumulate, before + after[..n]), all[|all| - 1]);
    } else {
      assert before + after == before;
    }
  }

  /** The payload of the last SET among the triggers. */
  function LastSet(triggers: seq<Trigger>): Option<seq<Pod>>
    decreases |triggers|
  {
    if triggers == [] then None
    else
      var t := triggers[|triggers| - 1];
      if t.Received? && t.op == Set then Some(t.pods) else LastSet(triggers[..|triggers| - 1])
  }

  /**
   * Until the loop panics, its desired list is the filtered payload of the
   * last SET (none before the first SET), and no sync happens before the
   * first SET.
   */
  lemma {:induction false} LoopFollowsLastSet(accumulate: PortAccumulator, triggers: seq<Trigger>)
    ensures var s := RunSpec(accumulate, triggers);
      !s.panicked ==>
        && s.pods == (if LastSet(triggers).Some? then Some(FilteredPods(accumulate, LastSet(triggers).value)) else None)
        && (LastSet(triggers).None? ==> s.synced == [])
    decreases |triggers|
  {
    if triggers != [] {
      var n := |triggers| - 1;
      LoopFollowsLastSet(accumulate, triggers[..n]);
      var s := RunSpec(accumulate, triggers[..n]);
      if s.panicked {
        PanicStops(accumulate, triggers[..n], [triggers[n]]);
        assert triggers[..n] + [triggers[n]] == triggers;
      }
    }
  }

  /** Trigger k is a SET. */
  predicate SetAt(triggers: seq<Trigger>, k: int) {
    0 <= k < |triggers| && triggers[k].Received? && triggers[k].op == Set
  }

  /** The last SET's payload is the payload of one of the triggers. */
  lemma {:induction false} LastSetIsSent(triggers: seq<Trigger>)
    requires LastSet(triggers).Some?
    ensures exists k :: SetAt(triggers, k) && triggers[k].pods == LastSet(triggers).value
    decreases |triggers|
  {
    var n := |triggers| - 1;
    if triggers[n].Received? && triggers[n].op == Set {
      assert SetAt(triggers, n);
    } else {
      LastSetIsSent(triggers[..n]);
      var k :| SetAt(triggers[..n], k) && triggers[..n][k].pods == LastSet(triggers[..n]).value;
      assert SetAt(triggers, k);
    }
  }

  /** `list` is the filtered payload of a SET among the triggers. */
  ghost predicate FromSomeSet(accumulate: PortAccumulator, triggers: seq<Trigger>, list: seq<Pod>) {
    exists k :: SetAt(triggers, k) && list == FilteredPods(accumulate, triggers[k].pods)
  }

  /** More triggers keep a SET that was already sent. */
  lemma FromSomeSetGrows(accumulate: PortAccumulator, triggers: seq<Trigger>, n: nat, list: seq<Pod>)
    requires n <= |triggers|
    requires FromSomeSet(accumulate, triggers[..n], list)
    ensures FromSomeSet(accumulate, triggers, list)
  {
    var k :| SetAt(triggers[..n], k) && list == FilteredPods(accumulate, triggers[..n][k].pods);
    assert SetAt(triggers, k) && triggers[..n][k] == triggers[k];
  }

  /**
   * Every list the loop synced, on a SET or on a timeout, is the filtered
   * payload of a SET among the triggers.
   */
  lemma {:induction false} LoopSyncsOnlySetPayloads(accumulate: PortAccumulator, triggers: seq<Trigger>)
    ensures forall list :: list in RunSpec(accumulate, triggers).synced ==> FromSomeSet(accumulate, triggers, list)
    decreases |triggers|
  {
    if triggers != [] {
      var n := |triggers| - 1;
      var prefix := triggers[..n];
      LoopSyncsOnlySetPayloads(accumulate, prefix);
      var before := RunSpec(accumulate, prefix);
      var after := RunSpec(accumulate, triggers);
      assert after == StepSpec(accumulate, before, triggers[n]);
      forall list | list in after.synced ensures FromSomeSet(accumulate, triggers, list) {
        if list in before.synced {
          FromSomeSetGrows(accumulate, triggers, n, list);
        } else if triggers[n].Timeout? {
          LoopFollowsLastSet(accumulate, prefix);
          LastSetIsSent(prefix);
          var k :| SetAt(prefix, k) && prefix[k].pods == LastSet(prefix).value;
          assert SetAt(triggers, k) && prefix[k] == triggers[k];
        } else {
          assert SetAt(triggers, n);
        }
      }
    }
  }

  /** A resync after a SET syncs the filtered payload of that SET again. */
  lemma ResyncRepeatsLastSet(accumulate: PortAccumulator, triggers: seq<Trigger>)
    requires LastSet(triggers).Some?
    requires !RunSpec(accumulate, triggers).panicked
    ensures var s := RunSpec(accumulate, triggers + [Timeout]);
      |s.synced| > 0 && s.synced[|s.synced| - 1] == FilteredPods(accumulate, LastSet(triggers).value)
  {
    LoopFollowsLastSet(accumulate, triggers);
    assert (triggers + [Timeout])[..|triggers|] == triggers;
  }
}
