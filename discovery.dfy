/**
 * The feature discovery of pkg/discovery/discovery.go: a `Features` record that
 * tracks whether the OpenTelemetry operator and its target allocator are
 * installed, refreshed by a watcher from the cluster's API resource lists.
 *
 * The outcome of listing the cluster's resources is an input: an error, or one
 * optional list of resource kinds per API group (`None` is a nil list). The
 * `onChange` callback is recorded as the sequence of pairs it was called with.
 */
module Discovery {
  import opened Wrappers

  const OperatorKind := "OpenTelemetryCollector"
  const TargetAllocatorKind := "TargetAllocator"

  /** Whether some (non-nil) resource list holds a resource of kind `kind`. */
  predicate HasKind(lists: seq<Option<seq<string>>>, kind: string) {
    exists i :: 0 <= i < |lists| && lists[i].Some? && kind in lists[i].value
  }

  /** The feature state: the two flags, readiness, and the pairs `onChange` was called with. */
  datatype State = State(hasOperator: bool, hasTA: bool, ready: bool, notified: seq<(bool, bool)>)

  /** The state of a fresh `Features`. */
  const Initial := State(false, false, false, [])

  /**
   * One `discover`: on error nothing changes; otherwise both flags are replaced
   * together and, when the pair differs and a callback is set, it is notified.
   */
  function Refresh(s: State, listed: Result<seq<Option<seq<string>>>>, hasCallback: bool): State {
    match listed
    case Err(_) => s
    case Ok(lists) =>
      var op := HasKind(lists, OperatorKind);
      var ta := HasKind(lists, TargetAllocatorKind);
      var changed := op != s.hasOperator || ta != s.hasTA;
      State(op, ta, s.ready, s.notified + if changed && hasCallback then [(op, ta)] else [])
  }

  /** `Start` up to its loop: the initial discovery, then readiness. */
  function Started(s: State, listed: Result<seq<Option<seq<string>>>>, hasCallback: bool): State {
    Refresh(s, listed, hasCallback).(ready := true)
  }

  /** The periodic re-checks of `Start`'s loop, one per tick, in order. */
  function Ticks(s: State, results: seq<Result<seq<Option<seq<string>>>>>, hasCallback: bool): State
    decreases |results|
  {
    if |results| == 0 then s else Refresh(Ticks(s, results[..|results| - 1], hasCallback), results[|results| - 1], hasCallback)
  }

  /**
   * The notification log is consistent with the flags: empty only while the pair
   * is still the initial one, its last entry is the current pair, and no entry
   * repeats the one before it.
   */
  predicate LogConsistent(s: State) {
    && (s.notified == [] ==> !s.hasOperator && !s.hasTA)
    && (s.notified != [] ==> s.notified[|s.notified| - 1] == (s.hasOperator, s.hasTA) && s.notified[0] != (false, false))
    && (forall i :: 0 < i < |s.notified| ==> s.notified[i] != s.notified[i - 1])
  }

  /** With a callback set, every refresh keeps the log consistent. */
  lemma RefreshKeepsLog(s: State, listed: Result<seq<Option<seq<string>>>>)
    requires LogConsistent(s)
    ensures LogConsistent(Refresh(s, listed, true))
  {
  }

  /** A failed refresh changes nothing, in particular calls nobody. */
  lemma FailedRefreshKeepsState(s: State, err: string, hasCallback: bool)
    ensures Refresh(s, Err(err), hasCallback) == s
  {
  }

  /** Readiness is never withdrawn, and the log of a run only grows. */
  lemma {:induction false} TicksKeepReady(s: State, results: seq<Result<seq<Option<seq<string>>>>>, hasCallback: bool)
    ensures Ticks(s, results, hasCallback).ready == s.ready
    ensures |Ticks(s, results, hasCallback).notified| >= |s.notified|
    ensures |Ticks(s, results, hasCallback).notified| <= |s.notified| + |results|
    decreases |results|
  {
    if |results| > 0 {
      TicksKeepReady(s, results[..|results| - 1], hasCallback);
    }
  }

  /** Any number of ticks, with a callback set, keeps the log consistent. */
  lemma {:induction false} TicksKeepLog(s: State, results: seq<Result<seq<Option<seq<string>>>>>)
    requires LogConsistent(s)
    ensures LogConsistent(Ticks(s, results, true))
    decreases |results|
  {
    if |results| > 0 {
      TicksKeepLog(s, results[..|results| - 1]);
      RefreshKeepsLog(Ticks(s, results[..|results| - 1], true), results[|results| - 1]);
    }
  }

  /** The (operator, target allocator) pair one successful listing shows. */
  function PairOf(lists: seq<Option<seq<string>>>): (bool, bool) {
    (HasKind(lists, OperatorKind), HasKind(lists, TargetAllocatorKind))
  }

  /** The pair shown by the last successful listing among `results`, or `start` when none succeeded. */
  function PairAfter(start: (bool, bool), results: seq<Result<seq<Option<seq<string>>>>>): (bool, bool)
    decreases |results|
  {
    if |results| == 0 then start
    else match results[|results| - 1]
      case Err(_) => PairAfter(start, results[..|results| - 1])
      case Ok(lists) => PairOf(lists)
  }

  /** The pairs of the successful listings that differ from the pair shown before them, in order. */
  function ChangedPairs(start: (bool, bool), results: seq<Result<seq<Option<seq<string>>>>>): seq<(bool, bool)>
    decreases |results|
  {
    if |results| == 0 then []
    else
      var init := results[..|results| - 1];
      var before := ChangedPairs(start, init);
      match results[|results| - 1]
      case Err(_) => before
      case Ok(lists) => before + if PairOf(lists) != PairAfter(start, init) then [PairOf(lists)] else []
  }

  /**
   * Over any run of ticks the flags are those of the last successful listing,
   * and with a callback set it is called exactly once per change of the pair,
   * with the new pair; without one, nobody is called.
   */
  lemma {:induction false} TicksNotifyChanges(s: State, results: seq<Result<seq<Option<seq<string>>>>>)
    ensures var e := Ticks(s, results, true); (e.hasOperator, e.hasTA) == PairAfter((s.hasOperator, s.hasTA), results)
    ensures Ticks(s, results, true).notified == s.notified + ChangedPairs((s.hasOperator, s.hasTA), results)
    ensures Ticks(s, results, false).notified == s.notified
    decreases |results|
  {
    if |results| > 0 {
      var init := results[..|results| - 1];
      TicksNotifyChanges(s, init);
    }
  }

  /** The initial start yields a ready state with a consistent log, whether or not discovery failed. */
  lemma StartIsReady(listed: Result<seq<Option<seq<string>>>>)
    ensures Started(Initial, listed, true).ready
    ensures LogConsistent(Started(Initial, listed, true))
  {
    RefreshKeepsLog(Initial, listed);
  }

  /** `Features`, with `onChange` reduced to whether it is set and the calls it has received. */
  class Features {
    var hasOperator: bool
    var hasTA: bool
    var ready: bool
    const hasCallback: bool
    var notified: seq<(bool, bool)>

    /** The record a new watcher starts with. */
    constructor (hasCallback: bool)
      ensures Snapshot() == Initial && this.hasCallback == hasCallback
    {
      hasOperator, hasTA, ready, notified := false, false, false, [];
      this.hasCallback := hasCallback;
    }

    /** The fields as a `State`. */
    function Snapshot(): State
      reads this
    {
      State(hasOperator, hasTA, ready, notified)
    }

    /** `IsReady`. */
    function IsReady(): (r: bool)
      reads this
      ensures r == Snapshot().ready
    {
      ready
    }

    /** `Get`: the current (operator, target allocator) pair. */
    function Get(): (r: (bool, bool))
      reads this
      ensures r == (Snapshot().hasOperator, Snapshot().hasTA)
    {
      (hasOperator, hasTA)
    }

    /** `discover`, given the outcome of listing the cluster's resources. */
    method Discover(listed: Result<seq<Option<seq<string>>>>)
      modifies this
      ensures Snapshot() == Refresh(old(Snapshot()), listed, hasCallback)
    {
      var prev := Get();
      if listed.Err? {
        return;
      }
      var op, ta := ScanKinds(listed.value);
      hasOperator, hasTA := op, ta;
      if op != prev.0 || ta != prev.1 {
        if hasCallback {
          notified := notified + [(op, ta)];
        }
      }
    }

    /** `Start` up to its loop: the initial discovery, then readiness, even when discovery failed. */
    method Start(listed: Result<seq<Option<seq<string>>>>)
      modifies this
      ensures Snapshot() == Started(old(Snapshot()), listed, hasCallback)
      ensures IsReady()
    {
      Discover(listed);
      ready := true;
    }
  }

  /** The loops of `discover` over the resource lists, skipping nil lists. */
  method ScanKinds(lists: seq<Option<seq<string>>>) returns (op: bool, ta: bool)
    ensures op == HasKind(lists, OperatorKind)
    ensures ta == HasKind(lists, TargetAllocatorKind)
  {
    op, ta := false, false;
    for i := 0 to |lists|
      invariant op == HasKind(lists[..i], OperatorKind)
      invariant ta == HasKind(lists[..i], TargetAllocatorKind)
    {
      if lists[i].None? {
        assert forall k :: HasKind(lists[..i + 1], k) == HasKind(lists[..i], k) by {
          forall k ensures HasKind(lists[..i + 1], k) == HasKind(lists[..i], k) {
            assert forall j :: 0 <= j < i ==> lists[..i + 1][j] == lists[..i][j];
          }
        }
        continue;
      }
      var kinds := lists[i].value;
      for j := 0 to |kinds|
        invariant op == (HasKind(lists[..i], OperatorKind) || OperatorKind in kinds[..j])
        invariant ta == (HasKind(lists[..i], TargetAllocatorKind) || TargetAllocatorKind in kinds[..j])
      {
        assert kinds[..j + 1] == kinds[..j] + [kinds[j]];
        if kinds[j] == OperatorKind {
          op := true;
        }
        if kinds[j] == TargetAllocatorKind {
          ta := true;
        }
      }
      assert kinds[..|kinds|] == kinds;
      HasKindSnoc(lists[..i + 1], OperatorKind);
      HasKindSnoc(lists[..i + 1], TargetAllocatorKind);
      assert lists[..i + 1][..i] == lists[..i];
    }
    assert lists[..|lists|] == lists;
  }

  /** A kind occurs in a list of lists exactly when it occurs in the earlier lists or the last one. */
  lemma HasKindSnoc(lists: seq<Option<seq<string>>>, kind: string)
    requires |lists| > 0
    ensures HasKind(lists, kind) <==>
              HasKind(lists[..|lists| - 1], kind) || (lists[|lists| - 1].Some? && kind in lists[|lists| - 1].value)
  {
    var init := lists[..|lists| - 1];
    if HasKind(lists, kind) {
      var i :| 0 <= i < |lists| && lists[i].Some? && kind in lists[i].value;
      if i < |lists| - 1 {
        assert init[i] == lists[i];
      }
    }
    if HasKind(init, kind) {
      var i :| 0 <= i < |init| && init[i].Some? && kind in init[i].value;
      assert lists[i] == init[i];
    }
  }
}
