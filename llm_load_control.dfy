/**
 * The admission gate for external model calls: a sliding 60-second window
 * per stage and one global window, per-stage counters of refused calls, and
 * a sampling pre-filter for behaviour-stage calls.
 *
 * The clock reading is the parameter `now`; the lock that makes `Allow` and
 * `Snapshot` atomic is not modelled, the methods run one at a time.
 */
module LoadControl {
  import opened Wrappers

  const WindowSeconds: real := 60.0

  /** The three stages that may ask for a call. */
  datatype Stage = Reply | Behavior | Extraction

  /** The stage a name denotes, if any. */
  function StageOf(name: string): (s: Option<Stage>)
    ensures s == Some(Reply) <==> name == "reply"
    ensures s == Some(Behavior) <==> name == "behavior"
    ensures s == Some(Extraction) <==> name == "extraction"
  {
    if name == "reply" then Some(Reply)
    else if name == "behavior" then Some(Behavior)
    else if name == "extraction" then Some(Extraction)
    else None
  }

  /** `max(1, int(x))`: a configured limit below 1 becomes 1. */
  function AtLeastOne(x: int): (r: nat)
    ensures r >= 1 && r >= x
    ensures r == 1 || r == x
    ensures x >= 1 ==> r == x
  {
    if x < 1 then 1 else x
  }

  /** The queue left after dropping, from the front, the entries older than `now - 60`. */
  function Pruned(q: seq<real>, now: real): (r: seq<real>)
    ensures |r| <= |q|
    ensures forall i :: 0 <= i < |q| - |r| ==> q[i] < now - WindowSeconds
    ensures r != [] ==> r[0] >= now - WindowSeconds
    decreases |q|
  {
    if q != [] && q[0] < now - WindowSeconds then Pruned(q[1..], now) else q
  }

  /** Pruning removes a prefix only: what remains is the queue's tail, in order and unchanged. */
  lemma {:induction false} PrunedIsSuffix(q: seq<real>, now: real)
    ensures Pruned(q, now) == q[|q| - |Pruned(q, now)|..]
    decreases |q|
  {
    if q != [] && q[0] < now - WindowSeconds {
      PrunedIsSuffix(q[1..], now);
      assert q[1..][|q| - 1 - |Pruned(q, now)|..] == q[|q| - |Pruned(q, now)|..];
    }
  }

  /** The in-place pruning loop, on the queue's value. */
  method Prune(queue: seq<real>, now: real) returns (kept: seq<real>)
    ensures kept == Pruned(queue, now)
  {
    var cutoff := now - WindowSeconds;
    kept := queue;
    while kept != [] && kept[0] < cutoff
      invariant Pruned(kept, now) == Pruned(queue, now)
      decreases |kept|
    {
      kept := kept[1..];
    }
  }

  /** Pruning twice is pruning once. */
  lemma {:induction false} PrunedIdempotent(q: seq<real>, now: real)
    ensures Pruned(Pruned(q, now), now) == Pruned(q, now)
    decreases |q|
  {
    if q != [] && q[0] < now - WindowSeconds {
      PrunedIdempotent(q[1..], now);
    }
  }

  /** A queue whose entries are all within the window loses nothing. */
  lemma PrunedKeepsRecent(q: seq<real>, now: real)
    requires forall i :: 0 <= i < |q| ==> q[i] >= now - WindowSeconds
    ensures Pruned(q, now) == q
  {
  }

  /** A later clock never leaves more entries in the window, whatever the order of the queue. */
  lemma {:induction false} PrunedLater(q: seq<real>, now: real, later: real)
    requires now <= later
    ensures |Pruned(q, later)| <= |Pruned(q, now)|
    decreases |q|
  {
    if q != [] && q[0] < now - WindowSeconds {
      PrunedLater(q[1..], now, later);
    } else if q != [] && q[0] < later - WindowSeconds {
      assert Pruned(q, later) == Pruned(q[1..], later);
    }
  }

  /** The behaviour-stage sampling rule for the 1-based index of the scammer's message. */
  function SamplingAllows(n: int, index: int): (r: bool)
    ensures n <= 1 || index <= 1 ==> r
    ensures 1 < index <= n ==> !r
  {
    if n <= 1 then true
    else if index <= 1 then true
    else
      assert index <= n ==> (index - 1) % n == index - 1 by {
        if index <= n { ModUnique(index - 1, n, 0, index - 1); }
      }
      (index - 1) % n == 0
  }

  /** Euclidean division is unique: a remainder in range is the remainder. */
  lemma ModUnique(x: int, n: int, q: int, r: int)
    requires n > 0 && 0 <= r < n && x == q * n + r
    ensures x % n == r
  {
    var d := q - x / n;
    assert d * n == x % n - r;
  }

  /** From the first message on, sampling passes exactly the indices one more than a multiple of `n`. */
  lemma SamplingStride(n: int, index: int)
    requires n >= 1 && index >= 1
    ensures SamplingAllows(n, index) <==> (index - 1) % n == 0
  {
    if n == 1 {
      ModUnique(index - 1, 1, index - 1, 0);
    } else if index == 1 {
      ModUnique(0, n, 0, 0);
    }
  }

  /** Every `n`-th message from the first passes. */
  lemma SamplingEveryNth(n: int, k: nat)
    requires n >= 1
    ensures SamplingAllows(n, 1 + k * n)
  {
    if n > 1 {
      ModUnique(k * n, n, k, 0);
    }
  }

  /** Among `n` consecutive messages from any point one passes: sampling never starves the stage. */
  lemma SamplingNoStarvation(n: int, i: int)
    requires n >= 1 && i >= 1
    ensures var j := i + (n - (i - 1) % n) % n; i <= j < i + n && SamplingAllows(n, j)
  {
    var r := (i - 1) % n;
    var q := (i - 1) / n;
    if r == 0 {
      ModUnique(n, n, 1, 0);
    } else {
      ModUnique(n - r, n, 0, n - r);
      ModUnique(i - 1 + n - r, n, q + 1, 0);
    }
  }

  /** With N = 3, of the messages 1 to 7 exactly 1, 4 and 7 pass. */
  lemma SamplingExampleThree()
    ensures SamplingAllows(3, 1) && SamplingAllows(3, 4) && SamplingAllows(3, 7)
    ensures !SamplingAllows(3, 2) && !SamplingAllows(3, 3) && !SamplingAllows(3, 5) && !SamplingAllows(3, 6)
  {
  }

  /** Every stage has an entry. */
  predicate Total<V>(m: map<Stage, V>) {
    Reply in m && Behavior in m && Extraction in m
  }

  /** The gate's diagnostic view. */
  datatype GateSnapshot = GateSnapshot(
    enabled: bool,
    globalLimit: nat,
    stageLimits: map<Stage, nat>,
    globalInWindow: nat,
    stageInWindow: map<Stage, nat>,
    droppedCalls: map<Stage, nat>)

  class CallGate {
    const enabled: bool
    const globalLimit: nat
    const stageLimits: map<Stage, nat>
    const sampleEvery: nat

    /** Admission times of the calls in the window, oldest first. */
    var globalCalls: seq<real>
    var stageCalls: map<Stage, seq<real>>
    /** Refused calls per stage, since construction. */
    var dropped: map<Stage, nat>

    /** The gate's invariant: limits of at least 1, and no queue beyond its limit. */
    ghost predicate Valid()
      reads this
    {
      && globalLimit >= 1 && sampleEvery >= 1
      && Total(stageLimits) && Total(stageCalls) && Total(dropped)
      && stageLimits[Reply] >= 1 && stageLimits[Behavior] >= 1 && stageLimits[Extraction] >= 1
      && |globalCalls| <= globalLimit
      && |stageCalls[Reply]| <= stageLimits[Reply]
      && |stageCalls[Behavior]| <= stageLimits[Behavior]
      && |stageCalls[Extraction]| <= stageLimits[Extraction]
      && (!enabled ==> globalCalls == [] && stageCalls[Reply] == [] && stageCalls[Behavior] == []
                       && stageCalls[Extraction] == [])
      && (!enabled ==> dropped[Reply] == 0 && dropped[Behavior] == 0 && dropped[Extraction] == 0)
    }

    constructor (
      enabled: bool, globalRpmLimit: int, replyRpmLimit: int, behaviorRpmLimit: int,
      extractionRpmLimit: int, behaviorSampleEveryN: int)
      ensures Valid()
      ensures this.enabled == enabled
      ensures globalLimit == AtLeastOne(globalRpmLimit)
      ensures stageLimits == map[Reply := AtLeastOne(replyRpmLimit), Behavior := AtLeastOne(behaviorRpmLimit),
                                 Extraction := AtLeastOne(extractionRpmLimit)]
      ensures sampleEvery == AtLeastOne(behaviorSampleEveryN)
      ensures globalCalls == [] && stageCalls == map[Reply := [], Behavior := [], Extraction := []]
      ensures dropped == map[Reply := 0, Behavior := 0, Extraction := 0]
    {
      this.enabled := enabled;
      globalLimit := AtLeastOne(globalRpmLimit);
      stageLimits := map[Reply := AtLeastOne(replyRpmLimit), Behavior := AtLeastOne(behaviorRpmLimit),
                         Extraction := AtLeastOne(extractionRpmLimit)];
      sampleEvery := AtLeastOne(behaviorSampleEveryN);
      globalCalls := [];
      stageCalls := map[Reply := [], Behavior := [], Extraction := []];
      dropped := map[Reply := 0, Behavior := 0, Extraction := 0];
    }

    /** The request reaches the sliding-window check: a known stage, gating on, sampling passed. */
    predicate Gated(stage: string, scammerMessageIndex: int) {
      && StageOf(stage).Some? && enabled
      && (StageOf(stage) == Some(Behavior) ==> SamplingAllows(sampleEvery, if scammerMessageIndex < 0 then 0 else scammerMessageIndex))
    }

    /** May a call for `stage` go ahead at time `now`? */
    method Allow(stage: string, scammerMessageIndex: int, now: real) returns (ok: bool)
      requires Valid()
      modifies this
      ensures Valid()
      ensures StageOf(stage).None? ==> !ok && unchanged(this)
      ensures StageOf(stage).Some? && !enabled ==> ok && unchanged(this)
      ensures StageOf(stage).Some? && enabled && !Gated(stage, scammerMessageIndex) ==> !ok && unchanged(this)
      ensures Gated(stage, scammerMessageIndex) ==>
        var s := StageOf(stage).value;
        ok == (|Pruned(old(globalCalls), now)| < globalLimit && |Pruned(old(stageCalls)[s], now)| < stageLimits[s])
      ensures Gated(stage, scammerMessageIndex) && ok ==>
        var s := StageOf(stage).value;
        && globalCalls == Pruned(old(globalCalls), now) + [now]
        && stageCalls == old(stageCalls)[s := Pruned(old(stageCalls)[s], now) + [now]]
        && dropped == old(dropped)
      ensures Gated(stage, scammerMessageIndex) && !ok ==>
        var s := StageOf(stage).value;
        && globalCalls == Pruned(old(globalCalls), now)
        && stageCalls == old(stageCalls)[s := Pruned(old(stageCalls)[s], now)]
        && dropped == old(dropped)[s := old(dropped)[s] + 1]
    {
      var known := StageOf(stage);
      if known.None? {
        return false;
      }
      if !enabled {
        return true;
      }
      var s := known.value;
      if s == Behavior && !SamplingAllows(sampleEvery, if scammerMessageIndex < 0 then 0 else scammerMessageIndex) {
        return false;
      }

      ok := Admit(s, now);
    }

    /** The sliding-window check for `s` at `now`, under the lock in the source. */
    method Admit(s: Stage, now: real) returns (ok: bool)
      requires Valid() && enabled
      modifies this
      ensures Valid()
      ensures ok == (|Pruned(old(globalCalls), now)| < globalLimit && |Pruned(old(stageCalls)[s], now)| < stageLimits[s])
      ensures ok ==>
        && globalCalls == Pruned(old(globalCalls), now) + [now]
        && stageCalls == old(stageCalls)[s := Pruned(old(stageCalls)[s], now) + [now]]
        && dropped == old(dropped)
      ensures !ok ==>
        && globalCalls == Pruned(old(globalCalls), now)
        && stageCalls == old(stageCalls)[s := Pruned(old(stageCalls)[s], now)]
        && dropped == old(dropped)[s := old(dropped)[s] + 1]
    {
      globalCalls := Prune(globalCalls, now);
      var q := Prune(stageCalls[s], now);

      if |globalCalls| >= globalLimit {
        stageCalls := stageCalls[s := q];
        dropped := dropped[s := dropped[s] + 1];
        return false;
      }
      if |q| >= stageLimits[s] {
        stageCalls := stageCalls[s := q];
        dropped := dropped[s := dropped[s] + 1];
        return false;
      }

      globalCalls := globalCalls + [now];
      stageCalls := stageCalls[s := q + [now]];
      return true;
    }

    /** Prunes every queue and reports limits, in-window counts and refused calls. */
    method Snapshot(now: real) returns (snap: GateSnapshot)
      requires Valid()
      modifies this
      ensures Valid()
      ensures globalCalls == Pruned(old(globalCalls), now)
      ensures stageCalls == map[Reply := Pruned(old(stageCalls)[Reply], now),
                                Behavior := Pruned(old(stageCalls)[Behavior], now),
                                Extraction := Pruned(old(stageCalls)[Extraction], now)]
      ensures dropped == old(dropped)
      ensures snap.enabled == enabled && snap.globalLimit == globalLimit && snap.stageLimits == stageLimits
      ensures snap.globalInWindow == |globalCalls|
      ensures snap.stageInWindow == map[Reply := |stageCalls[Reply]|, Behavior := |stageCalls[Behavior]|,
                                        Extraction := |stageCalls[Extraction]|]
      ensures snap.droppedCalls == dropped
    {
      globalCalls := Prune(globalCalls, now);
      var reply := Prune(stageCalls[Reply], now);
      var behavior := Prune(stageCalls[Behavior], now);
      var extraction := Prune(stageCalls[Extraction], now);
      stageCalls := map[Reply := reply, Behavior := behavior, Extraction := extraction];
      snap := GateSnapshot(
        enabled, globalLimit, stageLimits, |globalCalls|,
        map[Reply := |stageCalls[Reply]|, Behavior := |stageCalls[Behavior]|, Extraction := |stageCalls[Extraction]|],
        dropped);
    }
  }

  /**
   * A global limit of 2: two calls in one minute fill the window, a third call
   * on any stage is refused, and once the first has aged out a call goes through.
   */
  method SaturationScenario() returns (first: bool, second: bool, third: bool, afterWindow: bool)
    ensures first && second && !third && afterWindow
  {
    var gate := new CallGate(true, 2, 5, 5, 5, 1);
    first := gate.Allow("reply", 0, 0.0);
    assert gate.globalCalls == [0.0];
    second := gate.Allow("extraction", 0, 1.0);
    assert gate.globalCalls == [0.0, 1.0];
    third := gate.Allow("behavior", 1, 2.0);
    assert gate.globalCalls == [0.0, 1.0];
    assert Pruned([0.0, 1.0], 60.5) == Pruned([1.0], 60.5) == [1.0];
    afterWindow := gate.Allow("reply", 0, 60.5);
  }
}
