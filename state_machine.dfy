/**
 * The system lifecycle: five states with a fixed index, a counter matrix of
 * effective transitions, a matrix of inferred next-state probabilities and the
 * stability test that gates Accumulating -> Trading.
 */
module StateMachine {
  import opened Common

  datatype SystemState = Booting | Accumulating | Analyzing | Trading | Cooldown

  const StateCount: nat := 5

  /** Row/column index of a state in both matrices. */
  function ToIndex(s: SystemState): (i: nat)
    ensures i < StateCount
  {
    match s
    case Booting => 0
    case Accumulating => 1
    case Analyzing => 2
    case Trading => 3
    case Cooldown => 4
  }

  /** All states, listed in index order. */
  function All(): (states: seq<SystemState>)
    ensures |states| == StateCount
    ensures forall i :: 0 <= i < |states| ==> ToIndex(states[i]) == i
  {
    [Booting, Accumulating, Analyzing, Trading, Cooldown]
  }

  /** `ToIndex` is injective, and indexing into `All()` is its inverse. */
  lemma IndexBijection()
    ensures forall s: SystemState :: All()[ToIndex(s)] == s
    ensures forall s: SystemState, t: SystemState :: ToIndex(s) == ToIndex(t) ==> s == t
  {
  }

  /** The `Default` state. */
  function DefaultState(): (s: SystemState)
    ensures ToIndex(s) == 0
  {
    Booting
  }

  /**
   * The lifecycle step every market-data-driven strategy performs on a trade:
   * Booting -> Accumulating on first data, Accumulating -> Trading once stable,
   * every other state is left alone.
   */
  function OnMarketData(current: SystemState, stable: bool): SystemState {
    if current == Booting then Accumulating
    else if current == Accumulating && stable then Trading
    else current
  }

  /** The lifecycle step on an order book: only Booting -> Accumulating. */
  function OnOrderBook(current: SystemState): (next: SystemState)
    ensures next != Trading || current == Trading
    ensures current != Booting ==> next == current
  {
    if current == Booting then Accumulating else current
  }

  /** The state after a run of trades, given the stability flag seen at each one. */
  function RunOnMarketData(start: SystemState, stableFlags: seq<bool>): SystemState
    decreases |stableFlags|
  {
    if stableFlags == [] then start
    else RunOnMarketData(OnMarketData(start, stableFlags[0]), stableFlags[1..])
  }

  /**
   * From Booting, the lifecycle only visits Booting, Accumulating and Trading;
   * it leaves Booting on the first trade, and it reaches Trading only if some
   * trade after the first one saw the machine stable.
   */
  lemma {:induction false} LifecycleFromBooting(flags: seq<bool>)
    ensures var s := RunOnMarketData(Booting, flags);
      s == Booting || s == Accumulating || s == Trading
    ensures RunOnMarketData(Booting, flags) == Booting <==> flags == []
    ensures RunOnMarketData(Booting, flags) == Trading <==>
      exists i :: 1 <= i < |flags| && flags[i]
  {
    if flags != [] {
      LifecycleFromAccumulating(flags[1..]);
      var rest := flags[1..];
      if exists i :: 1 <= i < |flags| && flags[i] {
        var i :| 1 <= i < |flags| && flags[i];
        assert rest[i - 1];
      }
      if exists j :: 0 <= j < |rest| && rest[j] {
        var j :| 0 <= j < |rest| && rest[j];
        assert flags[j + 1];
      }
    }
  }

  /** From Accumulating, a run ends in Trading iff some trade saw the machine stable. */
  lemma {:induction false} LifecycleFromAccumulating(flags: seq<bool>)
    ensures var s := RunOnMarketData(Accumulating, flags);
      s == Accumulating || s == Trading
    ensures RunOnMarketData(Accumulating, flags) == Trading <==>
      exists j :: 0 <= j < |flags| && flags[j]
    decreases |flags|
  {
    if flags != [] {
      if flags[0] {
        TradingIsAbsorbing(flags[1..]);
      } else {
        LifecycleFromAccumulating(flags[1..]);
        var rest := flags[1..];
        if exists j :: 0 <= j < |rest| && rest[j] {
          var j :| 0 <= j < |rest| && rest[j];
          assert flags[j + 1];
        }
        if exists j :: 0 <= j < |flags| && flags[j] {
          var j :| 0 <= j < |flags| && flags[j];
          assert rest[j - 1];
        }
      }
    }
  }

  /** Once Trading, trades never move the machine out of Trading. */
  lemma {:induction false} TradingIsAbsorbing(flags: seq<bool>)
    ensures RunOnMarketData(Trading, flags) == Trading
    decreases |flags|
  {
    if flags != [] {
      TradingIsAbsorbing(flags[1..]);
    }
  }

  /** Sum of all cells of a 5x5 counter matrix. */
  ghost function CellsOf(m: array2<nat>): (cells: seq<nat>)
    reads m
    requires m.Length0 == StateCount && m.Length1 == StateCount
    ensures |cells| == StateCount * StateCount
  {
    seq(StateCount * StateCount, k requires 0 <= k < StateCount * StateCount reads m =>
      m[k / StateCount, k % StateCount])
  }

  /** One row of a 5x5 counter matrix. */
  function RowOf(m: array2<nat>, i: nat): (row: seq<nat>)
    reads m
    requires m.Length0 == StateCount && m.Length1 == StateCount && i < StateCount
    ensures |row| == StateCount
    ensures forall j :: 0 <= j < StateCount ==> row[j] == m[i, j]
  {
    seq(StateCount, j requires 0 <= j < StateCount reads m => m[i, j])
  }

  /**
   * The unnormalised next-state scores of `update_inferred_probabilities`
   * for the current state, over exact reals.
   */
  function InferredScores(current: SystemState, spread: real, imbalance: real, volatility: real): (row: seq<real>)
    ensures |row| == StateCount
  {
    var zero := [0.0, 0.0, 0.0, 0.0, 0.0];
    match current
    case Booting | Accumulating =>
      zero[ToIndex(Analyzing) := Max(1.0 - spread, 0.1)][ToIndex(Accumulating) := Max(spread, 0.1)]
    case Analyzing =>
      var base := zero[ToIndex(Trading) := Min(Abs(imbalance), 0.9)][ToIndex(Analyzing) := Max(1.0 - Abs(imbalance), 0.1)];
      if volatility > 0.7 then base[ToIndex(Cooldown) := volatility] else base
    case Trading =>
      zero[ToIndex(Cooldown) := Max(volatility, 0.1)][ToIndex(Trading) := Max(1.0 - volatility, 0.1)]
    case Cooldown =>
      zero[ToIndex(Analyzing) := Max(1.0 - volatility, 0.1)][ToIndex(Cooldown) := Max(volatility, 0.1)]
  }

  /**
   * The row `update_inferred_probabilities` writes: the scores divided by their
   * sum. (The zero row stands for "nothing written", which over exact reals
   * never happens; see `InferredRowIsDistribution`.)
   */
  function InferredRow(current: SystemState, spread: real, imbalance: real, volatility: real): (row: seq<real>)
    ensures |row| == StateCount
  {
    var scores := InferredScores(current, spread, imbalance, volatility);
    var sum := RealSum(scores);
    if sum > 0.0 then seq(StateCount, j requires 0 <= j < StateCount => scores[j] / sum)
    else [0.0, 0.0, 0.0, 0.0, 0.0]
  }

  lemma RealSumFive(row: seq<real>)
    requires |row| == StateCount
    ensures RealSum(row) == row[0] + row[1] + row[2] + row[3] + row[4]
  {
    var r1 := row[1..];
    var r2 := r1[1..];
    var r3 := r2[1..];
    var r4 := r3[1..];
    assert r4[1..] == [];
    assert RealSum(r4) == row[4];
    assert RealSum(r3) == row[3] + row[4];
    assert RealSum(r2) == row[2] + row[3] + row[4];
  }

  /**
   * Over exact reals every score is non-negative and the scores always have a
   * positive sum, so the `sum > 0.0` guard always lets the row be written.
   */
  lemma InferredScoresPositive(current: SystemState, spread: real, imbalance: real, volatility: real)
    ensures var scores := InferredScores(current, spread, imbalance, volatility);
      RealSum(scores) > 0.0 && forall j :: 0 <= j < StateCount ==> scores[j] >= 0.0
  {
    RealSumFive(InferredScores(current, spread, imbalance, volatility));
  }

  class Machine {
    var current: SystemState
    /** Clock reading (injected) at the last effective transition. */
    var lastTransition: nat
    /** `transition_matrix[from][to]`: number of effective transitions from -> to. */
    const transitions: array2<nat>
    /** `inferred_matrix[from][to]`: inferred next-state probabilities. */
    const inferred: array2<real>
    /** Number of effective (state-changing) transitions performed so far. */
    ghost var effective: nat

    ghost predicate Valid()
      reads this, transitions
    {
      && transitions.Length0 == StateCount && transitions.Length1 == StateCount
      && inferred.Length0 == StateCount && inferred.Length1 == StateCount
      && (forall i :: 0 <= i < StateCount ==> transitions[i, i] == 0)
      && NatSum(CellsOf(transitions)) == effective
    }

    /** `StateMachine::new`: Booting, all-zero matrices. */
    constructor (now: nat)
      ensures Valid() && fresh(transitions) && fresh(inferred)
      ensures current == DefaultState() && lastTransition == now && effective == 0
      ensures forall i, j :: 0 <= i < StateCount && 0 <= j < StateCount ==>
        transitions[i, j] == 0 && inferred[i, j] == 0.0
    {
      current := Booting;
      lastTransition := now;
      transitions := new nat[StateCount, StateCount]((i, j) => 0);
      inferred := new real[StateCount, StateCount]((i, j) => 0.0);
      effective := 0;
      new;
      ZeroMatrixSum(transitions);
    }

    /**
     * `transition_to`: a request for the current state changes nothing; any
     * other state bumps exactly `transitions[from, to]`, becomes current and
     * stamps the clock.
     */
    method TransitionTo(next: SystemState, now: nat)
      requires Valid()
      modifies this, transitions
      ensures Valid()
      ensures current == next
      ensures lastTransition == if old(current) == next then old(lastTransition) else now
      ensures effective == old(effective) + if old(current) == next then 0 else 1
      ensures forall i, j :: 0 <= i < StateCount && 0 <= j < StateCount ==>
        transitions[i, j] == old(transitions[i, j]) +
          if old(current) != next && i == ToIndex(old(current)) && j == ToIndex(next) then 1 else 0
    {
      if current != next {
        var from, to := ToIndex(current), ToIndex(next);
        ghost var before := CellsOf(transitions);
        transitions[from, to] := transitions[from, to] + 1;
        CellsAfterIncrement(transitions, before, from, to);
        NatSumUpdate(before, from * StateCount + to, before[from * StateCount + to] + 1);
        current := next;
        lastTransition := now;
        effective := effective + 1;
      }
    }

    /**
     * `is_stable` at clock reading `now` (milliseconds): every state but
     * Accumulating is stable; Accumulating once more than five whole seconds
     * have elapsed since the last transition (elapsed time saturates at zero).
     */
    function IsStable(now: nat): (stable: bool)
      reads this
      ensures stable <==> current != Accumulating || now >= lastTransition + 6000
    {
      var elapsedMs := if now >= lastTransition then now - lastTransition else 0;
      match current
      case Accumulating => elapsedMs / 1000 > 5
      case _ => true
    }

    /** Total number of effective transitions out of state index `i`. */
    function RowTotal(i: nat): nat
      reads this, transitions
      requires Valid() && i < StateCount
    {
      NatSum(RowOf(transitions, i))
    }

    /**
     * `get_transition_probabilities`: a fresh 5x5 table; rows with no outgoing
     * transitions stay zero, other entries are `count / rowTotal`.
     */
    method GetTransitionProbabilities() returns (probs: seq<seq<real>>)
      requires Valid()
      ensures |probs| == StateCount
      ensures forall i :: 0 <= i < StateCount ==> |probs[i]| == StateCount
      ensures forall i, j :: 0 <= i < StateCount && 0 <= j < StateCount ==>
        probs[i][j] == if RowTotal(i) == 0 then 0.0 else transitions[i, j] as real / RowTotal(i) as real
      ensures forall i :: 0 <= i < StateCount && RowTotal(i) > 0 ==> RealSum(probs[i]) == 1.0
    {
      probs := [];
      var i := 0;
      while i < StateCount
        invariant 0 <= i <= StateCount
        invariant |probs| == i
        invariant forall a :: 0 <= a < i ==> |probs[a]| == StateCount
        invariant forall a, j :: 0 <= a < i && 0 <= j < StateCount ==>
          probs[a][j] == if RowTotal(a) == 0 then 0.0 else transitions[a, j] as real / RowTotal(a) as real
      {
        var rowTotal := 0;
        var j := 0;
        while j < StateCount
          invariant 0 <= j <= StateCount
          invariant rowTotal == NatSum(RowOf(transitions, i)[..j])
        {
          PrefixSumStep(RowOf(transitions, i), j);
          rowTotal := rowTotal + transitions[i, j];
          j := j + 1;
        }
        assert RowOf(transitions, i)[..StateCount] == RowOf(transitions, i);
        var row := [0.0, 0.0, 0.0, 0.0, 0.0];
        if rowTotal > 0 {
          j := 0;
          while j < StateCount
            invariant 0 <= j <= StateCount
            invariant |row| == StateCount
            invariant forall b :: 0 <= b < j ==> row[b] == transitions[i, b] as real / rowTotal as real
            invariant forall b :: j <= b < StateCount ==> row[b] == 0.0
          {
            row := row[j := transitions[i, j] as real / rowTotal as real];
            j := j + 1;
          }
        }
        probs := probs + [row];
        i := i + 1;
      }
      forall a | 0 <= a < StateCount && RowTotal(a) > 0
        ensures RealSum(probs[a]) == 1.0
      {
        TransitionRowIsDistribution(RowOf(transitions, a), probs[a]);
      }
    }

    /**
     * `update_inferred_probabilities`: only the current state's row is written,
     * with the scores divided by their sum, and only when that sum is positive.
     */
    method UpdateInferredProbabilities(spread: real, imbalance: real, volatility: real)
      requires Valid()
      modifies inferred
      ensures Valid()
      ensures var written := RealSum(InferredScores(current, spread, imbalance, volatility)) > 0.0;
        forall i, j :: 0 <= i < StateCount && 0 <= j < StateCount ==>
          inferred[i, j] ==
            if i == ToIndex(current) && written then InferredRow(current, spread, imbalance, volatility)[j]
            else old(inferred[i, j])
    {
      var ci := ToIndex(current);
      var scores := InferredScores(current, spread, imbalance, volatility);
      var sum := RealSum(scores);
      if sum > 0.0 {
        ghost var row := InferredRow(current, spread, imbalance, volatility);
        for j := 0 to StateCount
          invariant forall a, b :: 0 <= a < StateCount && 0 <= b < StateCount ==>
            inferred[a, b] == if a == ci && b < j then row[b] else old(inferred[a, b])
        {
          inferred[ci, j] := scores[j] / sum;
        }
      }
    }
  }

  /**
   * The row written for the current state is a probability distribution:
   * non-negative entries summing to one.
   */
  lemma InferredRowIsDistribution(current: SystemState, spread: real, imbalance: real, volatility: real)
    ensures var row := InferredRow(current, spread, imbalance, volatility);
      RealSum(row) == 1.0 && forall j :: 0 <= j < StateCount ==> row[j] >= 0.0
  {
    var scores := InferredScores(current, spread, imbalance, volatility);
    var row := InferredRow(current, spread, imbalance, volatility);
    var sum := RealSum(scores);
    InferredScoresPositive(current, spread, imbalance, volatility);
    RealSumScaled(scores, row, sum);
    assert sum / sum == 1.0;
    forall j | 0 <= j < StateCount
      ensures row[j] >= 0.0
    {
      assert row[j] == scores[j] / sum;
      NonNegDiv(scores[j], sum);
    }
  }

  /** Each non-empty row of the transition-probability table sums to one. */
  lemma TransitionRowIsDistribution(counts: seq<nat>, probs: seq<real>)
    requires |probs| == |counts| && NatSum(counts) > 0
    requires forall j :: 0 <= j < |counts| ==> probs[j] == counts[j] as real / NatSum(counts) as real
    ensures RealSum(probs) == 1.0
  {
    var total := NatSum(counts) as real;
    var asReal := seq(|counts|, j requires 0 <= j < |counts| => counts[j] as real);
    NatSumAsReal(counts, asReal);
    RealSumScaled(asReal, probs, total);
    SelfQuotient(total);
  }

  lemma SelfQuotient(x: real)
    requires x != 0.0
    ensures x / x == 1.0
  {
  }

  lemma NonNegDiv(a: real, b: real)
    requires a >= 0.0 && b > 0.0
    ensures a / b >= 0.0
  {
  }

  lemma {:induction false} PrefixSumStep(s: seq<nat>, j: nat)
    requires j < |s|
    ensures NatSum(s[..j + 1]) == NatSum(s[..j]) + s[j]
    decreases j
  {
    if j > 0 {
      assert s[..j + 1][1..] == s[1..][..j];
      assert s[..j][1..] == s[1..][..j - 1];
      PrefixSumStep(s[1..], j - 1);
    } else {
      assert s[..1][1..] == [];
    }
  }

  lemma ZeroMatrixSum(m: array2<nat>)
    requires m.Length0 == StateCount && m.Length1 == StateCount
    requires forall i, j :: 0 <= i < StateCount && 0 <= j < StateCount ==> m[i, j] == 0
    ensures NatSum(CellsOf(m)) == 0
  {
    var cells := CellsOf(m);
    assert forall k :: 0 <= k < |cells| ==> cells[k] == 0;
    AllZeroSum(cells);
  }

  lemma {:induction false} AllZeroSum(s: seq<nat>)
    requires forall k :: 0 <= k < |s| ==> s[k] == 0
    ensures NatSum(s) == 0
  {
    if s != [] {
      AllZeroSum(s[1..]);
    }
  }

  lemma CellsAfterIncrement(m: array2<nat>, before: seq<nat>, from: nat, to: nat)
    requires m.Length0 == StateCount && m.Length1 == StateCount
    requires from < StateCount && to < StateCount
    requires |before| == StateCount * StateCount
    requires forall k :: 0 <= k < |before| && k != from * StateCount + to ==>
      before[k] == m[k / StateCount, k % StateCount]
    requires m[from, to] == before[from * StateCount + to] + 1
    ensures CellsOf(m) == before[from * StateCount + to := before[from * StateCount + to] + 1]
  {
  }
}
