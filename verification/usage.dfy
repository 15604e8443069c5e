/**
 Per-call token usage and the conversion of Claude Code's running cost total
 into per-turn costs. The slice of calls is reused in place between turns.
 */
module Usage {
  import opened Options

  datatype CallUsage = CallUsage(input: int, output: int, cacheRead: int, cacheWrite: int)

  /** The token totals of a result event; contextTokens is the last call's input side. */
  datatype TurnUsage = TurnUsage(
    input: int, output: int, cacheRead: int, cacheWrite: int, total: int, contextTokens: int)

  const NO_USAGE := CallUsage(0, 0, 0, 0)

  function ContextOf(calls: seq<CallUsage>): int {
    if calls == [] then 0
    else
      var last := calls[|calls| - 1];
      last.input + last.cacheRead + last.cacheWrite
  }

  function TotalsOf(usage: CallUsage, calls: seq<CallUsage>): TurnUsage {
    TurnUsage(
      usage.input, usage.output, usage.cacheRead, usage.cacheWrite, usage.input + usage.output, ContextOf(calls))
  }

  // ------------------------------------------------------------------
  // Costs

  /** One turn's cost and the running total after it. */
  function TurnCost(previous: real, total: real): Option<real> {
    if total <= 0.0 then None
    else if total < previous then Some(total)
    else if total == previous then None
    else Some(total - previous)
  }

  function RunningTotal(previous: real, total: real): real {
    if total <= 0.0 then previous else total
  }

  function Worth(cost: Option<real>): real {
    if cost.Some? then cost.value else 0.0
  }

  // What a sequence of reported totals should cost, said without the running total.

  /** Unpriced turns report no total. */
  function Priced(totals: seq<real>): seq<real> {
    if totals == [] then []
    else if totals[0] > 0.0 then [totals[0]] + Priced(totals[1..])
    else Priced(totals[1..])
  }

  /** A process's last total: the next one is lower, or there is none. */
  predicate EndsEpoch(totals: seq<real>, i: nat)
    requires i < |totals|
  {
    i == |totals| - 1 || totals[i + 1] < totals[i]
  }

  /** The last totals of all process epochs, summed from position i on. */
  function EpochTotals(totals: seq<real>, i: nat): real
    requires i <= |totals|
    decreases |totals| - i
  {
    if i == |totals| then 0.0
    else (if EndsEpoch(totals, i) then totals[i] else 0.0) + EpochTotals(totals, i + 1)
  }

  /** The costs Finalize returns over the totals of successive results. */
  function Costs(previous: real, totals: seq<real>): seq<Option<real>>
    decreases |totals|
  {
    if totals == [] then []
    else [TurnCost(previous, totals[0])] + Costs(RunningTotal(previous, totals[0]), totals[1..])
  }

  function Sum(costs: seq<Option<real>>): real {
    if costs == [] then 0.0 else Worth(costs[0]) + Sum(costs[1..])
  }

  lemma {:induction false} CostsIgnoreUnpriced(previous: real, totals: seq<real>)
    ensures Sum(Costs(previous, totals)) == Sum(Costs(previous, Priced(totals)))
    decreases |totals|
  {
    if totals != [] {
      var rest := Costs(RunningTotal(previous, totals[0]), totals[1..]);
      assert Costs(previous, totals)[1..] == rest;
      CostsIgnoreUnpriced(RunningTotal(previous, totals[0]), totals[1..]);
      if totals[0] > 0.0 {
        var p := Priced(totals);
        assert p[0] == totals[0] && p[1..] == Priced(totals[1..]);
        assert Costs(previous, p)[1..] == Costs(RunningTotal(previous, p[0]), p[1..]);
      }
    }
  }

  lemma {:induction false} EpochTotalsOfTail(totals: seq<real>, i: nat)
    requires 1 <= i <= |totals|
    ensures EpochTotals(totals, i) == EpochTotals(totals[1..], i - 1)
    decreases |totals| - i
  {
    if i < |totals| {
      EpochTotalsOfTail(totals, i + 1);
    }
  }

  /** From any running total: the costs make up what the epochs add to it. */
  lemma {:induction false} PricedCosts(previous: real, totals: seq<real>)
    requires forall i | 0 <= i < |totals| :: totals[i] > 0.0
    requires previous >= 0.0
    ensures Sum(Costs(previous, totals))
         == EpochTotals(totals, 0) - if totals != [] && totals[0] >= previous then previous else 0.0
    decreases |totals|
  {
    if totals != [] {
      var rest := totals[1..];
      PricedCosts(totals[0], rest);
      EpochTotalsOfTail(totals, 1);
      assert Costs(previous, totals)[1..] == Costs(totals[0], rest);
    }
  }

  lemma {:induction false} PricedArePositive(totals: seq<real>)
    ensures forall i | 0 <= i < |Priced(totals)| :: Priced(totals)[i] > 0.0
  {
    if totals != [] {
      PricedArePositive(totals[1..]);
    }
  }

  /** Over any totals, the returned costs sum to the last totals of all process epochs. */
  lemma CostsSumToEpochTotals(totals: seq<real>)
    ensures Sum(Costs(0.0, totals)) == EpochTotals(Priced(totals), 0)
  {
    CostsIgnoreUnpriced(0.0, totals);
    PricedArePositive(totals);
    PricedCosts(0.0, Priced(totals));
  }

  /** Each returned cost is positive and at most the total it was reported with. */
  lemma {:induction false} EachCostIsBounded(previous: real, totals: seq<real>, i: nat)
    requires previous >= 0.0 && i < |totals|
    ensures |Costs(previous, totals)| == |totals|
    ensures Costs(previous, totals)[i].Some? ==> 0.0 < Costs(previous, totals)[i].value <= totals[i]
    decreases i
  {
    if i > 0 {
      EachCostIsBounded(RunningTotal(previous, totals[0]), totals[1..], i - 1);
    } else {
      CostsLength(previous, totals);
    }
  }

  lemma {:induction false} CostsLength(previous: real, totals: seq<real>)
    ensures |Costs(previous, totals)| == |totals|
    decreases |totals|
  {
    if totals != [] {
      CostsLength(RunningTotal(previous, totals[0]), totals[1..]);
    }
  }

  // ------------------------------------------------------------------
  // The aggregator

  /** A view into a backing array, as APICallUsages hands out. */
  datatype Slice = Slice(buf: array<CallUsage>, len: nat)

  function Contents(s: Slice): seq<CallUsage>
    requires s.len <= s.buf.Length
    reads s.buf
  {
    s.buf[..s.len]
  }

  class UsageAggregator {
    var buf: array<CallUsage>
    var len: nat
    var toolCalls: nat
    var cumulativeCostUSD: real

    ghost predicate Valid()
      reads this
    {
      len <= buf.Length && cumulativeCostUSD >= 0.0
    }

    ghost function Calls(): seq<CallUsage>
      requires Valid()
      reads this, buf
    {
      buf[..len]
    }

    constructor ()
      ensures Valid() && fresh(buf)
      ensures Calls() == [] && toolCalls == 0 && cumulativeCostUSD == 0.0
    {
      buf := new CallUsage[0];
      len, toolCalls, cumulativeCostUSD := 0, 0, 0.0;
    }

    /** Appends: in place while the backing array has room, else into a larger copy. */
    method AddAPICall(usage: CallUsage)
      requires Valid()
      modifies this`buf, this`len, buf
      ensures Valid() && (buf == old(buf) || fresh(buf))
      ensures Calls() == old(Calls()) + [usage]
      ensures old(len) < old(buf).Length ==>
                buf == old(buf) && forall i | 0 <= i < buf.Length && i != old(len) :: buf[i] == old(buf[i])
    {
      if len == buf.Length {
        var grown := new CallUsage[2 * buf.Length + 1](_ => NO_USAGE);
        forall i | 0 <= i < len {
          grown[i] := buf[i];
        }
        buf := grown;
      }
      buf[len] := usage;
      len := len + 1;
    }

    method AddToolCall()
      modifies this`toolCalls
      ensures toolCalls == old(toolCalls) + 1
    {
      toolCalls := toolCalls + 1;
    }

    /** turnCost. */
    method TakeTurnCost(total: real) returns (cost: Option<real>)
      requires Valid()
      modifies this`cumulativeCostUSD
      ensures Valid()
      ensures cost == TurnCost(old(cumulativeCostUSD), total)
      ensures cumulativeCostUSD == RunningTotal(old(cumulativeCostUSD), total)
      ensures total <= 0.0 ==> cost == None && cumulativeCostUSD == old(cumulativeCostUSD)
      ensures total > 0.0 ==>
                && cumulativeCostUSD == total
                && Worth(cost) == if total < old(cumulativeCostUSD) then total else total - old(cumulativeCostUSD)
    {
      if total <= 0.0 {
        return None;
      }
      var turn := total - cumulativeCostUSD;
      if total < cumulativeCostUSD {
        turn := total;
      }
      cumulativeCostUSD := total;
      if turn <= 0.0 {
        return None;
      }
      return Some(turn);
    }

    method Finalize(usage: CallUsage, total: real) returns (totals: TurnUsage, cost: Option<real>)
      requires Valid()
      modifies this`cumulativeCostUSD
      ensures Valid()
      ensures totals == TotalsOf(usage, Calls())
      ensures totals.input == usage.input && totals.output == usage.output
      ensures totals.cacheRead == usage.cacheRead && totals.cacheWrite == usage.cacheWrite
      ensures totals.total == usage.input + usage.output
      ensures totals.contextTokens == if len == 0 then 0
                                      else buf[len - 1].input + buf[len - 1].cacheRead + buf[len - 1].cacheWrite
      ensures cost == TurnCost(old(cumulativeCostUSD), total)
      ensures cumulativeCostUSD == RunningTotal(old(cumulativeCostUSD), total)
    {
      totals := TurnUsage(usage.input, usage.output, usage.cacheRead, usage.cacheWrite, usage.input + usage.output, 0);
      if len > 0 {
        var last := buf[len - 1];
        totals := totals.(contextTokens := last.input + last.cacheRead + last.cacheWrite);
      }
      cost := TakeTurnCost(total);
    }

    method APICallUsages() returns (s: Slice)
      requires Valid()
      ensures s == Slice(buf, len) && Contents(s) == Calls()
    {
      s := Slice(buf, len);
    }

    /** Clears the calls but keeps the backing array and everything in it. */
    method Reset()
      requires Valid()
      modifies this`len, this`toolCalls
      ensures Valid() && Calls() == [] && toolCalls == 0
    {
      len := 0;
      toolCalls := 0;
    }
  }

  /**
   A slice handed out before Reset still shows the turn's calls after it, but no
   longer once the next turn's first call arrives: that one is written over it.
   */
  method HeldSliceIsOverwritten(agg: UsageAggregator, next: CallUsage) returns (held: Slice)
    requires agg.Valid() && agg.len > 0
    modifies agg, agg.buf
    ensures held.len == old(agg.len) && held.buf == old(agg.buf)
    ensures Contents(held) == [next] + old(agg.Calls())[1..]
  {
    held := agg.APICallUsages();
    agg.Reset();
    assert Contents(held) == old(agg.Calls());
    agg.AddAPICall(next);
    assert agg.Calls()[0] == next;
    assert forall i | 1 <= i < held.len :: held.buf[i] == old(agg.buf[i]);
  }
}
