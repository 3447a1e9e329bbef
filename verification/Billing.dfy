/** Billed usage of a turn (src/agent/mod.rs, TurnUsage). */
module Billing {
  import opened Options

  /** One provider draw as reported. */
  datatype CallUsage = CallUsage(
    promptTokens: Option<nat>,
    cachedTokens: Option<nat>,
    completionTokens: nat,
    cost: Option<real>,
    provider: Option<string>)

  /** A total over draws. `None` means no draw reported the figure. */
  datatype Usage = Usage(
    calls: nat,
    promptTokens: nat,
    cachedTokens: Option<nat>,
    completionTokens: nat,
    cost: Option<real>,
    provider: Option<string>)

  // What the totals of a list of draws are.

  function PromptSum(ds: seq<CallUsage>): nat {
    if ds == [] then 0 else PromptSum(ds[..|ds| - 1]) + ds[|ds| - 1].promptTokens.GetOr(0)
  }

  function CompletionSum(ds: seq<CallUsage>): nat {
    if ds == [] then 0 else CompletionSum(ds[..|ds| - 1]) + ds[|ds| - 1].completionTokens
  }

  function CachedSum(ds: seq<CallUsage>): nat {
    if ds == [] then 0 else CachedSum(ds[..|ds| - 1]) + ds[|ds| - 1].cachedTokens.GetOr(0)
  }

  function CostSum(ds: seq<CallUsage>): real {
    if ds == [] then 0.0 else CostSum(ds[..|ds| - 1]) + ds[|ds| - 1].cost.GetOr(0.0)
  }

  /** The provider of the last draw that named one. */
  function LastProvider(ds: seq<CallUsage>): Option<string> {
    if ds == [] then None
    else if ds[|ds| - 1].provider.Some? then ds[|ds| - 1].provider
    else LastProvider(ds[..|ds| - 1])
  }

  function Totals(ds: seq<CallUsage>): Usage {
    Usage(
      |ds|,
      PromptSum(ds),
      if exists i | 0 <= i < |ds| :: ds[i].cachedTokens.Some? then Some(CachedSum(ds)) else None,
      CompletionSum(ds),
      if exists i | 0 <= i < |ds| :: ds[i].cost.Some? then Some(CostSum(ds)) else None,
      LastProvider(ds))
  }

  lemma {:induction false} SumsOfConcat(a: seq<CallUsage>, b: seq<CallUsage>)
    ensures PromptSum(a + b) == PromptSum(a) + PromptSum(b)
    ensures CompletionSum(a + b) == CompletionSum(a) + CompletionSum(b)
    ensures CachedSum(a + b) == CachedSum(a) + CachedSum(b)
    ensures CostSum(a + b) == CostSum(a) + CostSum(b)
    ensures LastProvider(a + b) == if LastProvider(b).Some? then LastProvider(b) else LastProvider(a)
  {
    if b == [] {
      assert a + b == a;
    } else {
      assert (a + b)[..|a + b| - 1] == a + b[..|b| - 1];
      SumsOfConcat(a, b[..|b| - 1]);
    }
  }

  lemma {:induction false} SilentSums(ds: seq<CallUsage>)
    ensures (forall i | 0 <= i < |ds| :: ds[i].cachedTokens.None?) ==> CachedSum(ds) == 0
    ensures (forall i | 0 <= i < |ds| :: ds[i].cost.None?) ==> CostSum(ds) == 0.0
  {
    if ds != [] { SilentSums(ds[..|ds| - 1]); }
  }

  /** Two totals added: the totals of both lists of draws, in order. */
  lemma TotalsOfConcat(a: seq<CallUsage>, b: seq<CallUsage>)
    ensures var x, y, z := Totals(a), Totals(b), Totals(a + b);
            && z.calls == x.calls + y.calls
            && z.promptTokens == x.promptTokens + y.promptTokens
            && z.completionTokens == x.completionTokens + y.completionTokens
            && z.cachedTokens == (if x.cachedTokens.None? && y.cachedTokens.None? then None
                                  else Some(x.cachedTokens.GetOr(0) + y.cachedTokens.GetOr(0)))
            && z.cost == (if x.cost.None? && y.cost.None? then None else Some(x.cost.GetOr(0.0) + y.cost.GetOr(0.0)))
            && z.provider == (if y.provider.Some? then y.provider else x.provider)
  {
    SumsOfConcat(a, b);
    SilentSums(a);
    SilentSums(b);
    var c := a + b;
    assert forall i | 0 <= i < |a| :: c[i] == a[i];
    assert forall i | 0 <= i < |b| :: c[|a| + i] == b[i];
  }

  /** The accumulator: whatever order calls and whole turns are added in, it holds their totals. */
  class TurnUsage {
    var calls: nat
    var promptTokens: nat
    var cachedTokens: Option<nat>
    var completionTokens: nat
    var cost: Option<real>
    var provider: Option<string>
    ghost var draws: seq<CallUsage>

    function State(): Usage
      reads this
    {
      Usage(calls, promptTokens, cachedTokens, completionTokens, cost, provider)
    }

    ghost predicate Valid()
      reads this
    {
      State() == Totals(draws)
    }

    constructor ()
      ensures Valid() && draws == []
    {
      calls, promptTokens, cachedTokens, completionTokens, cost, provider := 0, 0, None, 0, None, None;
      draws := [];
    }

    method AddCall(call: CallUsage)
      requires Valid()
      modifies this
      ensures Valid() && draws == old(draws) + [call]
    {
      hide Totals;
      calls := calls + 1;
      if call.promptTokens.Some? { promptTokens := promptTokens + call.promptTokens.value; }
      if call.cachedTokens.Some? { cachedTokens := Some(cachedTokens.GetOr(0) + call.cachedTokens.value); }
      completionTokens := completionTokens + call.completionTokens;
      if call.cost.Some? { cost := Some(cost.GetOr(0.0) + call.cost.value); }
      if call.provider.Some? { provider := call.provider; }
      TotalsOfConcat(draws, [call]);
      draws := draws + [call];
      OneDraw(call);
    }

    method AddFailed(failed: seq<CallUsage>)
      requires Valid()
      modifies this
      ensures Valid() && draws == old(draws) + failed
    {
      for i := 0 to |failed|
        invariant Valid() && draws == old(draws) + failed[..i]
      {
        AddCall(failed[i]);
        assert failed[..i + 1] == failed[..i] + [failed[i]];
      }
      assert failed[..|failed|] == failed;
    }

    method AddTurn(other: TurnUsage)
      requires Valid() && other.Valid() && other != this
      modifies this
      ensures Valid() && draws == old(draws) + other.draws
    {
      hide Totals;
      calls := calls + other.calls;
      promptTokens := promptTokens + other.promptTokens;
      completionTokens := completionTokens + other.completionTokens;
      cachedTokens := if cachedTokens.None? && other.cachedTokens.None? then None
                      else Some(cachedTokens.GetOr(0) + other.cachedTokens.GetOr(0));
      cost := if cost.None? && other.cost.None? then None else Some(cost.GetOr(0.0) + other.cost.GetOr(0.0));
      if other.provider.Some? { provider := other.provider; }
      TotalsOfConcat(draws, other.draws);
      draws := draws + other.draws;
    }
  }

  lemma OneDraw(call: CallUsage)
    ensures Totals([call]) == Usage(1, call.promptTokens.GetOr(0), call.cachedTokens, call.completionTokens, call.cost, call.provider)
  {
    var ds := [call];
    assert ds[..|ds| - 1] == [] && ds[|ds| - 1] == call;
    assert PromptSum(ds) == PromptSum([]) + call.promptTokens.GetOr(0);
    assert CachedSum(ds) == CachedSum([]) + call.cachedTokens.GetOr(0);
    assert CompletionSum(ds) == CompletionSum([]) + call.completionTokens;
    assert CostSum(ds) == CostSum([]) + call.cost.GetOr(0.0);
    assert LastProvider(ds) == call.provider;
    assert call.cachedTokens.Some? ==> ds[0].cachedTokens.Some?;
    assert call.cost.Some? ==> ds[0].cost.Some?;
  }
}
