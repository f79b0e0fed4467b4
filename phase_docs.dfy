/**
 * The fifteen documented phases in display order, the keys of the phase documentation table,
 * and the 1-based phase numbering used by detail views.
 */
module PhaseDocs {
  import opened Wrappers

  const PhaseOrder: seq<string> := [
    "opportunity", "customer-intel", "market-research", "competitive-intel", "kill-test",
    "revenue-expansion", "strategy", "business-model", "product-design", "gtm-marketing",
    "content-engine", "tech-arch", "analytics", "launch-execution", "synthesis"
  ]

  /** The keys of the documentation table, in declaration order (its prose is not modelled). */
  const PhaseDocKeys: seq<string> := [
    "opportunity", "customer-intel", "market-research", "competitive-intel", "kill-test",
    "revenue-expansion", "strategy", "business-model", "product-design", "gtm-marketing",
    "content-engine", "tech-arch", "analytics", "launch-execution", "synthesis"
  ]

  /** `xs.indexOf(x)`: the first position holding `x`, or -1. */
  function IndexOf(xs: seq<string>, x: string): (r: int)
    ensures -1 <= r < |xs|
    ensures r == -1 <==> x !in xs
    ensures r >= 0 ==> xs[r] == x && forall j :: 0 <= j < r ==> xs[j] != x
  {
    if xs == [] then -1
    else if xs[0] == x then 0
    else
      var k := IndexOf(xs[1..], x);
      if k == -1 then -1 else k + 1
  }

  /** `getPhaseIndex`: the 1-based position of the phase, 0 for a name not in the order. */
  function GetPhaseIndex(phase: string): (r: int)
    ensures phase in PhaseOrder ==> 1 <= r <= |PhaseOrder| && PhaseOrder[r - 1] == phase
    ensures phase !in PhaseOrder ==> r == 0
  {
    IndexOf(PhaseOrder, phase) + 1
  }

  /** `getPhaseByIndex`: the phase at 1-based position `index`, `undefined` outside 1..15. */
  function GetPhaseByIndex(index: int): (r: Option<string>)
    ensures r.Some? <==> 1 <= index <= |PhaseOrder|
    ensures r.Some? ==> r.value == PhaseOrder[index - 1]
  {
    if 1 <= index <= |PhaseOrder| then Some(PhaseOrder[index - 1]) else None
  }

  lemma PhaseOrderDistinct()
    ensures |PhaseOrder| == 15
    ensures forall i, j :: 0 <= i < j < |PhaseOrder| ==> PhaseOrder[i] != PhaseOrder[j]
  {
  }

  /** Looking a phase up by its own number gives the phase back. */
  lemma PhaseIndexRoundTrip(phase: string)
    requires phase in PhaseOrder
    ensures GetPhaseByIndex(GetPhaseIndex(phase)) == Some(phase)
  {
  }

  /** Numbering the phase at position `index` gives `index` back; this needs the order distinct. */
  lemma PhaseByIndexRoundTrip(index: int)
    requires 1 <= index <= |PhaseOrder|
    ensures GetPhaseByIndex(index).Some?
    ensures GetPhaseIndex(GetPhaseByIndex(index).value) == index
  {
    var phase := PhaseOrder[index - 1];
    PhaseOrderDistinct();
    var k := GetPhaseIndex(phase);
    assert PhaseOrder[k - 1] == phase;
  }

  /** The documentation table has an entry for every phase of the order, and no other. */
  lemma PhaseDocsCoverOrder()
    ensures forall p :: p in PhaseOrder <==> p in PhaseDocKeys
  {
  }
}
