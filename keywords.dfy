/**
 * Keyword ladders: free text is classified by the first tier one of whose keywords occurs
 * in it, with a default when none does. Every ladder in the core has this shape.
 */
module Keywords {
  import Text

  /** A tier: its keywords and the class it assigns. */
  type Tier<T> = (seq<string>, T)

  /** Position of the first tier with a keyword in `text`, or the number of tiers when none has one. */
  function TierOf<T>(text: string, tiers: seq<Tier<T>>): (k: nat)
    ensures k <= |tiers|
    ensures k < |tiers| ==> Text.ContainsAny(text, tiers[k].0)
    ensures forall j :: 0 <= j < k ==> !Text.ContainsAny(text, tiers[j].0)
  {
    if tiers == [] then 0
    else if Text.ContainsAny(text, tiers[0].0) then 0
    else 1 + TierOf(text, tiers[1..])
  }

  /** The class of the first matching tier, or `default`. */
  function Ladder<T>(text: string, tiers: seq<Tier<T>>, default: T): T {
    if tiers == [] then default
    else if Text.ContainsAny(text, tiers[0].0) then tiers[0].1
    else Ladder(text, tiers[1..], default)
  }

  /** The ladder answers with the tier `TierOf` finds. */
  lemma {:induction false} LadderIsFirstMatch<T>(text: string, tiers: seq<Tier<T>>, default: T)
    ensures Ladder(text, tiers, default) ==
      if TierOf(text, tiers) < |tiers| then tiers[TierOf(text, tiers)].1 else default
  {
    if tiers != [] && !Text.ContainsAny(text, tiers[0].0) {
      LadderIsFirstMatch(text, tiers[1..], default);
    }
  }

  /** The matching tier is unique: it is the one that matches with no earlier tier matching. */
  lemma TierOfUnique<T>(text: string, tiers: seq<Tier<T>>, k: nat)
    requires k <= |tiers|
    requires k < |tiers| ==> Text.ContainsAny(text, tiers[k].0)
    requires forall j :: 0 <= j < k ==> !Text.ContainsAny(text, tiers[j].0)
    ensures TierOf(text, tiers) == k
  {
  }

  /**
   * Text that gains more text around it can only move up the ladder: every keyword found
   * before is still found.
   */
  lemma TierOfAppend<T>(a: string, b: string, tiers: seq<Tier<T>>)
    ensures TierOf(a + b, tiers) <= TierOf(a, tiers)
    ensures TierOf(a + b, tiers) <= TierOf(b, tiers)
  {
    var ka, kb := TierOf(a, tiers), TierOf(b, tiers);
    if ka < |tiers| { Text.ContainsAnyAppend(a, b, tiers[ka].0); }
    if kb < |tiers| { Text.ContainsAnyAppend(a, b, tiers[kb].0); }
  }
}
