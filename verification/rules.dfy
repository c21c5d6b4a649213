/** Transition rules: how one slot's price derives from another price. */
module Rules {
  import opened Wrappers

  /** TransitionMethod, in the source's numeric order 0..4. */
  datatype TransitionMethod = Price | PrevDiff | PrevRatio | PrevRatioDiff | PurchaseRatio

  /** Transition(method, min, max); bounds are integers read from the form. */
  datatype Rule = Rule(kind: TransitionMethod, min: int, max: int)

  /** The rule the source leaves unset at slot 0 of every assignment. */
  const SLOT0_RULE: Rule := Rule(Price, 0, 0)

  /** The numeric code of a method (the `TransitionMethod` constants). */
  function Code(m: TransitionMethod): (c: int)
    ensures 0 <= c <= 4
  {
    match m
    case Price => 0
    case PrevDiff => 1
    case PrevRatio => 2
    case PrevRatioDiff => 3
    case PurchaseRatio => 4
  }

  /** The method a code stands for; any other code names no method. */
  function MethodOfCode(c: int): (m: Option<TransitionMethod>)
    ensures m.Some? <==> 0 <= c <= 4
    ensures m.Some? ==> Code(m.value) == c
  {
    if c == 0 then Some(Price)
    else if c == 1 then Some(PrevDiff)
    else if c == 2 then Some(PrevRatio)
    else if c == 3 then Some(PrevRatioDiff)
    else if c == 4 then Some(PurchaseRatio)
    else None
  }

  /** Methods that end a PREV_PRICE_RATIO_DIFF forward scan with their own range. */
  predicate IsAnchor(m: TransitionMethod)
  {
    m == Price || m == PrevDiff || m == PrevRatio
  }

  /**
   * A 13-slot assignment whose backward ratio steps can be inverted: the
   * backward pass divides by a PREV_PRICE_RATIO rule's bounds at slots 2..12.
   */
  predicate IsAssignment(rules: seq<Rule>)
  {
    |rules| == 13 &&
    forall k :: 2 <= k < 13 && rules[k].kind == PrevRatio ==> rules[k].min != 0 && rules[k].max != 0
  }

  /** A single rule whose division in the backward pass is defined. */
  predicate Invertible(r: Rule)
  {
    r.kind == PrevRatio ==> r.min != 0 && r.max != 0
  }
}
