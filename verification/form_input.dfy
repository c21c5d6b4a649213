/**
 * The numeric reads of the price and parameter forms. The value parseInt
 * gives a field is taken as given: None stands for NaN. A zero counts as
 * "nothing entered", as JavaScript truthiness makes it.
 */
module FormInput {
  import opened Wrappers
  import opened Rules

  /** The bounds of a price field. */
  const MIN_INPUT: int := 0
  const MAX_INPUT: int := 2000

  /** isBetween: a number, non-zero, inside [min, max]. */
  predicate IsBetween(v: Option<int>, min: int, max: int)
  {
    v.Some? && v.value != 0 && min <= v.value <= max
  }

  /** A price field accepts exactly the numbers 1 .. 2000; a zero is read as absent. */
  lemma PriceFieldRange(v: Option<int>)
    ensures IsBetween(v, MIN_INPUT, MAX_INPUT) <==> v.Some? && 1 <= v.value <= MAX_INPUT
    ensures !IsBetween(Some(0), MIN_INPUT, MAX_INPUT) && !IsBetween(None, MIN_INPUT, MAX_INPUT)
  {
  }

  /** One price field of readPricesFromInput: its number when isBetween accepts it, else absent (0). */
  function ReadPrice(v: Option<int>): (r: int)
    ensures MIN_INPUT <= r <= MAX_INPUT
    ensures r != 0 <==> IsBetween(v, MIN_INPUT, MAX_INPUT)
    ensures r != 0 ==> v == Some(r)
  {
    if IsBetween(v, MIN_INPUT, MAX_INPUT) then v.value else 0
  }

  /** readPricesFromInput: every field read as a price. */
  function ReadPrices(fields: seq<Option<int>>): (p: seq<int>)
    ensures |p| == |fields|
    ensures forall k :: 0 <= k < |p| ==> MIN_INPUT <= p[k] <= MAX_INPUT
    ensures forall k :: 0 <= k < |p| ==> (p[k] != 0 <==> IsBetween(fields[k], MIN_INPUT, MAX_INPUT))
  {
    seq(|fields|, k requires 0 <= k < |fields| => ReadPrice(fields[k]))
  }

  /**
   * parseIntWithDefault as written: the default replaces NaN and also a
   * parsed 0, since only a truthy value is kept.
   */
  function ParseIntWithDefault(v: Option<int>, d: int): (r: int)
    ensures v.None? || v == Some(0) ==> r == d
    ensures v.Some? && v.value != 0 ==> r == v.value
  {
    if v.Some? && v.value != 0 then v.value else d
  }

  /** The default replaces only NaN: a parsed 0 is kept. */
  function ParseIntOrDefault(v: Option<int>, d: int): (r: int)
    ensures v.None? ==> r == d
    ensures v.Some? ==> r == v.value
  {
    if v.Some? then v.value else d
  }

  /** The two parses differ exactly on a parsed 0 whose default is not 0. */
  lemma ParsesAgree(v: Option<int>, d: int)
    ensures ParseIntWithDefault(v, d) == ParseIntOrDefault(v, d) <==> v != Some(0) || d == 0
  {
  }

  /** The transition-method field as the form reads it: its option's code, -1 when unreadable. */
  function ReadMethodAsWritten(v: Option<int>): (m: Option<TransitionMethod>)
    ensures m.Some? ==> v == Some(Code(m.value)) && m.value != Price
  {
    MethodOfCode(ParseIntWithDefault(v, -1))
  }

  /** The transition-method field read with the corrected parse. */
  function ReadMethod(v: Option<int>): (m: Option<TransitionMethod>)
    ensures m.Some? ==> v == Some(Code(m.value))
  {
    MethodOfCode(ParseIntOrDefault(v, -1))
  }

  /**
   * Choosing PRICE (option value 0) in the form reads back as -1, a code of
   * no method; every other method reads back as itself.
   */
  lemma PriceMethodLost()
    ensures ParseIntWithDefault(Some(Code(Price)), -1) == -1
    ensures ReadMethodAsWritten(Some(Code(Price))) == None
    ensures forall m :: m != Price ==> ReadMethodAsWritten(Some(Code(m))) == Some(m)
  {
    forall m | m != Price
      ensures ReadMethodAsWritten(Some(Code(m))) == Some(m)
    {
      MethodCodeRoundTrip(m);
    }
  }

  /** With the corrected parse every method's option value reads back as that method. */
  lemma MethodCodeRoundTrip(m: TransitionMethod)
    ensures MethodOfCode(Code(m)) == Some(m)
    ensures ReadMethod(Some(Code(m))) == Some(m)
  {
  }

  /** A field that is not a number reads as no method, with either parse. */
  lemma UnreadableMethod()
    ensures ReadMethod(None) == None && ReadMethodAsWritten(None) == None
  {
  }
}
