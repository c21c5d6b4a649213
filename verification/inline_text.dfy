/**
 * The one-line price text of the form: `P A1/B1 A2/B2 ...` with the purchase
 * price first, then each day's morning/afternoon pair. Absent prices leave
 * their place empty; trailing separators are dropped.
 */
module InlineText {
  import opened Wrappers

  // ---------------------------------------------------------------------
  // Characters and decimal numerals
  // ---------------------------------------------------------------------

  predicate IsDigit(c: char)
  {
    '0' <= c <= '9'
  }

  /** The characters the class [^0-9/] matches. */
  predicate IsRunChar(c: char)
  {
    !IsDigit(c) && c != '/'
  }

  predicate AllDigits(s: string)
  {
    forall i :: 0 <= i < |s| ==> IsDigit(s[i])
  }

  predicate AllRun(s: string)
  {
    forall i :: 0 <= i < |s| ==> IsRunChar(s[i])
  }

  predicate NoDigits(s: string)
  {
    forall i :: 0 <= i < |s| ==> !IsDigit(s[i])
  }

  function DigitChar(d: nat): (c: char)
    requires d < 10
    ensures IsDigit(c) && c as int - '0' as int == d
  {
    ('0' as int + d) as char
  }

  /** The decimal numeral of n, as a number prints. */
  function Dec(n: nat): (s: string)
    ensures |s| >= 1 && AllDigits(s)
    ensures n > 0 ==> s[0] != '0'
  {
    if n < 10 then [DigitChar(n)] else Dec(n / 10) + [DigitChar(n % 10)]
  }

  /** The value of a numeral. */
  function DecValue(s: string): nat
    requires AllDigits(s)
  {
    if |s| == 0 then 0 else 10 * DecValue(s[..|s| - 1]) + (s[|s| - 1] as int - '0' as int)
  }

  lemma {:induction false} DecRoundTrip(n: nat)
    ensures DecValue(Dec(n)) == n
  {
    if n >= 10 {
      var s := Dec(n);
      assert s[..|s| - 1] == Dec(n / 10);
      DecRoundTrip(n / 10);
    }
  }

  // ---------------------------------------------------------------------
  // Writing
  // ---------------------------------------------------------------------

  predicate NonNegative(p: seq<int>)
  {
    forall k :: 0 <= k < |p| ==> p[k] >= 0
  }

  /** A sell slot's text: its numeral, or nothing when the price is absent. */
  function Token(v: nat): (t: string)
    ensures AllDigits(t) && (|t| == 0 <==> v == 0)
  {
    if v != 0 then Dec(v) else ""
  }

  /** Slot k's text; the purchase slot shows "0" when absent. */
  function SlotText(p: seq<int>, k: nat): (t: string)
    requires k < |p| && p[k] >= 0
    ensures AllDigits(t)
    ensures k == 0 ==> |t| > 0
    ensures k > 0 ==> (|t| == 0 <==> p[k] == 0)
  {
    if k == 0 && p[0] == 0 then "0" else Token(p[k])
  }

  /** The texts of slots 0 .. n-1. */
  function Slots(p: seq<int>, n: nat): (ts: seq<string>)
    requires n <= |p| && NonNegative(p)
    ensures |ts| == n
  {
    if n == 0 then [] else Slots(p, n - 1) + [SlotText(p, n - 1)]
  }

  lemma {:induction false} SlotsAt(p: seq<int>, n: nat)
    requires n <= |p| && NonNegative(p)
    ensures forall k :: 0 <= k < n ==> Slots(p, n)[k] == SlotText(p, k)
  {
    if n > 0 {
      SlotsAt(p, n - 1);
    }
  }

  lemma {:induction false} SlotsPrefix(p: seq<int>, n: nat, m: nat)
    requires m <= n <= |p| && NonNegative(p)
    ensures Slots(p, n)[..m] == Slots(p, m)
  {
    if m < n {
      SlotsPrefix(p, n - 1, m);
      assert Slots(p, n)[..m] == Slots(p, n - 1)[..m];
    }
  }

  /** The separator after slot k: a space after the purchase and each afternoon, '/' after each morning. */
  function Sep(k: nat): char
  {
    if k % 2 == 0 then ' ' else '/'
  }

  /** What the writer leaves after slot k before trimming. */
  function Trailer(k: nat): string
  {
    if k % 2 == 0 then " " else ""
  }

  /** The slot texts with their separators between them. */
  function Interleaved(ts: seq<string>): string
    requires |ts| >= 1
  {
    if |ts| == 1 then ts[0] else Interleaved(ts[..|ts| - 1]) + [Sep(|ts| - 2)] + ts[|ts| - 1]
  }

  /** Removes the trailing non-digits, as the replace with [^0-9]+$ does. */
  function StripTrailing(s: string): (r: string)
    ensures |r| <= |s|
  {
    if |s| > 0 && !IsDigit(s[|s| - 1]) then StripTrailing(s[..|s| - 1]) else s
  }

  /** Trimming keeps a prefix that is empty or ends in a digit, and removes only non-digits. */
  lemma {:induction false} StripTrailingMeaning(s: string)
    ensures var r := StripTrailing(s);
      s[..|r|] == r && (r == "" || IsDigit(r[|r| - 1])) && NoDigits(s[|r|..])
  {
    if |s| > 0 && !IsDigit(s[|s| - 1]) {
      var r := StripTrailing(s[..|s| - 1]);
      StripTrailingMeaning(s[..|s| - 1]);
      assert s[..|s| - 1][|r|..] + [s[|s| - 1]] == s[|r|..];
    }
  }

  /** The text writePricesToInlineInput puts in the field for a price vector. */
  function Formatted(p: seq<int>): string
    requires |p| >= 1 && NonNegative(p)
  {
    StripTrailing(Draft(p, |p|))
  }

  /** The writer's text after the first n slots, before trimming. */
  function Draft(p: seq<int>, n: nat): string
    requires 1 <= n <= |p| && NonNegative(p)
  {
    Interleaved(Slots(p, n)) + Trailer(n - 1)
  }

  /** The slot texts that survive trimming: up to the last present price, or the purchase slot alone. */
  function Shown(p: seq<int>): (ts: seq<string>)
    requires |p| >= 1 && NonNegative(p)
    ensures |ts| == LastShown(p, |p|) + 1
  {
    Slots(p, LastShown(p, |p|) + 1)
  }

  /** One more slot of the interleaved text: the separator before slot i, then its text. */
  lemma {:induction false} InterleavedSlots(p: seq<int>, i: nat)
    requires 1 <= i < |p| && NonNegative(p)
    ensures Interleaved(Slots(p, i + 1)) == Interleaved(Slots(p, i)) + [Sep(i - 1)] + SlotText(p, i)
  {
    assert Slots(p, i + 1)[..i] == Slots(p, i);
  }

  /** What the writer puts before slot i: a '/' before each afternoon. */
  function Opener(i: nat): string
  {
    if i % 2 == 0 then "/" else ""
  }

  /** Each step of the writer adds the opener, the slot's text and the trailer of slot i. */
  lemma {:induction false} DraftStep(p: seq<int>, i: nat)
    requires 1 <= i < |p| && NonNegative(p)
    ensures Draft(p, i + 1) == Draft(p, i) + Opener(i) + SlotText(p, i) + Trailer(i)
  {
    InterleavedSlots(p, i);
    SeparatorPieces(i);
    Regroup(Interleaved(Slots(p, i)), Trailer(i - 1), Opener(i), [Sep(i - 1)], SlotText(p, i), Trailer(i));
  }

  /** The trailer of slot i - 1 and the opener of slot i together make the separator between them. */
  lemma SeparatorPieces(i: nat)
    requires i >= 1
    ensures Trailer(i - 1) + Opener(i) == [Sep(i - 1)]
  {
    if i % 2 == 0 {
      assert Trailer(i - 1) == "" && Opener(i) == "/";
    } else {
      assert Trailer(i - 1) == " " && Opener(i) == "";
    }
  }

  lemma Regroup(a: string, b: string, c: string, m: string, d: string, e: string)
    requires b + c == m
    ensures a + m + d + e == a + b + c + d + e
  {
    assert a + b + c == a + m;
  }

  /** writePricesToInlineInput: nothing is written for a missing vector. */
  method WriteInline(prices: Option<seq<int>>) returns (text: Option<string>)
    requires prices.Some? ==> |prices.value| >= 1 && NonNegative(prices.value)
    ensures prices.None? ==> text.None?
    ensures prices.Some? ==> text == Some(Formatted(prices.value))
  {
    if prices.None? {
      return None;
    }
    var p := prices.value;
    var s := (if p[0] != 0 then Dec(p[0]) else "0") + " ";
    assert Slots(p, 1) == [SlotText(p, 0)];
    for i := 1 to |p|
      invariant s == Draft(p, i)
    {
      DraftStep(p, i);
      if i % 2 == 0 {
        s := s + "/";
      }
      assert s == Draft(p, i) + Opener(i);
      if p[i] != 0 {
        s := s + Dec(p[i]);
      }
      assert s == Draft(p, i) + Opener(i) + SlotText(p, i);
      if i % 2 == 0 {
        s := s + " ";
      }
    }
    text := Some(StripTrailing(s));
  }

  // ---------------------------------------------------------------------
  // Reading
  // ---------------------------------------------------------------------

  /** Removes the leading non-digits, as the replace with ^[^0-9]+ does. */
  function StripLeading(s: string): (r: string)
    ensures |r| <= |s|
  {
    if |s| > 0 && !IsDigit(s[0]) then StripLeading(s[1..]) else s
  }

  /** Trimming keeps a suffix that is empty or starts with a digit, and removes only non-digits. */
  lemma {:induction false} StripLeadingMeaning(s: string)
    ensures var r := StripLeading(s);
      s[|s| - |r|..] == r && (r == "" || IsDigit(r[0])) && NoDigits(s[..|s| - |r|])
  {
    if |s| > 0 && !IsDigit(s[0]) {
      var r := StripLeading(s[1..]);
      StripLeadingMeaning(s[1..]);
      assert [s[0]] + s[1..][..|s| - 1 - |r|] == s[..|s| - |r|];
    }
  }

  /** Drops the maximal leading run of [^0-9/] characters (DropRunMeaning). */
  function DropRun(s: string): (r: string)
    ensures |r| <= |s|
    ensures |s| > 0 && IsRunChar(s[0]) ==> |r| < |s|
  {
    if |s| > 0 && IsRunChar(s[0]) then DropRun(s[1..]) else s
  }

  /** The replace of [^0-9/]+|[/] by a space: each '/' and each run of other non-digits becomes one space. */
  function Normalize(s: string): string
    decreases |s|
  {
    if |s| == 0 then ""
    else if s[0] == '/' then " " + Normalize(s[1..])
    else if IsDigit(s[0]) then [s[0]] + Normalize(s[1..])
    else " " + Normalize(DropRun(s))
  }

  /** Splitting on ' ', keeping empty pieces, as String.split(' ') does. */
  function Split(s: string): (r: seq<string>)
    ensures |r| >= 1
  {
    if |s| == 0 then [""]
    else if s[|s| - 1] == ' ' then Split(s[..|s| - 1]) + [""]
    else
      var t := Split(s[..|s| - 1]);
      t[..|t| - 1] + [t[|t| - 1] + [s[|s| - 1]]]
  }

  /** Joins tokens with single spaces. */
  function Join(ts: seq<string>): (s: string)
    requires |ts| >= 1
    ensures |s| >= |ts[0]|
  {
    if |ts| == 1 then ts[0] else Join(ts[..|ts| - 1]) + " " + ts[|ts| - 1]
  }

  /**
   * readPricesFromInlineInput: the field's text as tokens. It is None exactly
   * when the text has no digit; otherwise every token is a (possibly empty)
   * numeral, and the first and last are not empty.
   */
  function ReadInline(text: string): (r: Option<seq<string>>)
    ensures r.None? <==> NoDigits(text)
    ensures r.Some? ==> |r.value| >= 1 && r.value[0] != "" && r.value[|r.value| - 1] != ""
    ensures r.Some? ==> forall k :: 0 <= k < |r.value| ==> AllDigits(r.value[k])
  {
    var trimmed := StripTrailing(StripLeading(text));
    TrimmedMeaning(text);
    var normalized := Normalize(trimmed);
    NormalizeChars(trimmed);
    NormalizeEnds(trimmed);
    SplitDigits(normalized);
    if normalized == "" then None
    else
      SplitEnds(normalized);
      Some(Split(normalized))
  }

  // ---------------------------------------------------------------------
  // Lemmas
  // ---------------------------------------------------------------------

  /** Neither end of x + y is a [^0-9/] character, so no run spans the seam. */
  predicate Seam(x: string, y: string)
  {
    x == "" || y == "" || !IsRunChar(x[|x| - 1]) || !IsRunChar(y[0])
  }

  /** Trimming both ends leaves text that starts and ends with a digit, and nothing exactly when there is no digit. */
  lemma TrimmedMeaning(text: string)
    ensures var t := StripTrailing(StripLeading(text));
      (t == "" <==> NoDigits(text)) && (t != "" ==> IsDigit(t[0]) && IsDigit(t[|t| - 1]))
  {
    var l := StripLeading(text);
    var t := StripTrailing(l);
    StripLeadingMeaning(text);
    StripTrailingMeaning(l);
    var pre := text[..|text| - |l|];
    if t == "" {
      assert text == pre + l;
      NoDigitsConcat(pre, l);
    } else {
      TrimmedSomething(text, pre, l, t);
    }
  }

  /** A non-empty trimmed text starts with a digit of the text, so the text has a digit. */
  lemma TrimmedSomething(text: string, pre: string, l: string, t: string)
    requires |pre| + |l| == |text| && text[|pre|..] == l && l != "" && IsDigit(l[0])
    requires t != "" && |t| <= |l| && l[..|t|] == t
    ensures t[0] == l[0] && !NoDigits(text)
  {
    assert text[|pre|] == l[0];
  }

  lemma NoDigitsConcat(a: string, b: string)
    requires NoDigits(a) && NoDigits(b)
    ensures NoDigits(a + b)
  {
    forall i | 0 <= i < |a + b|
      ensures !IsDigit((a + b)[i])
    {
      if i < |a| {
        assert (a + b)[i] == a[i];
      } else {
        assert (a + b)[i] == b[i - |a|];
      }
    }
  }

  /** Every character Normalize produces is a digit or a space. */
  lemma {:induction false} NormalizeChars(s: string)
    ensures forall i :: 0 <= i < |Normalize(s)| ==> IsDigit(Normalize(s)[i]) || Normalize(s)[i] == ' '
    decreases |s|
  {
    if |s| > 0 {
      if s[0] == '/' || IsDigit(s[0]) {
        NormalizeChars(s[1..]);
      } else {
        NormalizeChars(DropRun(s));
      }
    }
  }

  /** Normalize keeps a leading and a trailing digit, and leaves text empty only when it was. */
  lemma {:induction false} NormalizeEnds(s: string)
    ensures Normalize(s) == "" <==> s == ""
    ensures s != "" && IsDigit(s[0]) ==> Normalize(s)[0] == s[0]
    ensures s != "" && IsDigit(s[|s| - 1]) ==> Normalize(s) != "" && Normalize(s)[|Normalize(s)| - 1] == s[|s| - 1]
    decreases |s|
  {
    if |s| > 1 {
      if s[0] == '/' || IsDigit(s[0]) {
        NormalizeEnds(s[1..]);
      } else {
        DropRunMeaning(s);
        DropRunLast(s);
        NormalizeEnds(DropRun(s));
      }
    }
  }

  /** Splitting text of digits and spaces gives numerals. */
  lemma {:induction false} SplitDigits(s: string)
    requires forall i :: 0 <= i < |s| ==> IsDigit(s[i]) || s[i] == ' '
    ensures forall k :: 0 <= k < |Split(s)| ==> AllDigits(Split(s)[k])
  {
    if |s| > 0 {
      SplitDigits(s[..|s| - 1]);
    }
  }

  /** Text that starts and ends with a non-space splits into a first and a last token that are not empty. */
  lemma {:induction false} SplitEnds(s: string)
    requires s != "" && s[0] != ' ' && s[|s| - 1] != ' '
    ensures var r := Split(s); r[0] != "" && r[|r| - 1] != ""
  {
    var front := s[..|s| - 1];
    if front != "" && front[|front| - 1] != ' ' {
      SplitEnds(front);
    } else if front != "" {
      SplitFirst(front);
    }
  }

  /** Text that starts with a non-space splits into a first token that is not empty. */
  lemma {:induction false} SplitFirst(s: string)
    requires s != "" && s[0] != ' '
    ensures Split(s)[0] != ""
  {
    if |s| > 1 {
      SplitFirst(s[..|s| - 1]);
    }
  }

  /** DropRun removes exactly the maximal leading run: a prefix of run characters, then a non-run character or nothing. */
  lemma {:induction false} DropRunMeaning(s: string)
    ensures var r := DropRun(s);
      s == s[..|s| - |r|] + r && AllRun(s[..|s| - |r|]) && (r == "" || !IsRunChar(r[0]))
  {
    if |s| > 0 && IsRunChar(s[0]) {
      var r := DropRun(s[1..]);
      DropRunMeaning(s[1..]);
      assert s[..|s| - |r|] == [s[0]] + s[1..][..|s| - 1 - |r|];
    }
  }

  /** What is left after dropping a run is a suffix: its last character is the input's. */
  lemma {:induction false} DropRunLast(s: string)
    ensures var r := DropRun(s); r != "" ==> r[|r| - 1] == s[|s| - 1]
  {
    if |s| > 0 && IsRunChar(s[0]) {
      DropRunLast(s[1..]);
    }
  }

  lemma {:induction false} DropRunAppend(x: string, y: string)
    requires y == "" || !IsRunChar(y[0]) || (x != "" && !IsRunChar(x[|x| - 1]))
    ensures DropRun(x + y) == DropRun(x) + y
  {
    if x != "" && IsRunChar(x[0]) {
      assert (x + y)[1..] == x[1..] + y;
      DropRunAppend(x[1..], y);
    } else if x == "" {
      assert x + y == y;
    }
  }

  lemma {:induction false} NormalizeAppend(x: string, y: string)
    requires Seam(x, y)
    ensures Normalize(x + y) == Normalize(x) + Normalize(y)
    decreases |x|, 1
  {
    if x == "" {
      assert x + y == y;
    } else if x[0] == '/' || IsDigit(x[0]) {
      NormalizeAppendHead(x, y);
    } else {
      NormalizeAppendRun(x, y);
    }
  }

  /** NormalizeAppend when x starts with '/' or a digit: that character is handled alone. */
  lemma {:induction false} NormalizeAppendHead(x: string, y: string)
    requires Seam(x, y) && x != "" && (x[0] == '/' || IsDigit(x[0]))
    ensures Normalize(x + y) == Normalize(x) + Normalize(y)
    decreases |x|, 0
  {
    assert (x + y)[0] == x[0];
    assert (x + y)[1..] == x[1..] + y;
    NormalizeAppend(x[1..], y);
  }

  /** NormalizeAppend when x starts with a run: the run does not reach into y. */
  lemma {:induction false} NormalizeAppendRun(x: string, y: string)
    requires Seam(x, y) && x != "" && IsRunChar(x[0])
    ensures Normalize(x + y) == Normalize(x) + Normalize(y)
    decreases |x|, 0
  {
    var d := DropRun(x);
    DropRunAppend(x, y);
    DropRunLast(x);
    NormalizeAppend(d, y);
    NormalizeRunStart(x + y, d + y);
    NormalizeRunStart(x, d);
  }

  /** Text starting with a [^0-9/] run normalizes to one space and the rest. */
  lemma NormalizeRunStart(s: string, rest: string)
    requires s != "" && IsRunChar(s[0]) && rest == DropRun(s)
    ensures Normalize(s) == " " + Normalize(rest)
  {
  }

  lemma {:induction false} NormalizeDigits(t: string)
    requires AllDigits(t)
    ensures Normalize(t) == t
  {
    if t != "" {
      NormalizeDigits(t[1..]);
    }
  }

  /** Interleaved text ends in a digit of its last token, in the separator before it, or is empty. */
  lemma {:induction false} InterleavedEnd(ts: seq<string>)
    requires |ts| >= 1 && forall k :: 0 <= k < |ts| ==> AllDigits(ts[k])
    ensures var s := Interleaved(ts);
      s == "" || IsDigit(s[|s| - 1]) || (|ts| >= 2 && s[|s| - 1] == Sep(|ts| - 2))
  {
  }

  lemma {:induction false} InterleavedStart(ts: seq<string>)
    requires |ts| >= 1 && |ts[0]| > 0
    ensures Interleaved(ts) != "" && Interleaved(ts)[0] == ts[0][0]
  {
    if |ts| > 1 {
      assert ts[..|ts| - 1][0] == ts[0];
      InterleavedStart(ts[..|ts| - 1]);
    }
  }

  /** Normalizing the interleaved text turns every separator into one space. */
  lemma {:induction false} NormalizeInterleaved(ts: seq<string>)
    requires |ts| >= 1 && forall k :: 0 <= k < |ts| ==> AllDigits(ts[k])
    ensures Normalize(Interleaved(ts)) == Join(ts)
  {
    var t := ts[|ts| - 1];
    NormalizeDigits(t);
    if |ts| > 1 {
      var front := ts[..|ts| - 1];
      var sep := Sep(|ts| - 2);
      InterleavedEnd(front);
      NormalizeAppend(Interleaved(front), [sep]);
      NormalizeAppend(Interleaved(front) + [sep], t);
      assert Normalize([sep]) == " " by {
        if sep == ' ' {
          assert DropRun([sep]) == "";
        }
      }
      NormalizeInterleaved(front);
    }
  }

  lemma {:induction false} SplitAppend(x: string, t: string)
    requires ' ' !in t
    ensures Split(x + " " + t) == Split(x) + [t]
  {
    if t == "" {
      assert x + " " + t == x + " ";
      assert (x + " ")[..|x|] == x;
    } else {
      var t' := t[..|t| - 1];
      assert t[|t| - 1] != ' ' && t' + [t[|t| - 1]] == t;
      assert (x + " " + t)[..|x + " " + t| - 1] == x + " " + t';
      SplitAppend(x, t');
    }
  }

  lemma {:induction false} SplitToken(t: string)
    requires ' ' !in t
    ensures Split(t) == [t]
  {
    if t != "" {
      var t' := t[..|t| - 1];
      assert t[|t| - 1] != ' ' && t' + [t[|t| - 1]] == t;
      SplitToken(t');
    }
  }

  lemma {:induction false} SplitJoin(ts: seq<string>)
    requires |ts| >= 1 && forall k :: 0 <= k < |ts| ==> ' ' !in ts[k]
    ensures Split(Join(ts)) == ts
  {
    if |ts| == 1 {
      SplitToken(ts[0]);
    } else {
      SplitAppend(Join(ts[..|ts| - 1]), ts[|ts| - 1]);
      SplitJoin(ts[..|ts| - 1]);
    }
  }

  /** The last slot shown: the highest slot with a price, or the purchase slot. */
  function LastShown(p: seq<int>, n: nat): (k: nat)
    requires 1 <= n <= |p|
    ensures k < n && (k == 0 || p[k] != 0)
    ensures forall j :: k < j < n ==> p[j] == 0
  {
    if n == 1 || p[n - 1] != 0 then n - 1 else LastShown(p, n - 1)
  }

  /** Everything after the last non-empty token is separators. */
  lemma {:induction false} InterleavedTail(ts: seq<string>, last: nat)
    requires last < |ts| && forall j :: last < j < |ts| ==> |ts[j]| == 0
    ensures var x := Interleaved(ts[..last + 1]);
      |x| <= |Interleaved(ts)| && Interleaved(ts)[..|x|] == x && NoDigits(Interleaved(ts)[|x|..])
  {
    if |ts| > last + 1 {
      var front := ts[..|ts| - 1];
      assert front[..last + 1] == ts[..last + 1];
      InterleavedTail(front, last);
    } else {
      assert ts[..last + 1] == ts;
    }
  }

  lemma {:induction false} StripTrailingAfterDigit(x: string, y: string)
    requires x != "" && IsDigit(x[|x| - 1]) && NoDigits(y)
    ensures StripTrailing(x + y) == x
  {
    if y != "" {
      assert (x + y)[..|x + y| - 1] == x + y[..|y| - 1];
      StripTrailingAfterDigit(x, y[..|y| - 1]);
    } else {
      assert x + y == x;
    }
  }

  /** The interleaved text ends with the last character of its last token when that is not empty. */
  lemma {:induction false} InterleavedLast(ts: seq<string>)
    requires |ts| >= 1 && |ts[|ts| - 1]| > 0
    ensures var s := Interleaved(ts); var t := ts[|ts| - 1];
      s != "" && s[|s| - 1] == t[|t| - 1]
  {
  }

  lemma {:induction false} StripTrailingShown(whole: string, x: string, tail: string)
    requires |x| <= |whole| && whole[..|x|] == x && NoDigits(whole[|x|..]) && NoDigits(tail)
    requires x != "" && IsDigit(x[|x| - 1])
    ensures StripTrailing(whole + tail) == x
  {
    assert whole + tail == x + (whole[|x|..] + tail);
    StripTrailingAfterDigit(x, whole[|x|..] + tail);
  }

  /** The interleaved prefix up to `last` ends in a digit when token `last` is a non-empty numeral. */
  lemma {:induction false} ShownEndsInDigit(ts: seq<string>, last: nat)
    requires last < |ts| && |ts[last]| > 0 && AllDigits(ts[last])
    ensures var x := Interleaved(ts[..last + 1]); x != "" && IsDigit(x[|x| - 1])
  {
    var shown := ts[..last + 1];
    assert shown[|shown| - 1] == ts[last];
    InterleavedLast(shown);
  }

  lemma {:induction false} StripAfterShown(ts: seq<string>, last: nat, k: nat)
    requires last < |ts|
    requires var x := Interleaved(ts[..last + 1]); x != "" && IsDigit(x[|x| - 1])
    requires var x := Interleaved(ts[..last + 1]);
      |x| <= |Interleaved(ts)| && Interleaved(ts)[..|x|] == x && NoDigits(Interleaved(ts)[|x|..])
    ensures StripTrailing(Interleaved(ts) + Trailer(k)) == Interleaved(ts[..last + 1])
  {
    assert NoDigits(Trailer(k));
    StripTrailingShown(Interleaved(ts), Interleaved(ts[..last + 1]), Trailer(k));
  }

  /** Trimming interleaved text whose tokens after `last` are all empty leaves the tokens up to `last`. */
  lemma {:induction false} StripInterleaved(ts: seq<string>, last: nat, k: nat)
    requires last < |ts| && |ts[last]| > 0 && AllDigits(ts[last])
    requires forall j :: last < j < |ts| ==> |ts[j]| == 0
    ensures StripTrailing(Interleaved(ts) + Trailer(k)) == Interleaved(ts[..last + 1])
  {
    InterleavedTail(ts, last);
    ShownEndsInDigit(ts, last);
    StripAfterShown(ts, last, k);
  }

  /** Interleaved digit tokens whose first and last are not empty start and end with a digit. */
  lemma {:induction false} InterleavedEnds(ts: seq<string>)
    requires |ts| >= 1 && |ts[0]| > 0 && |ts[|ts| - 1]| > 0
    requires forall k :: 0 <= k < |ts| ==> AllDigits(ts[k])
    ensures var s := Interleaved(ts); s != "" && IsDigit(s[0]) && IsDigit(s[|s| - 1])
  {
    InterleavedStart(ts);
    InterleavedLast(ts);
    assert AllDigits(ts[0]) && AllDigits(ts[|ts| - 1]);
  }

  /** Digit tokens with non-empty ends, interleaved, read back as themselves. */
  lemma {:induction false} ReadInterleaved(ts: seq<string>)
    requires |ts| >= 1 && |ts[0]| > 0 && |ts[|ts| - 1]| > 0
    requires forall k :: 0 <= k < |ts| ==> AllDigits(ts[k])
    ensures ReadInline(Interleaved(ts)) == Some(ts)
  {
    var x := Interleaved(ts);
    InterleavedEnds(ts);
    assert StripLeading(x) == x;
    assert StripTrailing(x) == x;
    NormalizeInterleaved(ts);
    forall k | 0 <= k < |ts|
      ensures ' ' !in ts[k]
    {
      assert AllDigits(ts[k]);
    }
    SplitJoin(ts);
  }

  // ---------------------------------------------------------------------
  // Typed text
  // ---------------------------------------------------------------------

  /** A separator someone may type between two numbers: one '/', or a run of [^0-9/] characters. */
  predicate TypedSep(sep: string)
  {
    sep == "/" || (sep != "" && AllRun(sep))
  }

  /** Tokens with the given separators between them. */
  function Typed(ts: seq<string>, seps: seq<string>): string
    requires |ts| >= 1 && |seps| == |ts| - 1
  {
    if |ts| == 1 then ts[0]
    else Typed(ts[..|ts| - 1], seps[..|seps| - 1]) + seps[|seps| - 1] + ts[|ts| - 1]
  }

  /**
   * Typed text the reader gives back unchanged: numerals, the first and last
   * not empty, and each empty one beside a '/', since two runs around an empty
   * place merge into one.
   */
  predicate Readable(ts: seq<string>, seps: seq<string>)
  {
    |ts| >= 1 && |seps| == |ts| - 1 && |ts[0]| > 0 && |ts[|ts| - 1]| > 0 &&
    (forall k :: 0 <= k < |ts| ==> AllDigits(ts[k])) &&
    (forall k :: 0 <= k < |seps| ==> TypedSep(seps[k])) &&
    (forall k :: 0 < k < |ts| - 1 && ts[k] == "" ==> seps[k - 1] == "/" || seps[k] == "/")
  }

  /** Each separator normalizes to one space. */
  lemma SepNormalizes(sep: string)
    requires TypedSep(sep)
    ensures Normalize(sep) == " "
  {
    if sep != "/" {
      DropRunMeaning(sep);
      assert DropRun(sep) == "";
    }
  }

  /** Typed text ends in its last token's last character, or in its last separator's when that token is empty. */
  lemma TypedEnd(ts: seq<string>, seps: seq<string>)
    requires |ts| >= 2 && |seps| == |ts| - 1 && seps[|seps| - 1] != ""
    ensures var s := Typed(ts, seps); var t := ts[|ts| - 1]; var sep := seps[|seps| - 1];
      s != "" && s[|s| - 1] == (if t != "" then t[|t| - 1] else sep[|sep| - 1])
  {
  }

  lemma {:induction false} TypedStart(ts: seq<string>, seps: seq<string>)
    requires |ts| >= 1 && |seps| == |ts| - 1 && |ts[0]| > 0
    ensures Typed(ts, seps) != "" && Typed(ts, seps)[0] == ts[0][0]
  {
    if |ts| > 1 {
      assert ts[..|ts| - 1][0] == ts[0];
      TypedStart(ts[..|ts| - 1], seps[..|seps| - 1]);
    }
  }

  /** No run of [^0-9/] characters spans the end of the typed text before separator k. */
  lemma TypedSeam(ts: seq<string>, seps: seq<string>)
    requires |ts| >= 2 && |seps| == |ts| - 1
    requires forall k :: 0 <= k < |ts| ==> AllDigits(ts[k])
    requires forall k :: 0 <= k < |seps| ==> TypedSep(seps[k])
    requires forall k :: 0 < k < |ts| - 1 && ts[k] == "" ==> seps[k - 1] == "/" || seps[k] == "/"
    ensures Seam(Typed(ts[..|ts| - 1], seps[..|seps| - 1]), seps[|seps| - 1])
  {
    var front, fseps := ts[..|ts| - 1], seps[..|seps| - 1];
    var t := front[|front| - 1];
    if t != "" {
      assert AllDigits(ts[|ts| - 2]);
      if |front| >= 2 {
        TypedEnd(front, fseps);
      }
    } else if |front| >= 2 {
      assert TypedSep(seps[|ts| - 3]);
      TypedEnd(front, fseps);
    }
  }

  /** Normalizing typed text turns every separator into one space. */
  lemma {:induction false} NormalizeTyped(ts: seq<string>, seps: seq<string>)
    requires |ts| >= 1 && |seps| == |ts| - 1
    requires forall k :: 0 <= k < |ts| ==> AllDigits(ts[k])
    requires forall k :: 0 <= k < |seps| ==> TypedSep(seps[k])
    requires forall k :: 0 < k < |ts| - 1 && ts[k] == "" ==> seps[k - 1] == "/" || seps[k] == "/"
    ensures Normalize(Typed(ts, seps)) == Join(ts)
  {
    var t := ts[|ts| - 1];
    NormalizeDigits(t);
    if |ts| > 1 {
      var front, fseps := ts[..|ts| - 1], seps[..|seps| - 1];
      var sep := seps[|seps| - 1];
      TypedSeam(ts, seps);
      NormalizeAppend(Typed(front, fseps), sep);
      NormalizeAppend(Typed(front, fseps) + sep, t);
      SepNormalizes(sep);
      NormalizeTyped(front, fseps);
    }
  }

  /** Readable typed text reads back as its tokens: each '/' and each run between numbers is one separator. */
  lemma ReadTyped(ts: seq<string>, seps: seq<string>)
    requires Readable(ts, seps)
    ensures ReadInline(Typed(ts, seps)) == Some(ts)
  {
    var x := Typed(ts, seps);
    TypedStart(ts, seps);
    assert AllDigits(ts[0]) && AllDigits(ts[|ts| - 1]);
    assert x[|x| - 1] == ts[|ts| - 1][|ts[|ts| - 1]| - 1];
    assert StripLeading(x) == x;
    assert StripTrailing(x) == x;
    NormalizeTyped(ts, seps);
    forall k | 0 <= k < |ts|
      ensures ' ' !in ts[k]
    {
      assert AllDigits(ts[k]);
    }
    SplitJoin(ts);
  }

  /** A worked example: "95,  100/ 90" reads as the purchase price, Monday morning, an empty afternoon and Tuesday morning. */
  lemma ReadTypedExample()
    ensures ReadInline("95,  100/ 90") == Some(["95", "100", "", "90"])
  {
    var ts, seps := ["95", "100", "", "90"], [",  ", "/", " "];
    var t1 := Typed(["95"], []);
    var t2 := Typed(["95", "100"], [",  "]);
    var t3 := Typed(["95", "100", ""], [",  ", "/"]);
    assert t1 == "95";
    assert t2 == t1 + ",  " + "100" by {
      assert ["95", "100"][..1] == ["95"] && [",  "][..0] == [];
    }
    assert t3 == t2 + "/" + "" by {
      assert ["95", "100", ""][..2] == ["95", "100"] && [",  ", "/"][..1] == [",  "];
    }
    assert Typed(ts, seps) == t3 + " " + "90" by {
      assert ts[..3] == ["95", "100", ""] && seps[..2] == [",  ", "/"];
    }
    assert Typed(ts, seps) == "95,  100/ 90";
    assert TypedSep(",  ") && TypedSep(" ");
    ReadTyped(ts, seps);
  }

  /** StripInterleaved, with the trimmed text and the kept tokens named. */
  lemma {:induction false} StripShown(ts: seq<string>, last: nat, shown: seq<string>, written: string)
    requires last < |ts| && |ts[last]| > 0 && AllDigits(ts[last])
    requires forall j :: last < j < |ts| ==> |ts[j]| == 0
    requires shown == ts[..last + 1]
    requires written == StripTrailing(Interleaved(ts) + Trailer(|ts| - 1))
    ensures written == Interleaved(shown)
  {
    StripInterleaved(ts, last, |ts| - 1);
  }

  /** The slots up to the last shown one: digits, with the purchase text first and a price last. */
  lemma {:induction false} ShownSlots(p: seq<int>)
    requires |p| >= 1 && NonNegative(p)
    ensures var shown := Shown(p);
      |shown| >= 1 && |shown[0]| > 0 && |shown[|shown| - 1]| > 0 &&
      forall k :: 0 <= k < |shown| ==> AllDigits(shown[k])
  {
    SlotsAt(p, LastShown(p, |p|) + 1);
  }

  /** The last shown slot has a numeral; every slot after it has empty text. */
  lemma {:induction false} SlotsAfterShown(p: seq<int>)
    requires |p| >= 1 && NonNegative(p)
    ensures |Slots(p, |p|)[LastShown(p, |p|)]| > 0 && AllDigits(Slots(p, |p|)[LastShown(p, |p|)])
    ensures forall j :: LastShown(p, |p|) < j < |p| ==> |Slots(p, |p|)[j]| == 0
  {
    SlotsAt(p, |p|);
  }

  /** The written text is the slot texts up to the last shown slot, with their separators. */
  lemma {:induction false} FormattedShown(p: seq<int>)
    requires |p| >= 1 && NonNegative(p)
    ensures Formatted(p) == Interleaved(Shown(p))
  {
    SlotsAfterShown(p);
    SlotsPrefix(p, |p|, LastShown(p, |p|) + 1);
    StripShown(Slots(p, |p|), LastShown(p, |p|), Shown(p), Formatted(p));
  }

  /** The written text starts and ends with a digit. */
  lemma {:induction false} FormattedEnds(p: seq<int>)
    requires |p| >= 1 && NonNegative(p)
    ensures var s := Formatted(p); s != "" && IsDigit(s[0]) && IsDigit(s[|s| - 1])
  {
    FormattedShown(p);
    ShownSlots(p);
    InterleavedEnds(Shown(p));
  }

  /** Each shown slot text reads as its slot's price; every slot after the last shown one is absent. */
  lemma {:induction false} SlotValues(p: seq<int>)
    requires |p| >= 1 && NonNegative(p)
    ensures var shown := Shown(p);
      forall k :: 0 <= k < |shown| ==> AllDigits(shown[k]) && DecValue(shown[k]) == p[k]
    ensures forall k :: LastShown(p, |p|) < k < |p| ==> p[k] == 0
  {
    var shown := Shown(p);
    SlotsAt(p, |shown|);
    forall k | 0 <= k < |shown|
      ensures DecValue(shown[k]) == p[k]
    {
      if p[k] != 0 {
        DecRoundTrip(p[k]);
      }
    }
  }

  /**
   * Reading the written text gives back the purchase text and one text per
   * sell slot up to the last present one, "" for each absent slot (with
   * SlotValues: every text reads as its slot's price and every later slot
   * is absent).
   */
  lemma {:induction false} InlineRoundTrip(p: seq<int>)
    requires |p| >= 1 && NonNegative(p)
    ensures ReadInline(Formatted(p)) == Some(Shown(p))
  {
    FormattedShown(p);
    ShownSlots(p);
    ReadInterleaved(Shown(p));
  }
}
