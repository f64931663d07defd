/** The display helpers of `src/lib/utils/format.ts`: `formatBalance`
    writes a number of seconds as minutes and seconds, and
    `formatEndReason` turns a dash-separated end reason into capitalised
    words. JavaScript numbers are modelled as reals; `Math.floor`,
    `Math.trunc` and the sign-following `%` are written out. */
module Format {
  import opened Wrappers
  import opened Strings
  import opened Decimal
  import Ordering

  // ---------------------------------------------------------------------------
  // Number arithmetic as JavaScript does it

  /** `Math.trunc`: rounds towards zero. */
  function Trunc(y: real): (t: int)
    ensures y >= 0.0 ==> t == y.Floor
    ensures y < 0.0 ==> t == -((-y).Floor) && t <= 0
  {
    if y >= 0.0 then y.Floor else -((-y).Floor)
  }

  /** `x % 60`: the remainder has the sign of `x`. */
  function JsRem60(x: real): (r: real)
    ensures x >= 0.0 ==> 0.0 <= r < 60.0
    ensures x < 0.0 ==> -60.0 < r <= 0.0
  {
    x - 60.0 * (Trunc(x / 60.0) as real)
  }

  function Pow10(n: nat): (p: nat)
    ensures p >= 1
  {
    if n == 0 then 1 else 10 * Pow10(n - 1)
  }

  /** Unsigned decimal text (`12`, `12.5`, `.5`, `5.`) and its value. */
  function UnsignedValue(body: string): (r: Option<real>)
    ensures r.Some? ==> r.value >= 0.0
  {
    match Ordering.FirstIndex(body, (c: char) => c == '.')
    case None =>
      if body != "" && AllDigits(body) then Some(ParseDigits(body) as real) else None
    case Some(k) =>
      var whole := body[..k];
      var frac := body[k + 1..];
      if |whole| + |frac| > 0 && AllDigits(whole) && AllDigits(frac)
      then Some(ParseDigits(whole) as real + ParseDigits(frac) as real / Pow10(|frac|) as real)
      else None
  }

  /** `Number(s)` on plain decimal text: surrounding white space is
      ignored, white space alone is 0, one leading sign is allowed; any
      other text is `NaN` (here `None`). */
  function NumberOf(s: string): (r: Option<real>)
    ensures Trim(s) == "" ==> r == Some(0.0)
  {
    var t := Trim(s);
    if t == "" then Some(0.0)
    else
      var body := if t[0] == '-' || t[0] == '+' then t[1..] else t;
      match UnsignedValue(body)
      case None => None
      case Some(v) => Some(if t[0] == '-' then -v else v)
  }

  /** A string of digits is its own trim. */
  lemma TrimDigits(s: string)
    requires AllDigits(s)
    ensures Trim(s) == s
  {
    if |s| > 0 {
      assert IsDigit(s[0]) && IsDigit(s[|s| - 1]);
    }
    TrimmedIsFixed(s);
  }

  /** `Number(String(n)) === n` for natural `n`. */
  lemma NumberOfNatToString(n: nat)
    ensures NumberOf(NatToString(n)) == Some(n as real)
  {
    var s := NatToString(n);
    TrimDigits(s);
    assert IsDigit(s[0]);
    ParseNatToString(n);
  }

  // ---------------------------------------------------------------------------
  // formatBalance

  /** What `formatBalance` may receive. A `NaN` number is falsy and
      behaves as `Missing`. */
  datatype BalanceInput = Missing | Number(x: real) | Text(s: string)

  /** The number `formatBalance` goes on to format, or `None` when it
      answers `'0 sec'` straight away (falsy input, or text that is not a
      number). */
  function BalanceValue(input: BalanceInput): (r: Option<real>)
    ensures input.Missing? || input == Number(0.0) || input == Text("") ==> r.None?
    ensures r.Some? && input.Number? ==> r.value == input.x
  {
    match input
    case Missing => None
    case Number(x) => if x == 0.0 then None else Some(x)
    case Text(s) => if s == "" then None else NumberOf(s)
  }

  /** `Math.floor(totalSeconds / 60)`. */
  function WholeMinutes(x: real): int {
    (x / 60.0).Floor
  }

  /** `Math.floor(totalSeconds % 60)`. */
  function LeftoverSeconds(x: real): int {
    JsRem60(x).Floor
  }

  /** For a non-negative number the two parts split its whole seconds:
      60 per minute plus a remainder below 60. */
  lemma BalancePartsSplit(x: real)
    requires x >= 0.0
    ensures WholeMinutes(x) >= 0 && 0 <= LeftoverSeconds(x) < 60
    ensures 60 * WholeMinutes(x) + LeftoverSeconds(x) == x.Floor
  {
    var m := WholeMinutes(x);
    assert Trunc(x / 60.0) == m;
    assert JsRem60(x) == x - 60.0 * (m as real);
    assert (x - 60.0 * (m as real)).Floor == x.Floor - 60 * m;
  }

  /** The text for a number, as the three template literals write it. */
  function BalanceText(x: real): string {
    var m := WholeMinutes(x);
    var r := LeftoverSeconds(x);
    if m == 0 then IntToString(r) + " sec"
    else if r == 0 then IntToString(m) + " min"
    else IntToString(m) + " min " + IntToString(r) + " sec"
  }

  /** `formatBalance`. */
  function FormatBalance(input: BalanceInput): (r: string)
    ensures BalanceValue(input).None? ==> r == "0 sec"
    ensures BalanceValue(input).Some? ==> r == BalanceText(BalanceValue(input).value)
  {
    match BalanceValue(input)
    case None => "0 sec"
    case Some(x) => BalanceText(x)
  }

  /** The reference rendering of `n` whole seconds: seconds alone below a
      minute, minutes alone on a whole minute, otherwise both. */
  function SecondsLabel(n: nat): string {
    if n < 60 then NatToString(n) + " sec"
    else if n % 60 == 0 then NatToString(n / 60) + " min"
    else NatToString(n / 60) + " min " + NatToString(n % 60) + " sec"
  }

  /** A non-negative balance is written as its whole seconds: fractions of
      a second are dropped. This holds of the number itself and of any input
      that reads as it, text included. */
  lemma FormatBalanceNonNegative(x: real)
    requires x >= 0.0
    ensures BalanceText(x) == SecondsLabel(x.Floor)
    ensures FormatBalance(Number(x)) == SecondsLabel(x.Floor)
  {
    BalancePartsSplit(x);
    var m := WholeMinutes(x);
    var r := LeftoverSeconds(x);
    assert m == x.Floor / 60 && r == x.Floor % 60;
    if x == 0.0 {
      assert NatToString(0) == "0";
    }
  }

  /** A negative balance below a minute shows both parts negative: the
      minutes are floored to -1 while the remainder keeps the sign of the
      balance. */
  lemma FormatBalanceNegative()
    ensures FormatBalance(Number(-30.0)) == "-1 min -30 sec"
  {
    assert WholeMinutes(-30.0) == -1;
    assert LeftoverSeconds(-30.0) == -30;
    assert IntToString(-1) == "-1" && IntToString(-30) == "-30";
  }

  /** A number written as text formats like the number itself. */
  lemma FormatBalanceText(n: nat)
    requires n > 0
    ensures FormatBalance(Text(NatToString(n))) == FormatBalance(Number(n as real))
  {
    NumberOfNatToString(n);
  }

  /** Text that is not a number reads as no balance. */
  lemma FormatBalanceNotANumber()
    ensures FormatBalance(Text("abc")) == "0 sec"
  {
    var t := Trim("abc");
    assert TrimStart("abc") == "abc" && TrimEnd("abc") == "abc";
    assert !IsDigit("abc"[0]);
  }

  // ---------------------------------------------------------------------------
  // formatEndReason

  /** `word.charAt(0).toUpperCase() + word.slice(1)` (ASCII case mapping). */
  function Capitalize(w: string): (r: string)
    ensures |r| == |w|
  {
    if |w| == 0 then "" else [Upper(w[0])] + w[1..]
  }

  function CapitalizeAll(parts: seq<string>): (r: seq<string>)
    ensures |r| == |parts|
  {
    seq(|parts|, i requires 0 <= i < |parts| => Capitalize(parts[i]))
  }

  /** `formatEndReason`: `'Unknown'` for a missing or empty reason. */
  function FormatEndReason(reason: Option<string>): (r: string)
    ensures !TruthyStr(reason) ==> r == "Unknown"
  {
    if !TruthyStr(reason) then "Unknown"
    else Join(CapitalizeAll(Split(reason.value, '-')), ' ')
  }

  /** The reference: character by character, a dash becomes a space and a
      character at the start or after a dash is upper-cased. */
  function TitleCase(s: string): (r: string)
    ensures |r| == |s|
  {
    seq(|s|, i requires 0 <= i < |s| =>
      if s[i] == '-' then ' ' else if i == 0 || s[i - 1] == '-' then Upper(s[i]) else s[i])
  }

  lemma TitleCaseNoDash(a: string)
    requires '-' !in a
    ensures TitleCase(a) == Capitalize(a)
  {
    if |a| > 0 {
      forall i | 0 <= i < |a| ensures TitleCase(a)[i] == Capitalize(a)[i] {
        if i > 0 {
          assert a[i - 1] in a;
        }
      }
    }
  }

  lemma TitleCaseDash(a: string, b: string)
    requires '-' !in a
    ensures TitleCase(a + "-" + b) == Capitalize(a) + " " + TitleCase(b)
  {
    var s := a + "-" + b;
    TitleCaseNoDash(a);
    forall i | 0 <= i < |s| ensures TitleCase(s)[i] == (Capitalize(a) + " " + TitleCase(b))[i] {
      if i < |a| {
        assert s[i] == a[i];
        if i > 0 {
          assert s[i - 1] == a[i - 1];
        }
      } else if i > |a| {
        assert s[i] == b[i - |a| - 1];
        if i > |a| + 1 {
          assert s[i - 1] == b[i - |a| - 2];
        }
      }
    }
  }

  /** Capitalising the dash-free pieces and joining them with spaces is the
      reference applied to the pieces joined with dashes. */
  lemma {:induction false} JoinCapitalized(parts: seq<string>)
    requires forall i :: 0 <= i < |parts| ==> '-' !in parts[i]
    ensures Join(CapitalizeAll(parts), ' ') == TitleCase(Join(parts, '-'))
  {
    if |parts| == 1 {
      TitleCaseNoDash(parts[0]);
    } else if |parts| > 1 {
      var rest := parts[1..];
      JoinCapitalized(rest);
      assert CapitalizeAll(parts)[1..] == CapitalizeAll(rest);
      TitleCaseDash(parts[0], Join(rest, '-'));
      assert Join(parts, '-') == parts[0] + "-" + Join(rest, '-');
    }
  }

  /** `formatEndReason` of a non-empty reason is the reference: the same
      length, each dash a space, each word's first letter upper-cased and
      every other character kept. */
  lemma FormatEndReasonIsTitleCase(reason: string)
    requires reason != ""
    ensures FormatEndReason(Some(reason)) == TitleCase(reason)
  {
    JoinCapitalized(Split(reason, '-'));
    JoinSplit(reason, '-');
  }
}
