/** The client's call list (`src/app/dashboard/client/calls/page.tsx`): the
    `m:ss` duration column, the total cost shown under the rate
    multiplier, the newest-first order of the list and the way a
    transcript is split into speaker blocks. The fetched calls, settings and
    transcript are parameters. */
module CallsPage {
  import opened Wrappers
  import opened Decimal
  import opened Store
  import Strings
  import Ordering
  import Durations
  import Settings

  // ---------------------------------------------------------------------------
  // formatDuration (m:ss)

  /** `s.padStart(2, '0')`. */
  function PadStart2(s: string): (r: string)
    ensures |s| >= 2 ==> r == s
    ensures |s| < 2 ==> |r| == 2
    ensures |r| >= |s| && r[|r| - |s|..] == s
    ensures forall i :: 0 <= i < |r| - |s| ==> r[i] == '0'
  {
    if |s| >= 2 then s else if |s| == 1 then "0" + s else "00"
  }

  /** The text `formatDuration` writes for two millisecond time stamps:
      whole seconds rounded down, then minutes and the sign-following
      remainder, padded to two characters. */
  function ClockText(startMs: int, endMs: int): string {
    var seconds := (endMs - startMs) / 1000;
    IntToString(seconds / 60) + ":" + PadStart2(IntToString(Durations.RemSixty(seconds)))
  }

  /** The duration column: `formatDuration(call.startedAt?.toString() || '',
      call.endedAt?.toString() || '')`. A missing time stamp becomes the
      empty text, an invalid date, and every step of the arithmetic is then
      `NaN`. */
  function ClockDuration(startedAt: Option<int>, endedAt: Option<int>): (text: string)
    ensures startedAt.None? || endedAt.None? ==> text == "NaN:NaN"
    ensures startedAt.Some? && endedAt.Some? ==> ':' in text && text != "NaN:NaN"
  {
    if startedAt.None? || endedAt.None? then "NaN:NaN"
    else
      var text := ClockText(startedAt.value, endedAt.value);
      var minutes := IntToString((endedAt.value - startedAt.value) / 1000 / 60);
      assert text[|minutes|] == ':';
      assert text[0] == minutes[0] != 'N';
      text
  }

  predicate IsColon(c: char) {
    c == ':'
  }

  /** Reads `<minutes>:<two digits below 60>` back into seconds; `None` for
      any other text. */
  function ReadClock(text: string): (r: Option<nat>)
  {
    match Ordering.FirstIndex(text, IsColon)
    case None => None
    case Some(k) =>
      ClockParts(text[..k], text[k + 1..])
  }

  /** The minutes and seconds either side of the colon, when both are
      well formed. */
  function ClockParts(mins: string, secs: string): (r: Option<nat>)
    ensures r.Some? <==> mins != "" && AllDigits(mins) && |secs| == 2 && AllDigits(secs) && ParseDigits(secs) < 60
    ensures r.Some? ==> r.value == 60 * ParseDigits(mins) + ParseDigits(secs)
  {
    if mins == "" || !AllDigits(mins) || |secs| != 2 || !AllDigits(secs) || ParseDigits(secs) >= 60 then None
    else Some(60 * ParseDigits(mins) + ParseDigits(secs))
  }

  /** The seconds column: two digits that read back as the remainder. */
  lemma TwoDigitSeconds(r: nat)
    requires r < 60
    ensures var p := PadStart2(NatToString(r));
            |p| == 2 && AllDigits(p) && ParseDigits(p) == r
  {
    var s := NatToString(r);
    var p := PadStart2(s);
    ParseNatToString(r);
    if r < 10 {
      assert p == "0" + s;
      assert p[..1] == "0";
      assert ParseDigits(p[..1]) == ParseDigits("") * 10 + DigitValue('0');
    } else {
      assert NatToString(r / 10) + [DigitChar(r % 10)] == s;
    }
  }

  /** The first colon of a clock text follows the minutes' digits. */
  lemma ColonAfterDigits(digits: string, tail: string)
    requires AllDigits(digits)
    ensures Ordering.FirstIndex(digits + ":" + tail, IsColon) == Some(|digits|)
  {
    var text := digits + ":" + tail;
    var found := Ordering.FirstIndex(text, IsColon);
    assert IsColon(text[|digits|]);
    assert found.Some? && found.value <= |digits|;
  }

  /** A clock text reads as its minutes and seconds. */
  lemma {:induction false} ReadClockAt(digits: string, p: string)
    requires digits != "" && AllDigits(digits)
    requires |p| == 2 && AllDigits(p) && ParseDigits(p) < 60
    ensures ReadClock(digits + ":" + p) == Some(60 * ParseDigits(digits) + ParseDigits(p))
  {
    ReadClockSplits(digits, p);
  }

  /** The reader hands the two sides of the first colon to `ClockParts`. */
  lemma {:induction false} ReadClockSplits(digits: string, p: string)
    requires AllDigits(digits)
    ensures ReadClock(digits + ":" + p) == ClockParts(digits, p)
  {
    ColonAfterDigits(digits, p);
    SplitAtColon(digits, p);
  }

  /** The two sides of a joined clock text. */
  lemma SplitAtColon(a: string, b: string)
    ensures (a + ":" + b)[..|a|] == a && (a + ":" + b)[|a| + 1..] == b
  {
    var text := a + ":" + b;
    assert text[..|a|] == a;
    assert text[|a| + 1..] == b;
  }

  /** The reader takes the text apart at its colon. */
  lemma {:induction false} ReadClockParts(m: nat, r: nat)
    requires r < 60
    ensures ReadClock(NatToString(m) + ":" + PadStart2(NatToString(r))) == Some(60 * m + r)
  {
    TwoDigitSeconds(r);
    ParseNatToString(m);
    ReadClockAt(NatToString(m), PadStart2(NatToString(r)));
  }

  /** The column loses nothing on a call that did not end before it
      started: it reads back as the call's whole seconds. */
  lemma {:induction false} ClockDurationRoundTrip(startMs: int, endMs: int)
    requires startMs <= endMs
    ensures ReadClock(ClockDuration(Some(startMs), Some(endMs))) == Some((endMs - startMs) / 1000)
  {
    var seconds: nat := (endMs - startMs) / 1000;
    var m: nat, r: nat := seconds / 60, seconds % 60;
    assert seconds == 60 * m + r;
    assert IntToString(m) == NatToString(m);
    assert Durations.RemSixty(seconds) == r;
    assert IntToString(r) == NatToString(r);
    assert ClockDuration(Some(startMs), Some(endMs)) == NatToString(m) + ":" + PadStart2(NatToString(r));
    ReadClockParts(m, r);
  }

  /** A call that ends a second before it starts shows both parts
      negative. */
  lemma ClockDurationNegative()
    ensures ClockDuration(Some(1000), Some(0)) == "-1:-1"
  {
    assert (0 - 1000) / 1000 == -1 && -1 / 60 == -1;
    assert Durations.RemSixty(-1) == -1;
    assert IntToString(-1) == "-1";
    assert PadStart2("-1") == "-1";
    assert ClockText(1000, 0) == "-1:-1";
  }

  /** A call still waiting or under way has no end time: its column shows
      `NaN:NaN`, which reads as no duration at all. */
  lemma ClockDurationMissingTime(startedAt: Option<int>)
    ensures ClockDuration(startedAt, None) == "NaN:NaN"
    ensures ReadClock(ClockDuration(startedAt, None)) == None
  {
    var text := "NaN:NaN";
    assert Ordering.FirstIndex(text, IsColon) == Some(3) by {
      assert !IsColon(text[0]) && !IsColon(text[1]) && !IsColon(text[2]) && IsColon(text[3]);
    }
    assert !IsDigit(text[0]);
  }

  // ---------------------------------------------------------------------------
  // The rate multiplier and the total cost

  /** `call.cost || 0`. */
  function CostOrZero(c: Call): real {
    if TruthyNum(c.cost) then c.cost.value else 0.0
  }

  /** The `reduce` over the shown calls: each cost times the multiplier,
      summed from the first call. */
  function TotalCost(calls: seq<Call>, rate: real): (total: real)
    ensures |calls| == 0 ==> total == 0.0
    ensures rate >= 0.0 && (forall i :: 0 <= i < |calls| ==> CostOrZero(calls[i]) >= 0.0) ==> total >= 0.0
  {
    if |calls| == 0 then 0.0
    else TotalCost(calls[..|calls| - 1], rate) + CostOrZero(calls[|calls| - 1]) * rate
  }

  /** The plain sum of the costs, from the front. */
  function SumCosts(calls: seq<Call>): real {
    if |calls| == 0 then 0.0 else CostOrZero(calls[0]) + SumCosts(calls[1..])
  }

  lemma {:induction false} SumCostsSnoc(calls: seq<Call>, c: Call)
    ensures SumCosts(calls + [c]) == SumCosts(calls) + CostOrZero(c)
  {
    if |calls| > 0 {
      assert (calls + [c])[1..] == calls[1..] + [c];
      SumCostsSnoc(calls[1..], c);
    }
  }

  lemma SumCostsLast(calls: seq<Call>)
    requires |calls| > 0
    ensures SumCosts(calls) == SumCosts(calls[..|calls| - 1]) + CostOrZero(calls[|calls| - 1])
  {
    SumCostsSnoc(calls[..|calls| - 1], calls[|calls| - 1]);
    assert calls[..|calls| - 1] + [calls[|calls| - 1]] == calls;
  }

  /** The total is the multiplier times the sum of the costs. */
  lemma {:induction false} TotalCostIsScaledSum(calls: seq<Call>, rate: real)
    ensures TotalCost(calls, rate) == SumCosts(calls) * rate
  {
    if |calls| > 0 {
      var init := calls[..|calls| - 1];
      TotalCostIsScaledSum(init, rate);
      SumCostsSnoc(init, calls[|calls| - 1]);
      assert init + [calls[|calls| - 1]] == calls;
    }
  }

  /** The multiplier the page shows with: 2 until the settings have been
      read (`loaded` is `None`), then whatever the reader answered, which
      falls back to 1. */
  function PageRate(loaded: Option<Option<seq<Setting>>>): (m: Json)
    ensures loaded.None? ==> m == JNum(2.0)
    ensures loaded.Some? ==> m == Settings.CallRateMultiplier(loaded.value)
  {
    if loaded.None? then JNum(2.0) else Settings.CallRateMultiplier(loaded.value)
  }

  /** Without a multiplier setting, the total first shown is twice the one
      shown once the settings arrive: the page starts at 2 while the reader
      falls back to 1. */
  lemma TotalHalvesWhenUnset(calls: seq<Call>, fetched: Option<seq<Setting>>)
    requires fetched.None? || Settings.SettingIndex(fetched.value, Settings.RateMultiplierKey).None?
    ensures PageRate(None) == JNum(2.0) && PageRate(Some(fetched)) == JNum(1.0)
    ensures TotalCost(calls, 2.0) == 2.0 * TotalCost(calls, 1.0)
  {
    TotalCostIsScaledSum(calls, 2.0);
    TotalCostIsScaledSum(calls, 1.0);
  }

  // ---------------------------------------------------------------------------
  // Sorting

  /** `dbCalls.sort(...)` by creation time, newest first. The order of
      calls created at the same time is not stated. */
  function SortCalls(calls: seq<Call>): (r: seq<Call>)
    ensures Ordering.SortedDesc(r, CallCreated)
    ensures multiset(r) == multiset(calls)
  {
    Ordering.SortDesc(calls, CallCreated)
  }

  lemma {:induction false} SumCostsInsert(x: Call, xs: seq<Call>)
    requires Ordering.SortedDesc(xs, CallCreated)
    ensures SumCosts(Ordering.InsertDesc(x, xs, CallCreated)) == CostOrZero(x) + SumCosts(xs)
    decreases |xs|
  {
    if |xs| > 0 && CallCreated(x) <= CallCreated(xs[0]) {
      assert Ordering.SortedDesc(xs[1..], CallCreated);
      SumCostsInsert(x, xs[1..]);
      var r := Ordering.InsertDesc(x, xs, CallCreated);
      assert r[1..] == Ordering.InsertDesc(x, xs[1..], CallCreated);
    }
  }

  /** Sorting does not change the total. */
  lemma SortKeepsTotal(calls: seq<Call>, rate: real)
    ensures TotalCost(SortCalls(calls), rate) == TotalCost(calls, rate)
  {
    var sorted := SortCalls(calls);
    SumSortedCosts(calls);
    TotalCostIsScaledSum(calls, rate);
    TotalCostIsScaledSum(sorted, rate);
    calc {
      TotalCost(sorted, rate);
      SumCosts(sorted) * rate;
      { assert SumCosts(sorted) == SumCosts(calls); }
      SumCosts(calls) * rate;
      TotalCost(calls, rate);
    }
  }

  lemma {:induction false} SumSortedCosts(calls: seq<Call>)
    ensures SumCosts(Ordering.SortDesc(calls, CallCreated)) == SumCosts(calls)
  {
    if |calls| > 0 {
      var init := calls[..|calls| - 1];
      var last := calls[|calls| - 1];
      var sorted := Ordering.SortDesc(init, CallCreated);
      assert Ordering.SortDesc(calls, CallCreated) == Ordering.InsertDesc(last, sorted, CallCreated);
      SumSortedCosts(init);
      SumCostsInsert(last, sorted);
      SumCostsLast(calls);
    }
  }

  // ---------------------------------------------------------------------------
  // formatTranscript

  /** The first position at or after `i` where `pat` occurs in `s`, or
      `|s|` when there is none. */
  function NextMark(s: string, pat: string, i: nat): (k: nat)
    requires i <= |s|
    ensures i <= k <= |s|
    ensures k < |s| ==> Strings.OccursAt(s, pat, k)
    ensures forall j :: i <= j < k ==> !Strings.OccursAt(s, pat, j)
    decreases |s| - i
  {
    if i + |pat| > |s| then |s|
    else if s[i..i + |pat|] == pat then i
    else if i == |s| then i
    else NextMark(s, pat, i + 1)
  }

  /** `s.split(pat)[1]` after a leading `pat`: the text up to the next
      occurrence of `pat`, or to the end. */
  function UpToNext(s: string, pat: string): (r: string)
    ensures |r| <= |s| && s[..|r|] == r
    ensures |r| < |s| ==> Strings.OccursAt(s, pat, |r|)
    ensures forall j :: 0 <= j < |r| ==> !Strings.OccursAt(s, pat, j)
  {
    s[..NextMark(s, pat, 0)]
  }

  /** Without a further occurrence, the whole rest is kept. */
  lemma UpToNextWhole(s: string, pat: string)
    requires !Strings.Contains(s, pat)
    ensures UpToNext(s, pat) == s
  {
    var r := UpToNext(s, pat);
    assert |r| < |s| ==> Strings.Contains(s, pat);
  }

  const AiMark: string := "AI:"
  const UserMark: string := "User:"

  /** One line of a transcript as the details dialog shows it. */
  datatype Block = AiTurn(body: string) | UserTurn(body: string) | PlainLine(text: string)

  /** The dialog's classification of a line: `AI:` is tested before
      `User:`, and a speaker's words run up to the next mark of the same
      speaker. */
  function ClassifyLine(line: string): (b: Block)
    ensures b.AiTurn? <==> Strings.StartsWith(line, AiMark)
    ensures b.UserTurn? <==> !Strings.StartsWith(line, AiMark) && Strings.StartsWith(line, UserMark)
    ensures b.PlainLine? ==> b.text == line
  {
    if Strings.StartsWith(line, AiMark) then AiTurn(UpToNext(line[|AiMark|..], AiMark))
    else if Strings.StartsWith(line, UserMark) then UserTurn(UpToNext(line[|UserMark|..], UserMark))
    else PlainLine(line)
  }

  /** The text a block stands for, marks put back. */
  function BlockText(b: Block): string {
    match b
    case AiTurn(body) => AiMark + body
    case UserTurn(body) => UserMark + body
    case PlainLine(text) => text
  }

  /** A speaker line that names its speaker once. */
  predicate SingleMark(line: string) {
    && (Strings.StartsWith(line, AiMark) ==> !Strings.Contains(line[|AiMark|..], AiMark))
    && (!Strings.StartsWith(line, AiMark) && Strings.StartsWith(line, UserMark) ==>
          !Strings.Contains(line[|UserMark|..], UserMark))
  }

  /** A line that names its speaker once is shown in full. */
  lemma ClassifyLineKeepsText(line: string)
    requires SingleMark(line)
    ensures BlockText(ClassifyLine(line)) == line
  {
    if Strings.StartsWith(line, AiMark) {
      UpToNextWhole(line[|AiMark|..], AiMark);
      assert line == line[..|AiMark|] + line[|AiMark|..];
    } else if Strings.StartsWith(line, UserMark) {
      UpToNextWhole(line[|UserMark|..], UserMark);
      assert line == line[..|UserMark|] + line[|UserMark|..];
    }
  }

  /** A second mark cuts the line: what follows it is not shown. */
  lemma SecondMarkCutsLine()
    ensures ClassifyLine("AI:xAI:y") == AiTurn("x")
  {
    var s := "xAI:y";
    assert "AI:xAI:y"[|AiMark|..] == s;
    assert Strings.OccursAt(s, AiMark, 1);
    assert s[0] == 'x' && AiMark[0] == 'A';
    assert !Strings.OccursAt(s, AiMark, 0);
    assert NextMark(s, AiMark, 0) == 1;
  }

  /** What the transcript tab shows. */
  datatype Shown = NoTranscript | Blocks(blocks: seq<Block>)

  /** `formatTranscript(call.transcript || '')`: the placeholder for a
      missing or empty transcript, otherwise one block per line. */
  function FormatTranscript(transcript: Option<string>): (r: Shown)
    ensures !TruthyStr(transcript) <==> r.NoTranscript?
    ensures r.Blocks? ==> |r.blocks| == |Strings.Split(transcript.value, '\n')|
  {
    if !TruthyStr(transcript) then NoTranscript
    else
      var lines := Strings.Split(transcript.value, '\n');
      Blocks(seq(|lines|, i requires 0 <= i < |lines| => ClassifyLine(lines[i])))
  }

  /** When every line names its speaker at most once, joining the shown
      blocks back with line breaks gives the transcript. */
  lemma FormatTranscriptRoundTrip(transcript: string)
    requires transcript != ""
    requires forall line :: line in Strings.Split(transcript, '\n') ==> SingleMark(line)
    ensures var shown := FormatTranscript(Some(transcript));
            Strings.Join(seq(|shown.blocks|, i requires 0 <= i < |shown.blocks| => BlockText(shown.blocks[i])), '\n')
              == transcript
  {
    var lines := Strings.Split(transcript, '\n');
    var shown := FormatTranscript(Some(transcript));
    var texts := seq(|shown.blocks|, i requires 0 <= i < |shown.blocks| => BlockText(shown.blocks[i]));
    forall i | 0 <= i < |lines| ensures texts[i] == lines[i] {
      ClassifyLineKeepsText(lines[i]);
    }
    assert texts == lines;
    Strings.JoinSplit(transcript, '\n');
  }
}
