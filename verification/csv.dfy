/** `CSVService.parseCSVContent` (`src/services/csvService.ts`): the file
    is cut into lines; blank lines and any line mentioning `phone` in any
    letter case (the header) are dropped; each remaining line yields its
    trimmed first comma-separated field, unless that field is empty. The
    time stamp every phone receives is a parameter. */
module Csv {
  import opened Strings
  import Ordering

  /** A phone number read from a file, with the time it was read. */
  datatype Phone = Phone(phoneNumber: string, createdAt: int)

  /** `line.split(',')[0].trim()`. */
  function FirstField(line: string): (r: string)
    ensures IsTrimmed(r) && ',' !in r && |r| <= |line|
  {
    var f := Split(line, ',')[0];
    TrimKeepsAbsence(f, ',');
    Trim(f)
  }

  /** The first field is a contiguous piece of the line. */
  lemma FirstFieldIsSlice(line: string) returns (a: nat, b: nat)
    ensures a <= b <= |line| && FirstField(line) == line[a..b]
  {
    var f := Split(line, ',')[0];
    assert f == line[..|f|];
    TrimSlice(f);
    a, b := TrimOffset(f), TrimOffset(f) + |Trim(f)|;
    assert FirstField(line) == f[a..b];
  }

  /** The line is white space only, that is, `line.trim()` is empty (see
      `Strings.TrimEmpty`). */
  predicate Blank(line: string) {
    forall i :: 0 <= i < |line| ==> IsWhitespace(line[i])
  }

  /** The line survives all three filters. */
  predicate KeptLine(line: string) {
    !Blank(line) && !Contains(ToLower(line), "phone") && FirstField(line) != ""
  }

  /** The phones of a list of lines, in line order. */
  function ParseLines(lines: seq<string>, now: int): (r: seq<Phone>)
    ensures |r| <= |lines|
    ensures forall i :: 0 <= i < |r| ==>
              r[i].phoneNumber != "" && IsTrimmed(r[i].phoneNumber) && ',' !in r[i].phoneNumber && r[i].createdAt == now
  {
    if |lines| == 0 then []
    else
      var last := lines[|lines| - 1];
      ParseLines(lines[..|lines| - 1], now) + (if KeptLine(last) then [Phone(FirstField(last), now)] else [])
  }

  /** `parseCSVContent`. */
  function ParseCsvContent(content: string, now: int): (r: seq<Phone>)
    ensures |r| <= |Split(content, '\n')|
    ensures forall i :: 0 <= i < |r| ==> r[i].phoneNumber != "" && IsTrimmed(r[i].phoneNumber) && ',' !in r[i].phoneNumber
  {
    ParseLines(Split(content, '\n'), now)
  }

  /** The first fields of a list of lines, as phones read at `now`. */
  function Phones(lines: seq<string>, now: int): (r: seq<Phone>)
    ensures |r| == |lines|
    ensures forall i :: 0 <= i < |lines| ==> r[i] == Phone(FirstField(lines[i]), now)
  {
    seq(|lines|, i requires 0 <= i < |lines| => Phone(FirstField(lines[i]), now))
  }

  /** The line-by-line parse is the chain the service writes: keep the
      lines that pass the filters, then take their first fields. */
  lemma {:induction false} ParseLinesIsFilterMap(lines: seq<string>, now: int)
    ensures ParseLines(lines, now) == Phones(Ordering.Filter(lines, KeptLine), now)
  {
    if |lines| > 0 {
      var init, last := lines[..|lines| - 1], lines[|lines| - 1];
      ParseLinesIsFilterMap(init, now);
      var kept := Ordering.Filter(init, KeptLine);
      var keep := KeptLine(last);
      assert ParseLines(lines, now) == ParseLines(init, now) + (if keep then [Phone(FirstField(last), now)] else []);
      assert Ordering.Filter(lines, KeptLine) == kept + (if keep then [last] else []);
      PhonesSnoc(kept, last, keep, now);
    }
  }

  /** Taking first fields commutes with adding one more line. */
  lemma PhonesSnoc(kept: seq<string>, last: string, keep: bool, now: int)
    ensures Phones(kept + (if keep then [last] else []), now)
            == Phones(kept, now) + (if keep then [Phone(FirstField(last), now)] else [])
  {
    if keep {
      assert Phones(kept + [last], now) == Phones(kept, now) + [Phone(FirstField(last), now)];
    } else {
      assert kept + [] == kept;
    }
  }

  /** No phone mentions `phone` in any letter case: it is a piece of a
      line that does not. */
  lemma PhoneNeverNamesPhone(lines: seq<string>, now: int)
    ensures var r := ParseLines(lines, now);
            forall i :: 0 <= i < |r| ==> !Contains(ToLower(r[i].phoneNumber), "phone")
  {
    var r := ParseLines(lines, now);
    var kept := Ordering.Filter(lines, KeptLine);
    ParseLinesIsFilterMap(lines, now);
    forall i | 0 <= i < |r| ensures !Contains(ToLower(r[i].phoneNumber), "phone") {
      var line := kept[i];
      assert KeptLine(line);
      var a, b := FirstFieldIsSlice(line);
      ToLowerSlice(line, a, b);
      if Contains(ToLower(r[i].phoneNumber), "phone") {
        ContainsSlice(ToLower(line), a, b, "phone");
      }
    }
  }
}
