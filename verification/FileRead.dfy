/** The file_read tool: which lines it sees, how it numbers them, and how its numbering
    relates to the lines file_edit replaces. */
module FileRead {
  import opened Lines
  import FileEdit

  // ---- The lines file_read sees ----

  /** Line boundaries of Python's str.splitlines other than "\n". */
  predicate OtherBoundary(c: char) {
    c in ['\r', '\U{0B}', '\U{0C}', '\U{1C}', '\U{1D}', '\U{1E}', '\U{85}', '\U{2028}', '\U{2029}']
  }

  predicate Boundary(c: char) {
    c == '\n' || OtherBoundary(c)
  }

  /** The only line boundary in `t` is a newline. */
  predicate NewlineOnly(t: string) {
    forall i :: 0 <= i < |t| ==> !OtherBoundary(t[i])
  }

  /** Text-mode reading: "\r\n" and "\r" both become "\n". */
  function UniversalNewlines(t: string): string {
    if t == "" then ""
    else if t[0] != '\r' then [t[0]] + UniversalNewlines(t[1..])
    else if |t| > 1 && t[1] == '\n' then "\n" + UniversalNewlines(t[2..])
    else "\n" + UniversalNewlines(t[1..])
  }

  /** str.splitlines() on text that has been through UniversalNewlines: no sentinel line
      after a final boundary, and no lines at all in the empty text. */
  function SplitLines(t: string): seq<string> {
    if t == "" then []
    else
      var rest := SplitLines(t[1..]);
      if Boundary(t[0]) then [""] + rest
      else if rest == [] then [[t[0]]]
      else [[t[0]] + rest[0]] + rest[1..]
  }

  function ReadLines(t: string): seq<string> {
    SplitLines(UniversalNewlines(t))
  }

  predicate BoundaryFree(ls: seq<string>) {
    forall i, j :: 0 <= i < |ls| && 0 <= j < |ls[i]| ==> !Boundary(ls[i][j])
  }

  lemma {:induction false} SplitLinesShape(t: string)
    ensures BoundaryFree(SplitLines(t))
    ensures t != "" ==> SplitLines(t) != []
  {
    if t != "" {
      SplitLinesShape(t[1..]);
    }
  }

  /** On text whose only boundary is "\n" the two tools count the same lines. */
  lemma {:induction false} SameLines(t: string)
    requires NewlineOnly(t)
    ensures t != "" ==> SplitLines(t) == FileEdit.ContentLines(t)
  {
    if t != "" {
      var u := t[1..];
      SameLines(u);
      SentinelIffNewline(t);
      SentinelIffNewline(u);
      SplitLinesShape(u);
      var all := Split(u);
      if u == "" {
        assert t == [t[0]];
        if t[0] == '\n' { SplitCons("", ""); assert "" + "\n" + "" == t; } else { SplitLine(t); }
      } else if t[0] == '\n' {
        assert Split(t) == [""] + all;
        if EndsWithNewline(t) { assert Front(Split(t)) == [""] + Front(all); }
      } else {
        assert Split(t) == [[t[0]] + all[0]] + all[1..];
        if EndsWithNewline(t) { assert Front(Split(t)) == [[t[0]] + all[0]] + Front(all)[1..]; }
      }
    }
  }

  lemma {:induction false} UniversalNewlinesIdentity(t: string)
    requires '\r' !in t
    ensures UniversalNewlines(t) == t
  {
    if t != "" {
      UniversalNewlinesIdentity(t[1..]);
    }
  }

  /** Every character other than "\n" survives, in order, in the lines of file_edit. */
  lemma {:induction false} CharSurvives(t: string, i: nat)
    requires i < |t| && t[i] != '\n'
    ensures exists k, j :: 0 <= k < |Split(t)| && 0 <= j < |Split(t)[k]| && Split(t)[k][j] == t[i]
  {
    if i == 0 {
      assert Split(t)[0][0] == t[0];
    } else {
      CharSurvives(t[1..], i - 1);
      var rest := Split(t[1..]);
      var k, j :| 0 <= k < |rest| && 0 <= j < |rest[k]| && rest[k][j] == t[i];
      if t[0] == '\n' {
        assert Split(t)[k + 1][j] == t[i];
      } else if k == 0 {
        assert Split(t)[0][j + 1] == t[i];
      } else {
        assert Split(t)[k][j] == t[i];
      }
    }
  }

  /** file_read and file_edit number the same lines exactly on non-empty texts whose only
      line boundary is "\n". */
  lemma SameNumberingIff(t: string)
    ensures ReadLines(t) == FileEdit.ContentLines(t)
            <==> t != "" && NewlineOnly(t)
  {
    if t == "" {
    } else if i :| 0 <= i < |t| && OtherBoundary(t[i]) {
      CharSurvives(t, i);
      var k, j :| 0 <= k < |Split(t)| && 0 <= j < |Split(t)[k]| && Split(t)[k][j] == t[i];
      SentinelIffNewline(t);
      SplitLinesShape(UniversalNewlines(t));
      assert Boundary(FileEdit.ContentLines(t)[k][j]);
    } else {
      UniversalNewlinesIdentity(t);
      SameLines(t);
    }
  }

  // ---- Reading after editing ----

  predicate AllNewlineOnly(ls: seq<string>) {
    forall k :: 0 <= k < |ls| ==> NewlineOnly(ls[k])
  }

  lemma {:induction false} JoinKeepsChars(ls: seq<string>)
    requires AllNewlineOnly(ls)
    ensures NewlineOnly(Join(ls))
  {
    if |ls| > 1 {
      JoinKeepsChars(ls[1..]);
    }
  }

  lemma RenderKeepsChars(ls: seq<string>, ended: bool)
    requires AllNewlineOnly(ls)
    ensures NewlineOnly(FileEdit.Render(ls, ended))
  {
    hide Join;
    JoinKeepsChars(ls);
  }

  lemma ReadLinesShape(t: string)
    ensures AllNewlineOnly(ReadLines(t)) && (t == "" ==> ReadLines(t) == [])
  {
    SplitLinesShape(UniversalNewlines(t));
  }

  /** After any accepted edit, file_read lists the old prefix, the replacement and the old suffix
      exactly if the edit is stable, leaves some text and no line with another boundary in it,
      or leaves no lines and no text. */
  lemma ReadAfterEditIff(t: string, start: int, end: int, content: string)
    requires FileEdit.EditText(t, start, end, content).Edited?
    ensures var text, ls := FileEdit.EditText(t, start, end, content).text, FileEdit.WrittenLines(t, start, end, content);
            ReadLines(text) == ls <==>
              if text == "" then ls == [] else FileEdit.Stable(ls) && AllNewlineOnly(ls)
  {
    var text, ls := FileEdit.EditText(t, start, end, content).text, FileEdit.WrittenLines(t, start, end, content);
    hide Split, Join, NewlineOnly, AllNewlineOnly, ReadLines, FileEdit.Spliced, FileEdit.WrittenLines,
         FileEdit.ContentLines, FileEdit.Render;
    FileEdit.EditWrites(t, start, end, content);
    ReadLinesShape(text);
    if AllNewlineOnly(ls) { RenderKeepsChars(ls, EndsWithNewline(t)); }
    FileEdit.ResplitIff(t, start, end, content);
    SameNumberingIff(text);
  }

  // ---- Numbered output ----

  function Decimal(n: nat): (s: string)
    ensures s != "" && forall i :: 0 <= i < |s| ==> '0' <= s[i] <= '9'
  {
    var d := [('0' as int + n % 10) as char];
    if n < 10 then d else Decimal(n / 10) + d
  }

  /** Reads the digits back, most significant first. */
  function Value(s: string): nat
    requires forall i :: 0 <= i < |s| ==> '0' <= s[i] <= '9'
  {
    if s == "" then 0 else 10 * Value(s[..|s| - 1]) + (s[|s| - 1] as int - '0' as int)
  }

  lemma {:induction false} DecimalValue(n: nat)
    ensures Value(Decimal(n)) == n
  {
    var s := Decimal(n);
    if n >= 10 {
      DecimalValue(n / 10);
      assert s[..|s| - 1] == Decimal(n / 10);
    } else {
      assert s[..|s| - 1] == "";
    }
  }

  function Label(n: nat, line: string): string {
    Decimal(n) + ": " + line
  }

  /** The lines `first, first + 1, ...` with their labels. */
  function Labelled(first: nat, ls: seq<string>): seq<string> {
    seq(|ls|, i requires 0 <= i < |ls| => Label(first + i, ls[i]))
  }

  datatype ReadResult = EmptyRange(start: int, end: int) | Listing(text: string)

  function Clamp(ls: seq<string>, start: int, end: int): (int, int) {
    (if start < 1 then 1 else start, if end < |ls| then end else |ls|)
  }

  /** The numbered listing of a line range; the empty file lists as the empty text. */
  function Listed(ls: seq<string>, start: int, end: int): ReadResult {
    var (first, last) := Clamp(ls, start, end);
    if first > last && ls != [] then EmptyRange(first, last)
    else if first > last then Listing("")
    else Listing(Join(Labelled(first, ls[first - 1..last])))
  }

  /** What a reader of the listing recovers: number and text of each line. */
  function ParseLine(s: string): (nat, string)
    requires ':' in s
    requires forall i :: 0 <= i < LabelEnd(s) ==> '0' <= s[i] <= '9'
    requires LabelEnd(s) + 2 <= |s|
  {
    (Value(s[..LabelEnd(s)]), s[LabelEnd(s) + 2..])
  }

  function LabelEnd(s: string): (k: nat)
    requires ':' in s
    ensures k < |s| && s[k] == ':' && ':' !in s[..k]
  {
    if s[0] == ':' then 0 else
      assert s == [s[0]] + s[1..];
      var k := LabelEnd(s[1..]);
      assert s[..k + 1] == [s[0]] + s[1..][..k];
      k + 1
  }

  predicate Readable(s: string) {
    && ':' in s
    && (forall i :: 0 <= i < LabelEnd(s) ==> '0' <= s[i] <= '9')
    && LabelEnd(s) + 2 <= |s|
  }

  lemma LabelParses(n: nat, line: string)
    ensures Readable(Label(n, line)) && ParseLine(Label(n, line)) == (n, line)
    ensures '\n' !in line ==> '\n' !in Label(n, line)
  {
    var s, d := Label(n, line), Decimal(n);
    assert s[|d|] == ':';
    var k := LabelEnd(s);
    assert k == |d|;
    assert s[..k] == d;
    assert s[k + 2..] == line;
    DecimalValue(n);
  }

  /** Every row of `out` parses, in order, to the next line number and line. */
  predicate ParsesTo(out: string, first: nat, ls: seq<string>) {
    var rows := Split(out);
    && |rows| == |ls|
    && forall i :: 0 <= i < |rows| ==> Readable(rows[i]) && ParseLine(rows[i]) == (first + i, ls[i])
  }

  lemma JoinedLabelsParse(first: nat, ls: seq<string>)
    requires ls != [] && BoundaryFree(ls)
    ensures ParsesTo(Join(Labelled(first, ls)), first, ls)
  {
    var rows := Labelled(first, ls);
    forall i | 0 <= i < |rows|
      ensures '\n' !in rows[i] && Readable(rows[i]) && ParseLine(rows[i]) == (first + i, ls[i])
    {
      LabelParses(first + i, ls[i]);
    }
    SplitJoin(rows);
  }

  /** The listing parses back to exactly the clamped range, each line under its number. */
  lemma ListingParsesBack(t: string, start: int, end: int)
    ensures var ls := ReadLines(t);
            var (first, last) := Clamp(ls, start, end);
            match Listed(ls, start, end)
            case EmptyRange(s, e) => first > last && ls != [] && (s, e) == (first, last)
            case Listing(out) =>
              if ls == [] then out == ""
              else 1 <= first <= last <= |ls| && ParsesTo(out, first, ls[first - 1..last])
  {
    hide Join, Split, Labelled, ParsesTo, SplitLines, UniversalNewlines;
    var ls := ReadLines(t);
    var (first, last) := Clamp(ls, start, end);
    if ls != [] && first <= last {
      SplitLinesShape(UniversalNewlines(t));
      JoinedLabelsParse(first, ls[first - 1..last]);
    }
  }

  // ---- Which lines are listed ----

  /** Line `k` exists and was asked for. */
  predicate Asked(k: int, n: nat, start: int, end: int) {
    1 <= k <= n && start <= k <= end
  }

  function Row(s: string): (nat, string) {
    if Readable(s) then ParseLine(s) else (0, "")
  }

  /** The rows of `out` are exactly the lines asked for, in order and without gaps, each under its
      number. */
  ghost predicate Shows(out: string, ls: seq<string>, start: int, end: int) {
    var rows := Split(out);
    && (forall i :: 0 <= i < |rows| ==> Asked(Row(rows[i]).0, |ls|, start, end) && Row(rows[i]).1 == ls[Row(rows[i]).0 - 1])
    && (forall i :: 0 < i < |rows| ==> Row(rows[i]).0 == Row(rows[i - 1]).0 + 1)
    && (forall k :: Asked(k, |ls|, start, end) ==> exists i :: 0 <= i < |rows| && Row(rows[i]).0 == k)
  }

  lemma ParsedShows(out: string, first: nat, last: nat, ls: seq<string>, start: int, end: int)
    requires 1 <= first <= last <= |ls| && ParsesTo(out, first, ls[first - 1..last])
    requires forall k :: Asked(k, |ls|, start, end) <==> first <= k <= last
    ensures Shows(out, ls, start, end)
  {
    hide Readable, ParseLine, Split;
    var rows := Split(out);
    forall i | 0 <= i < |rows| ensures Row(rows[i]) == (first + i, ls[first + i - 1]) {}
    forall k | Asked(k, |ls|, start, end) ensures exists i :: 0 <= i < |rows| && Row(rows[i]).0 == k {
      assert Row(rows[k - first]).0 == k;
    }
  }

  /** What file_read answers for a range: an empty range is refused, exactly if the file has lines and
      none of them was asked for; otherwise the listing shows exactly the lines asked for. */
  lemma ListingShows(t: string, start: int, end: int)
    ensures var ls := ReadLines(t);
            match Listed(ls, start, end)
            case EmptyRange(_, _) => ls != [] && forall k :: !Asked(k, |ls|, start, end)
            case Listing(out) =>
              if ls == [] then out == "" else (exists k :: Asked(k, |ls|, start, end)) && Shows(out, ls, start, end)
  {
    hide Join, Split, Labelled, ParsesTo, ReadLines, Shows;
    ListingParsesBack(t, start, end);
    var ls := ReadLines(t);
    var (first, last) := Clamp(ls, start, end);
    if ls != [] && first <= last {
      assert Asked(first, |ls|, start, end);
      ParsedShows(Listed(ls, start, end).text, first, last, ls, start, end);
    }
  }

  // ---- Which lines there are ----

  /** The line boundaries of str.splitlines, by code point. */
  lemma BoundaryCodes(c: char)
    ensures Boundary(c) <==> c as int in {10, 11, 12, 13, 28, 29, 30, 0x85, 0x2028, 0x2029}
  {
  }

  /** str.splitlines, line by line: a line ends at the first boundary. */
  lemma {:induction false} SplitLinesCons(line: string, b: char, rest: string)
    requires Boundary(b) && forall i :: 0 <= i < |line| ==> !Boundary(line[i])
    ensures SplitLines(line + [b] + rest) == [line] + SplitLines(rest)
  {
    var whole := line + [b] + rest;
    if line == "" {
      assert whole[1..] == rest;
    } else {
      SplitLinesCons(line[1..], b, rest);
      assert whole[1..] == line[1..] + [b] + rest;
      assert [line[0]] + line[1..] == line;
    }
  }

  lemma {:induction false} SplitLinesLast(line: string)
    requires forall i :: 0 <= i < |line| ==> !Boundary(line[i])
    ensures SplitLines(line) == if line == "" then [] else [line]
  {
    if line != "" {
      SplitLinesLast(line[1..]);
      var rest := SplitLines(line[1..]);
      assert [line[0]] + line[1..] == line;
      if rest == [] {
        assert line == [line[0]] && SplitLines(line) == [[line[0]]];
      } else {
        assert rest[1..] == [];
        assert SplitLines(line) == [[line[0]] + rest[0]] + rest[1..];
      }
    }
  }

  lemma {:induction false} UniversalNewlinesCons(line: string, rest: string)
    requires '\r' !in line
    ensures UniversalNewlines(line + rest) == line + UniversalNewlines(rest)
  {
    if line == "" {
      assert line + rest == rest;
    } else {
      UniversalNewlinesCons(line[1..], rest);
      assert (line + rest)[1..] == line[1..] + rest;
    }
  }

  lemma Regroup(a: string, b: string, c: string)
    ensures a + b + c == a + (b + c)
  {
  }

  /** What text-mode reading makes of a line and the line end after it. */
  lemma LineEnds(line: string, end: string, mid: string, rest: string)
    requires '\r' !in line && UniversalNewlines(end + rest) == mid + UniversalNewlines(rest)
    ensures UniversalNewlines(line + end + rest) == line + mid + UniversalNewlines(rest)
  {
    hide UniversalNewlines;
    UniversalNewlinesCons(line, end + rest);
    Regroup(line, end, rest);
    Regroup(line, mid, UniversalNewlines(rest));
  }

  /** The first line end of a text that begins with one. */
  lemma FirstEnd(b: char, rest: string)
    ensures UniversalNewlines("\r\n" + rest) == ['\n'] + UniversalNewlines(rest)
    ensures b != '\r' ==> UniversalNewlines([b] + rest) == [b] + UniversalNewlines(rest)
    ensures b == '\r' && (rest == "" || rest[0] != '\n') ==>
              UniversalNewlines([b] + rest) == ['\n'] + UniversalNewlines(rest)
  {
    var crlf, one := "\r\n" + rest, [b] + rest;
    assert crlf[0] == '\r' && crlf[1] == '\n' && crlf[2..] == rest;
    assert one[0] == b && one[1..] == rest;
  }

  /** The lines file_read sees, for every text: the first line ends at the first boundary, "\r\n"
      counting as one, and the rest follows; text without a boundary is one line, or none if it
      is empty. */
  lemma ReadLinesCons(line: string, b: char, rest: string)
    requires forall i :: 0 <= i < |line| ==> !Boundary(line[i])
    ensures ReadLines(line) == if line == "" then [] else [line]
    ensures ReadLines(line + "\r\n" + rest) == [line] + ReadLines(rest)
    ensures Boundary(b) && (b == '\r' ==> rest == "" || rest[0] != '\n') ==>
              ReadLines(line + [b] + rest) == [line] + ReadLines(rest)
  {
    assert '\r' !in line && Boundary('\n');
    hide SplitLines, UniversalNewlines, Boundary;
    SplitLinesLast(line);
    UniversalNewlinesIdentity(line);
    FirstEnd(b, rest);
    LineEnds(line, "\r\n", ['\n'], rest);
    SplitLinesCons(line, '\n', UniversalNewlines(rest));
    if Boundary(b) && (b == '\r' ==> rest == "" || rest[0] != '\n') {
      LineEnds(line, [b], if b == '\r' then ['\n'] else [b], rest);
      SplitLinesCons(line, b, UniversalNewlines(rest));
    }
  }
}
