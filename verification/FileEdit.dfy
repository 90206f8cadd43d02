/** The line computation of the file_edit tool: split, splice, join and repair of the
    final newline, with exact conditions for when an edit touches only its own range. */
module FileEdit {
  import opened Lines

  datatype Edit = Invalid | PastEof | Edited(text: string)

  /** The lines a user can address: the sentinel after a final newline is dropped. */
  function ContentLines(t: string): (ls: seq<string>)
    ensures ls != []
  {
    SentinelIffNewline(t);
    if EndsWithNewline(t) then Front(Split(t)) else Split(t)
  }

  function Replacement(content: string): seq<string>
  {
    if content != "" then Split(content) else []
  }

  /** The edited line list; `start == |ls| + 1` appends and ignores `end`. */
  function Splice<T>(ls: seq<T>, start: int, end: int, insert: seq<T>): seq<T>
    requires 1 <= start <= |ls| + 1 && start <= end
  {
    if start > |ls| then ls + insert
    else
      var stop := if end < |ls| then end else |ls|;
      ls[..start - 1] + insert + ls[stop..]
  }

  function Render(edited: seq<string>, endedWithNewline: bool): string {
    var joined := Join(edited);
    if endedWithNewline && !EndsWithNewline(joined) then joined + "\n" else joined
  }

  /** The list of lines that an accepted edit joins and writes. */
  function Spliced(t: string, start: int, end: int, content: string): seq<string>
    requires 1 <= start <= |ContentLines(t)| + 1 && start <= end
  {
    Splice(ContentLines(t), start, end, Replacement(content))
  }

  function EditText(t: string, start: int, end: int, content: string): Edit {
    if start < 1 || end < start then Invalid
    else if start > |ContentLines(t)| + 1 then PastEof
    else Edited(Render(Spliced(t, start, end, content), EndsWithNewline(t)))
  }

  /** More than one line, the last one empty: the join then ends in a newline by itself. */
  predicate BlankTail(ls: seq<string>) {
    |ls| >= 2 && Last(ls) == ""
  }

  predicate Stable(ls: seq<string>) {
    ls != [] && (|ls| == 1 || Last(ls) != "")
  }

  /** What re-reading a rendered list gives back. */
  function Kept(ls: seq<string>): seq<string> {
    if ls == [] then [""] else if BlankTail(ls) then Front(ls) else ls
  }

  // ---- A text seen as its addressable lines and its final newline ----

  datatype Doc = Doc(lines: seq<string>, terminated: bool)

  function DocOf(t: string): Doc {
    Doc(ContentLines(t), EndsWithNewline(t))
  }

  function EditDoc(d: Doc, start: int, end: int, insert: seq<string>): Doc
    requires 1 <= start <= |d.lines| + 1 && start <= end
  {
    var e := Splice(d.lines, start, end, insert);
    Doc(Kept(e), d.terminated || BlankTail(e))
  }

  lemma DocDeterminesText(a: string, b: string)
    ensures DocOf(a) == DocOf(b) <==> a == b
  {
    if DocOf(a) == DocOf(b) {
      SentinelIffNewline(a);
      SentinelIffNewline(b);
      if EndsWithNewline(a) {
        assert Split(a) == Front(Split(a)) + [""];
        assert Split(b) == Front(Split(b)) + [""];
      }
      JoinSplit(a);
      JoinSplit(b);
    }
  }

  /** Reading back a rendered list, for every list. */
  lemma RenderReadBack(ls: seq<string>, ended: bool)
    requires NewlineFree(ls)
    ensures DocOf(Render(ls, ended)) == Doc(Kept(ls), ended || BlankTail(ls))
  {
    if ls == [] {
      assert Render(ls, ended) == if ended then "\n" else "";
      SplitCons("", "");
      assert "" + "\n" + "" == "\n";
    } else {
      SplitJoin(ls);
      SentinelIffNewline(Join(ls));
      if ended && !BlankTail(ls) {
        JoinBlankLast(ls);
        SplitJoin(ls + [""]);
        SentinelIffNewline(Render(ls, ended));
      }
    }
  }

  /** The addressable lines and the final newline make up the text; no line holds a newline. */
  lemma LinesMakeText(t: string)
    ensures NewlineFree(ContentLines(t))
    ensures t == Join(ContentLines(t)) + (if EndsWithNewline(t) then "\n" else "")
  {
    SplitNewlineFree(t);
    JoinSplit(t);
    SentinelIffNewline(t);
    if EndsWithNewline(t) {
      JoinBlankLast(ContentLines(t));
      assert Split(t) == ContentLines(t) + [""];
    }
  }

  /** The new lines of an edit: none for empty content, else the lines that make it up. */
  lemma NewLines(content: string)
    ensures NewlineFree(Replacement(content)) && Join(Replacement(content)) == content
    ensures Replacement(content) == [] <==> content == ""
  {
    SplitNewlineFree(content);
    JoinSplit(content);
  }

  /** The lines an accepted edit writes: what stands before the range, the new lines, and what stands
      after the range; a range past the last line ends there, and a start right after the last
      line appends, whatever the end. */
  function WrittenLines(t: string, start: int, end: int, content: string): seq<string>
    requires 1 <= start <= |ContentLines(t)| + 1 && start <= end
  {
    var ls := ContentLines(t);
    if start == |ls| + 1 then ls + Replacement(content)
    else if end >= |ls| then ls[..start - 1] + Replacement(content)
    else ls[..start - 1] + Replacement(content) + ls[end..]
  }

  /** What every call writes. It is refused exactly for a start below 1, an end before the start, or
      a start past the line after the last one. Otherwise the text is the written lines joined,
      and a final newline is added if there was one and the join lacks it. */
  lemma EditWrites(t: string, start: int, end: int, content: string)
    ensures var r, n := EditText(t, start, end, content), |ContentLines(t)|;
            && (r.Invalid? <==> start < 1 || end < start)
            && (r.PastEof? <==> 1 <= start <= end && start > n + 1)
            && (r.Edited? ==>
                  var lines := WrittenLines(t, start, end, content);
                  var text := Join(lines);
                  && Spliced(t, start, end, content) == lines
                  && |lines| == (if start == n + 1 then n else n - ((if end < n then end else n) - start + 1))
                                + |Replacement(content)|
                  && r.text == text + if EndsWithNewline(t) && (text == "" || text[|text| - 1] != '\n') then "\n" else "")
  {
    hide Split, Join, ContentLines, Replacement;
    if EditText(t, start, end, content).Edited? {
      assert Spliced(t, start, end, content) == WrittenLines(t, start, end, content);
    }
  }

  /** An end past the last line is as good as the last line. */
  lemma EndIsClamped(t: string, start: int, end: int, content: string)
    requires 1 <= start <= |ContentLines(t)| <= end
    ensures EditText(t, start, end, content) == EditText(t, start, |ContentLines(t)|, content)
  {
    hide Split, Join, ContentLines, Replacement;
  }

  /** Appending is the same for every end. */
  lemma AppendIgnoresEnd(t: string, end: int, content: string)
    requires end > |ContentLines(t)|
    ensures var n := |ContentLines(t)|;
            EditText(t, n + 1, end, content) == EditText(t, n + 1, n + 1, content)
  {
    hide Split, Join, ContentLines, Replacement;
  }

  lemma ContentNewlineFree(t: string)
    ensures NewlineFree(ContentLines(t))
  {
    hide Split;
    SplitNewlineFree(t);
  }

  lemma SplicedNewlineFree(t: string, start: int, end: int, content: string)
    requires 1 <= start <= |ContentLines(t)| + 1 && start <= end
    ensures NewlineFree(Spliced(t, start, end, content))
  {
    hide Split;
    SplitNewlineFree(t);
    SplitNewlineFree(content);
  }

  /** Text-level edits and document-level edits are the same thing. */
  lemma EditIsEditDoc(t: string, start: int, end: int, content: string)
    requires EditText(t, start, end, content).Edited?
    ensures DocOf(EditText(t, start, end, content).text) ==
            EditDoc(DocOf(t), start, end, Replacement(content))
  {
    SplicedNewlineFree(t, start, end, content);
    RenderReadBack(Spliced(t, start, end, content), EndsWithNewline(t));
  }

  /** Re-splitting the written text yields the written lines exactly when the list is Stable. */
  lemma ResplitIff(t: string, start: int, end: int, content: string)
    requires EditText(t, start, end, content).Edited?
    ensures ContentLines(EditText(t, start, end, content).text) == WrittenLines(t, start, end, content)
            <==> Stable(WrittenLines(t, start, end, content))
  {
    EditWrites(t, start, end, content);
    hide WrittenLines;
    SplicedNewlineFree(t, start, end, content);
    RenderReadBack(Spliced(t, start, end, content), EndsWithNewline(t));
  }

  /** A newline-terminated file stays so; an unterminated one gains a newline exactly when
      the spliced list has a blank tail. */
  lemma FinalNewlineIff(t: string, start: int, end: int, content: string)
    requires EditText(t, start, end, content).Edited?
    ensures EndsWithNewline(EditText(t, start, end, content).text)
            <==> EndsWithNewline(t) || BlankTail(WrittenLines(t, start, end, content))
  {
    EditWrites(t, start, end, content);
    hide WrittenLines;
    SplicedNewlineFree(t, start, end, content);
    RenderReadBack(Spliced(t, start, end, content), EndsWithNewline(t));
  }

  /** The lines of a small file with a blank last line. */
  lemma BlankLastLines(t: string)
    requires t == "a\n\n"
    ensures ContentLines(t) == ["a", ""] && EndsWithNewline(t)
  {
    SplitJoin(["a", "", ""]);
    assert Join(["", ""]) == "" + "\n" + Join([""]);
    assert Join(["a", "", ""]) == "a" + "\n" + Join(["", ""]);
    assert Join(["a", "", ""]) == t;
  }

  /** Editing line 1 of a file whose last line is blank silently removes that blank line. */
  lemma BlankLastLineIsLost()
    ensures EditText("a\n\n", 1, 1, "b") == Edited("b\n")
  {
    BlankLastLines("a\n\n");
    SplitLine("b");
    assert Spliced("a\n\n", 1, 1, "b") == ["b", ""];
    assert Join(["b", ""]) == "b" + "\n" + Join([""]);
  }

  /** Two edits in a row, on documents. */
  lemma TwoEdits(t: string, s1: int, e1: int, c1: string, s2: int, e2: int, c2: string)
    requires EditText(t, s1, e1, c1).Edited?
    ensures var once := EditDoc(DocOf(t), s1, e1, Replacement(c1));
            var twice := EditText(EditText(t, s1, e1, c1).text, s2, e2, c2);
            1 <= s2 <= e2 && s2 <= |once.lines| + 1 ==>
              twice.Edited? && DocOf(twice.text) == EditDoc(once, s2, e2, Replacement(c2))
  {
    EditIsEditDoc(t, s1, e1, c1);
    var once := EditText(t, s1, e1, c1).text;
    if 1 <= s2 <= e2 && s2 <= |DocOf(once).lines| + 1 {
      EditIsEditDoc(once, s2, e2, c2);
    }
  }

  /** A splice replaces the middle of three parts. */
  lemma SpliceMiddle<T>(pre: seq<T>, mid: seq<T>, suf: seq<T>, ins: seq<T>, ls: seq<T>)
    requires mid != [] && ls == pre + mid + suf
    ensures Splice(ls, |pre| + 1, |pre| + |mid|, ins) == pre + ins + suf
  {
    assert ls[..|pre|] == pre;
    assert ls[|pre| + |mid|..] == suf;
  }

  /** What is left of the lines after the range, when the rendered list is read back. */
  function KeptAfter(pre: seq<string>, mid: seq<string>, suf: seq<string>): seq<string> {
    if suf != [] && BlankTail(pre + mid + suf) then Front(suf) else suf
  }

  /** Replacing the middle part of a list that was rendered and read back in between. */
  lemma SpliceKept(pre: seq<string>, mid: seq<string>, suf: seq<string>, ins: seq<string>)
    requires mid != []
    ensures |pre| <= |Kept(pre + mid + suf)|
    ensures Splice(Kept(pre + mid + suf), |pre| + 1, |pre| + |mid|, ins) == pre + ins + KeptAfter(pre, mid, suf)
  {
    var e := pre + mid + suf;
    if !BlankTail(e) {
      SpliceMiddle(pre, mid, suf, ins, e);
    } else if suf != [] {
      assert Front(e) == pre + mid + Front(suf);
      SpliceMiddle(pre, mid, Front(suf), ins, Front(e));
    } else {
      assert Front(e)[..|pre|] == pre;
    }
  }

  // ---- Undo ----

  /** The text of a line range, as a caller would pass it to restore the range. */
  function OldText(t: string, start: int, end: int): string
    requires 1 <= start <= end <= |ContentLines(t)|
  {
    Join(ContentLines(t)[start - 1..end])
  }

  /** Replace a range, then put the old text back over the lines that replaced it. */
  function Undo(t: string, start: int, end: int, content: string): Edit
    requires 1 <= start <= end <= |ContentLines(t)|
    requires content != ""
  {
    var once := EditText(t, start, end, content).text;
    EditText(once, start, start + |Split(content)| - 1, OldText(t, start, end))
  }

  lemma ReplacementOfJoin(ls: seq<string>)
    requires ls != [] && NewlineFree(ls)
    ensures Replacement(Join(ls)) == if ls == [""] then [] else ls
    ensures Join(ls) == "" <==> ls == [""]
  {
    SplitJoin(ls);
    assert Split("") == [""];
  }

  /** A split of non-empty text is never the single blank line. */
  lemma SplitOfNonEmpty(content: string)
    requires content != ""
    ensures Split(content) != [""]
  {
    JoinSplit(content);
  }

  /** The list written by the second edit, from the three parts of the original. */
  function PutBack(pre: seq<string>, mid: seq<string>, suf: seq<string>, ins: seq<string>): seq<string> {
    pre + (if mid == [""] then [] else mid) + KeptAfter(pre, ins, suf)
  }

  /** When the list the second edit builds, read back, is the original document. */
  lemma RestoredIff(pre: seq<string>, mid: seq<string>, suf: seq<string>, ins: seq<string>, terminated: bool)
    requires mid != [] && ins != [] && ins != [""]
    ensures var ls, e, back := pre + mid + suf, pre + ins + suf, PutBack(pre, mid, suf, ins);
            (Kept(back) == ls && (terminated || BlankTail(e) || BlankTail(back)) == terminated) <==>
              (Stable(ls) && (mid != [""] || |ls| == 1) && (Stable(e) || terminated))
  {
    var ls, e, back := pre + mid + suf, pre + ins + suf, PutBack(pre, mid, suf, ins);
    if suf != [] && BlankTail(e) {
      assert Last(e) == Last(suf) == Last(ls);
      assert |back| < |ls|;
    } else if mid == [""] {
      assert |back| < |ls|;
      if |ls| == 1 { assert ls == [""]; }
    } else {
      assert back == ls;
    }
  }

  /** Undo restores the file exactly under a condition on the inputs alone. */
  lemma UndoIff(t: string, start: int, end: int, content: string)
    requires 1 <= start <= end <= |ContentLines(t)|
    requires content != ""
    ensures Undo(t, start, end, content) == Edited(t) <==>
              && Stable(ContentLines(t))
              && (OldText(t, start, end) != "" || |ContentLines(t)| == 1)
              && (Stable(Spliced(t, start, end, content)) || EndsWithNewline(t))
  {
    hide *;
    var ls := ContentLines(t);
    var pre, mid, suf := ls[..start - 1], ls[start - 1..end], ls[end..];
    assert ls == pre + mid + suf;
    UndoParts(t, pre, mid, suf, content);
  }

  lemma UndoParts(t: string, pre: seq<string>, mid: seq<string>, suf: seq<string>, content: string)
    requires ContentLines(t) == pre + mid + suf && mid != [] && content != ""
    ensures var ls := ContentLines(t);
            var start, end := |pre| + 1, |pre| + |mid|;
            Undo(t, start, end, content) == Edited(t) <==>
              && Stable(ls)
              && (OldText(t, start, end) != "" || |ls| == 1)
              && (Stable(Spliced(t, start, end, content)) || EndsWithNewline(t))
  {
    hide Split, Join, ContentLines, EndsWithNewline, Stable, BlankTail, Kept, KeptAfter, Splice;
    var start, end, ins := |pre| + 1, |pre| + |mid|, Split(content);
    assert NewlineFree(mid) by {
      ContentNewlineFree(t);
      assert forall i :: 0 <= i < |mid| ==> mid[i] == ContentLines(t)[|pre| + i];
    }
    hide NewlineFree;
    assert ContentLines(t)[start - 1..end] == mid;
    ReplacementOfJoin(mid);
    SplitOfNonEmpty(content);
    SpliceMiddle(pre, mid, suf, ins, ContentLines(t));
    SpliceKept(pre, ins, suf, if mid == [""] then [] else mid);
    RestoredIff(pre, mid, suf, ins, EndsWithNewline(t));
    TwoEdits(t, start, end, content, start, start + |ins| - 1, Join(mid));
    DocDeterminesText(Undo(t, start, end, content).text, t);
  }

  /** A file and an edit that cannot be undone this way: the blank last line does not come back. */
  lemma UndoCanFail(t: string)
    requires t == "a\n\n"
    ensures |ContentLines(t)| == 2 && Undo(t, 1, 1, "b") != Edited(t)
  {
    BlankLastLines(t);
    hide ContentLines, Undo, EditText;
    UndoIff(t, 1, 1, "b");
  }

  // ---- Two disjoint edits ----

  /** Growth in lines of an edit; later line numbers shift by this much. */
  function Growth(start: int, end: int, content: string): int {
    |Replacement(content)| - (end - start + 1)
  }

  function EarlierThenLater(t: string, s1: int, e1: int, c1: string, s2: int, e2: int, c2: string): Edit
    requires 1 <= s1 <= e1 < s2 <= e2 <= |ContentLines(t)|
  {
    var d := Growth(s1, e1, c1);
    EditText(EditText(t, s1, e1, c1).text, s2 + d, e2 + d, c2)
  }

  function LaterThenEarlier(t: string, s1: int, e1: int, c1: string, s2: int, e2: int, c2: string): Edit
    requires 1 <= s1 <= e1 < s2 <= e2 <= |ContentLines(t)|
  {
    EditText(EditText(t, s2, e2, c2).text, s1, e1, c1)
  }

  /** When the order of two disjoint edits does not show. It never does if the later range stops
      before the last line. Otherwise it depends on how the parts end: `tail` is what follows
      the first range once the second is replaced, `both` the list with both replaced. */
  predicate OrderIsHidden(t: string, s1: int, e1: int, c1: string, s2: int, e2: int, c2: string)
    requires 1 <= s1 <= e1 < s2 <= e2 <= |ContentLines(t)|
  {
    var ls := ContentLines(t);
    var tail := ls[e1..s2 - 1] + Replacement(c2);
    var both := ls[..s1 - 1] + Replacement(c1) + tail;
    var terminated := EndsWithNewline(t);
    var first, second := Spliced(t, s1, e1, c1), Spliced(t, s2, e2, c2);
    e2 < |ls| || HiddenAtEnd(both, tail, terminated, BlankTail(first), BlankTail(second))
  }

  /** The same at the end of the file; `first` and `second` say whether that edit alone leaves a
      blank tail. */
  predicate HiddenAtEnd(both: seq<string>, tail: seq<string>, terminated: bool, first: bool, second: bool) {
    if tail == [] then terminated || BlankTail(both) || first == second
    else if Last(tail) != "" then terminated || !first
    else if |both| == 1 then terminated || first
    else both != [] && !BlankTail(Front(both))
  }

  /** Two lists leave the same document, with or without a final newline before. */
  predicate SameDoc(g1: seq<string>, ended1: bool, g2: seq<string>, ended2: bool) {
    Kept(g1) == Kept(g2) && (ended1 || BlankTail(g1)) == (ended2 || BlankTail(g2))
  }

  /** At the end of the file, one order may lose the last line of `tail`. */
  lemma OrdersAtEnd(head: seq<string>, tail: seq<string>, terminated: bool, first: bool, second: bool)
    requires tail != [] ==> (second <==> Last(tail) == "")
    ensures SameDoc(head + tail, terminated || first,
                    head + (if tail != [] && second then Front(tail) else tail), terminated || second) <==>
              HiddenAtEnd(head + tail, tail, terminated, first, second)
  {
    var both := head + tail;
    if tail != [] && second {
      assert head + Front(tail) == Front(both);
      if |both| > 1 { assert Kept(both) == Front(both); }
    }
  }

  /** With lines after the later range, both orders drop the last one or neither does. */
  lemma OrdersBeforeEnd(a: seq<string>, m1: seq<string>, b: seq<string>, m2: seq<string>, z: seq<string>,
                        r1: seq<string>, r2: seq<string>)
    requires m1 != [] && m2 != [] && z != []
    ensures BlankTail(a + r1 + b + m2 + z) == BlankTail(a + m1 + (b + r2 + z))
    ensures a + r1 + b + r2 + KeptAfter(a + r1 + b, m2, z) == a + r1 + KeptAfter(a, m1, b + r2 + z)
  {
    var e1, e2, kept := a + r1 + b + m2 + z, a + m1 + (b + r2 + z), if Last(z) == "" then Front(z) else z;
    assert Last(e1) == Last(z) == Last(b + r2 + z) == Last(e2);
    assert Front(b + r2 + z) == b + r2 + Front(z);
    assert KeptAfter(a + r1 + b, m2, z) == kept && KeptAfter(a, m1, b + r2 + z) == b + r2 + kept;
    hide KeptAfter, BlankTail;
    assert a + r1 + b + r2 + kept == a + r1 + (b + r2 + kept);
  }

  /** Both orders on documents, by the five parts of the line list. */
  lemma OrdersAgreeIff(a: seq<string>, m1: seq<string>, b: seq<string>, m2: seq<string>, z: seq<string>,
                       r1: seq<string>, r2: seq<string>, terminated: bool)
    requires m1 != [] && m2 != []
    ensures var e1, e2 := a + r1 + b + m2 + z, a + m1 + (b + r2 + z);
            var g1, g2 := a + r1 + b + r2 + KeptAfter(a + r1 + b, m2, z), a + r1 + KeptAfter(a, m1, b + r2 + z);
            SameDoc(g1, terminated || BlankTail(e1), g2, terminated || BlankTail(e2)) <==>
              (z != [] || HiddenAtEnd(a + r1 + (b + r2), b + r2, terminated, BlankTail(e1), BlankTail(e2)))
  {
    hide Kept, HiddenAtEnd;
    if z != [] {
      OrdersBeforeEnd(a, m1, b, m2, z, r1, r2);
      hide KeptAfter, BlankTail;
    } else {
      var e1, e2 := a + r1 + b + m2 + z, a + m1 + (b + r2 + z);
      assert b + r2 + z == b + r2;
      assert KeptAfter(a + r1 + b, m2, z) == [] && a + r1 + b + r2 + [] == a + r1 + (b + r2);
      OrdersAtEnd(a + r1, b + r2, terminated, BlankTail(e1), BlankTail(e2));
    }
  }

  /** Both orders are always accepted, and give the same file exactly when OrderIsHidden. */
  lemma DisjointEditsCommuteIff(t: string, s1: int, e1: int, c1: string, s2: int, e2: int, c2: string)
    requires 1 <= s1 <= e1 < s2 <= e2 <= |ContentLines(t)|
    ensures EarlierThenLater(t, s1, e1, c1, s2, e2, c2).Edited? && LaterThenEarlier(t, s1, e1, c1, s2, e2, c2).Edited?
    ensures EarlierThenLater(t, s1, e1, c1, s2, e2, c2) == LaterThenEarlier(t, s1, e1, c1, s2, e2, c2)
            <==> OrderIsHidden(t, s1, e1, c1, s2, e2, c2)
  {
    hide Split, Join, ContentLines, EndsWithNewline, Splice, BlankTail, Kept, KeptAfter, HiddenAtEnd, Replacement;
    var ls, r1, r2, d := ContentLines(t), Replacement(c1), Replacement(c2), Growth(s1, e1, c1);
    var a, m1, b, m2, z := ls[..s1 - 1], ls[s1 - 1..e1], ls[e1..s2 - 1], ls[s2 - 1..e2], ls[e2..];
    assert ls == a + m1 + (b + m2 + z) == a + m1 + b + m2 + z;
    SpliceMiddle(a, m1, b + m2 + z, r1, ls);
    SpliceMiddle(a + m1 + b, m2, z, r2, ls);
    assert a + r1 + (b + m2 + z) == a + r1 + b + m2 + z;
    assert a + m1 + (b + r2 + z) == a + m1 + b + r2 + z;
    SpliceKept(a + r1 + b, m2, z, r2);
    SpliceKept(a, m1, b + r2 + z, r1);
    TwoEdits(t, s1, e1, c1, s2 + d, e2 + d, c2);
    TwoEdits(t, s2, e2, c2, s1, e1, c1);
    OrdersAgreeIff(a, m1, b, m2, z, r1, r2, EndsWithNewline(t));
    DocDeterminesText(EarlierThenLater(t, s1, e1, c1, s2, e2, c2).text,
                      LaterThenEarlier(t, s1, e1, c1, s2, e2, c2).text);
  }

  /** In particular, disjoint edits commute when the later range stops before the last line, and
      when the file and the later edit are stable. */
  lemma DisjointEditsCommute(t: string, s1: int, e1: int, c1: string, s2: int, e2: int, c2: string)
    requires 1 <= s1 <= e1 < s2 <= e2 <= |ContentLines(t)|
    requires e2 < |ContentLines(t)| || (Stable(ContentLines(t)) && Stable(Spliced(t, s2, e2, c2)))
    ensures EarlierThenLater(t, s1, e1, c1, s2, e2, c2) == LaterThenEarlier(t, s1, e1, c1, s2, e2, c2)
  {
    hide Split, ContentLines, EarlierThenLater, LaterThenEarlier, Replacement;
    DisjointEditsCommuteIff(t, s1, e1, c1, s2, e2, c2);
  }

  /** The documents of the example below. */
  lemma UnstableDocs()
    ensures var d, blank := Doc(["a", "b"], true), ["y", "", ""];
            && EditDoc(d, 1, 1, ["x"]) == Doc(["x", "b"], true)
            && EditDoc(d, 2, 2, blank) == Doc(["a", "y", ""], true)
            && EditDoc(Doc(["x", "b"], true), 2, 2, blank) == Doc(["x", "y", ""], true)
            && EditDoc(Doc(["a", "y", ""], true), 1, 1, ["x"]) == Doc(["x", "y"], true)
  {
    var blank := ["y", "", ""];
    assert Splice(["a", "b"], 1, 1, ["x"]) == ["x", "b"];
    assert Splice(["a", "b"], 2, 2, blank) == ["a", "y", "", ""];
    assert Splice(["x", "b"], 2, 2, blank) == ["x", "y", "", ""];
    assert Splice(["a", "y", ""], 1, 1, ["x"]) == ["x", "y", ""];
  }

  /** Without stability of the later edit the order shows: one order keeps a blank line. */
  lemma UnstableEditsNeedNotCommute(t: string, c2: string)
    requires t == Join(["a", "b", ""]) && c2 == Join(["y", "", ""])
    ensures ContentLines(t) == ["a", "b"]
    ensures EarlierThenLater(t, 1, 1, "x", 2, 2, c2) != LaterThenEarlier(t, 1, 1, "x", 2, 2, c2)
  {
    hide Split, Join, EditDoc, EndsWithNewline;
    SplitJoin(["a", "b", ""]);
    SentinelIffNewline(t);
    assert Front(["a", "b", ""]) == ["a", "b"];
    assert DocOf(t) == Doc(["a", "b"], true);
    ReplacementOfJoin(["y", "", ""]);
    SplitLine("x");
    hide ContentLines, EditText;
    assert Replacement(c2) == ["y", "", ""] && Replacement("x") == ["x"];
    UnstableDocs();
    TwoEdits(t, 1, 1, "x", 2, 2, c2);
    TwoEdits(t, 2, 2, c2, 1, 1, "x");
  }
}
