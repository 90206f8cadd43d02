/** Newline-separated text as a list of lines: Python's `text.split("\n")` and
    `"\n".join(lines)`, and the facts that make them inverses of each other. */
module Lines {

  predicate EndsWithNewline(t: string) {
    t != "" && t[|t| - 1] == '\n'
  }

  predicate NewlineFree(ls: seq<string>) {
    forall i :: 0 <= i < |ls| ==> '\n' !in ls[i]
  }

  function Last(ls: seq<string>): string
    requires ls != []
  {
    ls[|ls| - 1]
  }

  function Front(ls: seq<string>): seq<string>
    requires ls != []
  {
    ls[..|ls| - 1]
  }

  /** `t.split("\n")` */
  function Split(t: string): (ls: seq<string>)
    ensures ls != []
  {
    if t == "" then [""]
    else
      var rest := Split(t[1..]);
      if t[0] == '\n' then [""] + rest else [[t[0]] + rest[0]] + rest[1..]
  }

  /** `"\n".join(ls)` */
  function Join(ls: seq<string>): string {
    if ls == [] then ""
    else if |ls| == 1 then ls[0]
    else ls[0] + "\n" + Join(ls[1..])
  }

  lemma {:induction false} SplitNewlineFree(t: string)
    ensures NewlineFree(Split(t))
  {
    if t != "" {
      SplitNewlineFree(t[1..]);
    }
  }

  lemma {:induction false} JoinSplit(t: string)
    ensures Join(Split(t)) == t
  {
    if t != "" {
      JoinSplit(t[1..]);
      var rest := Split(t[1..]);
      var ls := Split(t);
      if t[0] == '\n' {
        assert ls[1..] == rest;
        assert Join(ls) == "" + "\n" + Join(rest);
      } else {
        assert ls[1..] == rest[1..];
        if |rest| == 1 {
          assert Join(ls) == [t[0]] + rest[0];
        } else {
          assert Join(ls) == [t[0]] + Join(rest);
        }
      }
      assert t == [t[0]] + t[1..];
    }
  }

  lemma {:induction false} SplitLine(a: string)
    requires '\n' !in a
    ensures Split(a) == [a]
  {
    if a != "" {
      SplitLine(a[1..]);
      assert [a[0]] + a[1..] == a;
    }
  }

  lemma {:induction false} SplitCons(a: string, t: string)
    requires '\n' !in a
    ensures Split(a + "\n" + t) == [a] + Split(t)
  {
    var whole := a + "\n" + t;
    if a == "" {
      assert whole[1..] == t;
    } else {
      SplitCons(a[1..], t);
      assert whole[1..] == a[1..] + "\n" + t;
      assert [a[0]] + a[1..] == a;
      assert Split(whole) == [[a[0]] + a[1..]] + Split(t);
    }
  }

  lemma {:induction false} SplitJoin(ls: seq<string>)
    requires ls != [] && NewlineFree(ls)
    ensures Split(Join(ls)) == ls
  {
    if |ls| == 1 {
      SplitLine(ls[0]);
    } else {
      SplitJoin(ls[1..]);
      SplitCons(ls[0], Join(ls[1..]));
    }
  }

  /** A text ends with a newline exactly when splitting leaves an empty sentinel. */
  lemma {:induction false} SentinelIffNewline(t: string)
    ensures EndsWithNewline(t) <==> |Split(t)| >= 2 && Last(Split(t)) == ""
  {
    if t != "" {
      SentinelIffNewline(t[1..]);
      var rest := Split(t[1..]);
      if t[0] != '\n' && |rest| >= 2 {
        assert Last(Split(t)) == Last(rest);
      }
    }
  }

  /** Joining a list whose last line is blank is joining the rest and adding a newline. */
  lemma {:induction false} JoinBlankLast(ls: seq<string>)
    requires ls != []
    ensures Join(ls + [""]) == Join(ls) + "\n"
  {
    var ext := ls + [""];
    assert ext[1..] == ls[1..] + [""];
    if |ls| > 1 {
      JoinBlankLast(ls[1..]);
    }
  }

  /** Text after a newline is the last line. */
  lemma {:induction false} SplitSnoc(t: string, last: string)
    requires '\n' !in last
    ensures Split(t + "\n" + last) == Split(t) + [last]
  {
    var whole := t + "\n" + last;
    if t == "" {
      assert whole[1..] == last;
      SplitLine(last);
    } else {
      SplitSnoc(t[1..], last);
      assert whole[1..] == t[1..] + "\n" + last;
    }
  }

  /** The first character opens a line or joins the first one. */
  lemma SplitFirst(t: string, rest: seq<string>)
    requires t != "" && rest == Split(t[1..])
    ensures |Split(t)| == if t[0] == '\n' then |rest| + 1 else |rest|
    ensures if t[0] == '\n' then Split(t) == [""] + rest else Split(t) == [[t[0]] + rest[0]] + rest[1..]
  {
  }

  /** All lines of a first part but its last are lines of the whole; without a further newline
      there are no further lines. */
  lemma {:induction false} SplitPrefix(t: string, more: string)
    ensures |Split(t)| <= |Split(t + more)|
    ensures forall i :: 0 <= i < |Split(t)| - 1 ==> Split(t)[i] == Split(t + more)[i]
    ensures '\n' !in more ==> |Split(t)| == |Split(t + more)|
  {
    if t == "" {
      assert t + more == more;
      if '\n' !in more { SplitLine(more); }
    } else {
      var u := t[1..];
      SplitPrefix(u, more);
      assert (t + more)[0] == t[0] && (t + more)[1..] == u + more;
      SplitFirst(t, Split(u));
      SplitFirst(t + more, Split(u + more));
      hide Split;
      forall i | 0 <= i < |Split(t)| - 1 ensures Split(t)[i] == Split(t + more)[i] {
        if t[0] == '\n' && i > 0 {
          assert Split(u)[i - 1] == Split(u + more)[i - 1];
        } else if t[0] != '\n' {
          assert Split(u)[i] == Split(u + more)[i];
        }
      }
    }
  }
}
