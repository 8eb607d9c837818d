/** Finding, joining and splitting text: what the plan editing operations are made of. */
module PlanText {
  import opened Text
  import opened LineStream

  // ---------- searching ----------

  /** `includes` */
  predicate Contains(s: string, p: string) {
    p <= s || (s != "" && Contains(s[1..], p))
  }

  datatype Cut = Absent | At(before: string, rest: string)

  /** Cuts a text where a pattern first occurs; `indexOf` is the length of what is before. */
  function CutAt(s: string, p: string): Cut {
    if p <= s then At("", s)
    else if s == "" then Absent
    else After([s[0]], CutAt(s[1..], p))
  }

  function After(x: string, cut: Cut): Cut {
    if cut.Absent? then Absent else At(x + cut.before, cut.rest)
  }

  lemma AfterTwice(c: char, x: string, cut: Cut)
    ensures After([c], After(x, cut)) == After([c] + x, cut)
  {
    if cut.At? { assert [c] + (x + cut.before) == [c] + x + cut.before; }
  }

  lemma AfterNothing(cut: Cut)
    ensures After("", cut) == cut
  {
    if cut.At? { assert "" + cut.before == cut.before; }
  }

  lemma {:induction false} CutMeans(s: string, p: string)
    ensures CutAt(s, p).At? <==> Contains(s, p)
    ensures CutAt(s, p).At? ==> p <= CutAt(s, p).rest
  {
    if !(p <= s) && s != "" { CutMeans(s[1..], p); }
  }

  /** A pattern without line breaks does not begin in a line and end in the next. */
  lemma NotAcross(x: string, y: string, p: string)
    requires '\n' !in p && p <= x + "\n" + y
    ensures p <= x
  {
    var text := x + "\n" + y;
    assert text[|x|] == '\n';
    assert p == text[..|p|];
    if |p| <= |x| { assert text[..|p|] == x[..|p|]; }
  }

  lemma {:induction false} CutInNextLine(x: string, y: string, p: string)
    requires p != "" && '\n' !in p && !Contains(x, p) && p <= y
    ensures CutAt(x + "\n" + y, p) == At(x + "\n", y)
  {
    var text := x + "\n" + y;
    if p <= text { NotAcross(x, y, p); }
    if x == "" {
      assert text[1..] == y;
    } else {
      assert text[1..] == x[1..] + "\n" + y;
      CutInNextLine(x[1..], y, p);
      assert [text[0]] + (x[1..] + "\n") == x + "\n";
    }
  }

  lemma {:induction false} ContainsAcross(x: string, y: string, p: string)
    requires p != "" && '\n' !in p
    ensures Contains(x + "\n" + y, p) <==> Contains(x, p) || Contains(y, p)
  {
    var text := x + "\n" + y;
    if p <= text { NotAcross(x, y, p); }
    if p <= x {
      PrefixGrows(p, x, "\n" + y);
      assert x + ("\n" + y) == text;
    }
    if x == "" {
      assert text[1..] == y;
    } else {
      assert text[1..] == x[1..] + "\n" + y;
      ContainsAcross(x[1..], y, p);
    }
  }

  lemma PrefixGrows(p: string, x: string, y: string)
    requires p <= x
    ensures p <= x + y
  {
  }

  /** An earlier occurrence is where the text is cut. */
  lemma {:induction false} CutEarlier(x: string, y: string, p: string)
    requires Contains(x, p)
    ensures CutAt(x + y, p).At? && |CutAt(x + y, p).before| <= |x|
  {
    if p <= x {
      PrefixGrows(p, x, y);
    } else {
      CutEarlier(x[1..], y, p);
      assert (x + y)[1..] == x[1..] + y;
    }
  }

  lemma {:induction false} ContainsAfter(x: string, y: string, p: string)
    requires p != "" && p[0] !in x
    ensures Contains(x + y, p) <==> Contains(y, p)
  {
    if x == "" {
      assert x + y == y;
    } else {
      assert (x + y)[1..] == x[1..] + y && (x + y)[0] == x[0];
      ContainsAfter(x[1..], y, p);
    }
  }

  lemma {:induction false} ContainsBefore(y: string, z: string, p: string)
    requires Contains(y, p)
    ensures Contains(y + z, p)
  {
    if p <= y {
      PrefixGrows(p, y, z);
    } else {
      ContainsBefore(y[1..], z, p);
      assert (y + z)[1..] == y[1..] + z;
    }
  }

  // ---------- lines ----------

  /** `join("\n")` */
  function Join(lines: seq<string>): string {
    if lines == [] then ""
    else if |lines| == 1 then lines[0]
    else lines[0] + "\n" + Join(lines[1..])
  }

  predicate Plain(line: string) {
    '\n' !in line && '\r' !in line
  }

  predicate AllPlain(lines: seq<string>) {
    forall i :: 0 <= i < |lines| ==> Plain(lines[i])
  }

  /** What precedes a line feed does not end in a carriage return. */
  predicate Closed(text: string) {
    text == "" || text[|text| - 1] != '\r'
  }

  lemma {:induction false} SplitClosed(text: string)
    requires Closed(text)
    ensures SplitLines(text + "\n") == SplitLines(text) + [""]
  {
    var whole := text + "\n";
    if text == "" {
      assert whole[1..] == "";
    } else {
      assert whole[1..] == text[1..] + "\n";
      if text[0] == '\r' && |text| > 1 && text[1] == '\n' {
        assert whole[2..] == text[2..] + "\n";
        SplitClosed(text[2..]);
      } else {
        SplitClosed(text[1..]);
      }
    }
  }

  /** Lines split one text at a time, when a line feed stands between. */
  lemma SplitAfter(text: string, rest: string)
    requires Closed(text)
    ensures SplitLines(text + "\n" + rest) == SplitLines(text) + SplitLines(rest)
  {
    SplitClosed(text);
    SplitResumes(text + "\n", rest);
    assert Front(SplitLines(text) + [""]) == SplitLines(text);
    assert "" + rest == rest;
  }

  lemma PlainIsClosed(line: string)
    requires Plain(line)
    ensures Closed(line) && SplitLines(line) == [line]
  {
    SplitNoNewline(line);
  }

  lemma {:induction false} JoinClosed(lines: seq<string>)
    requires AllPlain(lines)
    ensures Closed(Join(lines))
  {
    if |lines| == 1 {
      PlainIsClosed(lines[0]);
    } else if lines != [] {
      JoinClosed(lines[1..]);
      var rest := Join(lines[1..]);
      var text := lines[0] + "\n" + rest;
      if rest == "" { assert text[|text| - 1] == '\n'; } else { assert text[|text| - 1] == rest[|rest| - 1]; }
    }
  }

  lemma {:induction false} SplitJoin(lines: seq<string>)
    requires lines != [] && AllPlain(lines)
    ensures SplitLines(Join(lines)) == lines
  {
    PlainIsClosed(lines[0]);
    if |lines| == 1 {
      assert lines == [lines[0]];
    } else {
      SplitJoin(lines[1..]);
      SplitAfter(lines[0], Join(lines[1..]));
      assert lines == [lines[0]] + lines[1..];
    }
  }

  lemma {:induction false} JoinAppend(a: seq<string>, b: seq<string>)
    requires a != [] && b != []
    ensures Join(a + b) == Join(a) + "\n" + Join(b)
  {
    assert (a + b)[1..] == a[1..] + b;
    if |a| == 1 {
      assert a + b == [a[0]] + b && a[1..] + b == b;
    } else {
      JoinAppend(a[1..], b);
      Regroup(a[0], Join(a[1..]), Join(b));
    }
  }

  lemma Regroup(a: string, b: string, c: string)
    ensures a + "\n" + (b + "\n" + c) == (a + "\n" + b) + "\n" + c
  {
  }

  predicate NoneContains(lines: seq<string>, p: string) {
    lines == [] || (!Contains(lines[0], p) && NoneContains(lines[1..], p))
  }

  lemma {:induction false} JoinContains(lines: seq<string>, p: string)
    requires p != "" && '\n' !in p && NoneContains(lines, p)
    ensures !Contains(Join(lines), p)
  {
    if |lines| > 1 {
      JoinContains(lines[1..], p);
      ContainsAcross(lines[0], Join(lines[1..]), p);
    }
  }

  /** The heading mark at the start of a later line. */
  predicate NoneStarts(lines: seq<string>, p: string) {
    lines == [] || (!(p <= lines[0]) && NoneStarts(lines[1..], p))
  }

  lemma SkipLine(x: string, y: string, p: string)
    requires '\n' !in x && p != "" && p[0] == '\n'
    ensures CutAt(x + "\n" + y, p) == After(x, CutAt("\n" + y, p))
    decreases |x|
  {
    var cut := CutAt("\n" + y, p);
    if x == "" {
      assert x + "\n" + y == "\n" + y;
      AfterNothing(cut);
    } else {
      var text := x + "\n" + y;
      assert text[0] == x[0] && text[1..] == x[1..] + "\n" + y;
      SkipLine(x[1..], y, p);
      AfterTwice(x[0], x[1..], cut);
      assert x == [x[0]] + x[1..];
    }
  }

  /** `indexOf("\n## ")` from a line on finds the first later line that starts a section. */
  lemma {:induction false} CutAtSection(line: string, lines: seq<string>, y: string, mark: string)
    requires '\n' !in line && mark != "" && '\n' !in mark && AllPlain(lines) && NoneStarts(lines, mark) && mark <= y
    ensures CutAt(Join([line] + lines) + "\n" + y, "\n" + mark) == At(Join([line] + lines), "\n" + y)
    decreases |lines|
  {
    var p := "\n" + mark;
    if lines == [] {
      SkipLine(line, y, p);
      assert p <= "\n" + y && Join([line] + lines) == line && line + "" == line;
    } else {
      var rest := Join(lines) + "\n" + y;
      assert [lines[0]] + lines[1..] == lines;
      CutAtSection(lines[0], lines[1..], y, mark);
      NotAtLine(lines, y, mark);
      StepOver(rest, p, At(Join(lines), "\n" + y));
      SkipLine(line, rest, p);
      JoinFirst(line, lines);
      Regroup(line, Join(lines), y);
      assert line + ("\n" + Join(lines)) == line + "\n" + Join(lines);
    }
  }

  lemma JoinFirst(line: string, lines: seq<string>)
    requires lines != []
    ensures Join([line] + lines) == line + "\n" + Join(lines)
  {
    assert ([line] + lines)[1..] == lines;
  }

  lemma StepOver(rest: string, p: string, cut: Cut)
    requires !(p <= "\n" + rest) && CutAt(rest, p) == cut
    ensures CutAt("\n" + rest, p) == After("\n", cut)
  {
    assert ("\n" + rest)[1..] == rest;
  }

  lemma NotAtLine(lines: seq<string>, y: string, mark: string)
    requires lines != [] && '\n' !in mark && mark != "" && !(mark <= lines[0])
    ensures !("\n" + mark <= "\n" + (Join(lines) + "\n" + y))
  {
    var rest := Join(lines) + "\n" + y;
    if "\n" + mark <= "\n" + rest {
      assert mark <= rest by {
        assert ("\n" + mark)[1..] == mark && ("\n" + rest)[1..] == rest;
      }
      if |lines| == 1 {
        NotAcross(lines[0], y, mark);
      } else {
        Regroup(lines[0], Join(lines[1..]), y);
        NotAcross(lines[0], Join(lines[1..]) + "\n" + y, mark);
      }
    }
  }
}
