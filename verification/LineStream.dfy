/** Splitting a text into lines at once, and splitting it while it arrives in chunks. */
module LineStream {

  const MAX_PENDING_LINE_CHARS: nat := 256 * 1024

  /** `text.split(/\r?\n/)`: the separator is tried at each position, left to right. */
  function SplitLines(text: string): (lines: seq<string>)
    ensures |lines| >= 1
  {
    if text == "" then [""]
    else if text[0] == '\n' then [""] + SplitLines(text[1..])
    else if text[0] == '\r' && |text| > 1 && text[1] == '\n' then [""] + SplitLines(text[2..])
    else
      var rest := SplitLines(text[1..]);
      [[text[0]] + rest[0]] + rest[1..]
  }

  function Front<T>(s: seq<T>): seq<T>
    requires s != []
  {
    s[..|s| - 1]
  }

  function Last<T>(s: seq<T>): T
    requires s != []
  {
    s[|s| - 1]
  }

  /** The text up to and including its last newline. */
  function CompletePrefix(text: string): string {
    if text == "" || Last(text) == '\n' then text else CompletePrefix(Front(text))
  }

  function Concat(chunks: seq<string>): string {
    if chunks == [] then "" else Concat(Front(chunks)) + Last(chunks)
  }

  // ---------- a reader that folds lines into a state ----------

  function Fold<S>(step: (S, string) -> S, s: S, lines: seq<string>): S {
    if lines == [] then s else step(Fold(step, s, Front(lines)), Last(lines))
  }

  /** The whole text read at once. */
  function Batch<S>(step: (S, string) -> S, s: S, text: string): S {
    Fold(step, s, SplitLines(text))
  }

  datatype Reader<S> = Reader(state: S, pending: string)

  /** Keeps the newest characters when the pending text grows past its limit. */
  function Retained(pending: string): (kept: string)
    ensures |kept| <= MAX_PENDING_LINE_CHARS
    ensures |pending| <= MAX_PENDING_LINE_CHARS ==> kept == pending
  {
    if |pending| > MAX_PENDING_LINE_CHARS
    then pending[|pending| - MAX_PENDING_LINE_CHARS..] else pending
  }

  function Push<S>(step: (S, string) -> S, r: Reader<S>, chunk: string): Reader<S> {
    var lines := SplitLines(Retained(r.pending + chunk));
    Reader(Fold(step, r.state, Front(lines)), Last(lines))
  }

  function PushAll<S>(step: (S, string) -> S, s: S, chunks: seq<string>): Reader<S> {
    if chunks == [] then Reader(s, "") else Push(step, PushAll(step, s, Front(chunks)), Last(chunks))
  }

  function Finish<S>(step: (S, string) -> S, r: Reader<S>): S {
    if r.pending != "" then step(r.state, r.pending) else r.state
  }

  /** No push finds more than the limit waiting to be split. */
  predicate Fits(chunks: seq<string>) {
    forall k {:trigger chunks[k]} :: 0 <= k < |chunks| ==>
      |Last(SplitLines(Concat(chunks[..k])))| + |chunks[k]| <= MAX_PENDING_LINE_CHARS
  }

  /** A line consumer that ignores the empty line. */
  ghost predicate SkipsEmpty<S(!new)>(step: (S, string) -> S) {
    forall s :: step(s, "") == s
  }

  // ---------- splitting ----------

  lemma {:induction false} SplitNoNewline(text: string)
    requires '\n' !in text
    ensures SplitLines(text) == [text]
  {
    if text != "" {
      SplitNoNewline(text[1..]);
      assert text == [text[0]] + text[1..];
    }
  }

  lemma {:induction false} LastLineHasNoNewline(text: string)
    ensures '\n' !in Last(SplitLines(text))
    ensures |SplitLines(text)| == 1 ==> SplitLines(text) == [text]
  {
    if text == "" {
    } else if text[0] == '\n' {
      LastLineHasNoNewline(text[1..]);
    } else if text[0] == '\r' && |text| > 1 && text[1] == '\n' {
      LastLineHasNoNewline(text[2..]);
    } else {
      LastLineHasNoNewline(text[1..]);
      assert text == [text[0]] + text[1..];
    }
  }

  /** Splitting may stop anywhere and resume from the unfinished line, even inside `\r\n`. */
  lemma {:induction false} SplitResumes(a: string, b: string)
    ensures SplitLines(a + b) == Front(SplitLines(a)) + SplitLines(Last(SplitLines(a)) + b)
  {
    if a == "" {
      assert a + b == b;
    } else if a[0] == '\n' {
      assert (a + b)[1..] == a[1..] + b;
      SplitResumes(a[1..], b);
      EmptyHead(SplitLines(a[1..]), SplitLines(Last(SplitLines(a[1..])) + b));
    } else if a[0] == '\r' && |a| > 1 && a[1] == '\n' {
      assert (a + b)[2..] == a[2..] + b;
      SplitResumes(a[2..], b);
      EmptyHead(SplitLines(a[2..]), SplitLines(Last(SplitLines(a[2..])) + b));
    } else if |SplitLines(a)| == 1 {
      LastLineHasNoNewline(a);
    } else {
      assert (a + b)[1..] == a[1..] + b;
      SplitResumes(a[1..], b);
      assert |a| > 1;
      HeadExtends(a[0], SplitLines(a[1..]), SplitLines(Last(SplitLines(a[1..])) + b));
    }
  }

  lemma EmptyHead(rest: seq<string>, tail: seq<string>)
    requires rest != []
    ensures [""] + (Front(rest) + tail) == Front([""] + rest) + tail && Last([""] + rest) == Last(rest)
  {
  }

  lemma HeadExtends(c: char, rest: seq<string>, tail: seq<string>)
    requires |rest| > 1
    ensures var lines, whole := [[c] + rest[0]] + rest[1..], Front(rest) + tail;
            && Last(lines) == Last(rest)
            && [[c] + whole[0]] + whole[1..] == Front(lines) + tail
  {
    var lines := [[c] + rest[0]] + rest[1..];
    assert Front(lines) == [[c] + rest[0]] + Front(rest)[1..];
    assert (Front(rest) + tail)[1..] == Front(rest)[1..] + tail;
  }

  lemma {:induction false} SplitEndsEmpty(text: string)
    requires text == "" || Last(text) == '\n'
    ensures Last(SplitLines(text)) == ""
  {
    if |text| > 1 {
      if text[0] == '\r' && text[1] == '\n' {
        SplitEndsEmpty(text[2..]);
      } else {
        SplitEndsEmpty(text[1..]);
        if text[0] != '\n' { SplitTwo(text[1..]); }
      }
    }
  }

  lemma {:induction false} SplitTwo(text: string)
    requires text != "" && Last(text) == '\n'
    ensures |SplitLines(text)| > 1
  {
    if |text| > 1 {
      SplitTwo(text[1..]);
    }
  }

  lemma {:induction false} SplitAtLineEnd(prefix: string, tail: string)
    requires prefix == "" || Last(prefix) == '\n'
    requires '\n' !in tail
    ensures SplitLines(prefix) == Front(SplitLines(prefix + tail)) + [""]
  {
    SplitEndsEmpty(prefix);
    SplitResumes(prefix, tail);
    SplitNoNewline(tail);
    assert "" + tail == tail;
  }

  lemma {:induction false} CompletePrefixCuts(text: string) returns (tail: string)
    ensures text == CompletePrefix(text) + tail && '\n' !in tail
    ensures CompletePrefix(text) == "" || Last(CompletePrefix(text)) == '\n'
  {
    if text == "" || Last(text) == '\n' {
      tail := "";
    } else {
      var front := CompletePrefixCuts(Front(text));
      tail := front + [Last(text)];
      assert text == Front(text) + [Last(text)];
    }
  }

  lemma SplitCompletePrefix(text: string)
    ensures SplitLines(CompletePrefix(text)) == Front(SplitLines(text)) + [""]
  {
    var tail := CompletePrefixCuts(text);
    SplitAtLineEnd(CompletePrefix(text), tail);
  }

  // ---------- folding ----------

  lemma {:induction false} FoldConcat<S>(step: (S, string) -> S, s: S, a: seq<string>, b: seq<string>)
    ensures Fold(step, s, a + b) == Fold(step, Fold(step, s, a), b)
  {
    if b == [] {
      assert a + b == a;
    } else {
      assert Front(a + b) == a + Front(b);
      FoldConcat(step, s, a, Front(b));
    }
  }

  /** After pushes that fit, what was delivered and what is pending are the split text. */
  lemma {:induction false} PushDelivers<S>(step: (S, string) -> S, s: S, fed: string, r: Reader<S>, chunk: string)
    requires r.state == Fold(step, s, Front(SplitLines(fed)))
    requires r.pending == Last(SplitLines(fed))
    requires |r.pending| + |chunk| <= MAX_PENDING_LINE_CHARS
    ensures var next := Push(step, r, chunk);
            && next.state == Fold(step, s, Front(SplitLines(fed + chunk)))
            && next.pending == Last(SplitLines(fed + chunk))
  {
    var lines := SplitLines(r.pending + chunk);
    SplitResumes(fed, chunk);
    assert Front(SplitLines(fed + chunk)) == Front(SplitLines(fed)) + Front(lines);
    FoldConcat(step, s, Front(SplitLines(fed)), Front(lines));
  }

  lemma {:induction false} PushAllDelivers<S>(step: (S, string) -> S, s: S, chunks: seq<string>)
    requires Fits(chunks)
    ensures var r := PushAll(step, s, chunks);
            && r.state == Fold(step, s, Front(SplitLines(Concat(chunks))))
            && r.pending == Last(SplitLines(Concat(chunks)))
  {
    if chunks != [] {
      var front := Front(chunks);
      assert forall k :: 0 <= k < |front| ==> front[k] == chunks[k] && front[..k] == chunks[..k];
      PushAllDelivers(step, s, front);
      assert front == chunks[..|chunks| - 1] && Last(chunks) == chunks[|chunks| - 1];
      PushDelivers(step, s, Concat(front), PushAll(step, s, front), Last(chunks));
    }
  }

  lemma FitsPrefix(chunks: seq<string>, k: nat)
    requires Fits(chunks) && k <= |chunks|
    ensures Fits(chunks[..k])
  {
    forall j | 0 <= j < k
      ensures |Last(SplitLines(Concat(chunks[..k][..j])))| + |chunks[..k][j]| <= MAX_PENDING_LINE_CHARS
    {
      assert chunks[..k][j] == chunks[j] && chunks[..k][..j] == chunks[..j];
    }
  }

  lemma FoldLast<S>(step: (S, string) -> S, s: S, lines: seq<string>)
    requires lines != []
    ensures Fold(step, s, lines) == step(Fold(step, s, Front(lines)), Last(lines))
  {
  }

  /** A stream read in chunks ends where the whole text read at once ends. */
  lemma {:induction false} ChunkingDoesNotMatter<S(!new)>(step: (S, string) -> S, s: S, chunks: seq<string>)
    requires SkipsEmpty(step) && Fits(chunks)
    ensures Finish(step, PushAll(step, s, chunks)) == Batch(step, s, Concat(chunks))
  {
    PushAllDelivers(step, s, chunks);
    FoldLast(step, s, SplitLines(Concat(chunks)));
  }

  /** What is known before the end is the batch reading up to the last newline seen so far. */
  lemma {:induction false} SnapshotIsBatchPrefix<S(!new)>(step: (S, string) -> S, s: S, chunks: seq<string>)
    requires SkipsEmpty(step) && Fits(chunks)
    ensures PushAll(step, s, chunks).state == Batch(step, s, CompletePrefix(Concat(chunks)))
  {
    PushAllDelivers(step, s, chunks);
    SplitCompletePrefix(Concat(chunks));
    FoldLast(step, s, SplitLines(CompletePrefix(Concat(chunks))));
  }

  // ---------- beyond the limit ----------

  lemma {:induction false} SplitCount(a: string, b: string)
    requires '\n' !in a
    ensures |SplitLines(a + b)| == |SplitLines(b)|
  {
    if a == "" {
      assert a + b == b;
    } else {
      var t := a + b;
      assert t[1..] == a[1..] + b;
      SplitCount(a[1..], b);
      if t[0] == '\r' && |t| > 1 && t[1] == '\n' {
        assert |a| == 1 && b[0] == '\n' && t[2..] == b[1..];
      }
    }
  }

  lemma {:induction false} FirstLineGrows(a: string, b: string)
    requires a != "" && '\n' !in a
    ensures |SplitLines(a + b)[0]| >= |SplitLines(b)[0]|
    ensures !(a == "\r" && b != "" && b[0] == '\n') ==> |SplitLines(a + b)[0]| > |SplitLines(b)[0]|
  {
    var t := a + b;
    assert t[1..] == a[1..] + b;
    if |a| > 1 {
      FirstLineGrows(a[1..], b);
    } else {
      assert a == [a[0]] && a[1..] + b == b;
      if a[0] == '\r' && b != "" && b[0] == '\n' {
        assert t[2..] == b[1..];
      }
    }
  }

  /** Dropping the head of the pending text keeps the lines exactly when all that
      is dropped is the carriage return of a `\r\n` separator. */
  lemma {:induction false} DroppedHeadExact(dropped: string, kept: string)
    requires dropped != ""
    ensures SplitLines(dropped + kept) == SplitLines(kept)
            <==> dropped == "\r" && kept != "" && kept[0] == '\n'
  {
    if '\n' in dropped {
      SplitResumes(dropped, kept);
      LastLineHasNoNewline(dropped);
      SplitCount(Last(SplitLines(dropped)), kept);
      assert |SplitLines(dropped)| > 1;
    } else if dropped == "\r" && kept != "" && kept[0] == '\n' {
      assert (dropped + kept)[2..] == kept[1..];
    } else {
      FirstLineGrows(dropped, kept);
    }
  }

  /** One push splits exactly the pending text and the chunk, or it was over the limit. */
  lemma {:induction false} PushLosesTextExactly(pending: string, chunk: string)
    ensures var text := pending + chunk;
            SplitLines(Retained(text)) == SplitLines(text)
            <==> || |text| <= MAX_PENDING_LINE_CHARS
                 || (|text| == MAX_PENDING_LINE_CHARS + 1 && text[0] == '\r' && text[1] == '\n')
  {
    var text := pending + chunk;
    if |text| > MAX_PENDING_LINE_CHARS {
      var cut := |text| - MAX_PENDING_LINE_CHARS;
      assert text == text[..cut] + text[cut..];
      DroppedHeadExact(text[..cut], text[cut..]);
    }
  }

  // ---------- beyond the limit, over a whole stream ----------

  /** The lines handed on so far, and the text still pending. */
  function Receive(chunks: seq<string>): Reader<seq<string>> {
    if chunks == [] then Reader([], "")
    else
      var r := Receive(Front(chunks));
      var lines := SplitLines(Retained(r.pending + Last(chunks)));
      Reader(r.state + Front(lines), Last(lines))
  }

  /** Everything that is read from a stream when it ends. */
  function Received(chunks: seq<string>): seq<string> {
    Receive(chunks).state + [Receive(chunks).pending]
  }

  /** A push within the limit, or beyond it by the `\r` of a leading separator only. */
  predicate Intact(pending: string, chunk: string) {
    var text := pending + chunk;
    || |text| <= MAX_PENDING_LINE_CHARS
    || (|text| == MAX_PENDING_LINE_CHARS + 1 && text[0] == '\r' && text[1] == '\n')
  }

  predicate AllIntact(chunks: seq<string>) {
    chunks == [] || (AllIntact(Front(chunks)) && Intact(Receive(Front(chunks)).pending, Last(chunks)))
  }

  lemma {:induction false} PushAllReceives<S>(step: (S, string) -> S, s: S, chunks: seq<string>)
    ensures PushAll(step, s, chunks) == Reader(Fold(step, s, Receive(chunks).state), Receive(chunks).pending)
  {
    if chunks != [] {
      PushAllReceives(step, s, Front(chunks));
      var r := Receive(Front(chunks));
      FoldConcat(step, s, r.state, Front(SplitLines(Retained(r.pending + Last(chunks)))));
    }
  }

  /** Whatever was dropped on the way, a consumer ends where reading the received lines ends. */
  lemma FinishReadsReceived<S(!new)>(step: (S, string) -> S, s: S, chunks: seq<string>)
    requires SkipsEmpty(step)
    ensures Finish(step, PushAll(step, s, chunks)) == Fold(step, s, Received(chunks))
  {
    PushAllReceives(step, s, chunks);
    FoldLast(step, s, Received(chunks));
    assert Front(Received(chunks)) == Receive(chunks).state;
  }

  /** The characters of the lines, and one separator for each. */
  function Weight(lines: seq<string>): nat {
    if lines == [] then 0 else |lines[0]| + 1 + Weight(lines[1..])
  }

  lemma {:induction false} WeightJoin(a: seq<string>, b: seq<string>)
    ensures Weight(a + b) == Weight(a) + Weight(b)
  {
    if a == [] {
      assert a + b == b;
    } else {
      assert (a + b)[1..] == a[1..] + b;
      WeightJoin(a[1..], b);
    }
  }

  lemma WeightOne(line: string)
    ensures Weight([line]) == |line| + 1
  {
    assert [line][1..] == [];
  }

  /** A `\r` and a `\n` that meet become one separator. */
  function Meet(a: string, b: string): nat {
    if a != "" && Last(a) == '\r' && b != "" && b[0] == '\n' then 1 else 0
  }

  lemma WeightCons(c: char, text: string)
    ensures Weight(SplitLines([c] + text)) == Weight(SplitLines(text)) + 1 - Meet([c], text)
  {
    var all, rest := [c] + text, SplitLines(text);
    assert all[1..] == text;
    if c == '\n' {
      assert ([""] + rest)[1..] == rest;
    } else if c == '\r' && text != "" && text[0] == '\n' {
      assert all[2..] == text[1..];
    } else {
      var first := [c] + rest[0];
      assert ([first] + rest[1..])[1..] == rest[1..];
    }
  }

  lemma {:induction false} WeightSplit(p: string, c: string)
    requires '\n' !in p
    ensures Weight(SplitLines(p + c)) == |p| + Weight(SplitLines(c)) - Meet(p, c)
  {
    if p == "" {
      assert p + c == c;
    } else {
      WeightSplit(p[1..], c);
      WeightCons(p[0], p[1..] + c);
      assert p + c == [p[0]] + (p[1..] + c);
    }
  }

  lemma {:induction false} WeightDrop(dropped: string, kept: string)
    ensures Weight(SplitLines(kept)) <= Weight(SplitLines(dropped + kept))
    ensures dropped != "" && !(dropped == "\r" && kept != "" && kept[0] == '\n') ==>
              Weight(SplitLines(kept)) < Weight(SplitLines(dropped + kept))
  {
    if dropped == "" {
      assert dropped + kept == kept;
    } else {
      WeightDrop(dropped[1..], kept);
      WeightCons(dropped[0], dropped[1..] + kept);
      assert dropped + kept == [dropped[0]] + (dropped[1..] + kept);
    }
  }

  /** A push that is not intact loses weight. */
  lemma RetainedWeight(pending: string, chunk: string)
    ensures var text := pending + chunk;
            && Weight(SplitLines(Retained(text))) <= Weight(SplitLines(text))
            && (Weight(SplitLines(Retained(text))) == Weight(SplitLines(text)) ==> Intact(pending, chunk))
  {
    var text := pending + chunk;
    if |text| > MAX_PENDING_LINE_CHARS {
      var cut := |text| - MAX_PENDING_LINE_CHARS;
      assert text == text[..cut] + text[cut..];
      WeightDrop(text[..cut], text[cut..]);
    }
  }

  /** What is pending ends the true unfinished line, and is empty only if that is. */
  predicate EndsLine(p: string, q: string) {
    '\n' !in q && |p| <= |q| && q[|q| - |p|..] == p && (p == "" ==> q == "")
  }

  lemma {:induction false} LastAfter(p: string, c: string)
    requires '\n' !in p && c != ""
    ensures Last(SplitLines(p + c)) == if '\n' in c then Last(SplitLines(c)) else p + c
  {
    if '\n' !in c {
      SplitNoNewline(p + c);
    } else if p == "" {
      assert p + c == c;
    } else {
      LastAfter(p[1..], c);
      var text := p + c;
      assert text[1..] == p[1..] + c;
      if text[0] == '\r' && text[1] == '\n' {
        assert |p| == 1 && text[2..] == c[1..];
      } else if |SplitLines(text[1..])| == 1 {
        LastLineHasNoNewline(text[1..]);
      }
    }
  }

  lemma EndsWithMore(p: string, q: string, c: string)
    requires EndsLine(p, q) && '\n' !in c && c != ""
    ensures EndsLine(p + c, q + c)
  {
    assert (q + c)[|q| - |p|..] == q[|q| - |p|..] + c;
  }

  lemma LinesEndTogether(p: string, q: string, c: string)
    requires EndsLine(p, q) && '\n' !in p
    ensures EndsLine(Last(SplitLines(p + c)), Last(SplitLines(q + c)))
  {
    if c == "" {
      assert p + c == p && q + c == q;
      SplitNoNewline(p);
      SplitNoNewline(q);
    } else {
      LastAfter(p, c);
      LastAfter(q, c);
      if '\n' in c { LineEndsItself(c); } else { EndsWithMore(p, q, c); }
    }
  }

  lemma LineEndsItself(c: string)
    ensures EndsLine(Last(SplitLines(c)), Last(SplitLines(c)))
  {
    LastLineHasNoNewline(c);
  }

  lemma LastResumes(a: string, b: string)
    ensures Last(SplitLines(a + b)) == Last(SplitLines(Last(SplitLines(a)) + b))
  {
    SplitResumes(a, b);
  }

  lemma DropEndsLine(dropped: string, kept: string)
    requires kept != ""
    ensures EndsLine(Last(SplitLines(kept)), Last(SplitLines(dropped + kept)))
  {
    var p := Last(SplitLines(dropped));
    LastResumes(dropped, kept);
    LastLineHasNoNewline(dropped);
    LastAfter(p, kept);
    if '\n' in kept { LineEndsItself(kept); } else { WholeLineKept(p, kept); }
  }

  lemma WholeLineKept(p: string, kept: string)
    requires '\n' !in p && '\n' !in kept && kept != ""
    ensures SplitLines(kept) == [kept] && EndsLine(kept, p + kept)
  {
    SplitNoNewline(kept);
    assert (p + kept)[|p|..] == kept;
  }

  lemma RetainedEndsLine(text: string)
    ensures EndsLine(Last(SplitLines(Retained(text))), Last(SplitLines(text)))
  {
    if |text| > MAX_PENDING_LINE_CHARS {
      var cut := |text| - MAX_PENDING_LINE_CHARS;
      assert text == text[..cut] + text[cut..];
      DropEndsLine(text[..cut], text[cut..]);
    } else {
      LineEndsItself(text);
    }
  }

  lemma EndsLineThrough(p: string, q: string, r: string)
    requires EndsLine(p, q) && EndsLine(q, r)
    ensures EndsLine(p, r)
  {
  }

  /** One more chunk, if nothing of it were dropped, adds the same weight to what was received
      as to the whole text. */
  lemma SameGain(lines: seq<string>, p: string, c: string)
    requires '\n' !in p
    ensures Weight(lines + SplitLines(p + c)) == Weight(lines + [p]) - 1 + Weight(SplitLines(c)) - Meet(p, c)
  {
    WeightJoin(lines, SplitLines(p + c));
    WeightJoin(lines, [p]);
    WeightOne(p);
    WeightSplit(p, c);
  }

  lemma FrontLast<T>(s: seq<T>)
    requires s != []
    ensures s == Front(s) + [Last(s)]
  {
  }

  lemma MeetAlike(p: string, q: string, c: string)
    requires EndsLine(p, q)
    ensures Meet(p, c) == Meet(q, c)
  {
  }

  lemma GainStep(lines: seq<string>, p: string, whole: seq<string>, q: string, c: string)
    requires EndsLine(p, q) && '\n' !in p && Weight(lines + [p]) <= Weight(whole + [q])
    ensures Weight(lines + SplitLines(p + c)) <= Weight(whole + SplitLines(q + c))
    ensures Weight(lines + SplitLines(p + c)) == Weight(whole + SplitLines(q + c)) ==>
              Weight(lines + [p]) == Weight(whole + [q])
  {
    SameGain(lines, p, c);
    SameGain(whole, q, c);
    MeetAlike(p, q, c);
  }

  lemma RetainStep(lines: seq<string>, p: string, c: string)
    ensures Weight(lines + SplitLines(Retained(p + c))) <= Weight(lines + SplitLines(p + c))
    ensures Weight(lines + SplitLines(Retained(p + c))) == Weight(lines + SplitLines(p + c)) ==> Intact(p, c)
  {
    WeightJoin(lines, SplitLines(p + c));
    WeightJoin(lines, SplitLines(Retained(p + c)));
    RetainedWeight(p, c);
  }

  /** Nothing received outweighs the whole text, and only an intact stream keeps up with it. */
  ghost predicate KeepsUp(chunks: seq<string>) {
    var whole := SplitLines(Concat(chunks));
    && Weight(Received(chunks)) <= Weight(whole)
    && (Weight(Received(chunks)) == Weight(whole) ==> AllIntact(chunks))
    && EndsLine(Receive(chunks).pending, Last(whole)) && '\n' !in Receive(chunks).pending
  }

  lemma {:induction false} StreamKeepsUp(chunks: seq<string>)
    ensures KeepsUp(chunks)
  {
    if chunks != [] {
      StreamKeepsUp(Front(chunks));
      ReceivedStep(chunks);
      WholeStep(chunks);
      StreamStep(chunks);
    }
  }

  lemma ReceivedStep(chunks: seq<string>)
    requires chunks != []
    ensures var r := Receive(Front(chunks));
            Received(chunks) == r.state + SplitLines(Retained(r.pending + Last(chunks)))
  {
    FrontLast(SplitLines(Retained(Receive(Front(chunks)).pending + Last(chunks))));
  }

  lemma WholeStep(chunks: seq<string>)
    requires chunks != []
    ensures var whole := SplitLines(Concat(Front(chunks)));
            && whole == Front(whole) + [Last(whole)]
            && SplitLines(Concat(chunks)) == Front(whole) + SplitLines(Last(whole) + Last(chunks))
  {
    FrontLast(SplitLines(Concat(Front(chunks))));
    SplitResumes(Concat(Front(chunks)), Last(chunks));
  }

  lemma StreamStep(chunks: seq<string>)
    requires chunks != [] && KeepsUp(Front(chunks))
    requires var r := Receive(Front(chunks));
             Received(chunks) == r.state + SplitLines(Retained(r.pending + Last(chunks)))
    requires var whole := SplitLines(Concat(Front(chunks)));
             && whole == Front(whole) + [Last(whole)]
             && SplitLines(Concat(chunks)) == Front(whole) + SplitLines(Last(whole) + Last(chunks))
    ensures KeepsUp(chunks)
  {
    var c, r, whole := Last(chunks), Receive(Front(chunks)), SplitLines(Concat(Front(chunks)));
    GainStep(r.state, r.pending, Front(whole), Last(whole), c);
    RetainStep(r.state, r.pending, c);
    PendingStep(r.pending, Last(whole), c, Front(whole));
    LastLineHasNoNewline(Retained(r.pending + c));
  }

  lemma PendingStep(p: string, q: string, c: string, before: seq<string>)
    requires EndsLine(p, q) && '\n' !in p
    ensures EndsLine(Last(SplitLines(Retained(p + c))), Last(before + SplitLines(q + c)))
  {
    LinesEndTogether(p, q, c);
    RetainedEndsLine(p + c);
    EndsLineThrough(Last(SplitLines(Retained(p + c))), Last(SplitLines(p + c)), Last(SplitLines(q + c)));
  }

  lemma {:induction false} IntactReceives(chunks: seq<string>)
    requires AllIntact(chunks)
    ensures Received(chunks) == SplitLines(Concat(chunks))
  {
    if chunks != [] {
      var before, c := Front(chunks), Last(chunks);
      IntactReceives(before);
      var r, whole := Receive(before), SplitLines(Concat(before));
      assert Front(whole) == r.state && Last(whole) == r.pending;
      PushLosesTextExactly(r.pending, c);
      SplitResumes(Concat(before), c);
      FrontLast(SplitLines(r.pending + c));
      assert Received(chunks) == r.state + SplitLines(r.pending + c);
    }
  }

  /** Over every stream: what is read in the end is the split of the whole text if and only if
      every push fits or goes beyond the limit by the `\r` of a leading separator only. */
  lemma StreamLosesTextExactly(chunks: seq<string>)
    ensures Received(chunks) == SplitLines(Concat(chunks)) <==> AllIntact(chunks)
  {
    StreamKeepsUp(chunks);
    if AllIntact(chunks) { IntactReceives(chunks); }
  }
}
