/**
 * The pure display helpers of the mini-game (components/game/quantum-game.js):
 * the clock format, the accuracy percentage, the element colours and the
 * assignment of slots to the blanks of the rendered code.
 */
module GameDisplay {
  import opened Wrappers
  import opened JsStrings
  import opened Challenges

  // ---- formatTime / formatTotalTime ----

  /** JavaScript's `%`: the remainder takes the sign of the dividend. */
  function JsRem(a: int, d: int): (r: int)
    requires d > 0
    ensures a >= 0 ==> 0 <= r < d
    ensures a < 0 ==> -d < r <= 0
  {
    if a >= 0 then a % d else -((-a) % d)
  }

  /**
   * `formatTime(seconds)`: `Math.floor(seconds / 60)`, a colon, and `seconds % 60`
   * padded to two characters.
   */
  function FormatTime(seconds: int): string
  {
    IntToString(seconds / 60) + ":" + PadStart2(IntToString(JsRem(seconds, 60)))
  }

  predicate AllDigits(s: string) {
    forall i :: 0 <= i < |s| ==> IsDigit(s[i])
  }

  /** Reads an `m:ss` clock back into seconds; the reference for `FormatTime`. */
  function ParseClock(text: string): Option<int>
  {
    var parts := Split(text, ':');
    if |parts| == 2 && |parts[0]| >= 1 && AllDigits(parts[0])
       && |parts[1]| == 2 && AllDigits(parts[1]) && ParseDigits(parts[1]) < 60
    then Some(ParseDigits(parts[0]) * 60 + ParseDigits(parts[1]))
    else None
  }

  /** Two digits for a number below 60, read back to the number. */
  lemma PaddedSeconds(x: nat)
    requires x < 60
    ensures |PadStart2(NatToString(x))| == 2 && AllDigits(PadStart2(NatToString(x)))
    ensures ParseDigits(PadStart2(NatToString(x))) == x
  {
    var d := NatToString(x);
    ParseNatToString(x);
    if x < 10 {
      var p := PadStart2(d);
      assert p == ['0', DigitChar(x)];
      assert p[..1] == ['0'];
      assert ParseDigits(p[..1]) == 0 by {
        assert p[..1][..0] == [];
      }
    } else {
      assert d == NatToString(x / 10) + [DigitChar(x % 10)];
    }
  }

  /**
   * For a non-negative number of seconds the clock shows whole minutes, a colon and
   * two second digits below 60, and reading it back gives the number.
   */
  lemma FormatTimeRoundTrip(seconds: nat)
    ensures ParseClock(FormatTime(seconds)) == Some(seconds)
  {
    var m := NatToString(seconds / 60);
    var ss := PadStart2(NatToString(seconds % 60));
    PaddedSeconds(seconds % 60);
    assert FormatTime(seconds) == m + ":" + ss;
    assert Join([m, ss], ':') == m + [':'] + ss by {
      assert [m, ss][1..] == [ss];
    }
    assert ':' !in m && ':' !in ss;
    SplitJoin([m, ss], ':');
    assert Split(FormatTime(seconds), ':') == [m, ss];
    ParseNatToString(seconds / 60);
  }

  /** A falsy timestamp: `null` or `0`. */
  predicate Falsy(t: Option<int>) {
    t.None? || t.value == 0
  }

  /**
   * `formatTotalTime(startTime, endTime)`: "0:00" when either timestamp is falsy,
   * otherwise the whole seconds between them, floored.
   */
  function FormatTotalTime(startTime: Option<int>, endTime: Option<int>): (r: string)
    ensures Falsy(startTime) || Falsy(endTime) ==> r == "0:00"
  {
    if Falsy(startTime) || Falsy(endTime) then "0:00"
    else FormatTime((endTime.value - startTime.value) / 1000)
  }

  /** With both timestamps set and in order, the shown duration is the elapsed whole seconds. */
  lemma FormatTotalTimeElapsed(startTime: int, endTime: int)
    requires startTime != 0 && endTime != 0 && startTime <= endTime
    ensures ParseClock(FormatTotalTime(Some(startTime), Some(endTime)))
            == Some((endTime - startTime) / 1000)
  {
    var elapsed := (endTime - startTime) / 1000;
    assert FormatTotalTime(Some(startTime), Some(endTime)) == FormatTime(elapsed);
    FormatTimeRoundTrip(elapsed);
  }

  // ---- calculateAccuracy ----

  /**
   * `calculateAccuracy()`: 100 with no answers, otherwise `Math.round` of the percentage
   * of correct answers, computed exactly as `(200·c + t) div (2·t)`.
   */
  function Accuracy(correctAnswers: nat, wrongAnswers: nat): (r: int)
    ensures correctAnswers + wrongAnswers == 0 ==> r == 100
    ensures 0 <= r <= 100
    ensures var t := correctAnswers + wrongAnswers;
            t > 0 ==> 200 * correctAnswers - t < 2 * t * r <= 200 * correctAnswers + t
  {
    var total := correctAnswers + wrongAnswers;
    if total == 0 then 100
    else
      var n, d := 200 * correctAnswers + total, 2 * total;
      DivBounds(n, d);
      assert n < 101 * d;
      CappedQuotient(n, d, 101);
      n / d
  }

  /** The quotient brackets the dividend. */
  lemma DivBounds(n: int, d: int)
    requires d > 0
    ensures d * (n / d) <= n < d * (n / d) + d
  {
  }

  /** A dividend below `k·d` has a quotient below `k`. */
  lemma CappedQuotient(n: nat, d: int, k: int)
    requires d > 0 && n < k * d
    ensures 0 <= n / d < k
  {
    DivBounds(n, d);
  }

  /**
   * The percentage is the nearest integer to `100·c/t`, halves rounded up: no other
   * integer lies in that half-open window.
   */
  lemma AccuracyIsNearest(correctAnswers: nat, wrongAnswers: nat, q: int)
    requires correctAnswers + wrongAnswers > 0
    requires var t := correctAnswers + wrongAnswers;
             200 * correctAnswers - t < 2 * t * q <= 200 * correctAnswers + t
    ensures q == Accuracy(correctAnswers, wrongAnswers)
  {
    var t := correctAnswers + wrongAnswers;
    var r := Accuracy(correctAnswers, wrongAnswers);
    assert 2 * t * q - 2 * t * r == 2 * t * (q - r);
    OnlyZeroInWindow(2 * t, q - r);
  }

  /** The only multiple of `m` strictly between `-m` and `m` is zero. */
  lemma OnlyZeroInWindow(m: int, z: int)
    requires m > 0 && -m < m * z < m
    ensures z == 0
  {
  }

  // ---- getElementColor ----

  const OperatorValues: seq<string> :=
    ["+", "-", "*", "/", "===", "!==", ">", "<", "<=", ">=", "==", "!=", "?", ":", "&&", "||"]
  const ArrayMethodValues: seq<string> :=
    ["map", "filter", "reduce", "forEach", "push", "pop", "shift", "unshift"]

  const Purple := "#c084fc"
  const Blue := "#60a5fa"
  const Pink := "#f472b6"

  /** `getElementColor(value)`: operators purple, array methods blue, anything else pink. */
  function ElementColor(value: string): (r: string)
    ensures r == Purple <==> value in OperatorValues
    ensures r == Blue <==> value !in OperatorValues && value in ArrayMethodValues
    ensures r in {Purple, Blue, Pink}
  {
    if value in OperatorValues then Purple
    else if value in ArrayMethodValues then Blue
    else Pink
  }

  // ---- renderCodeWithSlots: blank-to-slot assignment ----

  /** The text shown in a slot: `droppedElements[slotId] || "___"` (a missing id reads key "undefined"). */
  function Shown(dropped: map<string, string>, slotId: Option<string>): string
  {
    var key := if slotId.Some? then slotId.value else "undefined";
    if key in dropped && dropped[key] != "" then dropped[key] else Blank
  }

  /** A rendered slot: the id it drops into (`currentChallenge.slots[slotIndex]?.id`) and its text. */
  datatype SlotView = SlotView(slotId: Option<string>, shown: string)

  /** The slot the `n`-th blank of the code stands for, counting from 0. */
  function ViewFor(slots: seq<Slot>, n: nat, dropped: map<string, string>): SlotView
  {
    var id := if n < |slots| then Some(slots[n].id) else None;
    SlotView(id, Shown(dropped, id))
  }

  /** A rendered line: a line without blanks, or the texts around its slots. */
  datatype CodeLine =
    | Plain(text: string)
    | WithSlots(texts: seq<string>, views: seq<SlotView>, remaining: string)

  /** The source line a rendered line displays. */
  function Reassemble(line: CodeLine): string
  {
    match line
    case Plain(text) => text
    case WithSlots(texts, _, remaining) => JoinWith(texts + [remaining], Blank)
  }

  function ViewsOf(line: CodeLine): seq<SlotView>
  {
    match line
    case Plain(_) => []
    case WithSlots(_, views, _) => views
  }

  /** The slots of all lines, top to bottom. */
  function AllViews(lines: seq<CodeLine>): seq<SlotView>
  {
    if lines == [] then [] else AllViews(lines[..|lines| - 1]) + ViewsOf(lines[|lines| - 1])
  }

  /** `s.split("___")` at the first marker: the text before it and the rest after it. */
  function SplitFirstBlank(s: string): (r: (string, string))
    requires CountBlanks(s) > 0
    ensures s == r.0 + Blank + r.1
  {
    StartsWithBlankIff(s);
    if StartsWithBlank(s) then
      assert s == s[..3] + s[3..];
      ("", s[3..])
    else
      var rest := SplitFirstBlank(s[1..]);
      assert s == [s[0]] + s[1..];
      ([s[0]] + rest.0, rest.1)
  }

  /** The text after the first marker has one marker fewer. */
  lemma {:induction false} SplitFirstBlankCount(s: string)
    requires CountBlanks(s) > 0
    ensures CountBlanks(SplitFirstBlank(s).1) == CountBlanks(s) - 1
  {
    if !StartsWithBlank(s) {
      SplitFirstBlankCount(s[1..]);
    }
  }

  /** `line.includes("___")` holds exactly when the line has a blank to count. */
  lemma {:induction false} ContainsBlankIffCount(s: string)
    ensures Contains(s, Blank) <==> CountBlanks(s) > 0
  {
    if CountBlanks(s) > 0 {
      var (before, after) := SplitFirstBlank(s);
      assert s[|before|..|before| + 3] == Blank;
      ContainsAt(s, Blank, |before|);
    }
    if Contains(s, Blank) {
      var i :| 0 <= i <= |s| - 3 && OccursAt(s, Blank, i);
      OccurrenceCounts(s, i);
    }
  }

  lemma {:induction false} OccurrenceCounts(s: string, i: nat)
    requires OccursAt(s, Blank, i)
    ensures CountBlanks(s) > 0
    decreases i
  {
    StartsWithBlankIff(s);
    if !StartsWithBlank(s) {
      assert i > 0;
      assert s[1..][i - 1..i - 1 + 3] == s[i..i + 3];
      OccurrenceCounts(s[1..], i - 1);
    }
  }

  lemma JoinWithSnoc(xs: seq<string>, y: string, sep: string)
    requires |xs| >= 1
    ensures JoinWith(xs + [y], sep) == JoinWith(xs, sep) + sep + y
    decreases |xs|
  {
    if |xs| > 1 {
      assert (xs + [y])[1..] == xs[1..] + [y];
      JoinWithSnoc(xs[1..], y, sep);
    }
  }

  /** Cutting the last piece of a join at a marker gives one more piece. */
  lemma JoinWithCut(texts: seq<string>, before: string, after: string)
    ensures JoinWith(texts + [before + Blank + after], Blank)
            == JoinWith(texts + [before] + [after], Blank)
  {
    JoinWithSnoc(texts + [before], after, Blank);
    if texts != [] {
      JoinWithSnoc(texts, before + Blank + after, Blank);
      JoinWithSnoc(texts, before, Blank);
    } else {
      assert texts + [before] == [before];
    }
  }

  lemma SumBlanksSnoc(lines: seq<string>, y: string)
    ensures SumBlanks(lines + [y]) == SumBlanks(lines) + CountBlanks(y)
    decreases |lines|
  {
    if lines == [] {
      assert [y][1..] == [];
    } else {
      assert (lines + [y])[1..] == lines[1..] + [y];
      SumBlanksSnoc(lines[1..], y);
    }
  }

  /**
   * The slots of one line: blanks `first`, `first + 1`, ... of the code, in order, and
   * the texts around them (`parts[0]` before each blank, `processedLine` after the last).
   */
  method RenderLine(line: string, slots: seq<Slot>, first: nat, dropped: map<string, string>)
    returns (r: CodeLine)
    ensures Reassemble(r) == line
    ensures |ViewsOf(r)| == CountBlanks(line)
    ensures forall m :: 0 <= m < |ViewsOf(r)| ==> ViewsOf(r)[m] == ViewFor(slots, first + m, dropped)
  {
    ContainsBlankIffCount(line);
    if !Contains(line, Blank) {
      return Plain(line);
    }
    var slotCount := CountBlanks(line);
    var processed := line;
    var texts: seq<string> := [];
    var views: seq<SlotView> := [];
    var slotIndex := first;
    var i := 0;
    assert texts + [processed] == [line];
    while i < slotCount
      invariant 0 <= i <= slotCount
      invariant slotIndex == first + i
      invariant CountBlanks(processed) == slotCount - i
      invariant |texts| == i && |views| == i
      invariant JoinWith(texts + [processed], Blank) == line
      invariant forall m :: 0 <= m < i ==> views[m] == ViewFor(slots, first + m, dropped)
    {
      var (before, after) := SplitFirstBlank(processed);
      SplitFirstBlankCount(processed);
      JoinWithCut(texts, before, after);
      texts := texts + [before];
      views := views + [ViewFor(slots, slotIndex, dropped)];
      processed := after;
      slotIndex := slotIndex + 1;
      i := i + 1;
    }
    r := WithSlots(texts, views, processed);
  }

  /** Appending a line whose slots continue the numbering keeps every slot bound to its blank. */
  lemma AppendLineViews(out: seq<CodeLine>, line: CodeLine, slots: seq<Slot>, dropped: map<string, string>)
    requires ViewsBound(out, slots, dropped)
    requires forall m :: 0 <= m < |ViewsOf(line)| ==>
               ViewsOf(line)[m] == ViewFor(slots, |AllViews(out)| + m, dropped)
    ensures AllViews(out + [line]) == AllViews(out) + ViewsOf(line)
    ensures ViewsBound(out + [line], slots, dropped)
  {
    AllViewsSnoc(out, line);
    BoundConcat(AllViews(out), ViewsOf(line), slots, dropped);
  }

  lemma AllViewsSnoc(out: seq<CodeLine>, line: CodeLine)
    ensures AllViews(out + [line]) == AllViews(out) + ViewsOf(line)
  {
    assert (out + [line])[..|out|] == out;
  }

  /** Views bound from 0 followed by views bound from where they stop are bound throughout. */
  lemma BoundConcat(a: seq<SlotView>, b: seq<SlotView>, slots: seq<Slot>, dropped: map<string, string>)
    requires forall n :: 0 <= n < |a| ==> a[n] == ViewFor(slots, n, dropped)
    requires forall m :: 0 <= m < |b| ==> b[m] == ViewFor(slots, |a| + m, dropped)
    ensures forall n :: 0 <= n < |a + b| ==> (a + b)[n] == ViewFor(slots, n, dropped)
  {
    forall n | |a| <= n < |a + b| ensures (a + b)[n] == ViewFor(slots, n, dropped) {
      assert (a + b)[n] == b[n - |a|];
    }
  }

  /** The lines of the code rendered one by one, the slot index running on across lines. */
  method RenderLines(lines: seq<string>, slots: seq<Slot>, dropped: map<string, string>)
    returns (out: seq<CodeLine>)
    ensures |out| == |lines|
    ensures forall l :: 0 <= l < |out| ==> Reassemble(out[l]) == lines[l]
    ensures |AllViews(out)| == SumBlanks(lines)
    ensures forall n :: 0 <= n < |AllViews(out)| ==> AllViews(out)[n] == ViewFor(slots, n, dropped)
  {
    out := [];
    var slotIndex := 0;
    while |out| < |lines|
      invariant |out| <= |lines| && slotIndex == |AllViews(out)|
      invariant RenderedSoFar(lines, out, slots, dropped)
      decreases |lines| - |out|
    {
      out, slotIndex := RenderNextLine(lines, out, slotIndex, slots, dropped);
    }
    ViewsCount(out, lines);
  }

  /** A rendered line displays its source line, with one slot per blank. */
  predicate LineRendered(line: string, r: CodeLine) {
    Reassemble(r) == line && |ViewsOf(r)| == CountBlanks(line)
  }

  /** The rendered lines so far each display their source line with one slot per blank, bound in order. */
  predicate RenderedSoFar(lines: seq<string>, out: seq<CodeLine>, slots: seq<Slot>, dropped: map<string, string>) {
    LinesRendered(lines, out) && ViewsBound(out, slots, dropped)
  }

  predicate LinesRendered(lines: seq<string>, out: seq<CodeLine>) {
    |out| <= |lines| && forall k :: 0 <= k < |out| ==> LineRendered(lines[k], out[k])
  }

  /** The `n`-th slot shown over all lines is bound to the `n`-th slot of the challenge. */
  predicate ViewsBound(out: seq<CodeLine>, slots: seq<Slot>, dropped: map<string, string>) {
    forall n :: 0 <= n < |AllViews(out)| ==> AllViews(out)[n] == ViewFor(slots, n, dropped)
  }

  /** One step of the line loop: render the next line and advance the slot index past its blanks. */
  method RenderNextLine(lines: seq<string>, out: seq<CodeLine>, slotIndex: nat,
                        slots: seq<Slot>, dropped: map<string, string>)
      returns (out': seq<CodeLine>, slotIndex': nat)
    requires |out| < |lines| && slotIndex == |AllViews(out)|
    requires RenderedSoFar(lines, out, slots, dropped)
    ensures |out'| == |out| + 1 && slotIndex' == |AllViews(out')|
    ensures RenderedSoFar(lines, out', slots, dropped)
  {
    var rendered := RenderLine(lines[|out|], slots, slotIndex, dropped);
    AppendLineViews(out, rendered, slots, dropped);
    ExtendRendered(lines, out, rendered);
    out' := out + [rendered];
    slotIndex' := slotIndex + |ViewsOf(rendered)|;
  }

  /** Appending the rendering of the next line keeps `LinesRendered`. */
  lemma ExtendRendered(lines: seq<string>, out: seq<CodeLine>, rendered: CodeLine)
    requires |out| < |lines| && LinesRendered(lines, out)
    requires LineRendered(lines[|out|], rendered)
    ensures LinesRendered(lines, out + [rendered])
  {
    var out' := out + [rendered];
    forall k | 0 <= k < |out'| ensures LineRendered(lines[k], out'[k]) {
      if k < |out| {
        assert out'[k] == out[k];
      }
    }
  }

  /** When every rendered line has one slot per blank of its source line, the slots add up to the blanks. */
  lemma {:induction false} ViewsCount(out: seq<CodeLine>, lines: seq<string>)
    requires |out| == |lines|
    requires forall k :: 0 <= k < |out| ==> |ViewsOf(out[k])| == CountBlanks(lines[k])
    ensures |AllViews(out)| == SumBlanks(lines)
    decreases |out|
  {
    if out != [] {
      var n := |out| - 1;
      var front := lines[..n];
      ViewsCount(out[..n], front);
      assert lines == front + [lines[n]];
      SumBlanksSnoc(front, lines[n]);
    }
  }

  /**
   * `renderCodeWithSlots()`: nothing without a challenge; otherwise one rendered line per
   * line of the code, with the `n`-th blank of the whole code bound to the `n`-th slot
   * (or to no slot when the slots run out).
   */
  method RenderCodeWithSlots(challenge: Option<Challenge>, dropped: map<string, string>)
    returns (r: Option<seq<CodeLine>>)
    ensures challenge.None? ==> r.None?
    ensures challenge.Some? ==> r.Some? && |r.value| == |Split(Code(challenge.value), '\n')|
    ensures challenge.Some? ==> forall l :: 0 <= l < |r.value| ==>
              Reassemble(r.value[l]) == Split(Code(challenge.value), '\n')[l]
    ensures challenge.Some? ==> |AllViews(r.value)| == CountBlanks(Code(challenge.value))
    ensures challenge.Some? ==> forall n :: 0 <= n < |AllViews(r.value)| ==>
              AllViews(r.value)[n] == ViewFor(challenge.value.slots, n, dropped)
  {
    if challenge.None? {
      return None;
    }
    var c := challenge.value;
    var out := RenderLines(Split(Code(c), '\n'), c.slots, dropped);
    CodeLinesBlanks(Code(c));
    r := Some(out);
  }

  /** In a well-formed challenge every blank is bound to its own slot, in order. */
  lemma WellFormedBindsEveryBlank(c: Challenge, dropped: map<string, string>, n: nat)
    requires WellFormed(c) && n < |c.slots|
    ensures n < CountBlanks(Code(c))
    ensures ViewFor(c.slots, n, dropped).slotId == Some(c.slots[n].id)
  {
    WellFormedBlanks(c);
  }
}
