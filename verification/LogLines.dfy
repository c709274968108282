/** What a log line says: its timestamp, its event and its component; and that stamps and other lines fail no transcript. */
module LogLines {
  import opened Options
  import opened Transcripts
  import opened Redaction

  /** An event of a component. */
  datatype Entry = Entry(component: string, message: string)

  function Text(e: Entry): string {
    e.component + ": " + e.message
  }

  /** The component is a word of letters, and the message neither empty nor followed by space. */
  predicate WellFormed(e: Entry) {
    && e.component != "" && (forall i | 0 <= i < |e.component| :: IsLetter(e.component[i]))
    && e.message != "" && !IsSpace(e.message[|e.message| - 1])
  }

  /** A timestamp in the format of the logs. */
  predicate IsStamp(ts: string) {
    |ts| == |TIMESTAMP| && Stamped(ts)
  }

  predicate Blank(s: string) {
    forall i | 0 <= i < |s| :: IsSpace(s[i])
  }

  // --- stripping -------------------------------------------------------------------------

  lemma {:induction false} StripExactly(before: string, core: string, after: string)
    requires Blank(before) && Blank(after)
    requires core != "" && !IsSpace(core[0]) && !IsSpace(core[|core| - 1])
    ensures Strip(before + core + after) == core
    decreases |before| + |after|
  {
    var s := before + core + after;
    if before != "" {
      assert s[1..] == before[1..] + core + after;
      StripExactly(before[1..], core, after);
    } else if after != "" {
      var n := |after| - 1;
      assert s[0] == core[0] && s[|s| - 1] == after[n];
      assert s[..|s| - 1] == before + core + after[..n];
      StripExactly(before, core, after[..n]);
    } else {
      assert s == core;
    }
  }

  // --- one line ----------------------------------------------------------------------------

  lemma TextEnds(e: Entry)
    requires WellFormed(e)
    ensures var t := Text(e);
      && t != "" && t[0] == e.component[0] && t[|t| - 1] == e.message[|e.message| - 1]
      && !IsSpace(t[0]) && !IsSpace(t[|t| - 1]) && !IsDigit(t[0])
  {
    var t := Text(e);
    assert t[0] == e.component[0] && IsLetter(e.component[0]);
    assert t[|t| - 1] == e.message[|e.message| - 1];
  }

  /** A line that starts with a timestamp says when, and what remains without the space around it is the event. */
  lemma StampedLine(ts: string, gap: string, e: Entry, tail: string)
    requires IsStamp(ts) && Blank(gap) && Blank(tail) && WellFormed(e)
    ensures var line := ts + gap + Text(e) + tail;
      Timestamp(line) == ts && EventOf(line) == Text(e) && ComponentOf(EventOf(line)) == Some(e.component)
  {
    var line := ts + gap + Text(e) + tail;
    hide Text, WellFormed, IsSpace;
    assert forall i | 0 <= i < |TIMESTAMP| :: line[i] == ts[i];
    assert line[..|TIMESTAMP|] == ts;
    assert line[|TIMESTAMP|..] == gap + Text(e) + tail;
    TextEnds(e);
    StripExactly(gap, Text(e), tail);
    ComponentExactly(e);
  }

  /** A line without a timestamp has the empty one, and sorts before all others. */
  lemma UnstampedLine(gap: string, e: Entry, tail: string)
    requires Blank(gap) && Blank(tail) && WellFormed(e)
    ensures var line := gap + Text(e) + tail;
      Timestamp(line) == "" && EventOf(line) == Text(e) && ComponentOf(EventOf(line)) == Some(e.component)
  {
    var line := gap + Text(e) + tail;
    TextEnds(e);
    assert line[0] == if gap != "" then gap[0] else Text(e)[0];
    assert !IsDigit(line[0]);
    assert !Stamped(line);
    hide Text, WellFormed, IsSpace;
    StripExactly(gap, Text(e), tail);
    ComponentExactly(e);
  }

  lemma {:induction false} LettersExactly(word: string, rest: string)
    requires (forall i | 0 <= i < |word| :: IsLetter(word[i])) && rest != "" && !IsLetter(rest[0])
    ensures Letters(word + rest) == |word|
  {
    if word == "" {
      assert word + rest == rest;
    } else {
      assert (word + rest)[1..] == word[1..] + rest;
      LettersExactly(word[1..], rest);
    }
  }

  lemma ComponentExactly(e: Entry)
    requires WellFormed(e)
    ensures ComponentOf(Text(e)) == Some(e.component)
  {
    var n, rest := |e.component|, ": " + e.message;
    assert Text(e) == e.component + rest;
    LettersExactly(e.component, rest);
    assert Text(e)[..n] == e.component && Text(e)[n..n + 2] == ": ";
  }

  /** A line has a component exactly when its event is a word of letters, a colon, a space and a rest. */
  lemma ComponentMeans(event: string, c: string)
    ensures ComponentOf(event) == Some(c)
      <==> (c != "" && (forall i | 0 <= i < |c| :: IsLetter(c[i])) && |c| + 2 <= |event| && event[..|c| + 2] == c + ": ")
  {
    if ComponentOf(event) == Some(c) {
      AllLetters(event);
      assert event[..|c| + 2] == event[..|c|] + event[|c|..|c| + 2];
    }
    if c != "" && (forall i | 0 <= i < |c| :: IsLetter(c[i])) && |c| + 2 <= |event| && event[..|c| + 2] == c + ": " {
      var rest := event[|c|..];
      assert event[..|c| + 2][..|c|] == c && event[..|c| + 2][|c|..] == ": ";
      assert event == c + rest && rest[0] == event[..|c| + 2][|c|];
      LettersExactly(c, rest);
      assert event[|c|..|c| + 2] == ": ";
    }
  }

  lemma {:induction false} AllLetters(s: string)
    ensures forall i | 0 <= i < Letters(s) :: IsLetter(s[i])
  {
    if s != "" && IsLetter(s[0]) {
      AllLetters(s[1..]);
      forall i | 0 <= i < Letters(s) ensures IsLetter(s[i]) {
        if i > 0 { assert s[i] == s[1..][i - 1]; }
      }
    }
  }

  // --- transcripts that hold the expected events ----------------------------------------------

  function EventsOf(lines: seq<Line>): seq<string> {
    seq(|lines|, i requires 0 <= i < |lines| => EventOf(lines[i]))
  }

  /** Those events that belong to the component. */
  function Select(events: seq<string>, c: string): seq<string> {
    if events == [] then []
    else Select(events[..|events| - 1], c) + if ComponentOf(events[|events| - 1]) == Some(c) then [events[|events| - 1]] else []
  }

  lemma {:induction false} SelectExactly(lines: seq<Line>, c: string)
    ensures LinesOf(lines, c) == Select(EventsOf(lines), c)
  {
    if lines != [] {
      hide EventOf, ComponentOf;
      var n := |lines| - 1;
      SelectExactly(lines[..n], c);
      assert EventsOf(lines)[..n] == EventsOf(lines[..n]);
    }
  }

  lemma SelectOneMore(events: seq<string>, e: string, c: string)
    ensures Select(events + [e], c) == Select(events, c) + if ComponentOf(e) == Some(c) then [e] else []
  {
    hide ComponentOf;
    assert (events + [e])[..|events|] == events;
  }

  /** What is ordered stays so when more follows, and when the same event follows both. */
  lemma OrderedGrows(expected: seq<string>, actual: seq<string>, e: string)
    requires OrderedIn(expected, actual)
    ensures OrderedIn(expected, actual + [e]) && OrderedIn(expected + [e], actual + [e])
  {
    var at: seq<nat> :| Embeds(expected, actual, at);
    assert Embeds(expected, actual + [e], at);
    assert Embeds(expected + [e], actual + [e], at + [|actual|]);
  }

  /** If all expected events occur in order, so do those of each component. */
  lemma {:induction false} SelectOrdered(expected: seq<string>, actual: seq<string>, c: string)
    requires OrderedIn(expected, actual)
    ensures OrderedIn(Select(expected, c), Select(actual, c))
    decreases |actual|
  {
    hide OrderedIn, ComponentOf;
    if actual == [] {
      NothingOrdered(expected);
      NothingOrdered([]);
    } else {
      var n := |actual| - 1;
      var e := actual[n];
      OrderedInOneMore(expected, actual);
      SelectOneMore(actual[..n], e, c);
      assert actual == actual[..n] + [e];
      if OrderedIn(expected, actual[..n]) {
        SelectOrdered(expected, actual[..n], c);
        OrderedGrows(Select(expected, c), Select(actual[..n], c), e);
        assert Select(actual[..n], c) + [] == Select(actual[..n], c);
      } else {
        var m := |expected| - 1;
        SelectOrdered(expected[..m], actual[..n], c);
        SelectOneMore(expected[..m], e, c);
        assert expected == expected[..m] + [e];
        OrderedGrows(Select(expected[..m], c), Select(actual[..n], c), e);
        assert Select(actual[..n], c) + [] == Select(actual[..n], c);
        assert Select(expected[..m], c) + [] == Select(expected[..m], c);
      }
    }
  }

  /** A transcript in which all expected events occur in order passes in every row, whatever else it holds. */
  lemma HeldTranscriptPasses(expected: seq<Line>, actual: seq<Line>, row: Check, c: string)
    requires OrderedIn(EventsOf(expected), EventsOf(actual)) && Verdict(row, expected, actual, c)
    ensures row.pass
  {
    hide OrderedIn;
    SelectExactly(expected, c);
    SelectExactly(actual, c);
    SelectOrdered(EventsOf(expected), EventsOf(actual), c);
  }

  /** An expected event as it is written in the list of expected events, and as a component logs it. */
  function Listed(entries: seq<Entry>): seq<Line> {
    seq(|entries|, i requires 0 <= i < |entries| => Text(entries[i]))
  }

  function Logged(entries: seq<Entry>, stamps: seq<string>): seq<Line>
    requires |stamps| == |entries|
  {
    seq(|entries|, i requires 0 <= i < |entries| => stamps[i] + " " + Text(entries[i]))
  }

  lemma SameEvents(entries: seq<Entry>, stamps: seq<string>)
    requires |stamps| == |entries| && (forall e | e in entries :: WellFormed(e)) && forall ts | ts in stamps :: IsStamp(ts)
    ensures EventsOf(Logged(entries, stamps)) == EventsOf(Listed(entries))
  {
    hide EventOf, Text, WellFormed, IsStamp, ComponentOf;
    forall i | 0 <= i < |entries| ensures EventOf(Logged(entries, stamps)[i]) == EventOf(Listed(entries)[i]) {
      StampedLine(stamps[i], " ", entries[i], "");
      UnstampedLine("", entries[i], "");
      assert stamps[i] + " " + Text(entries[i]) + "" == stamps[i] + " " + Text(entries[i]);
      assert "" + Text(entries[i]) + "" == Text(entries[i]);
    }
  }

  lemma OrderedInItself(events: seq<string>)
    ensures OrderedIn(events, events)
  {
    assert Embeds(events, events, seq(|events|, i => i));
  }

  /** The expected events themselves, logged with any timestamps in front, pass in every row. */
  lemma LoggedTranscriptPasses(entries: seq<Entry>, stamps: seq<string>, row: Check, c: string)
    requires |stamps| == |entries| && (forall e | e in entries :: WellFormed(e)) && forall ts | ts in stamps :: IsStamp(ts)
    requires Verdict(row, Listed(entries), Logged(entries, stamps), c)
    ensures row.pass
  {
    SameEvents(entries, stamps);
    OrderedInItself(EventsOf(Listed(entries)));
    hide *;
    HeldTranscriptPasses(Listed(entries), Logged(entries, stamps), row, c);
  }

  // --- the order of timestamps -------------------------------------------------------------------

  lemma PrefixesBegin(a: string, b: string, i: nat)
    requires i < |a| && i < |b| && a[..i] == b[..i]
    ensures i == 0 || a[0] == b[0]
  {
    if i > 0 {
      assert a[..i][0] == a[0] && b[..i][0] == b[0];
    }
  }

  /** The order of the sort's keys: a prefix comes first, and otherwise the first difference decides. */
  lemma {:induction false} AtMostExactly(a: string, b: string)
    ensures AtMost(a, b)
      <==> (a <= b || exists i: nat :: i < |a| && i < |b| && a[..i] == b[..i] && a[i] < b[i])
  {
    if a != "" && b != "" && a[0] == b[0] {
      AtMostExactly(a[1..], b[1..]);
      if i: nat :| i < |a[1..]| && i < |b[1..]| && a[1..][..i] == b[1..][..i] && a[1..][i] < b[1..][i] {
        assert a[..i + 1] == [a[0]] + a[1..][..i] && b[..i + 1] == [b[0]] + b[1..][..i];
        assert a[i + 1] < b[i + 1];
      }
      if i: nat :| i < |a| && i < |b| && a[..i] == b[..i] && a[i] < b[i] {
        assert i > 0 && a[1..][i - 1] < b[1..][i - 1];
        assert a[1..][..i - 1] == a[..i][1..] && b[1..][..i - 1] == b[..i][1..];
      }
    } else if a != "" && b != "" {
      assert a[..0] == b[..0];
      forall i: nat | i < |a| && i < |b| && a[..i] == b[..i] ensures i == 0 {
        PrefixesBegin(a, b, i);
      }
    }
  }

  /** The digits of a string read as one number. */
  function Number(s: string): int {
    if s == "" then 0
    else if IsDigit(s[0]) then (s[0] as int - '0' as int) * Scale(s[1..]) + Number(s[1..])
    else Number(s[1..])
  }

  /** Ten to the number of digits. */
  function Scale(s: string): nat {
    if s == "" then 1 else (if IsDigit(s[0]) then 10 else 1) * Scale(s[1..])
  }

  lemma {:induction false} NumberBelow(s: string)
    ensures 0 <= Number(s) < Scale(s)
  {
    if s != "" {
      NumberBelow(s[1..]);
      if IsDigit(s[0]) {
        AtMostNine(s[0] as int - '0' as int, Scale(s[1..]));
      }
    }
  }

  lemma AtMostNine(digit: nat, scale: nat)
    requires digit <= 9
    ensures 0 <= digit * scale <= 9 * scale
  {
  }

  lemma DigitsDecide(x: nat, y: nat, scale: nat, a: int, b: int)
    requires 0 <= a < scale && 0 <= b < scale
    ensures x < y ==> x * scale + a < y * scale + b
  {
    if x < y {
      assert (x + 1) * scale <= y * scale;
    }
  }

  /** The same places hold digits, and all other places the same characters. */
  predicate SameShape(a: string, b: string) {
    |a| == |b| && forall i | 0 <= i < |a| :: if IsDigit(a[i]) then IsDigit(b[i]) else a[i] == b[i]
  }

  lemma {:induction false} SameShapeOrder(a: string, b: string)
    requires SameShape(a, b)
    ensures Scale(a) == Scale(b) && (AtMost(a, b) <==> Number(a) <= Number(b))
  {
    if a != "" {
      assert SameShape(a[1..], b[1..]) by {
        assert forall i | 0 <= i < |a| - 1 :: a[1..][i] == a[i + 1] && b[1..][i] == b[i + 1];
      }
      SameShapeOrder(a[1..], b[1..]);
      NumberBelow(a[1..]);
      NumberBelow(b[1..]);
      hide SameShape;
      if IsDigit(a[0]) {
        var x, y := a[0] as int - '0' as int, b[0] as int - '0' as int;
        DigitsDecide(x, y, Scale(a[1..]), Number(a[1..]), Number(b[1..]));
        DigitsDecide(y, x, Scale(a[1..]), Number(b[1..]), Number(a[1..]));
      }
    }
  }

  /** Timestamps sort as the numbers that their year, month, day, hour, minute, second and millisecond make up in that order. */
  lemma StampsSortByTime(a: string, b: string)
    requires IsStamp(a) && IsStamp(b)
    ensures AtMost(a, b) <==> Number(a) <= Number(b)
  {
    SameShapeOrder(a, b);
  }
}
