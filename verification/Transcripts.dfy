/** Transcript checking: redacted logs are merged by timestamp and matched, component by component, with what is expected. */
module Transcripts {
  import opened Options

  type Line = string

  // --- reading a line -----------------------------------------------------------

  const TIMESTAMP := "dddd-dd-dd dd:dd:dd.ddd"

  predicate IsDigit(c: char) {
    '0' <= c <= '9'
  }

  predicate IsLetter(c: char) {
    'a' <= c <= 'z' || 'A' <= c <= 'Z'
  }

  predicate IsSpace(c: char) {
    c == ' ' || ('\t' as int <= c as int <= '\r' as int)
  }

  predicate Stamped(line: Line) {
    |TIMESTAMP| <= |line|
    && forall i | 0 <= i < |TIMESTAMP| :: if TIMESTAMP[i] == 'd' then IsDigit(line[i]) else line[i] == TIMESTAMP[i]
  }

  /** The leading timestamp, or nothing. */
  function Timestamp(line: Line): string {
    if Stamped(line) then line[..|TIMESTAMP|] else ""
  }

  function Strip(s: string): string {
    if s != "" && IsSpace(s[0]) then Strip(s[1..])
    else if s != "" && IsSpace(s[|s| - 1]) then Strip(s[..|s| - 1])
    else s
  }

  /** The line without its timestamp and surrounding space. */
  function EventOf(line: Line): string {
    Strip(if Stamped(line) then line[|TIMESTAMP|..] else line)
  }

  function Letters(s: string): (n: nat)
    ensures n <= |s|
  {
    if s != "" && IsLetter(s[0]) then 1 + Letters(s[1..]) else 0
  }

  /** The name in front of the first colon and space, when it is all letters. */
  function ComponentOf(event: string): Option<string> {
    var n := Letters(event);
    if 0 < n && n + 2 <= |event| && event[n..n + 2] == ": " then Some(event[..n]) else None
  }

  // --- the longest matched prefix ---------------------------------------------------

  /** `at` lists, in order, positions of `actual` that hold the events of `expected`. */
  ghost predicate Embeds(expected: seq<string>, actual: seq<string>, at: seq<nat>) {
    && |at| == |expected|
    && (forall i | 0 <= i < |at| :: at[i] < |actual| && actual[at[i]] == expected[i])
    && (forall i, j | 0 <= i < j < |at| :: at[i] < at[j])
  }

  ghost predicate OrderedIn(expected: seq<string>, actual: seq<string>) {
    exists at :: Embeds(expected, actual, at)
  }

  function Matched(expected: seq<string>, actual: seq<string>): (m: nat)
    ensures m <= |expected|
  {
    if actual == [] then 0
    else
      var n := |actual| - 1;
      var m := Matched(expected, actual[..n]);
      if m < |expected| && actual[n] == expected[m] then m + 1 else m
  }

  /** One more line admits one more expected event, or only what was admitted before it. */
  lemma OrderedInOneMore(expected: seq<string>, actual: seq<string>)
    requires actual != []
    ensures var n := |actual| - 1;
      OrderedIn(expected, actual) <==>
        (OrderedIn(expected, actual[..n])
        || (expected != [] && expected[|expected| - 1] == actual[n] && OrderedIn(expected[..|expected| - 1], actual[..n])))
  {
    var n := |actual| - 1;
    if OrderedIn(expected, actual) {
      var at :| Embeds(expected, actual, at);
      if expected != [] && at[|at| - 1] == n {
        assert Embeds(expected[..|expected| - 1], actual[..n], at[..|at| - 1]);
      } else {
        assert Embeds(expected, actual[..n], at);
      }
    }
    if OrderedIn(expected, actual[..n]) {
      var at :| Embeds(expected, actual[..n], at);
      assert Embeds(expected, actual, at);
    } else if expected != [] && expected[|expected| - 1] == actual[n] && OrderedIn(expected[..|expected| - 1], actual[..n]) {
      var at :| Embeds(expected[..|expected| - 1], actual[..n], at);
      assert Embeds(expected, actual, at + [n]);
    }
  }

  /** Greedy matching is exact: a prefix of the expected events occurs in order if and only if it is no longer. */
  lemma {:induction false} MatchedExactly(expected: seq<string>, actual: seq<string>, j: nat)
    requires j <= |expected|
    ensures OrderedIn(expected[..j], actual) <==> j <= Matched(expected, actual)
    decreases |actual|
  {
    hide OrderedIn;
    if actual == [] {
      NothingOrdered(expected[..j]);
    } else {
      var n := |actual| - 1;
      OrderedInOneMore(expected[..j], actual);
      MatchedExactly(expected, actual[..n], j);
      if j > 0 {
        MatchedExactly(expected, actual[..n], j - 1);
        assert expected[..j][..j - 1] == expected[..j - 1];
      }
    }
  }

  lemma NothingOrdered(expected: seq<string>)
    ensures OrderedIn(expected, []) <==> expected == []
  {
    if expected == [] {
      assert Embeds(expected, [], []);
    } else {
      forall at: seq<nat> ensures !Embeds(expected, [], at) {
        assert 0 < |at| ==> at[0] >= 0;
      }
    }
  }

  method MatchedPrefix(expected: seq<string>, actual: seq<string>) returns (matched: nat)
    ensures matched <= |expected| && matched == Matched(expected, actual)
    ensures forall j: nat | j <= |expected| :: OrderedIn(expected[..j], actual) <==> j <= matched
  {
    matched := 0;
    for i := 0 to |actual|
      invariant matched == Matched(expected, actual[..i])
    {
      assert actual[..i + 1][..i] == actual[..i];
      if matched < |expected| && actual[i] == expected[matched] {
        matched := matched + 1;
      }
    }
    assert actual[..|actual|] == actual;
    forall j: nat | j <= |expected| ensures OrderedIn(expected[..j], actual) <==> j <= matched {
      MatchedExactly(expected, actual, j);
    }
  }

  // --- one component's events -----------------------------------------------------------

  /** The events of one component among those of all lines, in order. */
  function LinesOf(lines: seq<Line>, component: string): seq<string> {
    if lines == [] then []
    else
      var e := EventOf(lines[|lines| - 1]);
      LinesOf(lines[..|lines| - 1], component) + if ComponentOf(e) == Some(component) then [e] else []
  }

  /** `names` lists the components in the order in which they first appear. */
  datatype Grouped = Grouped(names: seq<string>, events: map<string, seq<string>>)

  /** Some line of `a` comes before all lines of `b`. */
  ghost predicate Earlier(lines: seq<Line>, a: string, b: string) {
    exists k: nat :: k < |lines| && ComponentOf(EventOf(lines[k])) == Some(a)
      && forall m: nat | m <= k :: ComponentOf(EventOf(lines[m])) != Some(b)
  }

  ghost predicate Groups(g: Grouped, lines: seq<Line>) {
    && (forall c :: LinesOf(lines, c) == if c in g.events then g.events[c] else [])
    && (forall c :: c in g.events <==> c in g.names)
    && (forall i, j | 0 <= i < j < |g.names| :: g.names[i] != g.names[j] && Earlier(lines, g.names[i], g.names[j]))
    && (forall c | c in g.events :: g.events[c] != [])
  }

  function Added(g: Grouped, c: string, e: string): Grouped {
    if c in g.events then g.(events := g.events[c := g.events[c] + [e]])
    else Grouped(g.names + [c], g.events[c := [e]])
  }

  lemma LinesOneMore(lines: seq<Line>, line: Line, c: string)
    ensures LinesOf(lines + [line], c)
         == LinesOf(lines, c) + if ComponentOf(EventOf(line)) == Some(c) then [EventOf(line)] else []
  {
    assert (lines + [line])[..|lines|] == lines;
  }

  /** A component has events exactly when some line is its. */
  lemma {:induction false} LinesOfSome(lines: seq<Line>, c: string)
    ensures LinesOf(lines, c) != [] <==> exists k: nat :: k < |lines| && ComponentOf(EventOf(lines[k])) == Some(c)
  {
    hide EventOf, ComponentOf;
    if lines != [] {
      var n := |lines| - 1;
      LinesOfSome(lines[..n], c);
      if k: nat :| k < n && ComponentOf(EventOf(lines[..n][k])) == Some(c) {
        assert ComponentOf(EventOf(lines[k])) == Some(c);
      }
      if k: nat :| k < |lines| && ComponentOf(EventOf(lines[k])) == Some(c) {
        assert k < n ==> lines[..n][k] == lines[k];
      }
    }
  }

  lemma EarlierStill(lines: seq<Line>, line: Line, a: string, b: string)
    requires Earlier(lines, a, b)
    ensures Earlier(lines + [line], a, b)
  {
    hide EventOf, ComponentOf;
    var k: nat :| k < |lines| && ComponentOf(EventOf(lines[k])) == Some(a)
      && forall m: nat | m <= k :: ComponentOf(EventOf(lines[m])) != Some(b);
    assert forall m: nat | m <= k :: (lines + [line])[m] == lines[m];
  }

  lemma EarlierThanNew(lines: seq<Line>, line: Line, a: string, b: string)
    requires LinesOf(lines, a) != [] && LinesOf(lines, b) == []
    ensures Earlier(lines + [line], a, b)
  {
    hide EventOf, ComponentOf, LinesOf;
    LinesOfSome(lines, a);
    LinesOfSome(lines, b);
    var k: nat :| k < |lines| && ComponentOf(EventOf(lines[k])) == Some(a);
    assert forall m: nat | m <= k :: (lines + [line])[m] == lines[m];
  }

  lemma NamesOneMore(g: Grouped, lines: seq<Line>, line: Line, i: nat, j: nat)
    requires Groups(g, lines)
    requires var n := ComponentOf(EventOf(line));
      i < j < |(if n.None? then g else Added(g, n.value, EventOf(line))).names|
    ensures var n := ComponentOf(EventOf(line));
      var names := (if n.None? then g else Added(g, n.value, EventOf(line))).names;
      names[i] != names[j] && Earlier(lines + [line], names[i], names[j])
  {
    hide EventOf, ComponentOf, LinesOf, Earlier;
    if j < |g.names| {
      EarlierStill(lines, line, g.names[i], g.names[j]);
    } else {
      var c := ComponentOf(EventOf(line)).value;
      assert g.names[i] in g.events && c !in g.events;
      EarlierThanNew(lines, line, g.names[i], c);
    }
  }

  lemma GroupsOneMore(g: Grouped, lines: seq<Line>, line: Line)
    requires Groups(g, lines)
    ensures var n := ComponentOf(EventOf(line));
      Groups(if n.None? then g else Added(g, n.value, EventOf(line)), lines + [line])
  {
    hide EventOf, ComponentOf, LinesOf;
    forall c ensures LinesOf(lines + [line], c)
      == LinesOf(lines, c) + if ComponentOf(EventOf(line)) == Some(c) then [EventOf(line)] else []
    {
      LinesOneMore(lines, line, c);
    }
    var n := ComponentOf(EventOf(line));
    var names := (if n.None? then g else Added(g, n.value, EventOf(line))).names;
    forall i, j | 0 <= i < j < |names| ensures names[i] != names[j] && Earlier(lines + [line], names[i], names[j]) {
      NamesOneMore(g, lines, line, i, j);
    }
    hide Earlier;
  }

  method ByComponent(lines: seq<Line>) returns (g: Grouped)
    ensures Groups(g, lines)
  {
    hide EventOf, ComponentOf;
    g := Grouped([], map[]);
    assert Groups(g, []);
    hide Groups;
    for i := 0 to |lines|
      invariant Groups(g, lines[..i])
    {
      GroupsOneMore(g, lines[..i], lines[i]);
      assert lines[..i + 1] == lines[..i] + [lines[i]];
      var e := EventOf(lines[i]);
      match ComponentOf(e) {
        case None =>
        case Some(c) =>
          g := if c in g.events then g.(events := g.events[c := g.events[c] + [e]])
               else Grouped(g.names + [c], g.events[c := [e]]);
      }
    }
    assert lines[..|lines|] == lines;
  }

  // --- verdicts -------------------------------------------------------------------------

  /** The row of one component, or the summary row of them all. */
  datatype Check = Check(component: Option<string>, expected: nat, matched: nat, pass: bool)

  function Row(want: Grouped, have: Grouped, c: string): Check
    requires c in want.events
  {
    var n, matched := |want.events[c]|, Matched(want.events[c], if c in have.events then have.events[c] else []);
    Check(Some(c), n, matched, matched == n)
  }

  function Total(rows: seq<Check>): (nat, nat) {
    if rows == [] then (0, 0)
    else
      var n := |rows| - 1;
      (Total(rows[..n]).0 + rows[n].expected, Total(rows[..n]).1 + rows[n].matched)
  }

  lemma {:induction false} TotalPasses(rows: seq<Check>)
    requires forall r | r in rows :: r.matched <= r.expected && (r.pass <==> r.matched == r.expected)
    ensures Total(rows).1 <= Total(rows).0
    ensures Total(rows).1 == Total(rows).0 <==> forall r | r in rows :: r.pass
  {
    if rows != [] {
      var n := |rows| - 1;
      TotalPasses(rows[..n]);
      assert rows == rows[..n] + [rows[n]];
    }
  }

  lemma TotalOfNone()
    ensures Total([]) == (0, 0)
  {
  }

  lemma TotalOneMore(rows: seq<Check>, row: Check)
    ensures Total(rows + [row]) == (Total(rows).0 + row.expected, Total(rows).1 + row.matched)
  {
    assert (rows + [row])[..|rows|] == rows;
  }

  /** How many events all components are expected to log. */
  function ExpectedTotal(want: Grouped, names: seq<string>): nat
    requires forall c | c in names :: c in want.events
  {
    if names == [] then 0 else ExpectedTotal(want, names[..|names| - 1]) + |want.events[names[|names| - 1]]|
  }

  method CountExpected(want: Grouped) returns (total: nat)
    requires forall c | c in want.names :: c in want.events
    ensures total == ExpectedTotal(want, want.names)
  {
    total := 0;
    for i := 0 to |want.names|
      invariant total == ExpectedTotal(want, want.names[..i])
    {
      assert want.names[..i + 1][..i] == want.names[..i];
      total := total + |want.events[want.names[i]]|;
    }
    assert want.names[..|want.names|] == want.names;
  }

  /** The rows' expected events add up to those of all components. */
  lemma {:induction false} RowsExpected(want: Grouped, have: Grouped, rows: seq<Check>, names: seq<string>)
    requires (forall c | c in names :: c in want.events) && |rows| == |names|
    requires forall i | 0 <= i < |rows| :: rows[i] == Row(want, have, names[i])
    ensures Total(rows).0 == ExpectedTotal(want, names)
  {
    hide Matched;
    if rows != [] {
      RowsExpected(want, have, rows[..|rows| - 1], names[..|names| - 1]);
    }
  }

  /** One row for each expected component, in the order of their first events. */
  method ComponentRows(want: Grouped, have: Grouped) returns (rows: seq<Check>, matchedTotal: nat)
    requires forall c | c in want.names :: c in want.events
    ensures |rows| == |want.names| && forall i | 0 <= i < |rows| :: rows[i] == Row(want, have, want.names[i])
    ensures matchedTotal == Total(rows).1
  {
    hide OrderedIn, Matched, Total;
    rows := [];
    matchedTotal := 0;
    TotalOfNone();
    for i := 0 to |want.names|
      invariant |rows| == i
      invariant forall j | 0 <= j < i :: rows[j] == Row(want, have, want.names[j])
      invariant matchedTotal == Total(rows).1
    {
      var c := want.names[i];
      var lines := if c in have.events then have.events[c] else [];
      var matched := MatchedPrefix(want.events[c], lines);
      var row := Check(Some(c), |want.events[c]|, matched, matched == |want.events[c]|);
      TotalOneMore(rows, row);
      rows := rows + [row];
      matchedTotal := matchedTotal + matched;
    }
  }

  /**
   * The row of every expected component, then a summary that passes exactly when all of them do. `actual` is None
   * when the transcript is missing; then there is only a summary, and it fails.
   */
  method SequenceChecks(expected: seq<Line>, actual: Option<seq<Line>>) returns (rows: seq<Check>, summary: Check, want: Grouped)
    ensures Groups(want, expected)
    ensures (forall c | c in want.names :: c in want.events) && summary.expected == ExpectedTotal(want, want.names)
    ensures actual.None? ==> rows == [] && summary == Check(None, summary.expected, 0, false)
    ensures actual.Some? ==>
        && |rows| == |want.names|
        && (forall i | 0 <= i < |rows| :: Verdict(rows[i], expected, actual.value, want.names[i]))
        && (summary.expected, summary.matched) == Total(rows)
        && (summary.pass <==> forall r | r in rows :: r.pass)
  {
    want := ByComponent(expected);
    assert forall c | c in want.names :: c in want.events;
    hide Groups, OrderedIn, LinesOf, Matched, ExpectedTotal, Total;
    var total := CountExpected(want);
    if actual.None? {
      return [], Check(None, total, 0, false), want;
    }
    var have := ByComponent(actual.value);
    var matchedTotal;
    rows, matchedTotal := ComponentRows(want, have);
    forall i | 0 <= i < |rows| ensures Verdict(rows[i], expected, actual.value, want.names[i]) {
      hide Verdict, Row;
      RowVerdict(want, have, expected, actual.value, want.names[i]);
    }
    RowsExpected(want, have, rows, want.names);
    TotalPasses(rows);
    summary := Check(None, total, matchedTotal, matchedTotal == total);
  }

  /** A row counts the longest prefix of its expected events that occurs in order, and passes when that is all of them. */
  ghost predicate Verdict(row: Check, expected: seq<Line>, actual: seq<Line>, c: string) {
    && row.component == Some(c)
    && row.expected == |LinesOf(expected, c)|
    && row.matched <= row.expected
    && (forall j: nat | j <= row.expected :: OrderedIn(LinesOf(expected, c)[..j], LinesOf(actual, c)) <==> j <= row.matched)
    && (row.pass <==> OrderedIn(LinesOf(expected, c), LinesOf(actual, c)))
  }

  lemma RowVerdict(want: Grouped, have: Grouped, expected: seq<Line>, actual: seq<Line>, c: string)
    requires Groups(want, expected) && Groups(have, actual) && c in want.events
    ensures Verdict(Row(want, have, c), expected, actual, c)
  {
    hide LinesOf, OrderedIn;
    var e := want.events[c];
    forall j: nat | j <= |e| ensures OrderedIn(e[..j], LinesOf(actual, c)) <==> j <= Matched(e, LinesOf(actual, c)) {
      MatchedExactly(e, LinesOf(actual, c), j);
    }
    assert e[..|e|] == e;
  }
}
