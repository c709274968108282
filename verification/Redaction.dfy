/** Redaction: raw logs are merged, stably sorted by timestamp and redacted line by line. */
module Redaction {
  import opened Options
  import opened Transcripts

  // --- the order of timestamps --------------------------------------------------------

  /** Strings in lexicographic order, as the sort compares its keys. */
  predicate AtMost(a: string, b: string) {
    a == "" || (b != "" && (a[0] < b[0] || (a[0] == b[0] && AtMost(a[1..], b[1..]))))
  }

  lemma {:induction false} AtMostTotal(a: string, b: string)
    ensures AtMost(a, a) && (AtMost(a, b) || AtMost(b, a))
  {
    if a != "" {
      AtMostTotal(a[1..], if b == "" then "" else b[1..]);
    }
  }

  lemma {:induction false} AtMostTransitive(a: string, b: string, c: string)
    requires AtMost(a, b) && AtMost(b, c)
    ensures AtMost(a, c)
  {
    if a != "" && a[0] == b[0] == c[0] {
      AtMostTransitive(a[1..], b[1..], c[1..]);
    }
  }

  // --- the merge ------------------------------------------------------------------------

  ghost predicate Sorted(lines: seq<Line>) {
    forall i, j | 0 <= i < j < |lines| :: AtMost(Timestamp(lines[i]), Timestamp(lines[j]))
  }

  /** Puts a line behind every line that is not later. */
  function Insert(lines: seq<Line>, x: Line): seq<Line> {
    if lines == [] || AtMost(Timestamp(lines[|lines| - 1]), Timestamp(x)) then lines + [x]
    else Insert(lines[..|lines| - 1], x) + [lines[|lines| - 1]]
  }

  function StableSort(lines: seq<Line>): seq<Line> {
    if lines == [] then [] else Insert(StableSort(lines[..|lines| - 1]), lines[|lines| - 1])
  }

  function Concatenated(files: seq<seq<Line>>): seq<Line> {
    if files == [] then [] else Concatenated(files[..|files| - 1]) + files[|files| - 1]
  }

  function RedactAll(lines: seq<Line>, redact: Line -> Line): seq<Line> {
    seq(|lines|, i requires 0 <= i < |lines| => redact(lines[i]))
  }

  /** The lines sort as the library sorts a list: stably, and by timestamp alone. */
  method RedactFiles(files: seq<seq<Line>>, redact: Line -> Line) returns (out: seq<Line>)
    ensures out == RedactAll(StableSort(Concatenated(files)), redact)
  {
    var lines := [];
    for i := 0 to |files|
      invariant lines == Concatenated(files[..i])
    {
      assert files[..i + 1][..i] == files[..i];
      lines := lines + files[i];
    }
    assert files[..|files|] == files;
    lines := StableSort(lines);
    out := [];
    for i := 0 to |lines|
      invariant out == RedactAll(lines[..i], redact)
    {
      out := out + [redact(lines[i])];
    }
    assert lines[..|lines|] == lines;
  }

  // --- what the merge keeps --------------------------------------------------------------

  function Filter(lines: seq<Line>, p: Line -> bool): seq<Line> {
    if lines == [] then []
    else Filter(lines[..|lines| - 1], p) + if p(lines[|lines| - 1]) then [lines[|lines| - 1]] else []
  }

  lemma {:induction false} FilterConcat(a: seq<Line>, b: seq<Line>, p: Line -> bool)
    ensures Filter(a + b, p) == Filter(a, p) + Filter(b, p)
  {
    if b == [] {
      assert a + b == a;
    } else {
      FilterConcat(a, b[..|b| - 1], p);
      assert (a + b)[..|a + b| - 1] == a + b[..|b| - 1];
    }
  }

  lemma {:induction false} FilterMember(lines: seq<Line>, p: Line -> bool, x: Line)
    ensures x in Filter(lines, p) <==> x in lines && p(x)
  {
    if lines != [] {
      FilterMember(lines[..|lines| - 1], p, x);
      assert lines == lines[..|lines| - 1] + [lines[|lines| - 1]];
    }
  }

  lemma {:induction false} InsertAdds(lines: seq<Line>, x: Line)
    ensures multiset(Insert(lines, x)) == multiset(lines) + multiset{x}
  {
    hide AtMost, Timestamp;
    if lines != [] {
      InsertAdds(lines[..|lines| - 1], x);
      assert lines == lines[..|lines| - 1] + [lines[|lines| - 1]];
    }
  }

  /** A line that is no earlier than any in a sorted log may follow them. */
  lemma SortedOneMore(lines: seq<Line>, x: Line)
    requires Sorted(lines) && forall y | y in lines :: AtMost(Timestamp(y), Timestamp(x))
    ensures Sorted(lines + [x])
  {
    hide AtMost, Timestamp;
  }

  lemma SortedBefore(lines: seq<Line>)
    requires Sorted(lines) && lines != []
    ensures var n := |lines| - 1;
      Sorted(lines[..n]) && forall y | y in lines :: AtMost(Timestamp(y), Timestamp(lines[n]))
  {
    hide AtMost, Timestamp;
    var n := |lines| - 1;
    AtMostTotal(Timestamp(lines[n]), "");
  }

  lemma {:induction false} InsertSorted(lines: seq<Line>, x: Line)
    requires Sorted(lines)
    ensures Sorted(Insert(lines, x))
  {
    hide AtMost, Timestamp, Sorted;
    if lines == [] {
      assert Sorted([]) && Sorted([] + [x]) by { SortedOneMore(lines, x); }
    } else {
      var n := |lines| - 1;
      SortedBefore(lines);
      if AtMost(Timestamp(lines[n]), Timestamp(x)) {
        forall y | y in lines ensures AtMost(Timestamp(y), Timestamp(x)) {
          AtMostTransitive(Timestamp(y), Timestamp(lines[n]), Timestamp(x));
        }
        SortedOneMore(lines, x);
      } else {
        AtMostTotal(Timestamp(lines[n]), Timestamp(x));
        InsertSorted(lines[..n], x);
        InsertAdds(lines[..n], x);
        var inner := Insert(lines[..n], x);
        forall y | y in inner ensures AtMost(Timestamp(y), Timestamp(lines[n])) {
          assert y in multiset(inner);
        }
        SortedOneMore(inner, lines[n]);
      }
    }
  }

  /** The sort is a permutation of its input, in timestamp order. */
  lemma {:induction false} SortSorts(lines: seq<Line>)
    ensures Sorted(StableSort(lines)) && multiset(StableSort(lines)) == multiset(lines)
  {
    hide AtMost, Timestamp, Insert;
    if lines != [] {
      var n := |lines| - 1;
      SortSorts(lines[..n]);
      InsertSorted(StableSort(lines[..n]), lines[n]);
      InsertAdds(StableSort(lines[..n]), lines[n]);
      assert lines == lines[..n] + [lines[n]];
    }
  }

  /** Inserting a line behind all the lines selected by `p`, or one that is not selected. */
  lemma {:induction false} FilterInsert(lines: seq<Line>, x: Line, p: Line -> bool)
    requires p(x) ==> forall y | y in Filter(lines, p) :: AtMost(Timestamp(y), Timestamp(x))
    ensures Filter(Insert(lines, x), p) == Filter(lines, p) + if p(x) then [x] else []
  {
    hide AtMost, Timestamp, Filter;
    if lines == [] || AtMost(Timestamp(lines[|lines| - 1]), Timestamp(x)) {
      FilterConcat(lines, [x], p);
      FilterOne(x, p);
    } else {
      var n := |lines| - 1;
      var front, last := lines[..n], lines[n];
      assert lines == front + [last];
      FilterConcat(front, [last], p);
      FilterOne(last, p);
      FilterInsert(front, x, p);
      FilterConcat(Insert(front, x), [last], p);
      assert p(x) ==> !p(last) by { FilterMember(lines, p, last); }
    }
  }

  lemma FilterOne(x: Line, p: Line -> bool)
    ensures Filter([x], p) == if p(x) then [x] else []
  {
  }

  /** Lines that are in timestamp order among themselves keep their order through the sort, whatever else is merged. */
  lemma {:induction false} SortKeepsOrdered(lines: seq<Line>, p: Line -> bool)
    requires Sorted(Filter(lines, p))
    ensures Filter(StableSort(lines), p) == Filter(lines, p)
  {
    if lines != [] {
      var n := |lines| - 1;
      var f := Filter(lines[..n], p);
      assert Sorted(f) by {
        assert forall i | 0 <= i < |f| :: f[i] == Filter(lines, p)[i];
      }
      SortKeepsOrdered(lines[..n], p);
      if p(lines[n]) {
        forall y | y in f ensures AtMost(Timestamp(y), Timestamp(lines[n])) {
          var i :| 0 <= i < |f| && f[i] == y;
          assert Filter(lines, p)[i] == y && Filter(lines, p)[|f|] == lines[n];
        }
      }
      FilterInsert(StableSort(lines[..n]), lines[n], p);
    }
  }

  /** Lines with the same timestamp keep their order. */
  lemma SortIsStable(lines: seq<Line>, t: string)
    ensures var same := line => Timestamp(line) == t;
      Filter(StableSort(lines), same) == Filter(lines, same)
  {
    var same := line => Timestamp(line) == t;
    var f := Filter(lines, same);
    forall i, j | 0 <= i < j < |f| ensures AtMost(Timestamp(f[i]), Timestamp(f[j])) {
      FilterMember(lines, same, f[i]);
      FilterMember(lines, same, f[j]);
      AtMostTotal(t, t);
    }
    SortKeepsOrdered(lines, same);
  }

  // --- one component through the merge -----------------------------------------------------

  function Of(component: string): Line -> bool {
    line => ComponentOf(EventOf(line)) == Some(component)
  }

  /** The redaction leaves the name of the component in front of a line alone. */
  ghost predicate KeepsComponents(redact: Line -> Line) {
    forall line :: ComponentOf(EventOf(redact(line))) == ComponentOf(EventOf(line))
  }

  lemma {:induction false} LinesThroughFilter(lines: seq<Line>, redact: Line -> Line, c: string)
    requires KeepsComponents(redact)
    ensures LinesOf(RedactAll(lines, redact), c) == LinesOf(RedactAll(Filter(lines, Of(c)), redact), c)
  {
    hide EventOf, ComponentOf, LinesOf, RedactAll, KeepsComponents, Of;
    if lines != [] {
      var n := |lines| - 1;
      var line, f := lines[n], Filter(lines[..n], Of(c));
      LinesThroughFilter(lines[..n], redact, c);
      RedactOneMore(lines[..n], line, redact, c);
      assert lines[..n] + [line] == lines;
      RedactOneMore(f, line, redact, c);
      assert Filter(lines, Of(c)) == if Of(c)(line) then f + [line] else f;
    }
  }

  lemma RedactOneMore(lines: seq<Line>, line: Line, redact: Line -> Line, c: string)
    requires KeepsComponents(redact)
    ensures LinesOf(RedactAll(lines + [line], redact), c)
         == LinesOf(RedactAll(lines, redact), c) + if Of(c)(line) then [EventOf(redact(line))] else []
  {
    hide EventOf, ComponentOf, LinesOf;
    LinesOneMore(RedactAll(lines, redact), redact(line), c);
    assert RedactAll(lines + [line], redact) == RedactAll(lines, redact) + [redact(line)];
  }

  lemma {:induction false} FilterOneFile(files: seq<seq<Line>>, i: nat, p: Line -> bool)
    requires i < |files| && forall j | 0 <= j < |files| && j != i :: Filter(files[j], p) == []
    ensures Filter(Concatenated(files), p) == Filter(files[i], p)
  {
    var n := |files| - 1;
    FilterConcat(Concatenated(files[..n]), files[n], p);
    if i < n {
      FilterOneFile(files[..n], i, p);
    } else {
      FilterNoFile(files[..n], p);
    }
  }

  lemma {:induction false} FilterNoFile(files: seq<seq<Line>>, p: Line -> bool)
    requires forall j | 0 <= j < |files| :: Filter(files[j], p) == []
    ensures Filter(Concatenated(files), p) == []
  {
    if files != [] {
      var n := |files| - 1;
      FilterNoFile(files[..n], p);
      FilterConcat(Concatenated(files[..n]), files[n], p);
    }
  }

  /** The component writes to the `i`-th log only, and its lines there are in timestamp order. */
  ghost predicate OwnLog(files: seq<seq<Line>>, i: nat, c: string) {
    && i < |files|
    && (forall j | 0 <= j < |files| && j != i :: Filter(files[j], Of(c)) == [])
    && Sorted(Filter(files[i], Of(c)))
  }

  /** In the merged transcript a component's events are those of its own log, redacted line by line. */
  lemma MergeKeepsComponent(files: seq<seq<Line>>, i: nat, c: string, redact: Line -> Line)
    requires OwnLog(files, i, c) && KeepsComponents(redact)
    ensures LinesOf(RedactAll(StableSort(Concatenated(files)), redact), c) == LinesOf(RedactAll(files[i], redact), c)
  {
    hide LinesOf, StableSort, Concatenated, KeepsComponents;
    FilterOneFile(files, i, Of(c));
    SortKeepsOrdered(Concatenated(files), Of(c));
    LinesThroughFilter(StableSort(Concatenated(files)), redact, c);
    LinesThroughFilter(files[i], redact, c);
  }

  /** So the verdict on a component is that on its own log, whichever logs are merged with it, and in whatever order. */
  lemma VerdictOfOwnLog(files: seq<seq<Line>>, i: nat, others: seq<seq<Line>>, j: nat, c: string,
                        redact: Line -> Line, expected: seq<string>)
    requires OwnLog(files, i, c) && OwnLog(others, j, c) && files[i] == others[j] && KeepsComponents(redact)
    ensures var own := LinesOf(RedactAll(files[i], redact), c);
      && (OrderedIn(expected, LinesOf(RedactAll(StableSort(Concatenated(files)), redact), c)) <==> OrderedIn(expected, own))
      && (OrderedIn(expected, LinesOf(RedactAll(StableSort(Concatenated(others)), redact), c)) <==> OrderedIn(expected, own))
  {
    hide LinesOf, StableSort, Concatenated, KeepsComponents, OrderedIn, OwnLog;
    MergeKeepsComponent(files, i, c, redact);
    MergeKeepsComponent(others, j, c, redact);
  }
}
