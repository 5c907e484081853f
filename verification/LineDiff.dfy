/** The line diff, optimal. */
module LineDiff {
  // A longest-common-subsequence table filled bottom-up, a greedy walk through it, and the numbered rows
  // shown.

  import opened Graphs

  datatype Op = Ctx | Add | Del

  datatype Row = Row(op: Op, text: string)

  // ---- lines ----

  function Split(s: string): (lines: seq<string>)
    ensures lines != []
  {
    if s == [] then [""]
    else
      var rest := Split(s[1..]);
      if s[0] == '\n' then [""] + rest else [[s[0]] + rest[0]] + rest[1..]
  }

  function Join(lines: seq<string>): string
    requires lines != []
  {
    if |lines| == 1 then lines[0] else lines[0] + "\n" + Join(lines[1..])
  }

  lemma {:induction false} JoinSplit(s: string)
    ensures Join(Split(s)) == s
  {
    if s != [] {
      JoinSplit(s[1..]);
      var rest := Split(s[1..]);
      if s[0] == '\n' {
        assert ([""] + rest)[1..] == rest;
      } else {
        var lines := [[s[0]] + rest[0]] + rest[1..];
        assert lines[1..] == rest[1..];
        assert Join(lines) == [s[0]] + Join(rest);
      }
      assert s == [s[0]] + s[1..];
    }
  }

  predicate OneLine(s: string) {
    '\n' !in s
  }

  /** Text without a break goes in front of the first line. */
  lemma {:induction false} SplitLine(line: string, rest: string)
    requires OneLine(line)
    ensures Split(line + rest) == [line + Split(rest)[0]] + Split(rest)[1..]
  {
    if line == [] {
      assert line + rest == rest;
      assert line + Split(rest)[0] == Split(rest)[0];
    } else {
      assert line[0] in line && (line + rest)[1..] == line[1..] + rest;
      SplitLine(line[1..], rest);
      assert [line[0]] + (line[1..] + Split(rest)[0]) == line + Split(rest)[0];
    }
  }

  /** A line has no line break, and splitting undoes joining: the lines are what lies between the breaks. */
  lemma {:induction false} SplitJoin(lines: seq<string>)
    requires lines != [] && forall i :: 0 <= i < |lines| ==> OneLine(lines[i])
    ensures Split(Join(lines)) == lines
    decreases |lines|
  {
    if |lines| == 1 {
      SplitLine(lines[0], []);
      assert lines[0] + [] == lines[0] && lines[0] + "" == lines[0] && lines == [lines[0]];
      assert Split([])[1..] == [];
    } else {
      SplitJoin(lines[1..]);
      var rest := Join(lines[1..]);
      SplitLine(lines[0], ['\n'] + rest);
      assert (['\n'] + rest)[1..] == rest;
      assert Split(['\n'] + rest) == [""] + lines[1..];
      assert ([""] + lines[1..])[1..] == lines[1..] && lines[0] + "" == lines[0];
      assert lines[0] + "\n" + rest == lines[0] + (['\n'] + rest);
      assert lines == [lines[0]] + lines[1..];
    }
  }

  lemma {:induction false} LinesHaveNoBreak(s: string)
    ensures forall i :: 0 <= i < |Split(s)| ==> OneLine(Split(s)[i])
  {
    if s != [] {
      LinesHaveNoBreak(s[1..]);
    }
  }

  // ---- the table ----

  function Max(a: nat, b: nat): nat {
    if a >= b then a else b
  }

  /** The recurrence the table is filled by. */
  function Lcs(a: seq<string>, b: seq<string>): nat
    decreases |a| + |b|
  {
    if a == [] || b == [] then 0
    else if a[0] == b[0] then Lcs(a[1..], b[1..]) + 1
    else Max(Lcs(a[1..], b), Lcs(a, b[1..]))
  }

  lemma LcsAt(a: seq<string>, b: seq<string>, i: nat, j: nat)
    requires i < |a| && j < |b|
    ensures Lcs(a[i..], b[j..]) ==
            if a[i] == b[j] then Lcs(a[i + 1..], b[j + 1..]) + 1 else Max(Lcs(a[i + 1..], b[j..]), Lcs(a[i..], b[j + 1..]))
  {
    assert a[i..][1..] == a[i + 1..] && b[j..][1..] == b[j + 1..];
  }

  method FillTable(a: seq<string>, b: seq<string>) returns (dp: array2<nat>)
    ensures fresh(dp) && dp.Length0 == |a| + 1 && dp.Length1 == |b| + 1
    ensures forall i, j :: 0 <= i <= |a| && 0 <= j <= |b| ==> dp[i, j] == Lcs(a[i..], b[j..])
  {
    dp := new nat[|a| + 1, |b| + 1]((i, j) => 0);
    var i := |a|;
    while i > 0
      invariant 0 <= i <= |a|
      invariant forall x, y :: 0 <= x <= |a| && 0 <= y <= |b| ==>
                  dp[x, y] == if x >= i || y == |b| then Lcs(a[x..], b[y..]) else 0
      modifies dp
    {
      i := i - 1;
      var j := |b|;
      while j > 0
        invariant 0 <= j <= |b|
        invariant forall x, y :: 0 <= x <= |a| && 0 <= y <= |b| ==>
                    dp[x, y] == if x > i || y == |b| || (x == i && y >= j) then Lcs(a[x..], b[y..]) else 0
        modifies dp
      {
        j := j - 1;
        LcsAt(a, b, i, j);
        dp[i, j] := if a[i] == b[j] then dp[i + 1, j + 1] + 1 else Max(dp[i + 1, j], dp[i, j + 1]);
      }
    }
  }

  // ---- the greedy walk ----

  function All(op: Op, lines: seq<string>): seq<Row> {
    if lines == [] then [] else [Row(op, lines[0])] + All(op, lines[1..])
  }

  /** The rows the walk produces. */
  function Diff(a: seq<string>, b: seq<string>): seq<Row>
    decreases |a| + |b|
  {
    if a == [] then All(Add, b)
    else if b == [] then All(Del, a)
    else if a[0] == b[0] then [Row(Ctx, a[0])] + Diff(a[1..], b[1..])
    else if Lcs(a[1..], b) >= Lcs(a, b[1..]) then [Row(Del, a[0])] + Diff(a[1..], b)
    else [Row(Add, b[0])] + Diff(a, b[1..])
  }

  lemma DiffAt(a: seq<string>, b: seq<string>, i: nat, j: nat, rows: seq<Row>)
    requires i < |a| && j < |b|
    ensures a[i] == b[j] ==> rows + Diff(a[i..], b[j..]) == rows + [Row(Ctx, a[i])] + Diff(a[i + 1..], b[j + 1..])
    ensures a[i] != b[j] && Lcs(a[i + 1..], b[j..]) >= Lcs(a[i..], b[j + 1..]) ==>
              rows + Diff(a[i..], b[j..]) == rows + [Row(Del, a[i])] + Diff(a[i + 1..], b[j..])
    ensures a[i] != b[j] && Lcs(a[i + 1..], b[j..]) < Lcs(a[i..], b[j + 1..]) ==>
              rows + Diff(a[i..], b[j..]) == rows + [Row(Add, b[j])] + Diff(a[i..], b[j + 1..])
  {
    assert a[i..][1..] == a[i + 1..] && b[j..][1..] == b[j + 1..];
  }

  lemma DiffRest(a: seq<string>, b: seq<string>, rows: seq<Row>)
    requires a == [] || b == []
    ensures rows + All(Del, a) + All(Add, b) == rows + Diff(a, b)
  {
    assert rows + [] == rows;
  }

  /** One of the two trailing loops: what is left of one side. */
  method PushRest(rows: seq<Row>, op: Op, lines: seq<string>, from: nat) returns (all: seq<Row>)
    requires from <= |lines|
    ensures all == rows + All(op, lines[from..])
  {
    all := rows;
    var i := from;
    while i < |lines|
      invariant from <= i <= |lines|
      invariant all + All(op, lines[i..]) == rows + All(op, lines[from..])
    {
      assert lines[i..][1..] == lines[i + 1..];
      assert all + All(op, lines[i..]) == all + [Row(op, lines[i])] + All(op, lines[i + 1..]);
      all := all + [Row(op, lines[i])];
      i := i + 1;
    }
  }

  method DiffLines(a: seq<string>, b: seq<string>) returns (rows: seq<Row>)
    ensures rows == Diff(a, b)
  {
    var dp := FillTable(a, b);
    rows := [];
    var i, j := 0, 0;
    while i < |a| && j < |b|
      invariant 0 <= i <= |a| && 0 <= j <= |b|
      invariant forall x, y :: 0 <= x <= |a| && 0 <= y <= |b| ==> dp[x, y] == Lcs(a[x..], b[y..])
      invariant rows + Diff(a[i..], b[j..]) == Diff(a, b)
      decreases |a| - i + |b| - j
    {
      DiffAt(a, b, i, j, rows);
      if a[i] == b[j] {
        rows := rows + [Row(Ctx, a[i])];
        i, j := i + 1, j + 1;
      } else if dp[i + 1, j] >= dp[i, j + 1] {
        rows := rows + [Row(Del, a[i])];
        i := i + 1;
      } else {
        rows := rows + [Row(Add, b[j])];
        j := j + 1;
      }
    }
    DiffRest(a[i..], b[j..], rows);
    rows := PushRest(rows, Del, a, i);
    rows := PushRest(rows, Add, b, j);
  }

  // ---- reconstruction ----

  /** What is left after dropping the rows of one kind. */
  function Keeping(rows: seq<Row>, dropped: Op): seq<string> {
    if rows == [] then []
    else (if rows[0].op == dropped then [] else [rows[0].text]) + Keeping(rows[1..], dropped)
  }

  function OldLines(rows: seq<Row>): seq<string> {
    Keeping(rows, Add)
  }

  function NewLines(rows: seq<Row>): seq<string> {
    Keeping(rows, Del)
  }

  function Shared(rows: seq<Row>): seq<string> {
    if rows == [] then []
    else (if rows[0].op == Ctx then [rows[0].text] else []) + Shared(rows[1..])
  }

  function Count(rows: seq<Row>, op: Op): nat {
    if rows == [] then 0 else (if rows[0].op == op then 1 else 0) + Count(rows[1..], op)
  }

  /** A script turning `a` into `b`. */
  ghost predicate Script(rows: seq<Row>, a: seq<string>, b: seq<string>) {
    OldLines(rows) == a && NewLines(rows) == b
  }

  lemma {:induction false} AllIsScript(lines: seq<string>)
    ensures Script(All(Add, lines), [], lines) && Script(All(Del, lines), lines, [])
    ensures Shared(All(Add, lines)) == [] && Shared(All(Del, lines)) == []
  {
    if lines != [] {
      AllIsScript(lines[1..]);
      assert All(Add, lines)[1..] == All(Add, lines[1..]) && All(Del, lines)[1..] == All(Del, lines[1..]);
    }
  }

  /** The rows of the diff rebuild both sides, and share exactly a table's worth of lines. */
  lemma {:induction false} DiffIsScript(a: seq<string>, b: seq<string>)
    ensures Script(Diff(a, b), a, b) && |Shared(Diff(a, b))| == Lcs(a, b)
    decreases |a| + |b|
  {
    var rows := Diff(a, b);
    if a == [] {
      AllIsScript(b);
    } else if b == [] {
      AllIsScript(a);
    } else if a[0] == b[0] {
      DiffIsScript(a[1..], b[1..]);
      assert rows[1..] == Diff(a[1..], b[1..]);
    } else if Lcs(a[1..], b) >= Lcs(a, b[1..]) {
      DiffIsScript(a[1..], b);
      assert rows[1..] == Diff(a[1..], b);
    } else {
      DiffIsScript(a, b[1..]);
      assert rows[1..] == Diff(a, b[1..]);
    }
  }

  // ---- optimality ----

  /** `c` is obtained from `s` by leaving lines out. */
  ghost predicate Subsequence(c: seq<string>, s: seq<string>) {
    if c == [] then true
    else if s == [] then false
    else (c[0] == s[0] && Subsequence(c[1..], s[1..])) || Subsequence(c, s[1..])
  }

  lemma SubsequenceLonger(c: seq<string>, s: seq<string>)
    requires s != [] && Subsequence(c, s[1..])
    ensures Subsequence(c, s)
  {
  }

  lemma {:induction false} SubsequenceDrop(c: seq<string>, s: seq<string>)
    requires c != [] && Subsequence(c, s)
    ensures Subsequence(c[1..], s)
  {
    if c[0] == s[0] && Subsequence(c[1..], s[1..]) {
      SubsequenceLonger(c[1..], s);
    } else {
      SubsequenceDrop(c, s[1..]);
      SubsequenceLonger(c[1..], s);
    }
  }

  lemma {:induction false} SubsequenceTail(c: seq<string>, s: seq<string>)
    requires c != [] && s != [] && Subsequence(c, s)
    ensures Subsequence(c[1..], s[1..])
  {
    if !(c[0] == s[0] && Subsequence(c[1..], s[1..])) {
      SubsequenceDrop(c, s[1..]);
    }
  }

  /** No common subsequence is longer than the table says: taking an equal head is never a loss. */
  lemma {:induction false} LcsIsUpperBound(c: seq<string>, a: seq<string>, b: seq<string>)
    requires Subsequence(c, a) && Subsequence(c, b)
    ensures |c| <= Lcs(a, b)
    decreases |a| + |b|
  {
    if c != [] {
      if a[0] == b[0] {
        SubsequenceTail(c, a);
        SubsequenceTail(c, b);
        LcsIsUpperBound(c[1..], a[1..], b[1..]);
      } else if c[0] == a[0] {
        LcsIsUpperBound(c, a, b[1..]);
      } else {
        LcsIsUpperBound(c, a[1..], b);
      }
    }
  }

  lemma {:induction false} SharedIsCommon(rows: seq<Row>)
    ensures Subsequence(Shared(rows), OldLines(rows)) && Subsequence(Shared(rows), NewLines(rows))
  {
    if rows != [] {
      SharedIsCommon(rows[1..]);
      var rest := rows[1..];
      match rows[0].op {
        case Ctx =>
          assert Shared(rows) == [rows[0].text] + Shared(rest);
          assert OldLines(rows) == [rows[0].text] + OldLines(rest);
          assert NewLines(rows) == [rows[0].text] + NewLines(rest);
        case Add =>
          assert Shared(rows) == Shared(rest) && OldLines(rows) == OldLines(rest);
          assert NewLines(rows) == [rows[0].text] + NewLines(rest);
          assert NewLines(rows)[1..] == NewLines(rest);
        case Del =>
          assert Shared(rows) == Shared(rest) && NewLines(rows) == NewLines(rest);
          assert OldLines(rows) == [rows[0].text] + OldLines(rest);
          assert OldLines(rows)[1..] == OldLines(rest);
      }
    }
  }

  lemma {:induction false} Counts(rows: seq<Row>)
    ensures |Shared(rows)| == Count(rows, Ctx)
    ensures |OldLines(rows)| == Count(rows, Ctx) + Count(rows, Del)
    ensures |NewLines(rows)| == Count(rows, Ctx) + Count(rows, Add)
  {
    if rows != [] {
      Counts(rows[1..]);
    }
  }

  /** The diff shares a longest common subsequence, so no script from `a` to `b` has fewer added
      and deleted lines. */
  lemma DiffIsOptimal(a: seq<string>, b: seq<string>, script: seq<Row>)
    requires Script(script, a, b)
    ensures Count(Diff(a, b), Ctx) == Lcs(a, b) >= Count(script, Ctx)
    ensures Count(Diff(a, b), Add) + Count(Diff(a, b), Del) <= Count(script, Add) + Count(script, Del)
    ensures Count(Diff(a, b), Add) - Count(Diff(a, b), Del) == |b| - |a|
  {
    DiffIsScript(a, b);
    Counts(Diff(a, b));
    Counts(script);
    SharedIsCommon(script);
    LcsIsUpperBound(Shared(script), a, b);
  }

  /** The length is attained: what the diff shares is a common subsequence of that length. */
  lemma LcsIsAttained(a: seq<string>, b: seq<string>)
    ensures var c := Shared(Diff(a, b)); Subsequence(c, a) && Subsequence(c, b) && |c| == Lcs(a, b)
  {
    DiffIsScript(a, b);
    SharedIsCommon(Diff(a, b));
  }

  // ---- the rendered rows ----

  datatype Line = Line(row: Row, number: Option<nat>)

  /** The rows to show: everything as context when there is nothing older. */
  function RowsFor(before: Option<string>, after: string): seq<Row> {
    if before.None? || before.value == "" then All(Ctx, Split(after)) else Diff(Split(before.value), Split(after))
  }

  lemma KeepingCons(first: Row, rows: seq<Row>, dropped: Op)
    ensures Keeping([first] + rows, dropped) == (if first.op == dropped then [] else [first.text]) + Keeping(rows, dropped)
  {
    assert ([first] + rows)[1..] == rows;
  }

  lemma {:induction false} KeepingSnoc(rows: seq<Row>, row: Row, dropped: Op)
    ensures Keeping(rows + [row], dropped) == Keeping(rows, dropped) + if row.op == dropped then [] else [row.text]
  {
    if rows == [] {
      assert rows + [row] == [row] + [];
      KeepingCons(row, [], dropped);
    } else {
      assert rows == [rows[0]] + rows[1..] && rows + [row] == [rows[0]] + (rows[1..] + [row]);
      KeepingCons(rows[0], rows[1..], dropped);
      KeepingCons(rows[0], rows[1..] + [row], dropped);
      KeepingSnoc(rows[1..], row, dropped);
    }
  }

  lemma {:induction false} KeepingPrefix(rows: seq<Row>, i: nat, dropped: Op)
    requires i <= |rows|
    ensures Keeping(rows[..i], dropped) <= Keeping(rows, dropped)
    decreases |rows| - i
  {
    if i < |rows| {
      assert rows[..i + 1] == rows[..i] + [rows[i]];
      KeepingSnoc(rows[..i], rows[i], dropped);
      KeepingPrefix(rows, i + 1, dropped);
    } else {
      assert rows[..i] == rows;
    }
  }

  lemma {:induction false} CountSnoc(rows: seq<Row>, row: Row, op: Op)
    ensures Count(rows + [row], op) == Count(rows, op) + if row.op == op then 1 else 0
  {
    if rows == [] {
      assert rows + [row] == [row];
    } else {
      assert (rows + [row])[1..] == rows[1..] + [row];
      CountSnoc(rows[1..], row, op);
    }
  }

  /** A row that is not deleted carries the number of the new line it shows. */
  ghost predicate Numbers(rows: seq<Row>, line: Line, row: Row, last: nat) {
    && line.row == row
    && (if row.op == Del then line.number == None
        else line.number.Some? && 1 <= line.number.value <= last <= |NewLines(rows)| &&
             NewLines(rows)[line.number.value - 1] == row.text)
  }

  /** The first rows are numbered up to `last`, in order. */
  ghost predicate Numbered(rows: seq<Row>, lines: seq<Line>, last: nat) {
    && |lines| <= |rows|
    && (forall k :: 0 <= k < |lines| ==> Numbers(rows, lines[k], rows[k], last))
    && (forall k, l {:trigger lines[k], lines[l]} :: 0 <= k < l < |lines| && lines[k].number.Some? && lines[l].number.Some? ==>
          lines[k].number.value < lines[l].number.value)
  }

  lemma NumberedNext(rows: seq<Row>, lines: seq<Line>, last: nat, line: Line, next: nat)
    requires Numbered(rows, lines, last) && |lines| < |rows|
    requires if rows[|lines|].op == Del then line.number == None && next == last else line.number == Some(next) && next == last + 1
    requires Numbers(rows, line, rows[|lines|], next) && last <= next <= |NewLines(rows)|
    ensures Numbered(rows, lines + [line], next)
  {
  }

  /** The line the next row shows is the next of the new lines. */
  lemma NextLine(rows: seq<Row>, i: nat)
    requires i < |rows|
    ensures var now, next := NewLines(rows[..i]), NewLines(rows[..i + 1]);
            && |next| == |now| + (if rows[i].op == Del then 0 else 1) && |next| <= |NewLines(rows)|
            && (rows[i].op != Del ==> NewLines(rows)[|now|] == rows[i].text)
    ensures Count(rows[..i + 1], Add) == Count(rows[..i], Add) + if rows[i].op == Add then 1 else 0
    ensures Count(rows[..i + 1], Del) == Count(rows[..i], Del) + if rows[i].op == Del then 1 else 0
  {
    assert rows[..i + 1] == rows[..i] + [rows[i]];
    KeepingSnoc(rows[..i], rows[i], Del);
    KeepingPrefix(rows, i + 1, Del);
    CountSnoc(rows[..i], rows[i], Add);
    CountSnoc(rows[..i], rows[i], Del);
  }

  /** The rows not deleted are numbered 1 up in the order of the new lines; the last number is the count of
      new lines, and the counters are the counts of added and deleted rows. */
  method NumberRows(rows: seq<Row>) returns (lines: seq<Line>, added: nat, deleted: nat, last: nat)
    ensures |lines| == |rows| && Numbered(rows, lines, last)
    ensures last == |NewLines(rows)| && added == Count(rows, Add) && deleted == Count(rows, Del)
  {
    lines, added, deleted, last := [], 0, 0, 0;
    for i := 0 to |rows|
      invariant |lines| == i && Numbered(rows, lines, last)
      invariant last == |NewLines(rows[..i])| && added == Count(rows[..i], Add) && deleted == Count(rows[..i], Del)
    {
      var row := rows[i];
      ghost var before := last;
      NextLine(rows, i);
      if row.op == Add {
        added := added + 1;
      } else if row.op == Del {
        deleted := deleted + 1;
      }
      var line := Line(row, None);
      if row.op != Del {
        last := last + 1;
        line := Line(row, Some(last));
      }
      NumberedNext(rows, lines, before, line, last);
      lines := lines + [line];
    }
    assert rows[..|rows|] == rows;
  }

  lemma {:induction false} ContextOnly(lines: seq<string>)
    ensures NewLines(All(Ctx, lines)) == lines
  {
    if lines != [] {
      ContextOnly(lines[1..]);
      assert All(Ctx, lines)[1..] == All(Ctx, lines[1..]);
    }
  }

  lemma {:induction false} AllCounts(op: Op, lines: seq<string>)
    ensures Count(All(op, lines), op) == |All(op, lines)| == |lines|
    ensures forall other :: other != op ==> Count(All(op, lines), other) == 0
  {
    if lines != [] {
      AllCounts(op, lines[1..]);
      assert All(op, lines)[1..] == All(op, lines[1..]);
    }
  }

  /** A first version is shown without additions or deletions. */
  lemma FirstVersionPlain(before: Option<string>, after: string)
    requires before.None? || before.value == ""
    ensures Count(RowsFor(before, after), Add) == 0 == Count(RowsFor(before, after), Del)
    ensures |RowsFor(before, after)| == |Split(after)|
  {
    AllCounts(Ctx, Split(after));
  }

  /** Shown end to end, the rows not deleted are the new text, and those not added the old one. */
  lemma RowsRebuildTexts(before: Option<string>, after: string)
    ensures NewLines(RowsFor(before, after)) == Split(after) && Join(NewLines(RowsFor(before, after))) == after
    ensures before.Some? && before.value != "" ==>
              OldLines(RowsFor(before, after)) == Split(before.value) && Join(OldLines(RowsFor(before, after))) == before.value
  {
    JoinSplit(after);
    if before.None? || before.value == "" {
      ContextOnly(Split(after));
    } else {
      JoinSplit(before.value);
      DiffIsScript(Split(before.value), Split(after));
    }
  }
}
