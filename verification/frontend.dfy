/** The browser page's own logic: the input validator, the local used/remaining
    tally it draws when an answer carries no status list, and the quoting of
    cells in the downloaded CSV file. */
module Frontend {
  import opened Basics
  import opened Records
  import opened Labels
  import GreedyFill
  import GreedyProperties

  // ---- validateInputs ----

  /** Why the inputs are refused: one variant per message, in the order the
      checks run. */
  datatype Invalid =
    | NoResources
    | CapacityCount(got: nat, expected: real)
    | NoTasks
    | DemandCount(got: nat, expected: real)

  /** `validateInputs(nR, caps, nT, demands)`: None is `null`, the inputs are
      accepted. nR and nT are the numbers read from the form; a count that
      `Number()` turns into NaN is not a real number and is not modelled. */
  function ValidateInputs(nR: real, caps: seq<real>, nT: real, demands: seq<real>): (r: Option<Invalid>)
    ensures r == None <==> nR > 0.0 && |caps| as real == nR && nT > 0.0 && |demands| as real == nT
    ensures r == Some(NoResources) <==> nR <= 0.0
    ensures r == Some(CapacityCount(|caps|, nR)) <==> nR > 0.0 && |caps| as real != nR
    ensures r == Some(NoTasks) <==> nR > 0.0 && |caps| as real == nR && nT <= 0.0
    ensures r == Some(DemandCount(|demands|, nT)) <==>
              nR > 0.0 && |caps| as real == nR && nT > 0.0 && |demands| as real != nT
  {
    if nR <= 0.0 then Some(NoResources)
    else if |caps| as real != nR then Some(CapacityCount(|caps|, nR))
    else if nT <= 0.0 then Some(NoTasks)
    else if |demands| as real != nT then Some(DemandCount(|demands|, nT))
    else None
  }

  /** Accepted inputs describe at least one resource and one task, each with
      exactly one number, and the counts are whole numbers. */
  lemma AcceptedShapes(nR: real, caps: seq<real>, nT: real, demands: seq<real>)
    requires ValidateInputs(nR, caps, nT, demands) == None
    ensures |caps| > 0 && |demands| > 0
    ensures nR == (nR.Floor as real) && nT == (nT.Floor as real)
    ensures nR.Floor == |caps| && nT.Floor == |demands|
  {
  }

  // ---- the local used/remaining tally ----

  /** An allocation as the page reads it: the resource name as a string and
      the amount as a number. */
  datatype Shown = Shown(name: string, amount: real)

  /** What the tally credits to resource k (1-based): the amounts of the records
      whose name matches /R(\d+)/i with the number k. */
  function NamedTotal(records: seq<Shown>, k: nat): (total: real)
    ensures (forall i :: 0 <= i < |records| ==> records[i].amount >= 0.0) ==> total >= 0.0
  {
    if records == [] then 0.0
    else
      var last := records[|records| - 1];
      NamedTotal(records[..|records| - 1], k) + (if RegexIndex(last.name) == Some(k) then last.amount else 0.0)
  }

  /** The `forEach` at frontend/app.js:123-133 over a zero-filled array of n
      entries: a record whose name matches with k, 1 <= k <= n, adds its amount
      to used[k - 1]; every other record is skipped. */
  method LocalTally(n: nat, records: seq<Shown>) returns (used: seq<real>)
    ensures |used| == n
    ensures forall r :: 0 <= r < n ==> used[r] == NamedTotal(records, r + 1)
  {
    var acc := new real[n](_ => 0.0);
    for j := 0 to |records|
      invariant forall r :: 0 <= r < n ==> acc[r] == NamedTotal(records[..j], r + 1)
    {
      var a := records[j];
      assert records[..j + 1] == records[..j] + [a];
      assert records[..j + 1][..j] == records[..j];
      match RegexIndex(a.name)
      case Some(k) =>
        var idx := k - 1;
        if 0 <= idx < n {
          acc[idx] := acc[idx] + a.amount;
        }
      case None =>
    }
    assert records[..|records|] == records;
    used := acc[..];
  }

  /** The records of an allocator's answer as the page sees them. */
  function Displayed(allocs: seq<Allocation>): (shown: seq<Shown>)
    ensures |shown| == |allocs|
  {
    seq(|allocs|, i requires 0 <= i < |allocs| => Shown(Label(allocs[i].resource), allocs[i].amount))
  }

  /** On the answer's own labels "R<k>" the page's tally and the allocator's
      per-resource total agree. */
  lemma {:induction false} DisplayedTotals(allocs: seq<Allocation>, k: nat)
    ensures NamedTotal(Displayed(allocs), k) == ResourceTotal(allocs, k)
  {
    if allocs != [] {
      var init := allocs[..|allocs| - 1];
      var last := allocs[|allocs| - 1];
      assert Displayed(allocs)[..|allocs| - 1] == Displayed(init);
      DisplayedTotals(init, k);
      RegexIndexOfLabel(last.resource);
    }
  }

  /** One line of the capacity list. */
  datatype Line = Line(resource: nat, used: real, capacity: real, remaining: real, overloaded: bool)

  /** The loop at frontend/app.js:135-142: remaining is capacity minus used, shown
      as an overload exactly when it is negative. */
  method CapacityLines(capacities: seq<real>, used: seq<real>) returns (lines: seq<Line>)
    requires |used| == |capacities|
    ensures |lines| == |capacities|
    ensures forall i :: 0 <= i < |lines| ==>
              && lines[i].resource == i + 1
              && lines[i].used == used[i] && lines[i].capacity == capacities[i]
              && lines[i].used + lines[i].remaining == capacities[i]
              && (lines[i].overloaded <==> used[i] > capacities[i])
  {
    lines := [];
    for i := 0 to |capacities|
      invariant |lines| == i
      invariant forall j :: 0 <= j < i ==>
                  && lines[j].resource == j + 1
                  && lines[j].used == used[j] && lines[j].capacity == capacities[j]
                  && lines[j].used + lines[j].remaining == capacities[j]
                  && (lines[j].overloaded <==> used[j] > capacities[j])
    {
      var rem := capacities[i] - used[i];
      lines := lines + [Line(i + 1, used[i], capacities[i], rem, rem < 0.0)];
    }
  }

  /** The whole local fallback: tally, then one line per capacity. */
  method LocalStatus(capacities: seq<real>, records: seq<Shown>) returns (lines: seq<Line>)
    ensures |lines| == |capacities|
    ensures forall i :: 0 <= i < |lines| ==>
              && lines[i].used == NamedTotal(records, i + 1)
              && (lines[i].overloaded <==> NamedTotal(records, i + 1) > capacities[i])
  {
    var used := LocalTally(|capacities|, records);
    lines := CapacityLines(capacities, used);
  }

  /** On the page's fallback path, the one taken only when an answer carries no
      `resource_status` list, the greedy allocator's records never show as
      overloaded: on a resource with non-negative capacity the page's tally
      stays within it. */
  lemma GreedyNeverOverloaded(capacities: seq<real>, demands: seq<real>, k: nat)
    requires k < |capacities| && capacities[k] >= 0.0
    ensures NamedTotal(Displayed(GreedyFill.GreedyPlan(capacities, demands).allocations), k + 1) <= capacities[k]
  {
    var plan := GreedyFill.GreedyPlan(capacities, demands);
    GreedyProperties.GreedyCapacity(capacities, demands, k);
    DisplayedTotals(plan.allocations, k + 1);
  }

  // ---- CSV cells (section 2 of RFC 4180, rules 5 to 7) ----

  /** `String(cell).replace(/"/g, '""')`: every double quote doubled. */
  function DoubleQuotes(s: string): (d: string)
    ensures |d| >= |s|
  {
    if s == [] then []
    else (if s[0] == '"' then "\"\"" else [s[0]]) + DoubleQuotes(s[1..])
  }

  /** A cell without quotes passes through unchanged. */
  lemma {:induction false} DoubleQuotesPlain(s: string)
    requires forall i :: 0 <= i < |s| ==> s[i] != '"'
    ensures DoubleQuotes(s) == s
  {
    if s != [] {
      assert forall i :: 0 <= i < |s[1..]| ==> s[1..][i] == s[i + 1];
      DoubleQuotesPlain(s[1..]);
    }
  }

  /** One cell of the file: enclosed in double quotes, inner quotes doubled. */
  function Escape(cell: string): (e: string)
    ensures |e| >= 2 && e[0] == '"' && e[|e| - 1] == '"'
  {
    "\"" + DoubleQuotes(cell) + "\""
  }

  /** Reading a quoted field after its opening quote: a doubled quote stands
      for one quote, a lone quote closes the field. Returns the content and
      what follows the closing quote; None when the quote is never closed. */
  function ScanQuoted(s: string): (r: Option<(string, string)>)
    ensures r.Some? ==> |r.value.1| < |s|
  {
    if s == [] then None
    else if s[0] == '"' then
      if |s| >= 2 && s[1] == '"' then
        match ScanQuoted(s[2..])
        case None => None
        case Some((content, rest)) => Some(("\"" + content, rest))
      else Some(([], s[1..]))
    else
      match ScanQuoted(s[1..])
      case None => None
      case Some((content, rest)) => Some(([s[0]] + content, rest))
  }

  /** The cell a quoted field denotes, when it is exactly one well-formed field. */
  function Unescape(e: string): Option<string>
  {
    if e == [] || e[0] != '"' then None
    else
      match ScanQuoted(e[1..])
      case Some((cell, rest)) => if rest == [] then Some(cell) else None
      case None => None
  }

  /** Scanning an escaped cell stops at its own closing quote whenever the next
      character is not a quote. */
  lemma {:induction false} ScanDoubled(cell: string, rest: string)
    requires rest == [] || rest[0] != '"'
    ensures ScanQuoted(DoubleQuotes(cell) + "\"" + rest) == Some((cell, rest))
  {
    if cell == [] {
      assert DoubleQuotes(cell) + "\"" + rest == "\"" + rest;
    } else {
      var head := if cell[0] == '"' then "\"\"" else [cell[0]];
      var tail := DoubleQuotes(cell[1..]) + "\"" + rest;
      ScanDoubled(cell[1..], rest);
      var s := head + tail;
      assert DoubleQuotes(cell) + "\"" + rest == s by {
        assert DoubleQuotes(cell) == head + DoubleQuotes(cell[1..]);
      }
      if cell[0] == '"' {
        assert s[0] == '"' && s[1] == '"' && s[2..] == tail;
      } else {
        assert s[0] == cell[0] && s[1..] == tail;
      }
      assert [cell[0]] + cell[1..] == cell;
    }
  }

  /** Unquoting recovers every cell. */
  lemma EscapeRoundTrip(cell: string)
    ensures Unescape(Escape(cell)) == Some(cell)
  {
    ScanDoubled(cell, []);
    assert Escape(cell)[1..] == DoubleQuotes(cell) + "\"" + [];
  }

  /** So two different cells are never written the same way. */
  lemma EscapeInjective(a: string, b: string)
    requires Escape(a) == Escape(b)
    ensures a == b
  {
    EscapeRoundTrip(a);
    EscapeRoundTrip(b);
  }

  // ---- the CSV text ----

  /** `r.map(escape).join(",")` for a row with at least one cell. */
  function JoinCells(cells: seq<string>): (line: string)
    requires |cells| > 0
    ensures |line| >= 2 * |cells|
  {
    if |cells| == 1 then Escape(cells[0])
    else Escape(cells[0]) + "," + JoinCells(cells[1..])
  }

  /** `rows.map(...).join("\n")` for at least one row. */
  function JoinLines(rows: seq<seq<string>>): (text: string)
    requires |rows| > 0 && forall i :: 0 <= i < |rows| ==> |rows[i]| > 0
    ensures |text| >= 2 * |rows|
  {
    if |rows| == 1 then JoinCells(rows[0])
    else JoinCells(rows[0]) + "\n" + JoinLines(rows[1..])
  }

  /** A reader for files made only of quoted fields: fields end at ",", rows
      at "\n". */
  function ParseFields(s: string): (r: Option<seq<seq<string>>>)
    ensures r.Some? ==> |r.value| > 0 && forall i :: 0 <= i < |r.value| ==> |r.value[i]| > 0
    decreases |s|
  {
    if s == [] || s[0] != '"' then None
    else
      match ScanQuoted(s[1..])
      case None => None
      case Some((cell, rest)) =>
        if rest == [] then Some([[cell]])
        else if rest[0] == ',' then
          match ParseFields(rest[1..])
          case None => None
          case Some(rows) => Some([[cell] + rows[0]] + rows[1..])
        else if rest[0] == '\n' then
          match ParseFields(rest[1..])
          case None => None
          case Some(rows) => Some([[cell]] + rows)
        else None
  }

  /** One joined row followed by the end of the text or by a line break and
      more rows reads back as that row followed by those rows. */
  lemma {:induction false} RowRoundTrip(cells: seq<string>, t: string, more: seq<seq<string>>)
    requires |cells| > 0
    requires (t == [] && more == []) || (|t| > 0 && t[0] == '\n' && ParseFields(t[1..]) == Some(more))
    ensures ParseFields(JoinCells(cells) + t) == Some([cells] + more)
  {
    if |cells| == 1 {
      LastCell(cells[0], t, more);
      assert [cells[0]] == cells;
    } else {
      RowRoundTrip(cells[1..], t, more);
      CellThenRow(cells, t, more);
    }
  }

  /** The last cell of a row, then the end of the text or the next row. */
  lemma LastCell(c: string, t: string, more: seq<seq<string>>)
    requires (t == [] && more == []) || (|t| > 0 && t[0] == '\n' && ParseFields(t[1..]) == Some(more))
    ensures ParseFields(Escape(c) + t) == Some([[c]] + more)
  {
    FieldScan(c, t);
    if t == [] {
      assert [[c]] + more == [[c]];
    }
  }

  /** A cell, a comma, and the rest of the row. */
  lemma CellThenRow(cells: seq<string>, t: string, more: seq<seq<string>>)
    requires |cells| > 1
    requires ParseFields(JoinCells(cells[1..]) + t) == Some([cells[1..]] + more)
    ensures ParseFields(JoinCells(cells) + t) == Some([cells] + more)
  {
    var c := cells[0];
    var u := JoinCells(cells[1..]) + t;
    FieldScan(c, "," + u);
    assert JoinCells(cells) + t == Escape(c) + ("," + u);
    assert ("," + u)[1..] == u;
    assert ([cells[1..]] + more)[1..] == more;
    assert [c] + cells[1..] == cells;
  }

  /** An escaped cell followed by anything but a quote is read as that cell. */
  lemma FieldScan(c: string, r: string)
    requires r == [] || r[0] != '"'
    ensures var s := Escape(c) + r;
            s != [] && s[0] == '"' && ScanQuoted(s[1..]) == Some((c, r))
  {
    var s := Escape(c) + r;
    assert s[1..] == DoubleQuotes(c) + "\"" + r;
    ScanDoubled(c, r);
  }

  /** Every file written this way reads back as the rows it was written from. */
  lemma {:induction false} LinesRoundTrip(rows: seq<seq<string>>)
    requires |rows| > 0 && forall i :: 0 <= i < |rows| ==> |rows[i]| > 0
    ensures ParseFields(JoinLines(rows)) == Some(rows)
  {
    if |rows| == 1 {
      RowRoundTrip(rows[0], [], []);
      assert JoinCells(rows[0]) + [] == JoinCells(rows[0]);
      assert [rows[0]] + [] == rows;
    } else {
      LinesRoundTrip(rows[1..]);
      var t := "\n" + JoinLines(rows[1..]);
      assert t[1..] == JoinLines(rows[1..]);
      RowRoundTrip(rows[0], t, rows[1..]);
      assert JoinCells(rows[0]) + t == JoinLines(rows);
      assert [rows[0]] + rows[1..] == rows;
    }
  }

  /** A row of the download as the page has it: the three values already
      converted to text. */
  datatype CsvRecord = CsvRecord(task: string, resource: string, amount: string)

  /** The header row followed by one row per allocation. */
  function CsvRows(records: seq<CsvRecord>): (rows: seq<seq<string>>)
    ensures |rows| == |records| + 1
    ensures forall i :: 0 <= i < |rows| ==> |rows[i]| == 3
  {
    [["task", "resource", "allocated"]] +
    seq(|records|, i requires 0 <= i < |records| => [records[i].task, records[i].resource, records[i].amount])
  }

  /** `downloadCSV`: nothing for an empty list, otherwise the joined text. */
  function CsvText(records: seq<CsvRecord>): (text: Option<string>)
    ensures text.Some? <==> |records| > 0
  {
    if records == [] then None else Some(JoinLines(CsvRows(records)))
  }

  /** Reading the downloaded file gives back the header and every record's
      three cells, whatever quotes, commas or line breaks the cells contain. */
  lemma CsvRoundTrip(records: seq<CsvRecord>)
    ensures CsvText(records).Some? <==> |records| > 0
    ensures |records| > 0 ==> ParseFields(CsvText(records).value) == Some(CsvRows(records))
  {
    if |records| > 0 {
      LinesRoundTrip(CsvRows(records));
    }
  }
}
