/** The command-line client's output formatting: `format_output` picks a
    rendering, and `format_table` lays out string-valued data as text. */
module CliOutput {
  import opened Wrappers
  import opened Strings
  import opened Dicts

  /** The longest cell shown in full; longer cells are cut to 47 characters
      and `...`. */
  const MaxCell := 50
  const CutCell := 47

  /** What `format_table` is given: a dict of strings; a list whose first
      item is not a dict, each item already turned into a string; a list of
      dicts of strings; or any other value, already turned into a string. */
  datatype TableData =
    | Mapping(entries: Dict<string>)
    | Texts(items: seq<string>)
    | Records(records: seq<Dict<string>>)
    | Scalar(text: string)

  // ---- A dict ----

  /** `max(len(k) for k in data)`, 0 for an empty dict. */
  function MaxKeyLen(entries: Dict<string>): (m: nat)
    ensures forall i :: 0 <= i < |entries| ==> |entries[i].0| <= m
    ensures entries != [] ==> exists i :: 0 <= i < |entries| && |entries[i].0| == m
    decreases |entries|
  {
    if entries == [] then 0
    else
      var rest := MaxKeyLen(entries[1..]);
      assert forall i :: 1 <= i < |entries| ==> entries[i] == entries[1..][i - 1];
      if |entries[0].0| >= rest then |entries[0].0| else rest
  }

  /** One line of a dict: the key padded to width `m`, two spaces, the value. */
  function EntryLine(entry: (string, string), m: nat): string
  {
    LJust(entry.0, m) + "  " + entry.1
  }

  /** The lines of a dict, in its order. */
  function EntryLines(entries: Dict<string>, m: nat): (r: seq<string>)
    ensures |r| == |entries|
    ensures forall i :: 0 <= i < |entries| ==> r[i] == EntryLine(entries[i], m)
  {
    seq(|entries|, i requires 0 <= i < |entries| => EntryLine(entries[i], m))
  }

  /** The values of a dict line up: every line holds its key padded to the
      longest key, then two spaces, and its value starts right after. */
  lemma EntryLinesAligned(entries: Dict<string>)
    ensures var m := MaxKeyLen(entries);
      forall i :: 0 <= i < |entries| ==>
        var line := EntryLines(entries, m)[i];
        |line| == m + 2 + |entries[i].1| && line[..|entries[i].0|] == entries[i].0
        && line[m..m + 2] == "  " && line[m + 2..] == entries[i].1
  {
    var m := MaxKeyLen(entries);
    forall i | 0 <= i < |entries|
      ensures var line := EntryLines(entries, m)[i];
        |line| == m + 2 + |entries[i].1| && line[..|entries[i].0|] == entries[i].0
        && line[m..m + 2] == "  " && line[m + 2..] == entries[i].1
    {
      var p := LJust(entries[i].0, m);
      assert |p| == m;
      var line := p + "  " + entries[i].1;
      assert line[..|entries[i].0|] == p[..|entries[i].0|];
      assert line[m..m + 2] == "  ";
      assert line[m + 2..] == entries[i].1;
    }
  }

  // ---- A list of dicts ----

  /** `str(item.get(key, ""))` */
  function Cell(item: Dict<string>, key: string): string
  {
    Get(item, key).GetOr("")
  }

  /** A cell as shown: cut to 47 characters and `...` when longer than 50. */
  function Shown(v: string): (r: string)
    ensures |v| <= MaxCell ==> r == v
    ensures |v| > MaxCell ==> |r| == MaxCell && r[..CutCell] == v[..CutCell] && r[CutCell..] == "..."
  {
    if |v| > MaxCell then v[..CutCell] + "..." else v
  }

  /** The width of a column as `format_table` computes it: the key's
      length, raised to `min(len(value), 50)` by each value longer than the
      width so far. */
  function WidthAsWritten(key: string, records: seq<Dict<string>>): nat
    decreases |records|
  {
    if records == [] then |key|
    else
      var w := WidthAsWritten(key, records[..|records| - 1]);
      var v := Cell(records[|records| - 1], key);
      if |v| > w then (if |v| < MaxCell then |v| else MaxCell) else w
  }

  /** A key longer than 50 characters with a longer value: the width drops
      below the key's length, so the header is wider than the separator. */
  lemma WidthAsWrittenShrinks()
    ensures var key := Repeat('k', 51);
      WidthAsWritten(key, [[(key, Repeat('v', 52))]]) == 50 < |key|
  {
    var key := Repeat('k', 51);
    var item: Dict<string> := [(key, Repeat('v', 52))];
    assert [item][..0] == [];
    assert Cell(item, key) == Repeat('v', 52) by {
      assert item[0] == (key, Repeat('v', 52));
      assert Get(item, key).Some?;
    }
  }

  /** How many characters of a cell are shown. */
  function ShownLen(v: string): nat
  {
    if |v| > MaxCell then MaxCell else |v|
  }

  lemma ShownLength(v: string)
    ensures |Shown(v)| == ShownLen(v)
  {
  }

  /** The width the layout needs: the key's length, raised to
      `min(len(value), 50)` by each longer value, so that it is never below
      the key's length nor below any shown cell. */
  function Width(key: string, records: seq<Dict<string>>): (w: nat)
    ensures |key| <= w
    ensures forall i :: 0 <= i < |records| ==> ShownLen(Cell(records[i], key)) <= w
    decreases |records|
  {
    if records == [] then |key|
    else
      var init := records[..|records| - 1];
      var w := Width(key, init);
      var v := Cell(records[|records| - 1], key);
      assert forall i :: 0 <= i < |init| ==> init[i] == records[i];
      if ShownLen(v) > w then ShownLen(v) else w
  }

  /** The width is no wider than needed: it is the key's length or the
      shown length of one of the cells. */
  lemma {:induction false} WidthTight(key: string, records: seq<Dict<string>>)
    ensures Width(key, records) == |key|
      || exists i :: 0 <= i < |records| && ShownLen(Cell(records[i], key)) == Width(key, records)
    decreases |records|
  {
    if records != [] {
      var init := records[..|records| - 1];
      WidthTight(key, init);
      if Width(key, records) != |key| && Width(key, records) == Width(key, init) {
        var i :| 0 <= i < |init| && ShownLen(Cell(init[i], key)) == Width(key, init);
        assert init[i] == records[i];
      }
    }
  }

  /** For keys of at most 50 characters the two agree. */
  lemma {:induction false} WidthAgrees(key: string, records: seq<Dict<string>>)
    requires |key| <= MaxCell
    ensures WidthAsWritten(key, records) == Width(key, records)
    ensures Width(key, records) <= MaxCell
    decreases |records|
  {
    if records != [] {
      WidthAgrees(key, records[..|records| - 1]);
    }
  }

  /** The column widths. */
  function Widths(keys: seq<string>, records: seq<Dict<string>>): (r: seq<nat>)
    ensures |r| == |keys|
    ensures forall i :: 0 <= i < |keys| ==> r[i] == Width(keys[i], records)
  {
    seq(|keys|, i requires 0 <= i < |keys| => Width(keys[i], records))
  }

  /** The header cells: each key padded to its column's width. */
  function HeaderCells(keys: seq<string>, widths: seq<nat>): (r: seq<string>)
    requires |widths| == |keys|
    ensures |r| == |keys|
    ensures forall i :: 0 <= i < |keys| ==> r[i] == LJust(keys[i], widths[i])
  {
    seq(|keys|, i requires 0 <= i < |keys| => LJust(keys[i], widths[i]))
  }

  /** The separator cells: each column's width in dashes. */
  function Dashes(widths: seq<nat>): (r: seq<string>)
    ensures |r| == |widths|
    ensures forall i :: 0 <= i < |widths| ==> r[i] == Repeat('-', widths[i])
  {
    seq(|widths|, i requires 0 <= i < |widths| => Repeat('-', widths[i]))
  }

  /** The cells of one row, each shown and padded to its column's width. */
  function RowCells(item: Dict<string>, keys: seq<string>, widths: seq<nat>): (r: seq<string>)
    requires |widths| == |keys|
    ensures |r| == |keys|
    ensures forall i :: 0 <= i < |keys| ==> r[i] == LJust(Shown(Cell(item, keys[i])), widths[i])
  {
    seq(|keys|, i requires 0 <= i < |keys| => LJust(Shown(Cell(item, keys[i])), widths[i]))
  }

  function Row(item: Dict<string>, keys: seq<string>, widths: seq<nat>): string
    requires |widths| == |keys|
  {
    Join(RowCells(item, keys, widths), "  ")
  }

  /** The rows, one per item. */
  function Rows(records: seq<Dict<string>>, keys: seq<string>, widths: seq<nat>): (r: seq<string>)
    requires |widths| == |keys|
    ensures |r| == |records|
    ensures forall i :: 0 <= i < |records| ==> r[i] == Row(records[i], keys, widths)
  {
    seq(|records|, i requires 0 <= i < |records| => Row(records[i], keys, widths))
  }

  /** The lines of a nonempty list of dicts: the first item's keys are the
      columns; header, separator, then one row per item. */
  function RecordLines(records: seq<Dict<string>>): (r: seq<string>)
    requires records != []
    ensures |r| == |records| + 2
  {
    var keys := Keys(records[0]);
    var widths := Widths(keys, records);
    [Join(HeaderCells(keys, widths), "  "), Join(Dashes(widths), "  ")] + Rows(records, keys, widths)
  }

  /** Joining parts of the same lengths gives strings of the same length. */
  lemma {:induction false} JoinSameLength(xs: seq<string>, ys: seq<string>, sep: string)
    requires |xs| == |ys| && forall i :: 0 <= i < |xs| ==> |xs[i]| == |ys[i]|
    ensures |Join(xs, sep)| == |Join(ys, sep)|
    decreases |xs|
  {
    if |xs| > 1 {
      assert forall i :: 0 <= i < |xs| - 1 ==> xs[1..][i] == xs[i + 1] && ys[1..][i] == ys[i + 1];
      JoinSameLength(xs[1..], ys[1..], sep);
    }
  }

  /** The header fits its columns exactly when every key fits its width. */
  lemma HeaderFits(keys: seq<string>, widths: seq<nat>)
    requires |widths| == |keys| && forall i :: 0 <= i < |keys| ==> |keys[i]| <= widths[i]
    ensures |Join(HeaderCells(keys, widths), "  ")| == |Join(Dashes(widths), "  ")|
  {
    JoinSameLength(HeaderCells(keys, widths), Dashes(widths), "  ");
  }

  /** A row fits its columns exactly when every shown cell fits its width. */
  lemma RowFits(item: Dict<string>, keys: seq<string>, widths: seq<nat>)
    requires |widths| == |keys| && forall i :: 0 <= i < |keys| ==> ShownLen(Cell(item, keys[i])) <= widths[i]
    ensures |Row(item, keys, widths)| == |Join(Dashes(widths), "  ")|
  {
    var cells := RowCells(item, keys, widths);
    forall i | 0 <= i < |keys| ensures |cells[i]| == widths[i] {
      ShownLength(Cell(item, keys[i]));
    }
    JoinSameLength(cells, Dashes(widths), "  ");
  }

  /** Every line of the table has the separator's length: the header and
      each row fit their columns exactly. */
  lemma RecordLinesAligned(records: seq<Dict<string>>)
    requires records != []
    ensures forall k :: 0 <= k < |RecordLines(records)| ==> |RecordLines(records)[k]| == |RecordLines(records)[1]|
  {
    var keys := Keys(records[0]);
    var widths := Widths(keys, records);
    HeaderFits(keys, widths);
    var lines := RecordLines(records);
    forall k | 2 <= k < |lines| ensures |lines[k]| == |lines[1]| {
      forall i | 0 <= i < |keys| ensures ShownLen(Cell(records[k - 2], keys[i])) <= widths[i] {
      }
      RowFits(records[k - 2], keys, widths);
    }
  }

  /** `format_table`. */
  function Table(d: TableData): string
  {
    match d
    case Mapping(entries) => if entries == [] then "No data" else Join(EntryLines(entries, MaxKeyLen(entries)), "\n")
    case Texts(items) => if items == [] then "No items" else Join(items, "\n")
    case Records(records) => if records == [] then "No items" else Join(RecordLines(records), "\n")
    case Scalar(text) => text
  }

  /** The column widths, with the two loops of `format_table` (items
      outside, columns inside), each cell raising its column to its shown
      length. */
  method ColumnWidths(keys: seq<string>, records: seq<Dict<string>>) returns (widths: seq<nat>)
    ensures widths == Widths(keys, records)
  {
    widths := seq(|keys|, i requires 0 <= i < |keys| => |keys[i]|);
    var n := 0;
    while n < |records|
      invariant 0 <= n <= |records|
      invariant |widths| == |keys|
      invariant forall i :: 0 <= i < |keys| ==> widths[i] == Width(keys[i], records[..n])
    {
      var j := 0;
      while j < |keys|
        invariant 0 <= j <= |keys| && |widths| == |keys|
        invariant forall i :: 0 <= i < j ==> widths[i] == Width(keys[i], records[..n + 1])
        invariant forall i :: j <= i < |keys| ==> widths[i] == Width(keys[i], records[..n])
      {
        WidthStep(keys[j], records, n);
        var value := Cell(records[n], keys[j]);
        var shown := if |value| > MaxCell then MaxCell else |value|;
        if shown > widths[j] {
          widths := widths[j := shown];
        }
        j := j + 1;
      }
      n := n + 1;
    }
    assert records[..n] == records;
  }

  /** One more item raises a width as the loop does. */
  lemma WidthStep(key: string, records: seq<Dict<string>>, n: nat)
    requires n < |records|
    ensures var w := Width(key, records[..n]);
      var v := Cell(records[n], key);
      Width(key, records[..n + 1]) == if ShownLen(v) > w then ShownLen(v) else w
  {
    var t := records[..n + 1];
    assert t[..n] == records[..n] && t[n] == records[n];
  }

  /** The lines of a dict, with the loop of `format_table`. */
  method MappingLines(entries: Dict<string>) returns (lines: seq<string>)
    ensures lines == EntryLines(entries, MaxKeyLen(entries))
  {
    var m := MaxKeyLen(entries);
    lines := [];
    var i := 0;
    while i < |entries|
      invariant 0 <= i <= |entries|
      invariant |lines| == i
      invariant forall k :: 0 <= k < i ==> lines[k] == EntryLine(entries[k], m)
    {
      lines := lines + [LJust(entries[i].0, m) + "  " + entries[i].1];
      i := i + 1;
    }
  }

  /** A cell as shown, cut as `format_table` cuts it. */
  method ShowCell(full: string) returns (value: string)
    ensures value == Shown(full)
  {
    value := full;
    if |full| > MaxCell {
      value := full[..CutCell] + "...";
    }
  }

  /** One row, with the inner loop of `format_table`. */
  method RowOf(item: Dict<string>, keys: seq<string>, widths: seq<nat>) returns (row: string)
    requires |widths| == |keys|
    ensures row == Row(item, keys, widths)
  {
    var cells: seq<string> := [];
    var j := 0;
    while j < |keys|
      invariant 0 <= j <= |keys|
      invariant |cells| == j
      invariant forall k :: 0 <= k < j ==> cells[k] == LJust(Shown(Cell(item, keys[k])), widths[k])
    {
      var value := ShowCell(Cell(item, keys[j]));
      cells := cells + [LJust(value, widths[j])];
      j := j + 1;
    }
    assert cells == RowCells(item, keys, widths);
    row := Join(cells, "  ");
  }

  /** One more item adds its row at the end. */
  lemma RowsStep(records: seq<Dict<string>>, keys: seq<string>, widths: seq<nat>, n: nat)
    requires |widths| == |keys| && n < |records|
    ensures Rows(records[..n + 1], keys, widths) == Rows(records[..n], keys, widths) + [Row(records[n], keys, widths)]
  {
    var a := Rows(records[..n + 1], keys, widths);
    var b := Rows(records[..n], keys, widths) + [Row(records[n], keys, widths)];
    forall k | 0 <= k < n + 1 ensures a[k] == b[k] {
      assert records[..n + 1][k] == records[k];
      if k < n {
        assert records[..n][k] == records[k];
      }
    }
  }

  /** The rows, with the outer loop of `format_table`. */
  method RowsOf(records: seq<Dict<string>>, keys: seq<string>, widths: seq<nat>) returns (rows: seq<string>)
    requires |widths| == |keys|
    ensures rows == Rows(records, keys, widths)
  {
    rows := [];
    var n := 0;
    while n < |records|
      invariant 0 <= n <= |records|
      invariant rows == Rows(records[..n], keys, widths)
    {
      var row := RowOf(records[n], keys, widths);
      RowsStep(records, keys, widths, n);
      rows := rows + [row];
      n := n + 1;
    }
    assert records[..n] == records;
  }

  /** The lines of a nonempty list of dicts, with the loops of `format_table`. */
  method RecordTableLines(records: seq<Dict<string>>) returns (lines: seq<string>)
    requires records != []
    ensures lines == RecordLines(records)
  {
    var keys := Keys(records[0]);
    var widths := ColumnWidths(keys, records);
    var rows := RowsOf(records, keys, widths);
    lines := [Join(HeaderCells(keys, widths), "  "), Join(Dashes(widths), "  ")] + rows;
  }

  /** `format_table`. */
  method FormatTable(d: TableData) returns (r: string)
    ensures r == Table(d)
  {
    match d {
      case Mapping(entries) =>
        if entries == [] {
          return "No data";
        }
        var lines := MappingLines(entries);
        r := Join(lines, "\n");
      case Texts(items) =>
        if items == [] {
          return "No items";
        }
        r := Join(items, "\n");
      case Records(records) =>
        if records == [] {
          return "No items";
        }
        var lines := RecordTableLines(records);
        r := Join(lines, "\n");
      case Scalar(text) =>
        r := text;
    }
  }

  /** The renderings `format_output` delegates to other code: JSON, YAML
      and `str`. */
  datatype Renderings = Renderings(json: string, yaml: string, str: string)

  /** `format_output`: `json` and `yaml` are the given renderings, `table`
      is `format_table`, and any other format is `str(data)`. */
  function FormatOutput(d: TableData, format: string, other: Renderings): (r: string)
    ensures format == "table" ==> r == Table(d)
    ensures format == "json" ==> r == other.json
    ensures format == "yaml" ==> r == other.yaml
    ensures format !in ["json", "yaml", "table"] ==> r == other.str
  {
    if format == "json" then other.json
    else if format == "yaml" then other.yaml
    else if format == "table" then Table(d)
    else other.str
  }

  /** Empty data is a fixed message whatever its kind. */
  lemma EmptyTables()
    ensures Table(Mapping([])) == "No data"
    ensures Table(Texts([])) == "No items" && Table(Records([])) == "No items"
  {
  }
}
