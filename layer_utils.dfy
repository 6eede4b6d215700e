/**
 * Layer utilities (forestlayer/utils/layer_utils.py): the nesting depth of a
 * list, and the fixed-width text summary of a graph of layers.
 *
 * `print_fn` is modelled as appending to the sequence of lines a method returns;
 * Python's `IndexError` becomes `Err(IndexError)`.
 */
module LayerUtils {
  import opened Wrappers

  datatype Error = IndexError

  // ---------------------------------------------------------------------------
  // check_list_depth

  /** A Python value as `check_list_depth` sees it: None, a list, a tuple, or
      anything else. */
  datatype Nested = NoneValue | Atom(repr: string) | List(items: seq<Nested>) | Tuple(items: seq<Nested>)
  {
    /** `isinstance(v, (list, tuple))`. */
    predicate IsSeq()
    {
      List? || Tuple?
    }
  }

  /** The depth the loop of `check_list_depth` reaches: one per list or tuple met
      while following first elements; an empty one fails on `tmp[0]`. */
  function Depth(v: Nested): Result<nat, Error>
  {
    if !v.IsSeq() then Ok(0)
    else if |v.items| == 0 then Err(IndexError)
    else match Depth(v.items[0])
      case Ok(d) => Ok(d + 1)
      case Err(e) => Err(e)
  }

  /** `check_list_depth(lis)`. */
  method CheckListDepth(lis: Nested) returns (r: Result<nat, Error>)
    ensures r == Depth(lis)
  {
    if lis == NoneValue {
      return Ok(0);
    }
    var depth := 0;
    var tmp := lis;
    while tmp.IsSeq()
      invariant Depth(lis) == match Depth(tmp) case Ok(d) => Ok(d + depth) case Err(e) => Err(e)
      decreases tmp
    {
      if |tmp.items| == 0 {
        return Err(IndexError);
      }
      depth := depth + 1;
      tmp := tmp.items[0];
    }
    return Ok(depth);
  }

  /** The value reached after following first elements `n` times, or None when a
      non-list or an empty list is met on the way. */
  function FirstPath(v: Nested, n: nat): Option<Nested>
  {
    if n == 0 then Some(v)
    else if v.IsSeq() && |v.items| > 0 then FirstPath(v.items[0], n - 1)
    else None
  }

  /** The depth is `d` exactly when `d` steps along first elements lead to a value
      that is neither a list nor a tuple. */
  lemma {:induction false} DepthIsFirstPathLength(v: Nested, d: nat)
    ensures Depth(v) == Ok(d) <==> FirstPath(v, d).Some? && !FirstPath(v, d).value.IsSeq()
  {
    if v.IsSeq() && |v.items| > 0 && d > 0 {
      DepthIsFirstPathLength(v.items[0], d - 1);
    }
  }

  /** An empty list or tuple anywhere on the path of first elements makes the
      walk fail. */
  lemma {:induction false} EmptyOnPathFails(v: Nested, n: nat)
    requires FirstPath(v, n).Some? && FirstPath(v, n).value.IsSeq() && |FirstPath(v, n).value.items| == 0
    ensures Depth(v) == Err(IndexError)
  {
    if n > 0 {
      EmptyOnPathFails(v.items[0], n - 1);
    }
  }

  /** `x` wrapped in `k` one-element lists. */
  function Nest(x: Nested, k: nat): Nested
  {
    if k == 0 then x else List([Nest(x, k - 1)])
  }

  /** Wrapping a non-list in `k` lists gives depth `k`. */
  lemma {:induction false} NestDepth(x: Nested, k: nat)
    requires !x.IsSeq()
    ensures Depth(Nest(x, k)) == Ok(k)
  {
    if k > 0 {
      NestDepth(x, k - 1);
    }
  }

  /** Only the first element counts: two lists or tuples with the same first element
      have the same depth, one more than that element's, whatever follows it. */
  lemma OnlyFirstElementCounts(v: Nested, w: Nested)
    requires v.IsSeq() && w.IsSeq() && |v.items| > 0 && |w.items| > 0 && v.items[0] == w.items[0]
    ensures Depth(v) == Depth(w)
    ensures Depth(v.items[0]).Ok? ==> Depth(v) == Ok(Depth(v.items[0]).value + 1)
  {
  }

  // ---------------------------------------------------------------------------
  // print_row

  /** `' ' * n` (empty when `n <= 0`). */
  function Spaces(n: int): (r: string)
    ensures |r| == Max(n, 0) && forall i :: 0 <= i < |r| ==> r[i] == ' '
  {
    seq(Max(n, 0), _ => ' ')
  }

  /** `s[:p]`: a negative `p` counts from the end; both ends are clamped. */
  function PrefixTo(s: string, p: int): (r: string)
    ensures p >= 0 ==> |r| == Min(p, |s|)
    ensures p < 0 ==> |r| == Max(|s| + p, 0)
    ensures r == s[..|r|]
  {
    if p >= 0 then s[..Min(p, |s|)] else s[..Max(|s| + p, 0)]
  }

  /** One pass of the loop of `print_row` for field `i`: the last character of the
      line becomes the separator (for `i > 0`), the field is appended, and the line
      is cut or padded with spaces to column `p`. */
  function StepLine(line: string, i: nat, field: string, p: int): (r: string)
    ensures p >= 0 ==> |r| == p
    ensures p < 0 ==> |r| < |line| + 1 + |field|
  {
    var joined := (if i > 0 then PrefixTo(line, -1) + " " else line) + field;
    var cut := PrefixTo(joined, p);
    cut + Spaces(p - |cut|)
  }

  /** The line after the first `n` fields. */
  function LineAfter(fields: seq<string>, position: seq<int>, n: nat): string
    requires n <= |fields| && n <= |position|
  {
    if n == 0 then "" else StepLine(LineAfter(fields, position, n - 1), n - 1, fields[n - 1], position[n - 1])
  }

  /** The line `print_row(fields, position)` prints. */
  function Row(fields: seq<string>, position: seq<int>): string
    requires |fields| <= |position|
  {
    LineAfter(fields, position, |fields|)
  }

  /** `print_row(fields, position)`. */
  method PrintRow(fields: seq<string>, position: seq<int>) returns (r: Result<string, Error>)
    ensures r.Ok? <==> |fields| <= |position|
    ensures r.Ok? ==> r.value == Row(fields, position)
    ensures r.Ok? && |fields| > 0 && position[|fields| - 1] >= 0 ==> |r.value| == position[|fields| - 1]
  {
    var line := "";
    for i := 0 to |fields|
      invariant i <= |position|
      invariant line == LineAfter(fields, position, i)
    {
      if i > 0 {
        line := PrefixTo(line, -1) + " ";
      }
      line := line + fields[i];
      if i >= |position| {
        return Err(IndexError);
      }
      line := PrefixTo(line, position[i]);
      line := line + Spaces(position[i] - |line|);
    }
    return Ok(line);
  }

  /** Column positions that leave every column at least one character wide. */
  predicate Increasing(position: seq<int>, n: nat)
    requires n <= |position|
  {
    (n > 0 ==> position[0] >= 1) &&
    forall i :: 0 < i < n ==> position[i - 1] < position[i]
  }

  /** Where column `i` starts. */
  function ColStart(position: seq<int>, i: nat): int
    requires i < |position|
  {
    if i == 0 then 0 else position[i - 1]
  }

  /** `s` cut or padded with spaces to width `w`. */
  function FitTo(s: string, w: nat): (r: string)
    ensures |r| == w
  {
    if w <= |s| then s[..w] else s + Spaces(w - |s|)
  }

  /** The first `m` columns as the row should show them: each field fitted to one
      less than its column's width, followed by a space. */
  function Columns(fields: seq<string>, position: seq<int>, m: nat): string
    requires m <= |fields| && m <= |position| && Increasing(position, m)
  {
    if m == 0 then ""
    else Columns(fields, position, m - 1) + FitTo(fields[m - 1], position[m - 1] - ColStart(position, m - 1) - 1) + " "
  }

  lemma {:induction false} ColumnsLength(fields: seq<string>, position: seq<int>, m: nat)
    requires m <= |fields| && m <= |position| && Increasing(position, m)
    ensures |Columns(fields, position, m)| == if m == 0 then 0 else position[m - 1]
  {
    if m > 0 {
      ColumnsLength(fields, position, m - 1);
    }
  }

  /** Cutting a fitted field one shorter is fitting it to one less. */
  lemma FitToDropLast(s: string, w: nat)
    requires w >= 1
    ensures FitTo(s, w)[..w - 1] == FitTo(s, w - 1)
  {
  }

  /** Appending a field to a line that ends before column `p`, then cutting and
      padding to `p`, fits the field into what is left of the column. */
  lemma CutAndPad(base: string, field: string, p: int)
    requires p >= |base|
    ensures PrefixTo(base + field, p) + Spaces(p - |PrefixTo(base + field, p)|) == base + FitTo(field, p - |base|)
  {
    var w := p - |base|;
    if w <= |field| {
      assert PrefixTo(base + field, p) == base + field[..w];
    } else {
      assert PrefixTo(base + field, p) == base + field;
    }
  }

  /** One pass of the loop on a line whose last column holds a fitted field: that
      column loses its last character to the separator, and the new field is fitted
      into the next column. */
  lemma StepLineOnto(cols: string, f: string, w: nat, field: string, i: nat, p: int, d: nat)
    requires i > 0 && w >= 1 && d == p - |cols| - w
    ensures StepLine(cols + FitTo(f, w), i, field, p) == cols + FitTo(f, w - 1) + " " + FitTo(field, d)
  {
    var prev := cols + FitTo(f, w);
    FitToDropLast(f, w);
    assert PrefixTo(prev, -1) == cols + FitTo(f, w - 1);
    var base := cols + FitTo(f, w - 1) + " ";
    CutAndPad(base, field, p);
  }

  /** The first field alone is fitted to the first column. */
  lemma FirstColumn(field: string, p: int)
    requires p >= 1
    ensures StepLine("", 0, field, p) == FitTo(field, p)
  {
    CutAndPad("", field, p);
    assert "" + field == field;
  }

  /** A row of `n` fields as it should look: each field cut or padded to its own
      column, and the last character of every column but the last a space. */
  function LaidOut(fields: seq<string>, position: seq<int>, n: nat): string
    requires 1 <= n <= |fields| && n <= |position| && Increasing(position, n)
  {
    Columns(fields, position, n - 1) + FitTo(fields[n - 1], position[n - 1] - ColStart(position, n - 1))
  }

  /** Adding field `n - 1` to a row laid out in columns keeps it laid out. */
  lemma NextColumn(fields: seq<string>, position: seq<int>, n: nat, prev: string)
    requires 2 <= n <= |fields| && n <= |position| && Increasing(position, n)
    requires prev == LaidOut(fields, position, n - 1)
    ensures StepLine(prev, n - 1, fields[n - 1], position[n - 1]) == LaidOut(fields, position, n)
  {
    ColumnsLength(fields, position, n - 2);
    var cols := Columns(fields, position, n - 2);
    var w: nat := position[n - 2] - ColStart(position, n - 2);
    var d: nat := position[n - 1] - ColStart(position, n - 1);
    assert prev == cols + FitTo(fields[n - 2], w);
    StepLineOnto(cols, fields[n - 2], w, fields[n - 1], n - 1, position[n - 1], d);
    var done := Columns(fields, position, n - 1);
    assert done == cols + FitTo(fields[n - 2], w - 1) + " ";
    assert LaidOut(fields, position, n) == done + FitTo(fields[n - 1], d);
  }

  /** The layout of a printed row: with increasing positions, every field is cut or
      padded to its own column, the last character of every column but the last is a
      space, and no field spills into the next column. */
  lemma {:induction false} RowLayout(fields: seq<string>, position: seq<int>, n: nat)
    requires 1 <= n <= |fields| && n <= |position| && Increasing(position, n)
    ensures LineAfter(fields, position, n) == LaidOut(fields, position, n)
  {
    if n == 1 {
      FirstColumn(fields[0], position[0]);
    } else {
      assert Increasing(position, n - 1);
      RowLayout(fields, position, n - 1);
      NextColumn(fields, position, n, LineAfter(fields, position, n - 1));
    }
  }

  // ---------------------------------------------------------------------------
  // print_summary

  /** `line_length or 65`. */
  function LineLength(lineLength: Option<int>): (r: int)
    ensures r != 0
    ensures lineLength.Some? && lineLength.value != 0 ==> r == lineLength.value
    ensures lineLength.None? || lineLength.value == 0 ==> r == 65
  {
    if lineLength.None? || lineLength.value == 0 then 65 else lineLength.value
  }

  /** Python's `int()` of the quotient `a / d`: truncation toward zero. */
  function TruncDiv(a: int, d: nat): int
    requires d > 0
  {
    if a >= 0 then a / d else -((-a) / d)
  }

  /** `[int(L * p) for p in [.45, .75, 1.]]`. */
  function DefaultPositions(l: int): seq<int>
  {
    [TruncDiv(l * 45, 100), TruncDiv(l * 75, 100), l]
  }

  /** The positions `print_summary` hands to `print_row`: the default for None or an
      empty list; otherwise as given, scaled by the line length when the last one is at
      most 1. */
  function SummaryPositions(l: int, positions: Option<seq<int>>): (r: seq<int>)
    ensures |r| > 0
    ensures positions.None? || positions.value == [] ==> r == DefaultPositions(l)
    ensures positions.Some? && positions.value != [] && positions.value[|positions.value| - 1] > 1 ==>
      r == positions.value
    ensures positions.Some? && positions.value != [] && positions.value[|positions.value| - 1] <= 1 ==>
      |r| == |positions.value| && forall i :: 0 <= i < |r| ==> r[i] == l * positions.value[i]
  {
    if positions.None? || positions.value == [] then DefaultPositions(l)
    else
      var pos := positions.value;
      if pos[|pos| - 1] <= 1 then seq(|pos|, i requires 0 <= i < |pos| => l * pos[i]) else pos
  }

  /** For a line length of 3 or more the default columns are increasing and the last
      ends the line. */
  lemma DefaultPositionsIncreasing(l: int)
    requires l >= 3
    ensures Increasing(DefaultPositions(l), 3) && DefaultPositions(l)[2] == l
  {
    var a, b := (l * 45) / 100, (l * 75) / 100;
    assert a >= 1;
    assert b < l;
    assert a < b by {
      assert l * 75 == l * 45 + l * 30;
      if l == 3 {
      } else {
        assert l * 30 >= 100;
      }
    }
  }

  /** `'_' * L` and `'=' * L`. */
  function Ruler(c: char, l: int): (r: string)
    ensures |r| == Max(l, 0) && forall i :: 0 <= i < |r| ==> r[i] == c
  {
    seq(Max(l, 0), _ => c)
  }

  /** `to_display`. */
  const Header: seq<string> := ["Layer", "Output Shape", "Param #"]

  /** The fields `print_layer_summary` prints for a layer of class `className`: the
      second and third are fixed strings. */
  function LayerFields(className: string): seq<string>
  {
    [className, "output_shape", "layer.count_params"]
  }

  /** The ruler after layer `i` of `total`: `'='` after the last, `'_'` after the others. */
  function RuleChar(total: nat, i: nat): char
  {
    if i == total - 1 then '=' else '_'
  }

  /** The lines printed for the first `n` of `total` layers whose rows are `rows`:
      each row, then its ruler. */
  function LayerBlocks(rows: seq<string>, total: nat, l: int, n: nat): seq<string>
    requires n <= |rows|
  {
    if n == 0 then [] else LayerBlocks(rows, total, l, n - 1) + [rows[n - 1], Ruler(RuleChar(total, n - 1), l)]
  }

  lemma {:induction false} LayerBlocksLength(rows: seq<string>, total: nat, l: int, n: nat)
    requires n <= |rows|
    ensures |LayerBlocks(rows, total, l, n)| == 2 * n
  {
    if n > 0 {
      LayerBlocksLength(rows, total, l, n - 1);
    }
  }

  /** Layer `i`'s row and ruler are lines `2i` and `2i + 1` of the layer blocks. */
  lemma {:induction false} LayerBlockAt(rows: seq<string>, total: nat, l: int, n: nat, i: nat)
    requires i < n <= |rows|
    ensures |LayerBlocks(rows, total, l, n)| == 2 * n
    ensures LayerBlocks(rows, total, l, n)[2 * i] == rows[i]
    ensures LayerBlocks(rows, total, l, n)[2 * i + 1] == Ruler(RuleChar(total, i), l)
  {
    LayerBlocksLength(rows, total, l, n - 1);
    if i < n - 1 {
      LayerBlockAt(rows, total, l, n - 1, i);
    }
  }

  /** The rows `print_layer_summary` prints, one per layer. */
  function LayerRows(layers: seq<string>, pos: seq<int>): (rows: seq<string>)
    requires 3 <= |pos|
    ensures |rows| == |layers|
  {
    seq(|layers|, i requires 0 <= i < |layers| => Row(LayerFields(layers[i]), pos))
  }

  /** The loop of `print_summary` over the layers: `lines` are the lines it prints. */
  method PrintLayers(layers: seq<string>, pos: seq<int>, l: int) returns (lines: seq<string>)
    requires 3 <= |pos|
    ensures lines == LayerBlocks(LayerRows(layers, pos), |layers|, l, |layers|)
  {
    lines := [];
    for i := 0 to |layers|
      invariant lines == LayerBlocks(LayerRows(layers, pos), |layers|, l, i)
    {
      var row := PrintRow(LayerFields(layers[i]), pos);
      var rule := if i == |layers| - 1 then Ruler('=', l) else Ruler('_', l);
      lines := lines + [row.value, rule];
    }
  }

  /** The lines of `print_summary` for line length `l` and the positions `pos` it has
      settled on. `ok` is false when the header row fails for want of positions,
      after the first ruler was printed. */
  method PrintTable(layers: seq<string>, l: int, pos: seq<int>) returns (out: seq<string>, ok: bool)
    ensures ok <==> |pos| >= 3
    ensures !ok ==> out == [Ruler('_', l)]
    ensures ok ==> |out| == 3 + 2 * |layers|
    ensures ok ==> out[0] == Ruler('_', l) && out[1] == Row(Header, pos) && out[2] == Ruler('=', l)
    ensures ok ==> forall i :: 0 <= i < |layers| ==>
      out[3 + 2 * i] == Row(LayerFields(layers[i]), pos) &&
      out[4 + 2 * i] == Ruler(RuleChar(|layers|, i), l)
  {
    var header := PrintRow(Header, pos);
    if header.Err? {
      return [Ruler('_', l)], false;
    }
    var lines := PrintLayers(layers, pos, l);
    var head := [Ruler('_', l), header.value, Ruler('=', l)];
    ghost var rows := LayerRows(layers, pos);
    SummaryLayout(rows, l, head, lines);
    out, ok := head + lines, true;
    forall i | 0 <= i < |layers|
      ensures out[3 + 2 * i] == Row(LayerFields(layers[i]), pos)
    {
      assert out[3 + 2 * i] == rows[i];
    }
  }

  /** `print_summary(graph, line_length, positions)`: `layers` holds the class name of
      every layer of the graph, `out` the lines printed. `ok` is false when the header
      row fails for want of positions, after the first ruler was printed. */
  method PrintSummary(layers: seq<string>, lineLength: Option<int>, positions: Option<seq<int>>)
    returns (out: seq<string>, ok: bool)
    ensures ok <==> |SummaryPositions(LineLength(lineLength), positions)| >= 3
    ensures !ok ==> out == [Ruler('_', LineLength(lineLength))]
    ensures ok ==> |out| == 3 + 2 * |layers|
    ensures ok ==>
      var l, pos := LineLength(lineLength), SummaryPositions(LineLength(lineLength), positions);
      out[0] == Ruler('_', l) && out[1] == Row(Header, pos) && out[2] == Ruler('=', l)
    ensures ok ==>
      var l, pos := LineLength(lineLength), SummaryPositions(LineLength(lineLength), positions);
      forall i :: 0 <= i < |layers| ==>
        out[3 + 2 * i] == Row(LayerFields(layers[i]), pos) &&
        out[4 + 2 * i] == Ruler(RuleChar(|layers|, i), l)
  {
    var l := LineLength(lineLength);
    var pos := SummaryPositions(l, positions);
    out, ok := PrintTable(layers, l, pos);
  }

  /** Where each layer's row and ruler land among the printed lines, after the
      three header lines. */
  lemma SummaryLayout(rows: seq<string>, l: int, head: seq<string>, lines: seq<string>)
    requires |head| == 3 && lines == LayerBlocks(rows, |rows|, l, |rows|)
    ensures |head + lines| == 3 + 2 * |rows|
    ensures forall i :: 0 <= i < |rows| ==>
      (head + lines)[3 + 2 * i] == rows[i] && (head + lines)[4 + 2 * i] == Ruler(RuleChar(|rows|, i), l)
  {
    LayerBlocksLength(rows, |rows|, l, |rows|);
    forall i | 0 <= i < |rows|
      ensures (head + lines)[3 + 2 * i] == rows[i]
      ensures (head + lines)[4 + 2 * i] == Ruler(RuleChar(|rows|, i), l)
    {
      LayerBlockAt(rows, |rows|, l, |rows|, i);
      assert (head + lines)[3 + 2 * i] == lines[2 * i];
      assert (head + lines)[4 + 2 * i] == lines[2 * i + 1];
    }
  }

  lemma TwoColumns(fields: seq<string>, p: seq<int>)
    requires |fields| == 3 && 3 <= |p| && Increasing(p, 3)
    ensures Columns(fields, p, 2) == FitTo(fields[0], p[0] - 1) + " " + FitTo(fields[1], p[1] - p[0] - 1) + " "
  {
    var a, b := FitTo(fields[0], p[0] - 1), FitTo(fields[1], p[1] - p[0] - 1);
    assert Increasing(p, 1) && Increasing(p, 2);
    assert Columns(fields, p, 1) == Columns(fields, p, 0) + a + " ";
    assert Columns(fields, p, 0) + a + " " == a + " ";
    assert Columns(fields, p, 2) == Columns(fields, p, 1) + b + " ";
  }

  /** A row of three fields at increasing positions. */
  lemma ThreeColumnRow(fields: seq<string>, p: seq<int>)
    requires |fields| == 3 && 3 <= |p| && Increasing(p, 3)
    ensures Row(fields, p) ==
      FitTo(fields[0], p[0] - 1) + " " + FitTo(fields[1], p[1] - p[0] - 1) + " " + FitTo(fields[2], p[2] - p[1])
  {
    RowLayout(fields, p, 3);
    TwoColumns(fields, p);
  }

  /** With no positions given and a line length of 3 or more, every row of the
      summary is exactly one line wide and shows its three fields in their columns. */
  lemma DefaultSummaryRow(l: int, fields: seq<string>)
    requires l >= 3 && |fields| == 3
    ensures |Row(fields, SummaryPositions(l, None))| == l
    ensures Row(fields, SummaryPositions(l, None)) ==
      var p := SummaryPositions(l, None);
      FitTo(fields[0], p[0] - 1) + " " + FitTo(fields[1], p[1] - p[0] - 1) + " " + FitTo(fields[2], l - p[1])
  {
    var p := SummaryPositions(l, None);
    DefaultPositionsIncreasing(l);
    ThreeColumnRow(fields, p);
  }
}
