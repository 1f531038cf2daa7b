/**
 * The table analyser: how it turns a colour into hex text and components,
 * which merged cells it detects in a table, the merge calls it writes into the
 * replication code, the font properties it reports for a run (with their
 * defaults), the list of style names it prints, and the background and border
 * settings it reads from a cell's properties element.
 */
module TableAnalyzer {
  import opened Common
  import opened Numbers
  import opened Xml
  import opened Seqs

  // ------------------------------------------------------------------ colours

  /**
   * A colour as the analyser receives it: a sequence of three components
   * (python-docx's `RGBColor` is such a tuple) or a packed integer 0xRRGGBB.
   */
  datatype ColorValue = Triple(r: int, g: int, b: int) | Packed(n: int)

  /** Red, green and blue components. */
  datatype Components = Components(r: int, g: int, b: int)

  /** `rgb_to_hex`: `#RRGGBB` from the components, or `#` and six digits of the packed integer. */
  function RgbToHex(c: Option<ColorValue>): (hex: Option<string>)
    ensures hex.None? <==> c.None?
    ensures hex.Some? ==> |hex.value| > 0 && hex.value[0] == '#'
  {
    match c
    case None => None
    case Some(Triple(r, g, b)) => Some("#" + FormatHex(r, 2) + FormatHex(g, 2) + FormatHex(b, 2))
    case Some(Packed(n)) => Some("#" + FormatHex(n, 6))
  }

  /**
   * `rgb_color_to_components`; `None` stands for the triple `(None, None, None)`.
   * A packed integer is split by `>> 16 & 0xFF`, `>> 8 & 0xFF` and `& 0xFF`:
   * Python's shift floors and its mask keeps eight bits, which for every integer,
   * negative ones included, is Euclidean division and remainder.
   */
  function RgbColorToComponents(c: Option<ColorValue>): (rgb: Option<Components>)
    ensures rgb.None? <==> c.None?
    ensures c.Some? && c.value.Triple? ==> rgb.value == Components(c.value.r, c.value.g, c.value.b)
    ensures c.Some? && c.value.Packed? ==>
      0 <= rgb.value.r < 256 && 0 <= rgb.value.g < 256 && 0 <= rgb.value.b < 256
  {
    match c
    case None => None
    case Some(Triple(r, g, b)) => Some(Components(r, g, b))
    case Some(Packed(n)) => Some(Components((n / 65536) % 256, (n / 256) % 256, n % 256))
  }

  predicate InByte(x: int) { 0 <= x < 256 }

  lemma Pow16Values()
    ensures Pow16(2) == 256 && Pow16(4) == 65536 && Pow16(6) == 0x100_0000
  {
    assert Pow16(1) == 16;
    assert Pow16(2) == 256;
    assert Pow16(3) == 4096;
    assert Pow16(4) == 65536;
    assert Pow16(5) == 0x10_0000;
  }

  /** Splitting a 24-bit integer into components and packing them again gives the integer back. */
  lemma PackedComponentsRoundTrip(n: int)
    requires 0 <= n < 0x100_0000
    ensures var c := RgbColorToComponents(Some(Packed(n))).value;
      c.r * 65536 + c.g * 256 + c.b == n
  {
    DivModSplit(n, 256, 256);
    assert 256 * 256 == 65536;
    var q := n / 65536;
    assert q < 256;
    DivModUnique(q, 256, 0, q);
    assert n == q * 65536 + n % 65536;
  }

  /** Packing three components and splitting the integer gives the components back. */
  lemma ComponentsPackRoundTrip(r: int, g: int, b: int)
    requires InByte(r) && InByte(g) && InByte(b)
    ensures RgbColorToComponents(Some(Packed(r * 65536 + g * 256 + b))) == Some(Components(r, g, b))
  {
    var x := r * 65536 + g * 256 + b;
    assert (r * 256 + g) * 256 == r * 65536 + g * 256;
    DivModUnique(x, 256, r * 256 + g, b);
    DivModUnique(r * 256 + g, 256, r, g);
    assert g * 256 <= 255 * 256;
    DivModUnique(x, 65536, r, g * 256 + b);
    DivModUnique(r, 256, 0, r);
  }

  /** Two upper-case digits of a component in 0..255, reading back as that component. */
  lemma ByteHex(x: int)
    requires InByte(x)
    ensures |FormatHex(x, 2)| == 2 && AllUpperHex(FormatHex(x, 2)) && HexValue(FormatHex(x, 2)) == x
  {
    Pow16Values();
    FormatHexFixed(x, 2);
    FormatHexNonNegative(x, 2);
  }

  /**
   * The hex text of three components in 0..255 is `#` and six upper-case digits,
   * two per component, which read back as the components.
   */
  lemma TripleHex(r: int, g: int, b: int)
    requires InByte(r) && InByte(g) && InByte(b)
    ensures var s := RgbToHex(Some(Triple(r, g, b))).value;
      && |s| == 7 && s[0] == '#' && AllUpperHex(s[1..])
      && HexValue(s[1..3]) == r && HexValue(s[3..5]) == g && HexValue(s[5..7]) == b
  {
    var s := RgbToHex(Some(Triple(r, g, b))).value;
    var hr, hg, hb := FormatHex(r, 2), FormatHex(g, 2), FormatHex(b, 2);
    ByteHex(r);
    ByteHex(g);
    ByteHex(b);
    assert s == "#" + hr + hg + hb;
    assert s[1..3] == hr && s[3..5] == hg && s[5..7] == hb;
    forall i | 0 <= i < 6 ensures IsUpperHex(s[1..][i]) {
      if i < 2 { assert s[1..][i] == hr[i]; }
      else if i < 4 { assert s[1..][i] == hg[i - 2]; }
      else { assert s[1..][i] == hb[i - 4]; }
    }
  }

  /** The hex text of a 24-bit packed integer is `#` and six upper-case digits reading back as it. */
  lemma PackedHex(n: int)
    requires 0 <= n < 0x100_0000
    ensures var s := RgbToHex(Some(Packed(n))).value;
      |s| == 7 && s[0] == '#' && AllUpperHex(s[1..]) && HexValue(s[1..]) == n
  {
    var s := RgbToHex(Some(Packed(n))).value;
    Pow16Values();
    FormatHexFixed(n, 6);
    FormatHexNonNegative(n, 6);
    assert s[1..] == FormatHex(n, 6);
  }

  /**
   * The two ways of writing a colour agree: a 24-bit integer gives the same hex
   * text as the triple of components `rgb_color_to_components` splits it into.
   */
  lemma HexPathsAgree(n: int)
    requires 0 <= n < 0x100_0000
    ensures var c := RgbColorToComponents(Some(Packed(n))).value;
      RgbToHex(Some(Packed(n))) == RgbToHex(Some(Triple(c.r, c.g, c.b)))
  {
    var c := RgbColorToComponents(Some(Packed(n))).value;
    SplitComponents(n);
    SixDigits(n);
    Pow16Values();
    FormatHexFixed(c.r, 2);
    FormatHexFixed(c.g, 2);
    FormatHexFixed(c.b, 2);
    var hr, hg, hb := FormatHex(c.r, 2), FormatHex(c.g, 2), FormatHex(c.b, 2);
    assert FormatHex(n, 6) == hr + hg + hb;
    assert RgbToHex(Some(Triple(c.r, c.g, c.b))).value == "#" + hr + hg + hb;
    assert "#" + (hr + hg + hb) == "#" + hr + hg + hb;
  }

  /** Six hex digits of a 24-bit integer are two digits for each of its three bytes. */
  lemma SixDigits(n: int)
    requires 0 <= n < 0x100_0000
    ensures FormatHex(n, 6) == FixedHex(n / 256 / 256, 2) + FixedHex((n / 256) % 256, 2) + FixedHex(n % 256, 2)
  {
    Pow16Values();
    FormatHexFixed(n, 6);
    FixedHexSplit(n, 4, 2);
    FixedHexSplit(n / 256, 2, 2);
  }

  lemma SplitComponents(n: int)
    requires 0 <= n < 0x100_0000
    ensures var c := RgbColorToComponents(Some(Packed(n))).value;
      c.r == n / 256 / 256 && c.g == (n / 256) % 256 && c.b == n % 256
  {
    DivModSplit(n, 256, 256);
    assert 256 * 256 == 65536;
    var q := n / 65536;
    DivModUnique(q, 256, 0, q);
  }

  // ------------------------------------------------------------ merged cells

  /** Python's `str.isspace` for one character. */
  predicate IsSpace(c: char)
  {
    || c == ' ' || '\U{9}' <= c <= '\U{D}' || '\U{1C}' <= c <= '\U{1F}'
    || c == '\U{85}' || c == '\U{A0}' || c == '\U{1680}' || '\U{2000}' <= c <= '\U{200A}'
    || c == '\U{2028}' || c == '\U{2029}' || c == '\U{202F}' || c == '\U{205F}' || c == '\U{3000}'
  }

  /** The number of whitespace characters `s` starts with. */
  function LeadingSpaces(s: string): (k: nat)
    ensures k <= |s| && (k == |s| || !IsSpace(s[k]))
    ensures forall i :: 0 <= i < k ==> IsSpace(s[i])
  {
    if s == [] || !IsSpace(s[0]) then 0 else 1 + LeadingSpaces(s[1..])
  }

  /** The number of whitespace characters `s` ends with. */
  function TrailingSpaces(s: string): (k: nat)
    ensures k <= |s| && (k == |s| || !IsSpace(s[|s| - 1 - k]))
    ensures forall i :: |s| - k <= i < |s| ==> IsSpace(s[i])
  {
    if s == [] || !IsSpace(s[|s| - 1]) then 0 else 1 + TrailingSpaces(s[..|s| - 1])
  }

  /** `s.strip()`: `s` without its leading and trailing whitespace. */
  function Strip(s: string): (r: string)
    ensures r == [] || (!IsSpace(r[0]) && !IsSpace(r[|r| - 1]))
  {
    var t := s[LeadingSpaces(s)..];
    t[..|t| - TrailingSpaces(t)]
  }

  /** Stripping removes whitespace only: `s` is the stripped text with whitespace around it. */
  lemma StripRemovesSpaceOnly(s: string)
    ensures var a, r := LeadingSpaces(s), Strip(s);
      && a + |r| <= |s| && s[a..a + |r|] == r
      && forall i :: 0 <= i < |s| && !(a <= i < a + |r|) ==> IsSpace(s[i])
  {
    var a := LeadingSpaces(s);
    StripTrailing(s, s[a..]);
  }

  /** The whitespace `Strip` cuts from the end of `s[a..]` is whitespace of `s` itself. */
  lemma StripTrailing(s: string, t: string)
    requires t == s[LeadingSpaces(s)..]
    ensures forall i :: LeadingSpaces(s) + |t| - TrailingSpaces(t) <= i < |s| ==> IsSpace(s[i])
  {
    var a := LeadingSpaces(s);
    forall i | a + |t| - TrailingSpaces(t) <= i < |s| ensures IsSpace(s[i]) {
      assert s[i] == t[i - a];
    }
  }

  /** A table cell as the analyser reads it: its text and its `w:tcPr` properties element, if any. */
  datatype TableCell = TableCell(text: string, tcPr: Option<Element>)

  /** One record of `check_merged_cells`, at row `row` and column `col` of the table. */
  datatype MergeEntry =
    | ColSpan(row: nat, col: nat, span: int, text: string)
    | RowSpanStart(row: nat, col: nat, text: string)
    | RowSpanContinue(row: nat, col: nat)

  /** What a cell's `w:vMerge` element records: a start on `restart`, a continuation without `w:val`. */
  function VMergeEntries(row: nat, col: nat, text: string, pr: Element): seq<MergeEntry>
  {
    match Find(pr, "w:vMerge")
    case None => []
    case Some(vm) =>
      if "w:val" !in vm.attrs then [RowSpanContinue(row, col)]
      else if vm.attrs["w:val"] == "restart" then [RowSpanStart(row, col, Strip(text))]
      else []
  }

  /** What a `w:gridSpan` element records: a span above one; `None` when `int()` raises on its value. */
  function GridSpanEntries(row: nat, col: nat, text: string, gs: Element): Option<seq<MergeEntry>>
  {
    match ParseInt(Get(gs, "w:val", "1"))
    case None => None
    case Some(span) => Some(if span > 1 then [ColSpan(row, col, span, Strip(text))] else [])
  }

  /**
   * The records of a cell with properties `pr`. A `w:gridSpan` whose value
   * `int()` refuses raises, and the handler moves on to the next cell: that
   * cell records nothing, not even its `w:vMerge`.
   */
  function PropertiesEntries(row: nat, col: nat, text: string, pr: Element): seq<MergeEntry>
  {
    match Find(pr, "w:gridSpan")
    case None => VMergeEntries(row, col, text, pr)
    case Some(gs) =>
      match GridSpanEntries(row, col, text, gs)
      case None => []
      case Some(spans) => spans + VMergeEntries(row, col, text, pr)
  }

  /** The records one cell contributes; a cell without properties records nothing. */
  function CellEntries(row: nat, col: nat, cell: TableCell): seq<MergeEntry>
  {
    match cell.tcPr
    case None => []
    case Some(pr) => PropertiesEntries(row, col, cell.text, pr)
  }

  /** The records of the cells of row `row`, left to right. */
  function RowEntries(row: nat, cells: seq<TableCell>): seq<MergeEntry>
  {
    if cells == [] then []
    else RowEntries(row, cells[..|cells| - 1]) + CellEntries(row, |cells| - 1, cells[|cells| - 1])
  }

  /** The records of a whole table, row by row. */
  function GridEntries(rows: seq<seq<TableCell>>): seq<MergeEntry>
  {
    if rows == [] then []
    else GridEntries(rows[..|rows| - 1]) + RowEntries(|rows| - 1, rows[|rows| - 1])
  }

  /** `check_merged_cells`: every row, every cell, appending what its properties declare. */
  method CheckMergedCells(rows: seq<seq<TableCell>>) returns (mergedInfo: seq<MergeEntry>)
    ensures mergedInfo == GridEntries(rows)
  {
    mergedInfo := [];
    for r := 0 to |rows|
      invariant mergedInfo == GridEntries(rows[..r])
    {
      var cells := rows[r];
      ghost var done := mergedInfo;
      for c := 0 to |cells|
        invariant mergedInfo == done + RowEntries(r, cells[..c])
      {
        mergedInfo := CheckCell(mergedInfo, r, c, cells[c]);
        RowEntriesSnoc(r, cells, c);
        AppendAssociates(done, RowEntries(r, cells[..c]), CellEntries(r, c, cells[c]));
      }
      assert cells[..|cells|] == cells;
      GridEntriesSnoc(rows, r);
    }
    assert rows[..|rows|] == rows;
  }

  /**
   * One pass of the inner loop of `check_merged_cells`, the body of its `try`:
   * `mergedInfo` with the records of the cell at row `r` and column `c` appended.
   */
  method CheckCell(mergedInfo: seq<MergeEntry>, r: nat, c: nat, cell: TableCell) returns (updated: seq<MergeEntry>)
    ensures updated == mergedInfo + CellEntries(r, c, cell)
  {
    updated := mergedInfo;
    if cell.tcPr.Some? {
      var pr := cell.tcPr.value;
      var raised := false;
      var gridSpan := Find(pr, "w:gridSpan");
      if gridSpan.Some? {
        var spanValue := ParseInt(Get(gridSpan.value, "w:val", "1"));
        if spanValue.None? {
          raised := true;
        } else if spanValue.value > 1 {
          updated := updated + [ColSpan(r, c, spanValue.value, Strip(cell.text))];
        }
        assert raised <==> GridSpanEntries(r, c, cell.text, gridSpan.value).None?;
        assert !raised ==> updated == mergedInfo + GridSpanEntries(r, c, cell.text, gridSpan.value).value;
      }
      ghost var middle := updated;
      if !raised {
        var vMerge := Find(pr, "w:vMerge");
        if vMerge.Some? {
          if "w:val" !in vMerge.value.attrs {
            updated := updated + [RowSpanContinue(r, c)];
          } else if vMerge.value.attrs["w:val"] == "restart" {
            updated := updated + [RowSpanStart(r, c, Strip(cell.text))];
          }
        }
        assert updated == middle + VMergeEntries(r, c, cell.text, pr);
      }
    }
  }

  lemma RowEntriesSnoc(row: nat, cells: seq<TableCell>, c: nat)
    requires c < |cells|
    ensures RowEntries(row, cells[..c + 1]) == RowEntries(row, cells[..c]) + CellEntries(row, c, cells[c])
  {
    assert cells[..c + 1][..c] == cells[..c];
  }

  lemma GridEntriesSnoc(rows: seq<seq<TableCell>>, r: nat)
    requires r < |rows|
    ensures GridEntries(rows[..r + 1]) == GridEntries(rows[..r]) + RowEntries(r, rows[r])
  {
    assert rows[..r + 1][..r] == rows[..r];
    assert rows[r][..|rows[r]|] == rows[r];
  }

  /** Every record of a cell is at that cell, and a cell records at most a span and a vertical merge. */
  lemma CellEntriesAt(row: nat, col: nat, cell: TableCell)
    ensures |CellEntries(row, col, cell)| <= 2
    ensures forall e :: e in CellEntries(row, col, cell) ==> e.row == row && e.col == col
  {
    if cell.tcPr.Some? {
      var pr := cell.tcPr.value;
      var v := VMergeEntries(row, col, cell.text, pr);
      assert |v| <= 1 && forall e :: e in v ==> e.row == row && e.col == col;
      var gs := Find(pr, "w:gridSpan");
      if gs.Some? && GridSpanEntries(row, col, cell.text, gs.value).Some? {
        var spans := GridSpanEntries(row, col, cell.text, gs.value).value;
        assert |spans| <= 1 && forall e :: e in spans ==> e.row == row && e.col == col;
        assert CellEntries(row, col, cell) == spans + v;
      }
    }
  }

  /** Whether `int()` raises on the value of the properties' `w:gridSpan`. */
  predicate GridSpanRaises(pr: Element)
  {
    Find(pr, "w:gridSpan").Some? && ParseInt(Get(Find(pr, "w:gridSpan").value, "w:val", "1")).None?
  }

  /** A span record is made exactly for a `w:gridSpan` whose value `int()` reads as more than one. */
  lemma ColSpanRecorded(row: nat, col: nat, cell: TableCell, span: int, text: string)
    ensures ColSpan(row, col, span, text) in CellEntries(row, col, cell) <==>
      && cell.tcPr.Some?
      && Find(cell.tcPr.value, "w:gridSpan").Some?
      && ParseInt(Get(Find(cell.tcPr.value, "w:gridSpan").value, "w:val", "1")) == Some(span)
      && span > 1 && text == Strip(cell.text)
  {
    if cell.tcPr.Some? {
      var pr := cell.tcPr.value;
      assert forall x :: x in VMergeEntries(row, col, cell.text, pr) ==> !x.ColSpan?;
    }
  }

  /** What `w:vMerge` records: a continuation without `w:val`, a start for `w:val="restart"`. */
  lemma VMergeMembership(row: nat, col: nat, text: string, pr: Element, start: string)
    ensures RowSpanContinue(row, col) in VMergeEntries(row, col, text, pr) <==>
      Find(pr, "w:vMerge").Some? && "w:val" !in Find(pr, "w:vMerge").value.attrs
    ensures RowSpanStart(row, col, start) in VMergeEntries(row, col, text, pr) <==>
      Find(pr, "w:vMerge").Some? && Get(Find(pr, "w:vMerge").value, "w:val", "") == "restart" && start == Strip(text)
  {
  }

  /** A record other than a span is made by the properties iff `w:gridSpan` did not raise and `w:vMerge` makes it. */
  lemma PropertiesKeepVMerge(row: nat, col: nat, text: string, pr: Element, e: MergeEntry)
    requires !e.ColSpan?
    ensures e in PropertiesEntries(row, col, text, pr) <==> !GridSpanRaises(pr) && e in VMergeEntries(row, col, text, pr)
  {
    var gs := Find(pr, "w:gridSpan");
    if gs.Some? && GridSpanEntries(row, col, text, gs.value).Some? {
      assert forall x :: x in GridSpanEntries(row, col, text, gs.value).value ==> x.ColSpan?;
    }
  }

  /** A vertical-merge start is recorded for `w:vMerge w:val="restart"`, unless the span raised first. */
  lemma RowSpanStartRecorded(row: nat, col: nat, cell: TableCell, text: string)
    ensures RowSpanStart(row, col, text) in CellEntries(row, col, cell) <==>
      && cell.tcPr.Some? && !GridSpanRaises(cell.tcPr.value)
      && Find(cell.tcPr.value, "w:vMerge").Some?
      && Get(Find(cell.tcPr.value, "w:vMerge").value, "w:val", "") == "restart"
      && text == Strip(cell.text)
  {
    if cell.tcPr.Some? {
      PropertiesKeepVMerge(row, col, cell.text, cell.tcPr.value, RowSpanStart(row, col, text));
      VMergeMembership(row, col, cell.text, cell.tcPr.value, text);
    }
  }

  /** A continuation is recorded for a `w:vMerge` without `w:val`, unless the span raised first. */
  lemma RowSpanContinueRecorded(row: nat, col: nat, cell: TableCell)
    ensures RowSpanContinue(row, col) in CellEntries(row, col, cell) <==>
      && cell.tcPr.Some? && !GridSpanRaises(cell.tcPr.value)
      && Find(cell.tcPr.value, "w:vMerge").Some?
      && "w:val" !in Find(cell.tcPr.value, "w:vMerge").value.attrs
  {
    if cell.tcPr.Some? {
      PropertiesKeepVMerge(row, col, cell.text, cell.tcPr.value, RowSpanContinue(row, col));
      VMergeMembership(row, col, cell.text, cell.tcPr.value, "");
    }
  }

  /** The records of a row are the records of its cells, each at its own column. */
  lemma {:induction false} RowMembership(row: nat, cells: seq<TableCell>)
    ensures forall e :: e in RowEntries(row, cells) <==>
      e.row == row && e.col < |cells| && e in CellEntries(row, e.col, cells[e.col])
  {
    if cells != [] {
      var n := |cells| - 1;
      var init := cells[..n];
      RowMembership(row, init);
      CellEntriesAt(row, n, cells[n]);
      forall e ensures e in RowEntries(row, cells) <==>
        e.row == row && e.col < |cells| && e in CellEntries(row, e.col, cells[e.col])
      {
        if e.col < n {
          assert init[e.col] == cells[e.col];
        }
      }
    }
  }

  /** The records of a table are the records of its cells, each at its own row and column. */
  lemma {:induction false} GridMembership(rows: seq<seq<TableCell>>)
    ensures forall e :: e in GridEntries(rows) <==>
      e.row < |rows| && e.col < |rows[e.row]| && e in CellEntries(e.row, e.col, rows[e.row][e.col])
  {
    if rows != [] {
      var n := |rows| - 1;
      var init := rows[..n];
      GridMembership(init);
      RowMembership(n, rows[n]);
      forall e ensures e in GridEntries(rows) <==>
        e.row < |rows| && e.col < |rows[e.row]| && e in CellEntries(e.row, e.col, rows[e.row][e.col])
      {
        if e.row < n {
          assert init[e.row] == rows[e.row];
        }
      }
    }
  }

  /** `a` is at an earlier row than `b`, or at the same row and not to its right. */
  predicate Before(a: MergeEntry, b: MergeEntry)
  {
    a.row < b.row || (a.row == b.row && a.col <= b.col)
  }

  predicate RowMajor(s: seq<MergeEntry>)
  {
    forall i, j :: 0 <= i < j < |s| ==> Before(s[i], s[j])
  }

  lemma RowMajorAppend(a: seq<MergeEntry>, b: seq<MergeEntry>)
    requires RowMajor(a) && RowMajor(b)
    requires forall x, y :: x in a && y in b ==> Before(x, y)
    ensures RowMajor(a + b)
  {
    var s := a + b;
    forall i, j | 0 <= i < j < |s| ensures Before(s[i], s[j]) {
      if j < |a| {
        assert s[i] == a[i] && s[j] == a[j];
      } else if i >= |a| {
        assert s[i] == b[i - |a|] && s[j] == b[j - |a|];
      } else {
        assert s[i] in a && s[j] in b;
      }
    }
  }

  lemma {:induction false} RowEntriesOrdered(row: nat, cells: seq<TableCell>)
    ensures RowMajor(RowEntries(row, cells))
  {
    if cells != [] {
      var n := |cells| - 1;
      RowEntriesOrdered(row, cells[..n]);
      RowMembership(row, cells[..n]);
      CellEntriesAt(row, n, cells[n]);
      RowMajorAppend(RowEntries(row, cells[..n]), CellEntries(row, n, cells[n]));
    }
  }

  /** `check_merged_cells` lists its records in row-major order: by row, then by column. */
  lemma {:induction false} GridEntriesOrdered(rows: seq<seq<TableCell>>)
    ensures RowMajor(GridEntries(rows))
  {
    if rows != [] {
      var n := |rows| - 1;
      GridEntriesOrdered(rows[..n]);
      GridMembership(rows[..n]);
      RowEntriesOrdered(n, rows[n]);
      RowMembership(n, rows[n]);
      RowMajorAppend(GridEntries(rows[..n]), RowEntries(n, rows[n]));
    }
  }

  // -------------------------------------------------------------- merge code

  predicate IsColSpan(e: MergeEntry) { e.ColSpan? }

  /** The last column a span's merge reaches: the span covers `span` columns from `col`. */
  function MergeEndColumn(e: MergeEntry): int
    requires e.ColSpan?
  {
    e.col + e.span - 1
  }

  /** The replication code's merge call for one span record. */
  function MergeLine(e: MergeEntry): string
    requires e.ColSpan?
  {
    "table.rows[" + ShowInt(e.row) + "].cells[" + ShowInt(e.col) + "].merge(table.rows["
      + ShowInt(e.row) + "].cells[" + ShowInt(MergeEndColumn(e)) + "])\n"
  }

  /** The merge calls of `entries`: one per span record, nothing for a vertical-merge record. */
  function MergeLines(entries: seq<MergeEntry>): string
  {
    if entries == [] then ""
    else (if entries[0].ColSpan? then MergeLine(entries[0]) else "") + MergeLines(entries[1..])
  }

  const MergeHeader: string := "\n# Merge cells\n"

  /** The merge section of the replication code: nothing when no record was found. */
  function MergeCode(entries: seq<MergeEntry>): (code: string)
    ensures code == "" <==> entries == []
  {
    if entries == [] then "" else MergeHeader + MergeLines(entries)
  }

  /** The merged-cells step of `generate_replication_code`: `code` with the merge section appended. */
  method AppendMergeCode(code: string, rows: seq<seq<TableCell>>) returns (result: string)
    ensures result == code + MergeCode(GridEntries(rows))
  {
    var mergedCells := CheckMergedCells(rows);
    result := WriteMergeCode(code, mergedCells);
  }

  /** The loop of the merged-cells step: the header, then one call per span record. */
  method WriteMergeCode(code: string, mergedCells: seq<MergeEntry>) returns (result: string)
    ensures result == code + MergeCode(mergedCells)
  {
    result := code;
    if |mergedCells| > 0 {
      result := result + MergeHeader;
      ghost var start := result;
      assert MergeLines(mergedCells[..0]) == [];
      for i := 0 to |mergedCells|
        invariant result == start + MergeLines(mergedCells[..i])
      {
        var merge := mergedCells[i];
        ghost var before := result;
        if merge.ColSpan? {
          var row, col, span := merge.row, merge.col, merge.span;
          var endCol := col + span - 1;
          var line := "table.rows[" + ShowInt(row) + "].cells[" + ShowInt(col) + "].merge(table.rows["
            + ShowInt(row) + "].cells[" + ShowInt(endCol) + "])\n";
          assert line == MergeLine(merge);
          result := result + line;
        }
        assert result == before + (if merge.ColSpan? then MergeLine(merge) else "");
        MergeLinesSnoc(mergedCells, i);
        AppendAssociates(start, MergeLines(mergedCells[..i]), if merge.ColSpan? then MergeLine(merge) else "");
      }
      assert mergedCells[..|mergedCells|] == mergedCells;
      AppendAssociates(code, MergeHeader, MergeLines(mergedCells));
    }
  }

  lemma {:induction false} MergeLinesAppend(a: seq<MergeEntry>, b: seq<MergeEntry>)
    ensures MergeLines(a + b) == MergeLines(a) + MergeLines(b)
  {
    if a != [] {
      assert (a + b)[1..] == a[1..] + b;
      MergeLinesAppend(a[1..], b);
    } else {
      assert a + b == b;
    }
  }

  lemma MergeLinesSnoc(s: seq<MergeEntry>, i: nat)
    requires i < |s|
    ensures MergeLines(s[..i + 1]) == MergeLines(s[..i]) + (if s[i].ColSpan? then MergeLine(s[i]) else "")
  {
    assert s[..i + 1] == s[..i] + [s[i]];
    MergeLinesAppend(s[..i], [s[i]]);
  }

  /** Vertical-merge records add no merge call: the calls are those of the span records alone. */
  lemma {:induction false} MergeLinesSpansOnly(entries: seq<MergeEntry>)
    ensures MergeLines(entries) == MergeLines(Filter(IsColSpan, entries))
  {
    if entries != [] {
      MergeLinesSpansOnly(entries[1..]);
      var rest := Filter(IsColSpan, entries[1..]);
      if entries[0].ColSpan? {
        assert Filter(IsColSpan, entries) == [entries[0]] + rest;
        assert ([entries[0]] + rest)[1..] == rest;
      } else {
        assert Filter(IsColSpan, entries) == rest;
      }
    }
  }

  /**
   * A table whose only records are vertical merges still gets the merge header,
   * with no call under it.
   */
  lemma HeaderWithoutCalls(entries: seq<MergeEntry>)
    requires entries != [] && forall i :: 0 <= i < |entries| ==> !entries[i].ColSpan?
    ensures MergeCode(entries) == MergeHeader
  {
    MergeLinesSpansOnly(entries);
    FilterAllOrNone(IsColSpan, entries);
  }

  /**
   * Every merge call the analyser writes for a table joins at least two cells of
   * one row: it ends right of where it starts, `span` columns in all.
   */
  lemma MergesJoinTwoOrMore(rows: seq<seq<TableCell>>)
    ensures forall e :: e in GridEntries(rows) && e.ColSpan? ==>
      MergeEndColumn(e) > e.col && MergeEndColumn(e) - e.col + 1 == e.span
  {
    GridMembership(rows);
    forall e | e in GridEntries(rows) && e.ColSpan?
      ensures MergeEndColumn(e) > e.col
    {
      ColSpanRecorded(e.row, e.col, rows[e.row][e.col], e.span, e.text);
    }
  }

  // ------------------------------------------------------------------- fonts

  /**
   * The font properties of a run as python-docx reports them, `None` for a
   * property the run does not set. `size` is a length in English Metric Units
   * (914400 to the inch, 12700 to the point), as python-docx's `Length` holds it.
   */
  datatype RunFont = RunFont(
    name: Option<string>, size: Option<int>, color: Option<ColorValue>,
    bold: Option<bool>, italic: Option<bool>, underline: Option<bool>,
    smallCaps: Option<bool>, allCaps: Option<bool>, strike: Option<bool>,
    subscript: Option<bool>, superscript: Option<bool>)

  /**
   * What `get_font_info` reports. `sizePoints` None stands for the text
   * "Default (typically 11pt)", `components` None for `(None, None, None)`;
   * `sizeLength` is the run's own size value (the `size_inches` entry).
   */
  datatype FontInfo = FontInfo(
    name: string, sizePoints: Option<real>, sizeLength: Option<int>,
    color: string, components: Option<Components>,
    bold: bool, italic: bool, underline: bool, smallCaps: bool, allCaps: bool,
    strike: bool, subscript: bool, superscript: bool)

  const DefaultFontName: string := "Default (typically Calibri)"
  const DefaultColorText: string := "Default (typically black)"

  /** The point value the analyser reports for a size, as written: `round(size * 72, 1)` of an integer. */
  function SizePointsAsWritten(size: int): int
  {
    size * 72
  }

  /** The point size of a length in English Metric Units. */
  function EmuToPoints(size: int): real
  {
    size as real / 12700.0
  }

  /** A 12-point font reads as 10972800 points as written, and as 12 points once converted from its units. */
  lemma TwelvePointSize()
    ensures SizePointsAsWritten(152400) == 10972800
    ensures EmuToPoints(152400) == 12.0
  {
  }

  /** Every whole and half point size of a font reads back as that size. */
  lemma HalfPointSizes(h: int)
    ensures EmuToPoints(h * 6350) == h as real / 2.0
    ensures EmuToPoints(h * 12700) == h as real
  {
  }

  /** Python's truth value of a colour: a triple is always true, a packed integer when it is not zero. */
  predicate ColorSet(c: Option<ColorValue>)
  {
    c.Some? && (c.value.Triple? || c.value.n != 0)
  }

  /** The font information of a run, each property falling back to its default when unset. */
  function FontInfoOf(f: RunFont): FontInfo
  {
    var sized := f.size.Some? && f.size.value != 0;
    FontInfo(
      if f.name.Some? && f.name.value != "" then f.name.value else DefaultFontName,
      if sized then Some(EmuToPoints(f.size.value)) else None,
      if sized then f.size else None,
      if ColorSet(f.color) then RgbToHex(f.color).value else DefaultColorText,
      if ColorSet(f.color) then RgbColorToComponents(f.color) else None,
      f.bold.GetOr(false), f.italic.GetOr(false), f.underline.GetOr(false),
      f.smallCaps.GetOr(false), f.allCaps.GetOr(false), f.strike.GetOr(false),
      f.subscript.GetOr(false), f.superscript.GetOr(false))
  }

  /** `get_font_info`: the report filled in property by property. */
  method GetFontInfo(f: RunFont) returns (info: FontInfo)
    ensures info == FontInfoOf(f)
  {
    var name := DefaultFontName;
    if f.name.Some? && f.name.value != "" {
      name := f.name.value;
    }
    var sizePoints: Option<real> := None;
    var sizeLength: Option<int> := None;
    if f.size.Some? && f.size.value != 0 {
      sizePoints := Some(EmuToPoints(f.size.value));
      sizeLength := f.size;
    }
    var color := DefaultColorText;
    var components: Option<Components> := None;
    if ColorSet(f.color) {
      color := RgbToHex(f.color).value;
      components := RgbColorToComponents(f.color);
    }
    info := FontInfo(name, sizePoints, sizeLength, color, components,
      f.bold.GetOr(false),
      f.italic.GetOr(false),
      f.underline.GetOr(false),
      f.smallCaps.GetOr(false),
      f.allCaps.GetOr(false),
      f.strike.GetOr(false),
      f.subscript.GetOr(false),
      f.superscript.GetOr(false));
    ghost var spec := FontInfoOf(f);
    assert name == spec.name && sizePoints == spec.sizePoints && sizeLength == spec.sizeLength;
    assert color == spec.color && components == spec.components;
  }

  /** The eight on/off properties of a run, in the order the analyser reports them. */
  function RunFlags(f: RunFont): seq<Option<bool>>
  {
    [f.bold, f.italic, f.underline, f.smallCaps, f.allCaps, f.strike, f.subscript, f.superscript]
  }

  /** The same eight properties as reported. */
  function StyleFlags(info: FontInfo): (flags: seq<bool>)
    ensures |flags| == 8
  {
    [info.bold, info.italic, info.underline, info.smallCaps, info.allCaps, info.strike, info.subscript, info.superscript]
  }

  /** An on/off property is reported on exactly when the run sets it on; unset reports off. */
  lemma FlagsDefaultOff(f: RunFont)
    ensures forall k :: 0 <= k < 8 ==> (StyleFlags(FontInfoOf(f))[k] <==> RunFlags(f)[k] == Some(true))
  {
  }

  /** The name, size and colour are the run's own when set (a colour when true), and the defaults otherwise. */
  lemma FontInfoDefaults(f: RunFont)
    ensures var info := FontInfoOf(f);
      && (info.name == DefaultFontName <==> f.name.None? || f.name.value in {"", DefaultFontName})
      && (info.sizePoints.None? <==> f.size.None? || f.size.value == 0)
      && (info.sizePoints.Some? ==> info.sizePoints.value == EmuToPoints(f.size.value) && info.sizeLength == f.size)
      && (info.color == DefaultColorText <==> !ColorSet(f.color))
      && (info.components.None? <==> !ColorSet(f.color))
  {
    var info := FontInfoOf(f);
    if ColorSet(f.color) {
      assert info.color[0] == '#' && DefaultColorText[0] == 'D';
    }
  }

  /** A run colour given as a 24-bit integer is reported as `#` and its six hex digits, and as its bytes. */
  lemma PackedFontColor(f: RunFont, n: int)
    requires f.color == Some(Packed(n)) && 0 < n < 0x100_0000
    ensures var info := FontInfoOf(f);
      && |info.color| == 7 && HexValue(info.color[1..]) == n
      && info.components.Some?
      && info.components.value.r * 65536 + info.components.value.g * 256 + info.components.value.b == n
  {
    PackedHex(n);
    PackedComponentsRoundTrip(n);
  }

  // --------------------------------------------------------------- style list

  /** The styles `print_font_details` can list. */
  datatype FontStyle = Bold | Italic | Underlined | SmallCaps | AllCaps | Strikethrough | Subscript | Superscript

  /** Every style, in the order `print_font_details` tests them. */
  const AllStyles: seq<FontStyle> := [Bold, Italic, Underlined, SmallCaps, AllCaps, Strikethrough, Subscript, Superscript]

  function StyleName(st: FontStyle): string
  {
    match st
    case Bold => "Bold"
    case Italic => "Italic"
    case Underlined => "Underlined"
    case SmallCaps => "Small Caps"
    case AllCaps => "All Caps"
    case Strikethrough => "Strikethrough"
    case Subscript => "Subscript"
    case Superscript => "Superscript"
  }

  /** Whether the reported font has the property behind style `st` on. */
  predicate HasStyle(info: FontInfo, st: FontStyle)
  {
    match st
    case Bold => info.bold
    case Italic => info.italic
    case Underlined => info.underline
    case SmallCaps => info.smallCaps
    case AllCaps => info.allCaps
    case Strikethrough => info.strike
    case Subscript => info.subscript
    case Superscript => info.superscript
  }

  /** The `rank` of a style: its place in the order `print_font_details` tests the properties. */
  function Rank(st: FontStyle): (rank: nat)
    ensures rank < |AllStyles| && AllStyles[rank] == st
  {
    match st
    case Bold => 0
    case Italic => 1
    case Underlined => 2
    case SmallCaps => 3
    case AllCaps => 4
    case Strikethrough => 5
    case Subscript => 6
    case Superscript => 7
  }

  /** `if on: styles.append(st)`. */
  function AppendIf(styles: seq<FontStyle>, on: bool, st: FontStyle): seq<FontStyle>
  {
    if on then styles + [st] else styles
  }

  /** The styles a font reports: one test per property, in the analyser's order. */
  function StylesOf(info: FontInfo): seq<FontStyle>
  {
    AppendIf(AppendIf(AppendIf(AppendIf(AppendIf(AppendIf(AppendIf(AppendIf([],
      info.bold, Bold), info.italic, Italic), info.underline, Underlined), info.smallCaps, SmallCaps),
      info.allCaps, AllCaps), info.strike, Strikethrough), info.subscript, Subscript),
      info.superscript, Superscript)
  }

  /** The `styles` list of `print_font_details`, built by one test per property. */
  method FontStyles(info: FontInfo) returns (styles: seq<FontStyle>)
    ensures styles == StylesOf(info)
  {
    styles := [];
    if info.bold { styles := styles + [Bold]; }
    if info.italic { styles := styles + [Italic]; }
    if info.underline { styles := styles + [Underlined]; }
    if info.smallCaps { styles := styles + [SmallCaps]; }
    if info.allCaps { styles := styles + [AllCaps]; }
    if info.strike { styles := styles + [Strikethrough]; }
    if info.subscript { styles := styles + [Subscript]; }
    if info.superscript { styles := styles + [Superscript]; }
  }

  /** The reference list: the first `k` styles of the analyser's order whose flag in `flags` is on. */
  function Selected(flags: seq<bool>, k: nat): seq<FontStyle>
    requires k <= |flags| && k <= |AllStyles|
  {
    if k == 0 then [] else AppendIf(Selected(flags, k - 1), flags[k - 1], AllStyles[k - 1])
  }

  lemma SelectedSteps(flags: seq<bool>, k: nat, styles: seq<FontStyle>)
    requires k + 4 <= |flags| && k + 4 <= |AllStyles| && styles == Selected(flags, k)
    ensures AppendIf(AppendIf(AppendIf(AppendIf(styles, flags[k], AllStyles[k]), flags[k + 1], AllStyles[k + 1]),
      flags[k + 2], AllStyles[k + 2]), flags[k + 3], AllStyles[k + 3]) == Selected(flags, k + 4)
  {
    assert Selected(flags, k + 1) == AppendIf(styles, flags[k], AllStyles[k]);
    assert Selected(flags, k + 2) == AppendIf(Selected(flags, k + 1), flags[k + 1], AllStyles[k + 1]);
    assert Selected(flags, k + 3) == AppendIf(Selected(flags, k + 2), flags[k + 2], AllStyles[k + 2]);
  }

  /** The eight tests select, in order, the styles whose reported flag is on. */
  lemma StylesOfSelected(info: FontInfo)
    ensures StylesOf(info) == Selected(StyleFlags(info), |AllStyles|)
  {
    var flags := StyleFlags(info);
    var half := AppendIf(AppendIf(AppendIf(AppendIf([], info.bold, Bold), info.italic, Italic),
      info.underline, Underlined), info.smallCaps, SmallCaps);
    SelectedSteps(flags, 0, []);
    SelectedSteps(flags, 4, half);
  }

  /** Styles listed in strictly increasing rank: in the analyser's order, none twice. */
  predicate Ascending(styles: seq<FontStyle>)
  {
    forall i, j :: 0 <= i < j < |styles| ==> Rank(styles[i]) < Rank(styles[j])
  }

  /** Every style in `styles` ranks below `rank`. */
  predicate RanksBelow(styles: seq<FontStyle>, rank: nat)
  {
    forall i :: 0 <= i < |styles| ==> Rank(styles[i]) < rank
  }

  /** A style is selected exactly when it is among the first `k` and its flag is on. */
  lemma {:induction false} SelectedMember(flags: seq<bool>, k: nat, st: FontStyle)
    requires k <= |flags| && k <= |AllStyles|
    ensures st in Selected(flags, k) <==> Rank(st) < k && flags[Rank(st)]
  {
    if k > 0 {
      SelectedMember(flags, k - 1, st);
      assert Rank(AllStyles[k - 1]) == k - 1;
    }
  }

  /** The selection keeps the analyser's order and takes nothing from beyond the first `k`. */
  lemma {:induction false} SelectedAscending(flags: seq<bool>, k: nat)
    requires k <= |flags| && k <= |AllStyles|
    ensures Ascending(Selected(flags, k)) && RanksBelow(Selected(flags, k), k)
  {
    if k > 0 {
      SelectedAscending(flags, k - 1);
      assert Rank(AllStyles[k - 1]) == k - 1;
    }
  }

  lemma StyleFlag(info: FontInfo, st: FontStyle)
    ensures HasStyle(info, st) == StyleFlags(info)[Rank(st)]
  {
  }

  /** A style is listed exactly when the font has its property on. */
  lemma StylesOfMember(info: FontInfo, st: FontStyle)
    ensures st in StylesOf(info) <==> HasStyle(info, st)
  {
    StylesOfSelected(info);
    SelectedMember(StyleFlags(info), |AllStyles|, st);
    StyleFlag(info, st);
  }

  /** The list follows the analyser's order, with no style twice. */
  lemma StylesOfAscending(info: FontInfo)
    ensures Ascending(StylesOf(info))
  {
    StylesOfSelected(info);
    SelectedAscending(StyleFlags(info), |AllStyles|);
  }

  /** Two ascending lists holding the same styles are the same list. */
  lemma {:induction false} AscendingUnique(a: seq<FontStyle>, b: seq<FontStyle>)
    requires Ascending(a) && Ascending(b)
    requires forall x :: x in a <==> x in b
    ensures a == b
    decreases |a|
  {
    if a != [] && b != [] {
      assert a[0] == b[0] by {
        assert a[0] in b;
        var j :| 0 <= j < |b| && b[j] == a[0];
        assert Rank(b[0]) <= Rank(b[j]);
        assert b[0] in a;
        var i :| 0 <= i < |a| && a[i] == b[0];
        assert Rank(a[0]) <= Rank(a[i]);
        assert AllStyles[Rank(a[0])] == a[0] && AllStyles[Rank(b[0])] == b[0];
      }
      forall x ensures x in a[1..] <==> x in b[1..] {
        AscendingTail(a, x);
        AscendingTail(b, x);
      }
      AscendingUnique(a[1..], b[1..]);
      assert a == [a[0]] + a[1..] && b == [b[0]] + b[1..];
    } else {
      NoMembersEmpty(a);
      NoMembersEmpty(b);
    }
  }

  lemma NoMembersEmpty(styles: seq<FontStyle>)
    ensures (forall x :: x !in styles) ==> styles == []
  {
    if styles != [] {
      assert styles[0] in styles;
    }
  }

  lemma AscendingTail(a: seq<FontStyle>, x: FontStyle)
    requires Ascending(a) && a != []
    ensures x in a[1..] <==> x in a && x != a[0]
  {
    if x in a && x != a[0] {
      var i :| 0 <= i < |a| && a[i] == x;
      assert a[1..][i - 1] == x;
    }
    if x in a[1..] {
      var i :| 0 <= i < |a| - 1 && a[1..][i] == x;
      assert Rank(a[0]) < Rank(a[i + 1]);
    }
  }

  /** The analyser's list is the only ascending list of exactly the styles the font has on. */
  lemma StylesOfUnique(info: FontInfo, styles: seq<FontStyle>)
    requires Ascending(styles) && forall st :: st in styles <==> HasStyle(info, st)
    ensures styles == StylesOf(info)
  {
    forall st ensures st in StylesOf(info) <==> HasStyle(info, st) {
      StylesOfMember(info, st);
    }
    StylesOfAscending(info);
    AscendingUnique(styles, StylesOf(info));
  }

  /** No style is listed exactly when the font has none of the properties on. */
  lemma StylesOfEmpty(info: FontInfo)
    ensures StylesOf(info) == [] <==> forall st :: !HasStyle(info, st)
  {
    if StylesOf(info) != [] {
      StylesOfMember(info, StylesOf(info)[0]);
    } else {
      forall st ensures !HasStyle(info, st) {
        StylesOfMember(info, st);
      }
    }
  }

  /** The report of a run has a style on exactly when the run sets that property on. */
  lemma RunStyleFlag(f: RunFont, st: FontStyle)
    ensures HasStyle(FontInfoOf(f), st) <==> RunFlags(f)[Rank(st)] == Some(true)
  {
  }

  /** A style of a run's report is listed exactly when the run sets its property on; none is listed when the run sets none. */
  lemma RunStyles(f: RunFont)
    ensures forall st :: st in StylesOf(FontInfoOf(f)) <==> RunFlags(f)[Rank(st)] == Some(true)
    ensures StylesOf(FontInfoOf(f)) == [] <==> forall k :: 0 <= k < 8 ==> RunFlags(f)[k] != Some(true)
  {
    var info := FontInfoOf(f);
    forall st ensures st in StylesOf(info) <==> RunFlags(f)[Rank(st)] == Some(true) {
      StylesOfMember(info, st);
      RunStyleFlag(f, st);
    }
    StylesOfEmpty(info);
    forall k | 0 <= k < 8 ensures RunFlags(f)[k] != Some(true) <==> !HasStyle(info, AllStyles[k]) {
      RunStyleFlag(f, AllStyles[k]);
      assert Rank(AllStyles[k]) == k;
    }
    if forall k :: 0 <= k < 8 ==> RunFlags(f)[k] != Some(true) {
      forall st ensures !HasStyle(info, st) {
        RunStyleFlag(f, st);
      }
    }
  }

  // --------------------------------------------------------------- styles line

  /** `sep.join(parts)`. */
  function Join(parts: seq<string>, sep: string): (s: string)
    ensures parts != [] ==> |s| >= |parts[0]| && s[..|parts[0]|] == parts[0]
  {
    if parts == [] then ""
    else if |parts| == 1 then parts[0]
    else parts[0] + sep + Join(parts[1..], sep)
  }

  /**
   * Joining one more part appends the separator and that part; together with
   * `Join([p], sep) == p` this determines `Join` on every non-empty list.
   */
  lemma {:induction false} JoinSnoc(parts: seq<string>, p: string, sep: string)
    requires parts != []
    ensures Join([p], sep) == p
    ensures Join(parts + [p], sep) == Join(parts, sep) + sep + p
  {
    assert (parts + [p])[1..] == parts[1..] + [p];
    if |parts| == 1 {
      assert parts[1..] + [p] == [p];
    } else {
      JoinSnoc(parts[1..], p, sep);
    }
  }

  function StyleNames(styles: seq<FontStyle>): (names: seq<string>)
    ensures |names| == |styles| && forall i :: 0 <= i < |styles| ==> names[i] == StyleName(styles[i])
  {
    if styles == [] then [] else [StyleName(styles[0])] + StyleNames(styles[1..])
  }

  /** The `Font styles:` line of `print_font_details`: the names joined by commas, or `None`. */
  function StylesLine(indent: string, styles: seq<FontStyle>): string
  {
    indent + "Font styles: " + (if styles == [] then "None" else Join(StyleNames(styles), ", "))
  }

  /** The line reads `None` exactly when the font has no style property on. */
  lemma StylesLineNone(indent: string, info: FontInfo)
    ensures StylesLine(indent, StylesOf(info)) == indent + "Font styles: None"
      <==> forall st :: !HasStyle(info, st)
  {
    StylesLineEmpty(indent, StylesOf(info));
    StylesOfEmpty(info);
  }

  /** No style name starts with `N`, so a line listing styles never reads `None`. */
  lemma StylesLineEmpty(indent: string, styles: seq<FontStyle>)
    ensures StylesLine(indent, styles) == indent + "Font styles: None" <==> styles == []
  {
    var prefix := indent + "Font styles: ";
    if styles != [] {
      var joined := Join(StyleNames(styles), ", ");
      var first := StyleName(styles[0]);
      assert joined[0] == first[0];
      assert first[0] != 'N';
      assert StylesLine(indent, styles)[|prefix|] == joined[0];
      assert (prefix + "None")[|prefix|] == 'N';
    }
  }

  // --------------------------------------------------------------- background and borders

  /**
   * `get_cell_background_color`: the `w:fill` of the cell's first `w:shd`, after a `#`,
   * unless it is absent, empty or `auto`.
   */
  function BackgroundColor(cell: TableCell): (color: Option<string>)
    ensures color.Some? ==> |color.value| >= 2 && color.value[0] == '#'
  {
    if cell.tcPr.None? then None
    else
      match Find(cell.tcPr.value, "w:shd")
      case None => None
      case Some(shd) =>
        var fill := Get(shd, "w:fill", "");
        if fill != "" && fill != "auto" then Some("#" + fill) else None
  }

  /** A cell whose properties hold a single shading element filled `fill`. */
  function ShadedCell(text: string, fill: string): TableCell
  {
    TableCell(text, Some(Element("w:tcPr", map[], "", [Element("w:shd", map["w:fill" := fill], "", [])])))
  }

  /** A colour is reported exactly when the first shading sets a real fill, and it is that fill after `#`. */
  lemma BackgroundSpec(cell: TableCell)
    ensures BackgroundColor(cell).Some? <==>
      && cell.tcPr.Some? && Find(cell.tcPr.value, "w:shd").Some?
      && Get(Find(cell.tcPr.value, "w:shd").value, "w:fill", "") !in {"", "auto"}
    ensures BackgroundColor(cell).Some? ==>
      BackgroundColor(cell).value[1..] == Get(Find(cell.tcPr.value, "w:shd").value, "w:fill", "")
  {
  }

  /** Shading a cell with a fill reads back that fill; an empty or `auto` fill reads as no colour. */
  lemma ShadedRoundTrip(text: string, fill: string)
    ensures BackgroundColor(ShadedCell(text, fill)) == if fill in {"", "auto"} then None else Some("#" + fill)
  {
    var pr := ShadedCell(text, fill).tcPr.value;
    assert pr.children[0].tag == "w:shd";
    assert FindAll(pr, "w:shd") == [pr.children[0]];
  }

  /** One side of a cell border as `get_cell_borders` reports it. */
  datatype Border = Border(style: string, size: string, color: string)

  /** The sides `get_cell_borders` looks up, in its order. */
  const BorderSides: seq<string> := ["top", "left", "bottom", "right"]

  /** A border element's style, size and colour, defaulting to `none`, `0` and `auto`. */
  function BorderOf(b: Element): (border: Border)
    ensures border.style == (if "w:val" in b.attrs then b.attrs["w:val"] else "none")
    ensures border.size == (if "w:sz" in b.attrs then b.attrs["w:sz"] else "0")
    ensures border.color == (if "w:color" in b.attrs then b.attrs["w:color"] else "auto")
  {
    Border(Get(b, "w:val", "none"), Get(b, "w:sz", "0"), Get(b, "w:color", "auto"))
  }

  /** `borders` with `side` added when `tcBorders` has an element for it. */
  function WithSide(tcBorders: Element, borders: map<string, Border>, side: string): map<string, Border>
  {
    match Find(tcBorders, "w:" + side)
    case Some(b) => borders[side := BorderOf(b)]
    case None => borders
  }

  /** The borders of `tcBorders` for the given sides: each side whose element is present, by name. */
  function SideBorders(tcBorders: Element, sides: seq<string>): map<string, Border>
  {
    if sides == [] then map[]
    else WithSide(tcBorders, SideBorders(tcBorders, sides[..|sides| - 1]), sides[|sides| - 1])
  }

  lemma SideBordersSnoc(tcBorders: Element, sides: seq<string>, i: nat)
    requires i < |sides|
    ensures SideBorders(tcBorders, sides[..i + 1]) == WithSide(tcBorders, SideBorders(tcBorders, sides[..i]), sides[i])
  {
    assert sides[..i + 1][..i] == sides[..i];
  }

  /** A side is reported exactly when it is looked up and its element is present, with that element's values. */
  lemma {:induction false} SideBordersAt(tcBorders: Element, sides: seq<string>, side: string)
    ensures side in SideBorders(tcBorders, sides) <==> side in sides && Find(tcBorders, "w:" + side).Some?
    ensures side in SideBorders(tcBorders, sides) ==>
      SideBorders(tcBorders, sides)[side] == BorderOf(Find(tcBorders, "w:" + side).value)
  {
    if sides != [] {
      var init := sides[..|sides| - 1];
      SideBordersAt(tcBorders, init, side);
      assert sides == init + [sides[|sides| - 1]];
      assert side in sides <==> side in init || side == sides[|sides| - 1];
    }
  }

  /** The cell's `w:tcBorders` element, when it has properties holding one. */
  function BordersElement(cell: TableCell): (tcBorders: Option<Element>)
    ensures tcBorders.Some? ==> cell.tcPr.Some? && tcBorders.value.tag == "w:tcBorders" && tcBorders.value in cell.tcPr.value.children
  {
    if cell.tcPr.None? then None else Find(cell.tcPr.value, "w:tcBorders")
  }

  /** `get_cell_borders`: the borders found, or None when the cell has no properties, no borders or no side. */
  function CellBorders(cell: TableCell): Option<map<string, Border>>
  {
    match BordersElement(cell)
    case None => None
    case Some(tcb) =>
      var borders := SideBorders(tcb, BorderSides);
      if borders == map[] then None else Some(borders)
  }

  /** `get_cell_borders`, filling the dictionary one side at a time. */
  method GetCellBorders(cell: TableCell) returns (result: Option<map<string, Border>>)
    ensures result == CellBorders(cell)
  {
    var borders: map<string, Border> := map[];
    if cell.tcPr.Some? {
      var found := Find(cell.tcPr.value, "w:tcBorders");
      if found.Some? {
        var tcb := found.value;
        for i := 0 to |BorderSides|
          invariant borders == SideBorders(tcb, BorderSides[..i])
        {
          var side := BorderSides[i];
          ghost var before := borders;
          var border := Find(tcb, "w:" + side);
          if border.Some? {
            borders := borders[side := BorderOf(border.value)];
          }
          assert borders == WithSide(tcb, before, side);
          SideBordersSnoc(tcb, BorderSides, i);
        }
        assert BorderSides[..|BorderSides|] == BorderSides;
      }
    }
    result := if borders == map[] then None else Some(borders);
  }

  /** Borders are reported exactly when the cell's border element has at least one of the four sides. */
  lemma CellBordersPresent(cell: TableCell)
    ensures CellBorders(cell).Some? <==>
      BordersElement(cell).Some? && exists side :: side in BorderSides && Find(BordersElement(cell).value, "w:" + side).Some?
  {
    if BordersElement(cell).Some? {
      var tcb := BordersElement(cell).value;
      var borders := SideBorders(tcb, BorderSides);
      if borders != map[] {
        var side :| side in borders;
        SideBordersAt(tcb, BorderSides, side);
      } else {
        forall side | side in BorderSides ensures Find(tcb, "w:" + side).None? {
          SideBordersAt(tcb, BorderSides, side);
        }
      }
    }
  }

  /** Reported borders are the four sides' present elements, each with its element's values. */
  lemma CellBordersAt(cell: TableCell, side: string)
    requires CellBorders(cell).Some?
    ensures var tcb := BordersElement(cell).value;
      && (side in CellBorders(cell).value <==> side in BorderSides && Find(tcb, "w:" + side).Some?)
      && (side in CellBorders(cell).value ==> CellBorders(cell).value[side] == BorderOf(Find(tcb, "w:" + side).value))
  {
    SideBordersAt(BordersElement(cell).value, BorderSides, side);
  }
}
