/**
 * The result-page parser: FsspHtmlParser.parse_cases
 * (src/infrastructure/parser.py) and its older copy parse_fssp_ip_data
 * (src/service.py).
 *
 * The markup is taken as what BeautifulSoup/lxml builds from it, reduced to
 * what the parser looks at: the `.results .empty` block, and the `tr` rows of
 * the `.results-frame table.list` table with, per row, whether it has a `th`,
 * its classes, its text nodes and its `td` cells.
 */
module Parser {
  import opened Wrappers
  import opened Errors
  import opened Text

  /** A `td`: its text nodes in document order. */
  datatype Cell = Cell(texts: seq<string>)

  /** A `tr` of the results table. */
  datatype Row = Row(hasHeaderCell: bool, classes: seq<string>, texts: seq<string>, cells: seq<Cell>)

  /** An element matched by a selector, seen through its text nodes. */
  datatype Element = Element(texts: seq<string>)

  /** The parsed document: either lxml could not build one, or the parser
      finds (or not) the sentinel block and the results table. */
  datatype Document =
    | Unparseable
    | Page(emptyBlock: Option<Element>, table: Option<seq<Row>>)

  /** One output record; cell 4 (the service column) has no field. */
  datatype CaseRow = CaseRow(
    region: Option<string>,
    debtor: string,
    ip: string,
    doc: string,
    endReason: string,
    debt: string,
    office: string,
    bailiff: string)

  /** The upstream phrase announcing that too many wrong captcha codes were sent. */
  const Sentinel := "Количество неверных попыток ввода кода превышено"
  const LimitMessage := "Превышено количество неверных попыток ввода капчи. Попробуйте позже или используйте другой способ получения данных."
  const ParseFailedMessage := "Не удалось распарсить HTML"
  const RegionTitle := "region-title"

  /** `get_text(strip=True)`: the stripped text nodes glued with no separator. */
  function GetText(texts: seq<string>): string {
    Join("", StrippedStrings(texts))
  }

  /** `" ".join(td.stripped_strings)`. */
  function CellText(c: Cell): string {
    Join(" ", StrippedStrings(c.texts))
  }

  /** A cell's text never starts or ends with whitespace, and is blank only
      when every text node of the cell is. */
  lemma CellTextStripped(c: Cell)
    ensures IsStripped(CellText(c))
    ensures CellText(c) == [] <==> forall k :: 0 <= k < |c.texts| ==> AllSpace(c.texts[k])
  {
    JoinSpaceStripped(StrippedStrings(c.texts));
    BlankPieces(c.texts);
  }

  lemma {:induction false} BlankPieces(texts: seq<string>)
    ensures StrippedStrings(texts) == [] <==> forall k :: 0 <= k < |texts| ==> AllSpace(texts[k])
  {
    if texts != [] {
      var rest := texts[1..];
      BlankPieces(rest);
      var head := Strip(texts[0]);
      assert StrippedStrings(texts) == (if head == [] then [] else [head]) + StrippedStrings(rest);
      if forall k :: 0 <= k < |texts| ==> AllSpace(texts[k]) {
        assert AllSpace(texts[0]);
        forall k | 0 <= k < |rest| ensures AllSpace(rest[k]) {
          assert rest[k] == texts[k + 1];
        }
      }
      if head == [] && StrippedStrings(rest) == [] {
        forall k | 0 <= k < |texts| ensures AllSpace(texts[k]) {
          if k > 0 {
            assert texts[k] == rest[k - 1];
          }
        }
      }
    }
  }

  predicate IsRegionRow(row: Row) {
    !row.hasHeaderCell && RegionTitle in row.classes
  }

  predicate IsDataRow(row: Row) {
    !row.hasHeaderCell && RegionTitle !in row.classes && |row.cells| == 8
  }

  /** The positional mapping of an eight-cell row. */
  function ToRecord(cells: seq<Cell>, region: Option<string>): CaseRow
    requires |cells| == 8
  {
    CaseRow(region, CellText(cells[0]), CellText(cells[1]), CellText(cells[2]),
            CellText(cells[3]), CellText(cells[5]), CellText(cells[6]), CellText(cells[7]))
  }

  /** Cell 4 has no influence on the record. */
  lemma ServiceColumnIgnored(cells: seq<Cell>, other: Cell, region: Option<string>)
    requires |cells| == 8
    ensures ToRecord(cells[4 := other], region) == ToRecord(cells, region)
  {
  }

  /** The loop state: the current region and the records so far. */
  datatype WalkState = WalkState(region: Option<string>, records: seq<CaseRow>)

  /** One iteration of the row loop. */
  function Step(st: WalkState, row: Row): WalkState {
    if row.hasHeaderCell then st
    else if RegionTitle in row.classes then WalkState(Some(GetText(row.texts)), st.records)
    else if |row.cells| != 8 then st
    else WalkState(st.region, st.records + [ToRecord(row.cells, st.region)])
  }

  /** The state after the loop has seen `rows`, starting with no region. */
  function Walk(rows: seq<Row>): (st: WalkState)
    ensures |st.records| <= |rows|
  {
    if rows == [] then WalkState(None, [])
    else Step(Walk(rows[..|rows| - 1]), rows[|rows| - 1])
  }

  /** Row k is a region row and no region row follows it. */
  predicate LatestRegionRow(rows: seq<Row>, k: int) {
    0 <= k < |rows| && IsRegionRow(rows[k])
    && forall m :: k < m < |rows| ==> !IsRegionRow(rows[m])
  }

  /** The current region is absent until a region row has been seen, and is
      then the text of the latest one. */
  lemma {:induction false} WalkRegion(rows: seq<Row>)
    ensures RegionOf(rows, Walk(rows).region)
  {
    if rows != [] {
      var p, x := rows[..|rows| - 1], rows[|rows| - 1];
      WalkRegion(p);
      var r := Walk(p).region;
      assert Walk(rows) == Step(Walk(p), x);
      assert rows == p + [x];
      if IsRegionRow(x) {
        assert LatestRegionRow(rows, |rows| - 1);
      } else {
        assert Walk(rows).region == r;
        RegionCarried(p, x, r);
      }
    }
  }

  /** r is the region after the rows: none before any region row, else the
      text of the latest one. */
  ghost predicate RegionOf(rows: seq<Row>, r: Option<string>) {
    && (r.None? <==> forall k :: 0 <= k < |rows| ==> !IsRegionRow(rows[k]))
    && (r.Some? ==> exists k :: LatestRegionRow(rows, k) && r.value == GetText(rows[k].texts))
  }

  /** A row that is not a region row keeps the region of the rows before it. */
  lemma RegionCarried(p: seq<Row>, x: Row, r: Option<string>)
    requires !IsRegionRow(x) && RegionOf(p, r)
    ensures RegionOf(p + [x], r)
  {
    var rows := p + [x];
    assert forall k :: 0 <= k < |p| ==> rows[k] == p[k];
    if r.Some? {
      var k :| LatestRegionRow(p, k) && r.value == GetText(p[k].texts);
      assert LatestRegionRow(rows, k);
    } else {
      forall k | 0 <= k < |rows| ensures !IsRegionRow(rows[k]) {
        if k < |p| {
          assert !IsRegionRow(p[k]);
        }
      }
    }
  }

  /** The positions of the data rows, in increasing order. */
  function DataIndices(rows: seq<Row>): (d: seq<nat>)
    ensures forall j :: 0 <= j < |d| ==> d[j] < |rows| && IsDataRow(rows[d[j]])
    ensures forall j, j' :: 0 <= j < j' < |d| ==> d[j] < d[j']
    ensures forall i :: 0 <= i < |rows| && IsDataRow(rows[i]) ==> i in d
  {
    if rows == [] then []
    else
      var p := rows[..|rows| - 1];
      assert forall i :: 0 <= i < |p| ==> rows[i] == p[i];
      DataIndices(p) + (if IsDataRow(rows[|rows| - 1]) then [|rows| - 1] else [])
  }

  /** The records are exactly one per data row, in document order, each
      mapped from its row's cells with the region current at that row. */
  lemma {:induction false} WalkRecords(rows: seq<Row>)
    ensures |Walk(rows).records| == |DataIndices(rows)|
    ensures forall j :: 0 <= j < |DataIndices(rows)| ==>
              Walk(rows).records[j]
              == ToRecord(rows[DataIndices(rows)[j]].cells, Walk(rows[..DataIndices(rows)[j]]).region)
  {
    if rows != [] {
      var p, x := rows[..|rows| - 1], rows[|rows| - 1];
      WalkRecords(p);
      var d, dp := DataIndices(rows), DataIndices(p);
      forall j | 0 <= j < |dp|
        ensures rows[dp[j]] == p[dp[j]] && rows[..dp[j]] == p[..dp[j]]
      {
      }
      if IsDataRow(x) {
        assert rows[..|rows| - 1] == p;
      }
    }
  }

  /** A row holding a header cell changes nothing, even when it is also
      marked as a region title. */
  lemma HeaderRowSkipped(rows: seq<Row>, row: Row)
    requires row.hasHeaderCell
    ensures Walk(rows + [row]) == Walk(rows)
  {
    assert (rows + [row])[..|rows|] == rows;
  }

  /** A table whose rows all hold a header cell yields no record. */
  lemma HeaderOnlyTable(rows: seq<Row>)
    requires forall k :: 0 <= k < |rows| ==> rows[k].hasHeaderCell
    ensures Walk(rows) == WalkState(None, [])
  {
    WalkRegion(rows);
    WalkRecords(rows);
  }

  /** The sentinel block is present and its text carries the sentinel phrase. */
  predicate LimitShown(doc: Document) {
    doc.Page? && doc.emptyBlock.Some? && Contains(GetText(doc.emptyBlock.value.texts), Sentinel)
  }

  function TableRows(doc: Document): seq<Row> {
    if doc.Page? && doc.table.Some? then doc.table.value else []
  }

  /** What parse_cases returns or raises. */
  function ParseSpec(doc: Document): (r: Result<seq<CaseRow>, DomainError>)
    ensures doc.Unparseable? <==> r == Failure(ParsingError(ParseFailedMessage))
    ensures LimitShown(doc) ==> r == Failure(CaptchaLimitExceeded(LimitMessage))
    ensures r.Failure? ==> doc.Unparseable? || LimitShown(doc)
    ensures doc.Page? && doc.table.None? && !LimitShown(doc) ==> r == Success([])
    ensures r.Success? ==> |r.value| <= |TableRows(doc)|
  {
    match doc
    case Unparseable => Failure(ParsingError(ParseFailedMessage))
    case Page(block, table) =>
      if LimitShown(doc) then Failure(CaptchaLimitExceeded(LimitMessage))
      else if table.None? then Success([])
      else Success(Walk(table.value).records)
  }

  /** What parse_fssp_ip_data returns or raises: no sentinel check, and an
      lxml failure escapes as a raw exception. */
  function LegacyParseSpec(doc: Document): (r: Result<seq<CaseRow>, Exc>)
    ensures r.Failure? <==> doc.Unparseable?
    ensures r.Success? ==> |r.value| <= |TableRows(doc)|
  {
    match doc
    case Unparseable => Failure(Raw(OtherFault))
    case Page(_, table) => if table.None? then Success([]) else Success(Walk(table.value).records)
  }

  /** Where the current parser returns records, the older copy returns the
      same ones; where it reports the attempts limit, the older copy returns
      the rows of the table instead. */
  lemma LegacyAgrees(doc: Document)
    ensures ParseSpec(doc).Success? ==> LegacyParseSpec(doc) == Success(ParseSpec(doc).value)
    ensures LimitShown(doc) ==> LegacyParseSpec(doc) == Success(Walk(TableRows(doc)).records)
  {
  }

  /** The row loop shared by both parsers: skip header rows, move the current
      region on region-title rows, keep eight-cell rows. */
  method WalkTable(rows: seq<Row>) returns (records: seq<CaseRow>)
    ensures records == Walk(rows).records
  {
    var currentRegion: Option<string> := None;
    records := [];
    for i := 0 to |rows|
      invariant Walk(rows[..i]) == WalkState(currentRegion, records)
    {
      assert rows[..i + 1][..i] == rows[..i];
      var tr := rows[i];
      if tr.hasHeaderCell {
        continue;
      }
      if RegionTitle in tr.classes {
        currentRegion := Some(GetText(tr.texts));
        continue;
      }
      var tds := tr.cells;
      if |tds| != 8 {
        continue;
      }
      records := records + [ToRecord(tds, currentRegion)];
    }
    assert rows[..|rows|] == rows;
  }

  /** FsspHtmlParser.parse_cases. */
  method ParseCases(doc: Document) returns (r: Result<seq<CaseRow>, DomainError>)
    ensures r == ParseSpec(doc)
  {
    if doc.Unparseable? {
      return Failure(ParsingError(ParseFailedMessage));
    }
    if doc.emptyBlock.Some? {
      var errorText := GetText(doc.emptyBlock.value.texts);
      if Contains(errorText, Sentinel) {
        return Failure(CaptchaLimitExceeded(LimitMessage));
      }
    }
    if doc.table.None? {
      return Success([]);
    }
    var rows := WalkTable(doc.table.value);
    return Success(rows);
  }

  /** parse_fssp_ip_data. */
  method ParseFsspIpData(doc: Document) returns (r: Result<seq<CaseRow>, Exc>)
    ensures r == LegacyParseSpec(doc)
  {
    if doc.Unparseable? {
      return Failure(Raw(OtherFault));
    }
    if doc.table.None? {
      return Success([]);
    }
    var rows := WalkTable(doc.table.value);
    return Success(rows);
  }

  /** The markup of `<html></html>`: no sentinel block, no table. */
  const BareDocument := Page(None, None)

  /** A header row, a region row "Краснодарский край" and one eight-cell row. */
  const SampleDocument := Page(None, Some([SampleHeader, SampleTitle, SampleData]))

  const SampleHeader := Row(true, [], ["header"], [])

  const SampleTitle := Row(false, [RegionTitle], ["Краснодарский край"], [Cell(["Краснодарский край"])])

  const SampleData := Row(false, [], ["\n      ", "Иванов Иван", "\n      ", "123/45/67890-ИП", "\n      ", "Документ",
                                      "\n      ", "1000", "\n      ", "Отдел", "\n      ", "Судебный пристав", "\n    "],
                          seq(8, k requires 0 <= k < 8 => PlainCell(SampleTexts[k])))

  const SampleTexts: seq<string> := ["Иванов Иван", "123/45/67890-ИП", "Документ", "", "", "1000", "Отдел", "Судебный пристав"]

  /** A single text node that is already stripped is its own text. */
  lemma StrippedOne(t: string)
    requires t != [] && IsStripped(t)
    ensures GetText([t]) == t
  {
    StrippedStringsKeeps([t]);
  }

  /** A cell holding one already stripped text node, or none when the text is empty. */
  function PlainCell(t: string): Cell {
    Cell(if t == [] then [] else [t])
  }

  lemma PlainCellText(t: string)
    requires IsStripped(t)
    ensures CellText(PlainCell(t)) == t
  {
    if t != [] {
      StrippedStringsKeeps([t]);
    }
  }

  /** A row of eight plain cells maps to the record of their texts. */
  lemma PlainRecord(texts: seq<string>, region: Option<string>)
    requires |texts| == 8 && forall k :: 0 <= k < 8 ==> IsStripped(texts[k])
    ensures ToRecord(seq(8, k requires 0 <= k < 8 => PlainCell(texts[k])), region)
            == CaseRow(region, texts[0], texts[1], texts[2], texts[3], texts[5], texts[6], texts[7])
  {
    forall k | 0 <= k < 8 ensures CellText(PlainCell(texts[k])) == texts[k] {
      PlainCellText(texts[k]);
    }
  }

  /** A header row, then a region row, then a data row, give the one record
      of the data row under the region row's text. */
  lemma HeaderRegionData(header: Row, title: Row, data: Row)
    requires header.hasHeaderCell && IsRegionRow(title) && IsDataRow(data)
    ensures Walk([header, title, data]).records == [ToRecord(data.cells, Some(GetText(title.texts)))]
  {
    var rows := [header, title, data];
    assert [header][..0] == [];
    assert Walk([header]) == WalkState(None, []);
    assert [header, title][..1] == [header];
    assert Walk([header, title]) == WalkState(Some(GetText(title.texts)), []);
    assert rows[..2] == [header, title];
  }

  /** The two parser scenarios: no table gives no records, and the sample
      table gives exactly its one data row under its region. */
  lemma SampleParses()
    ensures ParseSpec(BareDocument) == Success([])
    ensures ParseSpec(SampleDocument) == Success([CaseRow(Some("Краснодарский край"), "Иванов Иван",
              "123/45/67890-ИП", "Документ", "", "1000", "Отдел", "Судебный пристав")])
  {
    HeaderRegionData(SampleHeader, SampleTitle, SampleData);
    SampleRowTexts();
  }

  lemma SampleRowTexts()
    ensures GetText(SampleTitle.texts) == "Краснодарский край"
    ensures ToRecord(SampleData.cells, Some("Краснодарский край"))
            == CaseRow(Some("Краснодарский край"), "Иванов Иван", "123/45/67890-ИП", "Документ", "",
                       "1000", "Отдел", "Судебный пристав")
  {
    StrippedOne("Краснодарский край");
    SampleTextsStripped();
    PlainRecord(SampleTexts, Some("Краснодарский край"));
  }

  lemma SampleTextsStripped()
    ensures forall k :: 0 <= k < 8 ==> IsStripped(SampleTexts[k])
  {
    assert IsStripped(SampleTexts[0]);
    assert IsStripped(SampleTexts[1]);
    assert IsStripped(SampleTexts[2]);
    assert IsStripped(SampleTexts[5]);
    assert IsStripped(SampleTexts[6]);
    assert IsStripped(SampleTexts[7]);
  }
}
