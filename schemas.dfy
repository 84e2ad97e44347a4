/**
 * The legacy result schema: DebItem requires a region, so a list of parsed
 * rows validates as a DebItemList only when every row carries one. The legacy
 * validators for INN, birthday and proceeding number are the same code as the
 * domain ones and are modelled once, in Models.
 */
module Schemas {
  import opened Wrappers
  import Parser

  /** One enforcement proceeding of the legacy API. */
  datatype DebItem = DebItem(
    region: string,
    debtor: string,
    ip: string,
    doc: string,
    endReason: Option<string>,
    debt: string,
    office: string,
    bailiff: string)

  /** The row an item was validated from. */
  function ItemRow(item: DebItem): Parser.CaseRow {
    Parser.CaseRow(Some(item.region), item.debtor, item.ip, item.doc,
                   item.endReason.GetOr(""), item.debt, item.office, item.bailiff)
  }

  /** `DebItemList(root=rows)`: pydantic validates every row as a DebItem; a row
      whose region is None fails validation, and with it the whole list. */
  function DebItemList(rows: seq<Parser.CaseRow>): (r: Option<seq<DebItem>>)
    ensures r.None? <==> exists i :: 0 <= i < |rows| && rows[i].region.None?
    ensures r.Some? ==> |r.value| == |rows|
    ensures r.Some? ==> forall i :: 0 <= i < |rows| ==> ItemRow(r.value[i]) == rows[i]
    ensures r.Some? ==> forall i :: 0 <= i < |rows| ==> r.value[i].endReason.Some?
  {
    if rows == [] then Some([])
    else
      var row := rows[0];
      var rest := DebItemList(rows[1..]);
      if row.region.None? || rest.None? then
        assert rest.None? ==> exists i :: 0 <= i < |rows[1..]| && rows[1..][i].region.None?;
        None
      else
        Some([DebItem(row.region.value, row.debtor, row.ip, row.doc, Some(row.endReason),
                      row.debt, row.office, row.bailiff)] + rest.value)
  }
}
