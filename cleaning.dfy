/** The cell cleaner `clean_table` (scraping_projet.py:30-36) and the token
    filter `_tokens` (scraping_projet.py:75-76).

    A raw table is what the table-extraction library delivers: a list of
    rows, where a row may be missing altogether (`None`) and each cell may
    be missing. Cells that are not strings are not modelled: a present cell
    is a string. */
module Cleaning {
  import opened Text
  import opened Filtering

  type RawRow = Option<seq<Option<string>>>

  /** What the cleaner promises of every cell it produces. */
  predicate IsCleanCell(c: string) {
    '\n' !in c && IsStripped(c)
  }

  /** One cell of the list comprehension in `clean_table`: a missing or empty
      cell becomes "", any other has its line breaks turned into spaces and
      is stripped. The result is "" exactly when the cell is missing or holds
      only whitespace. */
  function CleanCell(c: Option<string>): (r: string)
    ensures IsCleanCell(r)
    ensures |r| == 0 <==> (c.None? || AllSpace(c.value))
    ensures c.Some? ==> r == Strip(ReplaceNewlines(c.value))
  {
    match c
    case None => ""
    case Some(s) =>
      if |s| == 0 then ""
      else
        var flat := ReplaceNewlines(s);
        assert AllSpace(flat) <==> AllSpace(s) by {
          assert forall k :: 0 <= k < |s| ==> (IsSpace(flat[k]) <==> IsSpace(s[k]));
        }
        Strip(flat)
  }

  /** The cleaned form of a present row: one cleaned cell per raw cell. */
  function CleanRow(cells: seq<Option<string>>): (r: seq<string>)
    ensures |r| == |cells|
    ensures forall k :: 0 <= k < |cells| ==> r[k] == CleanCell(cells[k]) && IsCleanCell(r[k])
  {
    seq(|cells|, k requires 0 <= k < |cells| => CleanCell(cells[k]))
  }

  /** `clean_table` skips a row that is missing or empty (`if not row`) and
      cleans every other one. */
  function CleanRaw(row: RawRow): (r: Option<seq<string>>)
    ensures r.Some? <==> (row.Some? && |row.value| > 0)
    ensures r.Some? ==> |r.value| == |row.value| && forall c :: c in r.value ==> IsCleanCell(c)
  {
    match row
    case None => None
    case Some(cells) => if |cells| == 0 then None else Some(CleanRow(cells))
  }

  /** `clean_table`: the loop that appends the cleaned form of each kept row.
      The result holds, in input order, exactly the cleaned forms of the rows
      that are present and non-empty (the kept positions are increasing and
      include every such row; see `KeptIndices`), each with as many cells as
      its raw row, and no cell has a line break or surrounding whitespace. */
  method CleanTable(raw: seq<RawRow>) returns (cleaned: seq<seq<string>>)
    ensures cleaned == Collect(raw, CleanRaw)
    ensures |cleaned| == |KeptIndices(raw, CleanRaw)|
    ensures forall m :: 0 <= m < |cleaned| ==>
              raw[KeptIndices(raw, CleanRaw)[m]].Some? &&
              cleaned[m] == CleanRow(raw[KeptIndices(raw, CleanRaw)[m]].value)
    ensures forall m :: 0 <= m < |cleaned| ==>
              |cleaned[m]| > 0 && forall c :: c in cleaned[m] ==> IsCleanCell(c)
  {
    cleaned := [];
    for k := 0 to |raw|
      invariant cleaned == Collect(raw[..k], CleanRaw)
      invariant forall m :: 0 <= m < |cleaned| ==>
                  |cleaned[m]| > 0 && forall c :: c in cleaned[m] ==> IsCleanCell(c)
    {
      var row := raw[k];
      CollectPrefix(raw, k, CleanRaw);
      if row.None? || |row.value| == 0 {
        continue;
      }
      cleaned := cleaned + [CleanRow(row.value)];
    }
    assert raw[..|raw|] == raw;
    CollectInOrder(raw, CleanRaw);
  }

  /** One cell of the comprehension in `_tokens`: its stripped form, kept only
      when non-empty. */
  function TokenOf(c: string): (r: Option<string>)
    ensures r.Some? <==> !AllSpace(c)
    ensures r.Some? ==> r.value == Strip(c)
  {
    var t := Strip(c);
    if |t| > 0 then Some(t) else None
  }

  /** `_tokens`: every token is non-empty and already stripped. */
  function Tokens(row: seq<string>): (toks: seq<string>)
    ensures AllTokens(toks)
    ensures |toks| <= |row|
  {
    var toks := Collect(row, TokenOf);
    CollectInOrder(row, TokenOf);
    toks
  }

  /** `_tokens` keeps, in order, the stripped form of exactly the cells that
      are not all whitespace. */
  lemma TokensInOrder(row: seq<string>)
    ensures |Tokens(row)| == |KeptIndices(row, TokenOf)|
    ensures forall m :: 0 <= m < |Tokens(row)| ==>
              Tokens(row)[m] == Strip(row[KeptIndices(row, TokenOf)[m]])
    ensures forall k :: 0 <= k < |row| && !AllSpace(row[k]) ==> k in KeptIndices(row, TokenOf)
  {
    CollectInOrder(row, TokenOf);
  }
}
