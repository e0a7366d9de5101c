/** The passenger-vehicle ("VP") schema parser (scraping_projet.py:79-125):
    every cleaned row whose first token is a one-letter category becomes a
    record of nine fields laid out as `VPHeaders` says; header and
    descriptive rows are skipped. */
module VP {
  import opened Text
  import opened Numeric
  import opened Filtering
  import opened Cleaning
  import opened Scanning

  /** The column names of a VP record. */
  const VPHeaders: seq<string> := [
    "Category",
    "Model (or similar) depending on availability",
    "1 day - Unlimited mileage (\U{20AC})",
    "Max damage or theft deductible (\U{20AC})",
    "CDW (damage)",
    "TP (theft)",
    "Reduced CDW deductible (\U{20AC})",
    "Reduced TP deductible (\U{20AC})",
    "Super Cover (\U{20AC})"
  ]

  /** Number of value fields after the category and the model. */
  const VPValueCount: nat := 7

  /** A row is a header or descriptive row when the upper-cased join of its
      tokens mentions one of the table's heading words or starts with "CAT". */
  predicate IsVPHeader(toks: seq<string>) {
    var head := Upper(Join(toks));
    Contains(head, "VEHICULES") || Contains(head, "MOD\U{C8}LES")
    || Contains(head, "KILOM\U{C9}TRAGE") || Contains(head, "ILLIMIT\U{C9}")
    || "CAT" <= head
  }

  /** `re.match(r"^[A-Z]$", cat)`: one capital letter; as in Python, `$` also
      accepts a single line break at the very end. */
  predicate MatchesVPCategory(c: string) {
    (|c| == 1 && IsAsciiUpper(c[0]))
    || (|c| == 2 && IsAsciiUpper(c[0]) && c[1] == '\n')
  }

  /** On a token (which `_tokens` has stripped) the category test is exactly
      "a single capital letter". */
  lemma VPCategoryOnTokens(c: string)
    requires IsStripped(c)
    ensures MatchesVPCategory(c) <==> (|c| == 1 && IsAsciiUpper(c[0]))
  {
  }

  /** The model loop goes on while the token is not numeric. */
  predicate IsVPModelToken(t: string) {
    !IsNum(t)
  }

  /** The rows that yield a record: at least one token, not a header row,
      and a category as first token. */
  predicate IsVPDataRow(toks: seq<string>) {
    |toks| > 0 && !IsVPHeader(toks) && MatchesVPCategory(toks[0])
  }

  /** The model tokens: the longest run of non-numeric tokens after the
      category. */
  function VPModelParts(toks: seq<string>): seq<string>
    requires |toks| > 0
  {
    TakeWhile(toks[1..], IsVPModelToken)
  }

  /** The seven value fields: the first seven numeric tokens after the
      category, padded with "" when the row has fewer. */
  function VPValues(toks: seq<string>): seq<string>
    requires |toks| > 0
  {
    PadTo(NumericOnly(toks[1..]), VPValueCount)
  }

  /** The record a cleaned row yields, if any: the category token, the model
      tokens joined with spaces, and the value fields. */
  function VPRecord(row: seq<string>): Option<seq<string>> {
    var toks := Tokens(row);
    if IsVPDataRow(toks) then Some([toks[0], Join(VPModelParts(toks))] + VPValues(toks))
    else None
  }

  /** Which rows yield a record: exactly the rows with at least one token
      that are not header rows and whose first token is a single capital
      letter. */
  lemma VPRecordWhen(row: seq<string>)
    ensures VPRecord(row).Some? <==>
              (|Tokens(row)| > 0 && !IsVPHeader(Tokens(row)) &&
               |Tokens(row)[0]| == 1 && IsAsciiUpper(Tokens(row)[0][0]))
  {
    if |Tokens(row)| > 0 {
      VPCategoryOnTokens(Tokens(row)[0]);
    }
  }

  /** A record has the nine columns of `VPHeaders`, and its category is the
      row's first token, a single capital letter. */
  lemma VPRecordShape(row: seq<string>)
    requires VPRecord(row).Some?
    ensures |VPRecord(row).value| == |VPHeaders|
    ensures VPRecord(row).value[0] == Tokens(row)[0]
    ensures |VPRecord(row).value[0]| == 1 && IsAsciiUpper(VPRecord(row).value[0][0])
  {
    VPCategoryOnTokens(Tokens(row)[0]);
  }

  /** The model field is stripped: the `.strip()` after the join is a no-op. */
  lemma VPModelStripped(toks: seq<string>)
    requires |toks| > 0 && AllTokens(toks)
    ensures IsStripped(Join(VPModelParts(toks)))
    ensures Strip(Join(VPModelParts(toks))) == Join(VPModelParts(toks))
  {
    var parts := VPModelParts(toks);
    assert forall k :: 0 <= k < |parts| ==> parts[k] == toks[1 + k];
    JoinStripped(parts);
  }

  /** The model is made of the tokens after the category up to, not
      including, the first numeric one. */
  lemma VPModelMeaning(toks: seq<string>)
    requires |toks| > 0
    ensures forall k :: 0 <= k < |VPModelParts(toks)| ==>
              VPModelParts(toks)[k] == toks[1 + k] && !IsNum(toks[1 + k])
    ensures 1 + |VPModelParts(toks)| < |toks| ==> IsNum(toks[1 + |VPModelParts(toks)|])
  {
    var parts := VPModelParts(toks);
    TakeWhileMeaning(toks[1..], IsVPModelToken);
    assert forall k :: 0 <= k < |parts| ==> parts[k] == toks[1..][k];
    if 1 + |parts| < |toks| {
      assert toks[1..][|parts|] == toks[1 + |parts|];
    }
  }

  /** The value fields: each non-empty one is numeric, once a field is ""
      every later one is "" too (missing values only at the end), and the
      k-th field is the k-th numeric token after the category. */
  lemma VPValuesMeaning(toks: seq<string>)
    requires |toks| > 0
    ensures |VPValues(toks)| == 7
    ensures forall k :: 0 <= k < 7 && |VPValues(toks)[k]| > 0 ==> IsNum(VPValues(toks)[k])
    ensures forall k, l :: 0 <= k < l < 7 && |VPValues(toks)[k]| == 0 ==> |VPValues(toks)[l]| == 0
    ensures forall k :: 0 <= k < 7 && k < |NumericOnly(toks[1..])| ==>
              VPValues(toks)[k] == NumericOnly(toks[1..])[k]
  {
    PaddedNumericFields(toks[1..], VPValueCount);
  }

  /** A row whose second token is not numeric and whose later tokens all
      are: the model is that one token and the numeric tokens after the
      category are all the later ones. */
  lemma OneWordVPModel(toks: seq<string>)
    requires |toks| >= 3 && !IsNum(toks[1])
    requires forall k :: 2 <= k < |toks| ==> IsNum(toks[k])
    ensures VPModelParts(toks) == [toks[1]]
    ensures NumericOnly(toks[1..]) == toks[2..]
  {
    TakeWhileUnique(toks[1..], IsVPModelToken, [toks[1]]);
    var rest := toks[2..];
    assert forall k :: 0 <= k < |rest| ==> IsNum(rest[k]) by {
      forall k | 0 <= k < |rest| ensures IsNum(rest[k]) {
        assert rest[k] == toks[2 + k];
      }
    }
    FilterAll(rest, IsNum);
    assert toks[1..][1..] == rest;
  }

  /** The tokens of the basic VP row, classified. */
  lemma BasicRowTokens(toks: seq<string>)
    requires |toks| == 8 && toks[0] == "B" && toks[1] == "Clio"
    requires toks[2] == "45,00" && toks[3] == "1 200" && toks[4] == "300"
    requires toks[5] == "35,00" && toks[6] == "150,00" && toks[7] == "60,00"
    ensures !IsNum(toks[1])
    ensures forall k :: 2 <= k < 8 ==> IsNum(toks[k])
  {
    assert !IsDigit(toks[1][0]);
    NonDigitStartNotNum(toks[1]);
    NumAcceptsGrouped(toks[3]);
    PricesAreNumbers(toks[2]);
    PricesAreNumbers(toks[4]);
    PricesAreNumbers(toks[5]);
    PricesAreNumbers(toks[6]);
    PricesAreNumbers(toks[7]);
    forall k | 2 <= k < 8 ensures IsNum(toks[k]) {
      assert k == 2 || k == 3 || k == 4 || k == 5 || k == 6 || k == 7;
    }
  }

  /** A row whose tokens contain no V and no M in either case, and whose
      first token does not start with C, is not a header row: every heading
      word of the test contains a V or an M. */
  lemma NotVPHeader(toks: seq<string>)
    requires |toks| > 0 && |toks[0]| > 0 && UpperChar(toks[0][0]) != 'C'
    requires forall k :: 0 <= k < |toks| ==> UpperAvoids(toks[k], 'V') && UpperAvoids(toks[k], 'M')
    ensures !IsVPHeader(toks)
  {
    var j := Join(toks);
    JoinAvoids(toks, 'V');
    JoinAvoids(toks, 'M');
    MissingLetter(j, "VEHICULES", 0);
    MissingLetter(j, "MOD\U{C8}LES", 0);
    MissingLetter(j, "KILOM\U{C9}TRAGE", 4);
    MissingLetter(j, "ILLIMIT\U{C9}", 4);
    JoinStart(toks);
    assert Upper(j)[0] != 'C';
  }

  /** The basic row passes the header filter and the category test. */
  lemma BasicRowIsData(toks: seq<string>)
    requires |toks| == 8 && toks[0] == "B" && toks[1] == "Clio"
    requires forall k :: 2 <= k < 8 ==> IsNum(toks[k])
    ensures IsVPDataRow(toks)
  {
    assert UpperAvoids(toks[0], 'V') && UpperAvoids(toks[0], 'M');
    assert UpperAvoids(toks[1], 'V') && UpperAvoids(toks[1], 'M');
    forall k | 2 <= k < 8 ensures UpperAvoids(toks[k], 'V') && UpperAvoids(toks[k], 'M') {
      NumAvoidsLetters(toks[k], 'V');
      NumAvoidsLetters(toks[k], 'M');
    }
    NotVPHeader(toks);
  }

  /** The basic row of the VP table: the model is "Clio" and the six prices
      fill the first six value fields in order; the seventh is left empty. */
  lemma VPScenarioBasic(toks: seq<string>)
    requires |toks| == 8 && toks[0] == "B" && toks[1] == "Clio"
    requires toks[2] == "45,00" && toks[3] == "1 200" && toks[4] == "300"
    requires toks[5] == "35,00" && toks[6] == "150,00" && toks[7] == "60,00"
    ensures VPModelParts(toks) == [toks[1]]
    ensures VPValues(toks) == toks[2..] + [""]
    ensures IsVPDataRow(toks)
  {
    BasicRowTokens(toks);
    BasicRowIsData(toks);
    OneWordVPModel(toks);
    PadOneShort(toks[2..], 7);
  }

  /** The model loop of one row: from the second token, collect tokens up to
      the first numeric one; the model is their join, stripped. Returns the
      position where the loop stopped. */
  method ScanVPModel(toks: seq<string>) returns (model: string, i: nat)
    requires |toks| > 0 && AllTokens(toks)
    ensures model == Join(VPModelParts(toks))
    ensures i == 1 + |VPModelParts(toks)| && i <= |toks|
  {
    i := 1;
    var parts: seq<string> := [];
    while i < |toks| && !IsNum(toks[i])
      invariant 1 <= i <= |toks|
      invariant parts == toks[1..i]
      invariant forall k :: 0 <= k < |parts| ==> IsVPModelToken(parts[k])
    {
      parts := parts + [toks[i]];
      i := i + 1;
    }
    TakeWhileUnique(toks[1..], IsVPModelToken, parts);
    assert VPModelParts(toks) == parts;
    assert |parts| == i - 1;
    JoinStripped(parts);
    model := Strip(Join(parts));
  }

  /** The seven `next_num` calls of one row, from position `start`. */
  method ScanVPValues(toks: seq<string>, start: nat) returns (values: seq<string>)
    ensures values == NextValues(toks, start, IsNum, VPValueCount)
  {
    var i := start;
    var v1j, vFranMax, vCdw, vTp, vFrCdw, vFrTp, vSuper;
    v1j, i := NextNum(toks, i);
    ghost var i1 := i;
    vFranMax, i := NextNum(toks, i);
    ghost var i2 := i;
    vCdw, i := NextNum(toks, i);
    ghost var i3 := i;
    vTp, i := NextNum(toks, i);
    ghost var i4 := i;
    vFrCdw, i := NextNum(toks, i);
    ghost var i5 := i;
    vFrTp, i := NextNum(toks, i);
    ghost var i6 := i;
    vSuper, i := NextNum(toks, i);
    assert NextValues(toks, i6, IsNum, 1) == [vSuper];
    assert NextValues(toks, i5, IsNum, 2) == [vFrTp] + NextValues(toks, i6, IsNum, 1);
    assert NextValues(toks, i4, IsNum, 3) == [vFrCdw] + NextValues(toks, i5, IsNum, 2);
    assert NextValues(toks, i3, IsNum, 4) == [vTp] + NextValues(toks, i4, IsNum, 3);
    assert NextValues(toks, i2, IsNum, 5) == [vCdw] + NextValues(toks, i3, IsNum, 4);
    assert NextValues(toks, i1, IsNum, 6) == [vFranMax] + NextValues(toks, i2, IsNum, 5);
    assert NextValues(toks, start, IsNum, 7) == [v1j] + NextValues(toks, i1, IsNum, 6);
    values := [v1j, vFranMax, vCdw, vTp, vFrCdw, vFrTp, vSuper];
    Display7(v1j, vFranMax, vCdw, vTp, vFrCdw, vFrTp, vSuper);
  }

  /** Started where the model loop stopped, the seven calls return the value
      fields of the record. */
  lemma VPValuesFromModelEnd(toks: seq<string>)
    requires |toks| > 0
    ensures NextValues(toks, 1 + |VPModelParts(toks)|, IsNum, VPValueCount) == VPValues(toks)
  {
    VPModelMeaning(toks);
    var start := 1 + |VPModelParts(toks)|;
    FilterSkip(toks, 1, start, IsNum);
    NextValuesPadded(toks, start, IsNum, VPValueCount);
  }

  /** A seven-element display is its elements consed one by one. */
  lemma Display7(a: string, b: string, c: string, d: string, e: string, f: string, g: string)
    ensures [a, b, c, d, e, f, g] == [a] + ([b] + ([c] + ([d] + ([e] + ([f] + [g])))))
  {
  }

  /** One iteration of the VP loop: the record of one cleaned row, computed
      as the source does (token filter, header test, category test, model
      loop, value scans). */
  method ParseVPRow(row: seq<string>) returns (rec: Option<seq<string>>)
    ensures rec == VPRecord(row)
  {
    var toks := Tokens(row);
    if |toks| == 0 {
      return None;
    }
    if IsVPHeader(toks) {
      return None;
    }
    var cat := toks[0];
    if !MatchesVPCategory(cat) {
      return None;
    }
    var model, i := ScanVPModel(toks);
    var values := ScanVPValues(toks, i);
    VPValuesFromModelEnd(toks);
    rec := Some([cat, model] + values);
  }

  /** The VP loop over the cleaned table: the records of the rows that yield
      one, in table order. */
  method VPRows(table: seq<seq<string>>) returns (records: seq<seq<string>>)
    ensures records == Collect(table, VPRecord)
  {
    records := [];
    for k := 0 to |table|
      invariant records == Collect(table[..k], VPRecord)
    {
      var rec := ParseVPRow(table[k]);
      CollectPrefix(table, k, VPRecord);
      if rec.Some? {
        records := records + [rec.value];
      }
    }
    assert table[..|table|] == table;
  }

  /** The VP pipeline on one extracted table: clean it, then parse it. */
  method ParseVP(raw: seq<RawRow>) returns (records: seq<seq<string>>)
    ensures records == Collect(Collect(raw, CleanRaw), VPRecord)
  {
    var cleaned := CleanTable(raw);
    records := VPRows(cleaned);
  }

  /** Every record of the VP table is the record of a cleaned row that is
      not a header row, and the records keep the order of their rows. */
  lemma VPTable(table: seq<seq<string>>)
    ensures |Collect(table, VPRecord)| == |KeptIndices(table, VPRecord)|
    ensures forall m :: 0 <= m < |Collect(table, VPRecord)| ==>
              var k := KeptIndices(table, VPRecord)[m];
              VPRecord(table[k]) == Some(Collect(table, VPRecord)[m]) &&
              !IsVPHeader(Tokens(table[k]))
    ensures forall m, n :: 0 <= m < n < |Collect(table, VPRecord)| ==>
              KeptIndices(table, VPRecord)[m] < KeptIndices(table, VPRecord)[n]
  {
    CollectInOrder(table, VPRecord);
    forall m | 0 <= m < |Collect(table, VPRecord)|
      ensures !IsVPHeader(Tokens(table[KeptIndices(table, VPRecord)[m]]))
    {
      VPRecordWhen(table[KeptIndices(table, VPRecord)[m]]);
    }
  }

  /** The "starts with CAT" test never rejects a row that the category test
      would keep: the upper-cased join of a row whose first token is a single
      capital letter has a space or nothing in second position. */
  lemma CatTestRedundant(toks: seq<string>)
    requires AllTokens(toks) && |toks| > 0
    requires |toks[0]| == 1 && IsAsciiUpper(toks[0][0])
    ensures !("CAT" <= Upper(Join(toks)))
  {
    if |toks| > 1 {
      assert Upper(Join(toks))[1] == UpperChar(Join(toks)[1]) == ' ';
    }
  }
}
