/** The utility-vehicle ("VU") schema parser (scraping_projet.py:128-196):
    every cleaned row whose first token is a category such as "B4" becomes a
    record of nine fields laid out as `VUHeaders` says: category, model,
    volume and six value fields. Header and descriptive rows are skipped. */
module VU {
  import opened Text
  import opened Numeric
  import opened Filtering
  import opened Cleaning
  import opened Scanning

  /** The column names of a VU record. */
  const VUHeaders: seq<string> := [
    "Category",
    "Model (or similar) depending on availability",
    "Volume (m\U{B3})",
    "1 day 100km, CDW/TP included (\U{20AC})",
    "Additional km (\U{20AC})",
    "Reduced CDW deductible (\U{20AC})",
    "Reduced TP deductible (\U{20AC})",
    "Super Cover (\U{20AC})",
    "Top-part guarantee (With Super Cover)"
  ]

  /** Number of value fields after the category, the model and the volume. */
  const VUValueCount: nat := 6

  // ---------------------------------------------------------------------
  // The regular expressions of the VU loop.

  /** `re.match(r"^[A-Z]\d+", t)`: a capital letter and a digit at the start. */
  predicate HasVUCategoryPrefix(t: string) {
    |t| >= 2 && IsAsciiUpper(t[0]) && IsDigit(t[1])
  }

  /** `re.match(r"^[A-Z]\d+$", c)`: a capital letter followed by one or more
      digits; as in Python, `$` also accepts one line break at the very end. */
  predicate MatchesVUCategory(c: string) {
    |c| >= 2 && IsAsciiUpper(c[0]) &&
    (AllDigits(c[1..]) || (|c| >= 3 && c[|c| - 1] == '\n' && AllDigits(c[1..|c| - 1])))
  }

  /** On a (stripped) token the category test is exactly "a capital letter
      followed by one or more digits". */
  lemma VUCategoryOnTokens(c: string)
    requires IsStripped(c)
    ensures MatchesVUCategory(c) <==> (|c| >= 2 && IsAsciiUpper(c[0]) && AllDigits(c[1..]))
  {
    if |c| >= 2 && AllDigits(c[1..]) {
      assert IsDigit(c[1..][|c| - 2]);
    }
  }

  /** `\d+(?: \+)?`, anchored at both ends: digits, optionally followed by a
      space and a plus sign. */
  predicate VolumeShape(s: string) {
    (|s| >= 1 && AllDigits(s))
    || (|s| >= 3 && AllDigits(s[..|s| - 2]) && s[|s| - 2] == ' ' && s[|s| - 1] == '+')
  }

  /** `re.match(r"^\d+(?: \+)?$", t)`, with Python's `$` that also accepts one
      line break at the very end. */
  predicate IsVolumeToken(s: string) {
    VolumeShape(s) || (|s| >= 2 && s[|s| - 1] == '\n' && VolumeShape(s[..|s| - 1]))
  }

  /** On a (stripped) token the volume test is exactly `VolumeShape`. */
  lemma VolumeOnTokens(s: string)
    requires IsStripped(s)
    ensures IsVolumeToken(s) <==> VolumeShape(s)
  {
  }

  /** A volume token is never a decimal number (it has no decimal mark). */
  lemma VolumeIsNotDecimal(s: string)
    requires VolumeShape(s)
    ensures !Contains(s, ",") && !Contains(s, ".")
  {
    forall k | 0 <= k < |s| ensures s[k] != ',' && s[k] != '.' {
      if !AllDigits(s) && k < |s| - 2 {
        assert s[k] == s[..|s| - 2][k];
      }
    }
    AbsentChar(s, ',');
    AbsentChar(s, '.');
  }

  /** A plus sign glued to the digits is not a volume: the pattern wants a
      space before it. */
  lemma GluedPlusNotVolume(s: string)
    requires s == "20+"
    ensures !IsVolumeToken(s)
  {
    assert !IsDigit(s[2]);
    assert s[..|s| - 2] == "2";
    assert s[|s| - 2] == '0';
    assert s[..|s| - 1] == "20";
  }

  /** A character that does not occur in `s` is not a substring of it. */
  lemma AbsentChar(s: string, c: char)
    requires forall k :: 0 <= k < |s| ==> s[k] != c
    ensures !Contains(s, [c])
  {
    forall i | 0 <= i < |s| ensures !OccursAt(s, [c], i) {
      assert s[i..i + 1][0] == s[i];
    }
  }

  // ---------------------------------------------------------------------
  // Row classification.

  /** The header test of the VU loop on the upper-cased join of the tokens;
      a row mentioning VOLUME is a header only when its first token does not
      start like a category. */
  predicate IsVUHeader(toks: seq<string>)
    requires |toks| > 0
  {
    var head := Upper(Join(toks));
    Contains(head, "VEHICULES UTILITAIRES")
    || "CAT" <= head
    || Contains(head, "KILOM\U{C9}TRAGE SUPPL\U{C9}MENTAIRE")
    || Contains(head, "GARANTIE")
    || Contains(head, "PARTIES HAUTES")
    || Contains(head, "COVER")
    || (Contains(head, "VOLUME") && !HasVUCategoryPrefix(toks[0]))
  }

  /** The rows that yield a record: at least one token, not a header row,
      and a category as first token. */
  predicate IsVUDataRow(toks: seq<string>) {
    |toks| > 0 && !IsVUHeader(toks) && MatchesVUCategory(toks[0])
  }

  /** The model loop goes on while the token is neither numeric nor a volume. */
  predicate IsVUModelToken(t: string) {
    !IsNum(t) && !IsVolumeToken(t)
  }

  /** The model tokens: the longest run after the category of tokens that
      are neither numeric nor volumes. */
  function VUModelParts(toks: seq<string>): (parts: seq<string>)
    requires |toks| > 0
    ensures 1 + |parts| <= |toks|
  {
    TakeWhile(toks[1..], IsVUModelToken)
  }

  // ---------------------------------------------------------------------
  // The volume scanner.

  /** The volume loop from position `i`: the volume parts it collects and the
      position where it stops. A volume token is taken as it is; a lone "+"
      followed by another token is taken together with that token; a token
      mentioning HAYON (tail lift) is taken as it is. Anything else ends the
      loop: a decimal number and every other token alike. */
  function VolumeScan(toks: seq<string>, i: nat): (r: (seq<string>, nat))
    ensures i <= r.1 && (i <= |toks| ==> r.1 <= |toks|)
    decreases |toks| - i
  {
    if i >= |toks| then ([], i)
    else
      var t := toks[i];
      if IsVolumeToken(t) then
        var rest := VolumeScan(toks, i + 1);
        ([t] + rest.0, rest.1)
      else if t == "+" && i + 1 < |toks| then
        var rest := VolumeScan(toks, i + 2);
        (["+" + " " + toks[i + 1]] + rest.0, rest.1)
      else if Contains(Upper(t), "HAYON") then
        var rest := VolumeScan(toks, i + 1);
        ([t] + rest.0, rest.1)
      else if IsNum(t) && (Contains(t, ",") || Contains(t, ".")) then
        ([], i)
      else
        ([], i)
  }

  /** A token position the volume loop consumes. */
  predicate IsVolumePiece(toks: seq<string>, i: nat)
    requires i < |toks|
  {
    IsVolumeToken(toks[i]) || (toks[i] == "+" && i + 1 < |toks|) || Contains(Upper(toks[i]), "HAYON")
  }

  /** The volume loop stops at the end of the tokens or at the first token it
      cannot take; the decimal-number test ends the loop exactly as the
      fall-through does, so the stop position does not depend on it. */
  lemma {:induction false} VolumeScanStops(toks: seq<string>, i: nat)
    requires i <= |toks|
    ensures VolumeScan(toks, i).1 == |toks| || !IsVolumePiece(toks, VolumeScan(toks, i).1)
    ensures |VolumeScan(toks, i).0| == 0 <==> (i == |toks| || !IsVolumePiece(toks, i))
    decreases |toks| - i
  {
    if i < |toks| {
      var t := toks[i];
      if IsVolumeToken(t) || Contains(Upper(t), "HAYON") {
        VolumeScanStops(toks, i + 1);
      } else if t == "+" && i + 1 < |toks| {
        VolumeScanStops(toks, i + 2);
      }
    }
  }

  /** The volume field is the consumed tokens joined with spaces: merging "+"
      with the token after it changes how the parts are cut, not the text.
      The scan collects nothing exactly when it consumes nothing. */
  lemma {:induction false} VolumeScanText(toks: seq<string>, i: nat)
    requires i <= |toks|
    ensures |VolumeScan(toks, i).0| == 0 <==> VolumeScan(toks, i).1 == i
    ensures Join(VolumeScan(toks, i).0) == Join(toks[i..VolumeScan(toks, i).1])
    decreases |toks| - i
  {
    if i < |toks| {
      var t := toks[i];
      if IsVolumeToken(t) {
        Consumed(toks, i, i + 1);
      } else if t == "+" && i + 1 < |toks| {
        MergedPlus(toks, i, i + 2);
      } else if Contains(Upper(t), "HAYON") {
        Consumed(toks, i, i + 1);
      }
    }
  }

  /** The step of `VolumeScanText` for a token taken as it is. */
  lemma {:induction false} Consumed(toks: seq<string>, i: nat, j: nat)
    requires i < |toks| && j == i + 1
    requires VolumeScan(toks, i) == ([toks[i]] + VolumeScan(toks, j).0, VolumeScan(toks, j).1)
    ensures |VolumeScan(toks, i).0| == 0 <==> VolumeScan(toks, i).1 == i
    ensures Join(VolumeScan(toks, i).0) == Join(toks[i..VolumeScan(toks, i).1])
    decreases |toks| - i, 0
  {
    var rest := VolumeScan(toks, j);
    var e := rest.1;
    VolumeScanText(toks, j);
    SliceOne(toks, i, e);
    JoinPrepend(toks[i], rest.0, toks[j..e]);
  }

  /** Putting the same part in front of two lists with the same join keeps
      their joins equal. */
  lemma JoinPrepend(x: string, rest: seq<string>, tail: seq<string>)
    requires Join(rest) == Join(tail) && (|rest| == 0 <==> |tail| == 0)
    ensures Join([x] + rest) == Join([x] + tail)
  {
    JoinCons(x, rest);
    JoinCons(x, tail);
  }

  /** A non-empty slice, taken apart at its first element. */
  lemma SliceOne(toks: seq<string>, i: nat, e: nat)
    requires i + 1 <= e <= |toks|
    ensures toks[i..e] == [toks[i]] + toks[i + 1..e]
  {
  }

  /** Merging the first two parts with a space leaves the joined text alone. */
  lemma JoinMerge(x: string, y: string, rest: seq<string>, tail: seq<string>)
    requires Join(rest) == Join(tail) && (|rest| == 0 <==> |tail| == 0)
    ensures Join([x + " " + y] + rest) == Join([x] + ([y] + tail))
  {
    JoinCons(x, [y] + tail);
    JoinCons(y, tail);
    JoinCons(x + " " + y, rest);
    if |tail| > 0 {
      SpacedAssoc(x, y, Join(tail));
    }
  }

  /** Concatenation with spaces regroups freely. */
  lemma SpacedAssoc(x: string, y: string, z: string)
    ensures (x + " " + y) + " " + z == x + " " + (y + " " + z)
  {
  }

  /** A slice of at least two elements, taken apart at its first two. */
  lemma SliceTwo(toks: seq<string>, i: nat, e: nat)
    requires i + 2 <= e <= |toks|
    ensures toks[i..e] == [toks[i]] + ([toks[i + 1]] + toks[i + 2..e])
  {
  }

  /** The step of `VolumeScanText` for a "+" merged with the token after it. */
  lemma {:induction false} MergedPlus(toks: seq<string>, i: nat, j: nat)
    requires i + 1 < |toks| && j == i + 2
    requires VolumeScan(toks, i) == ([toks[i] + " " + toks[i + 1]] + VolumeScan(toks, j).0, VolumeScan(toks, j).1)
    ensures |VolumeScan(toks, i).0| == 0 <==> VolumeScan(toks, i).1 == i
    ensures Join(VolumeScan(toks, i).0) == Join(toks[i..VolumeScan(toks, i).1])
    decreases |toks| - i, 0
  {
    var rest := VolumeScan(toks, j);
    var e := rest.1;
    VolumeScanText(toks, j);
    SliceTwo(toks, i, e);
    JoinMerge(toks[i], toks[i + 1], rest.0, toks[j..e]);
  }

  /** Every token the volume scan consumes is one it can take, or comes right
      after a consumed "+". `VolumeScanWalk` says which "+" tokens start a
      merge. */
  lemma {:induction false} VolumeScanConsumes(toks: seq<string>, i: nat)
    requires i <= |toks|
    ensures forall k :: i <= k < VolumeScan(toks, i).1 ==>
              IsVolumePiece(toks, k) || (i < k && toks[k - 1] == "+")
    decreases |toks| - i
  {
    if i < |toks| {
      var t := toks[i];
      var e := VolumeScan(toks, i).1;
      if IsVolumeToken(t) {
        VolumeScanConsumes(toks, i + 1);
        ExtendConsumed(toks, i, i + 1, e);
      } else if t == "+" && i + 1 < |toks| {
        VolumeScanConsumes(toks, i + 2);
        ExtendConsumed(toks, i, i + 2, e);
      } else if Contains(Upper(t), "HAYON") {
        VolumeScanConsumes(toks, i + 1);
        ExtendConsumed(toks, i, i + 1, e);
      }
    }
  }

  /** The step of `VolumeScanConsumes`: a taken token, or a "+" with the token
      after it, in front of a consumed run. */
  lemma ExtendConsumed(toks: seq<string>, i: nat, j: nat, e: nat)
    requires i < j <= e <= |toks| && IsVolumePiece(toks, i)
    requires j == i + 1 || (j == i + 2 && toks[i] == "+")
    requires forall k :: j <= k < e ==> IsVolumePiece(toks, k) || (j < k && toks[k - 1] == "+")
    ensures forall k :: i <= k < e ==> IsVolumePiece(toks, k) || (i < k && toks[k - 1] == "+")
  {
  }

  /** Where one iteration of the volume loop moves the cursor from a position
      it takes: past a "+" and the token after it, or past the token alone. */
  function VolumeStep(toks: seq<string>, i: nat): (j: nat)
    requires i < |toks| && IsVolumePiece(toks, i)
    ensures i < j <= |toks|
  {
    if !IsVolumeToken(toks[i]) && toks[i] == "+" && i + 1 < |toks| then i + 2 else i + 1
  }

  /** The positions the volume loop looks at from `i`, one per iteration and
      in order; the last one is where it gives up. */
  ghost function VolumeVisits(toks: seq<string>, i: nat): (v: seq<nat>)
    requires i <= |toks|
    ensures |v| >= 1 && v[0] == i
    decreases |toks| - i
  {
    if i < |toks| && IsVolumePiece(toks, i) then [i] + VolumeVisits(toks, VolumeStep(toks, i))
    else [i]
  }

  /** One iteration of the volume loop takes position `a` and moves on to `b`. */
  ghost predicate VolumeMove(toks: seq<string>, a: nat, b: nat) {
    a < |toks| && IsVolumePiece(toks, a) && b == VolumeStep(toks, a)
  }

  /** The volume loop walks from `i` one iteration at a time over positions it
      can take, and `VolumeScan` stops at the first visited position it cannot
      take (or at the end): the walk's last position is the scan's stop. */
  lemma {:induction false} VolumeScanWalk(toks: seq<string>, i: nat)
    requires i <= |toks|
    ensures var v := VolumeVisits(toks, i);
      (forall m :: 0 <= m < |v| - 1 ==> VolumeMove(toks, v[m], v[m + 1]))
      && v[|v| - 1] == VolumeScan(toks, i).1
      && (v[|v| - 1] == |toks| || !IsVolumePiece(toks, v[|v| - 1]))
    decreases |toks| - i
  {
    if i < |toks| && IsVolumePiece(toks, i) {
      var j := VolumeStep(toks, i);
      VolumeScanWalk(toks, j);
      WalkCons(toks, i, VolumeVisits(toks, j));
      assert VolumeScan(toks, i).1 == VolumeScan(toks, j).1;
    }
  }

  /** The step of `VolumeScanWalk`: a move in front of a walk is a walk. */
  lemma WalkCons(toks: seq<string>, i: nat, w: seq<nat>)
    requires |w| >= 1 && VolumeMove(toks, i, w[0])
    requires forall m :: 0 <= m < |w| - 1 ==> VolumeMove(toks, w[m], w[m + 1])
    ensures forall m :: 0 <= m < |[i] + w| - 1 ==> VolumeMove(toks, ([i] + w)[m], ([i] + w)[m + 1])
  {
    forall m | 0 <= m < |[i] + w| - 1
      ensures VolumeMove(toks, ([i] + w)[m], ([i] + w)[m + 1])
    {
      if m > 0 {
        assert ([i] + w)[m] == w[m - 1] && ([i] + w)[m + 1] == w[m];
      }
    }
  }

  /** "+ x" is a non-empty stripped part when `x` is. */
  lemma PlusPartStripped(x: string)
    requires |x| > 0 && IsStripped(x)
    ensures |"+" + " " + x| > 0 && IsStripped("+" + " " + x)
  {
    var p := "+" + " " + x;
    assert p[0] == '+';
    assert p[|p| - 1] == x[|x| - 1];
  }

  /** Every volume part is a non-empty stripped string, so the `.strip()`
      after the join changes nothing. */
  lemma {:induction false} VolumePartsAreTokens(toks: seq<string>, i: nat)
    requires AllTokens(toks)
    ensures AllTokens(VolumeScan(toks, i).0)
    decreases |toks| - i
  {
    if i < |toks| {
      var t := toks[i];
      if IsVolumeToken(t) || (!(t == "+" && i + 1 < |toks|) && Contains(Upper(t), "HAYON")) {
        VolumePartsAreTokens(toks, i + 1);
      } else if t == "+" && i + 1 < |toks| {
        VolumePartsAreTokens(toks, i + 2);
        PlusPartStripped(toks[i + 1]);
      }
    }
  }

  /** A volume cell split by the extractor into a number, a lone "+" and a
      qualifier is read back as two parts, the number and "+ qualifier", and
      the scan stops after them at a token it cannot take. */
  lemma VolumeMergeSplit(toks: seq<string>, i: nat)
    requires i + 3 <= |toks|
    requires IsVolumeToken(toks[i]) && toks[i + 1] == "+"
    requires i + 3 == |toks| || !IsVolumePiece(toks, i + 3)
    ensures VolumeScan(toks, i) == ([toks[i], "+" + " " + toks[i + 2]], i + 3)
  {
    assert !IsVolumeToken(toks[i + 1]) by {
      assert !IsDigit(toks[i + 1][0]);
    }
    assert VolumeScan(toks, i + 3) == ([], i + 3);
    assert VolumeScan(toks, i + 1).0 == ["+" + " " + toks[i + 2]] + [];
    assert VolumeScan(toks, i).0 == [toks[i]] + VolumeScan(toks, i + 1).0;
    assert [toks[i]] + (["+" + " " + toks[i + 2]] + []) == [toks[i], "+" + " " + toks[i + 2]];
  }

  /** "60,00" is not a piece of a volume. */
  lemma PriceNotVolumePiece(toks: seq<string>, i: nat)
    requires i < |toks| && toks[i] == "60,00"
    ensures !IsVolumePiece(toks, i)
  {
    assert !IsVolumeToken(toks[i]) by {
      assert !IsDigit(toks[i][2]);
    }
    assert !Contains(Upper(toks[i]), "HAYON") by {
      var h := Upper(toks[i]);
      assert h[0] == '6';
      assert !("HAYON" <= h);
      assert !Contains(h[1..], "HAYON");
    }
  }

  /** The join of a volume and a "+ x" part. */
  lemma JoinPlus(a: string, x: string)
    requires a == "20" && x == "Hayon"
    ensures Join([a, "+" + " " + x]) == "20 + Hayon"
  {
    assert Join([a, "+" + " " + x]) == a + " " + ("+" + " " + x);
  }

  // ---------------------------------------------------------------------
  // Records.

  /** The volume parts and the position after them. */
  function VUVolume(toks: seq<string>): (r: (seq<string>, nat))
    requires |toks| > 0
    ensures r.1 <= |toks|
  {
    VolumeScan(toks, 1 + |VUModelParts(toks)|)
  }

  /** The six value fields: the first six numeric tokens after the volume,
      padded with "" when the row has fewer. */
  function VUValues(toks: seq<string>): seq<string>
    requires |toks| > 0
  {
    PadTo(NumericOnly(toks[VUVolume(toks).1..]), VUValueCount)
  }

  /** The fields of the record of a data row: the category token, the model
      and volume parts joined with spaces, and the value fields. */
  function VUFields(toks: seq<string>): seq<string>
    requires |toks| > 0
  {
    [toks[0], Join(VUModelParts(toks)), Join(VUVolume(toks).0)] + VUValues(toks)
  }

  /** The record a cleaned row yields, if any. */
  function VURecord(row: seq<string>): Option<seq<string>> {
    var toks := Tokens(row);
    if IsVUDataRow(toks) then Some(VUFields(toks)) else None
  }

  /** Which rows yield a record: exactly the rows with at least one token
      that are not header rows and whose first token is a capital letter
      followed by digits. */
  lemma VURecordWhen(row: seq<string>)
    ensures VURecord(row).Some? <==>
              (|Tokens(row)| > 0 && !IsVUHeader(Tokens(row)) &&
               |Tokens(row)[0]| >= 2 && IsAsciiUpper(Tokens(row)[0][0]) &&
               AllDigits(Tokens(row)[0][1..]))
  {
    if |Tokens(row)| > 0 {
      VUCategoryOnTokens(Tokens(row)[0]);
    }
  }

  /** A record has the nine columns of `VUHeaders`, and its category is the
      row's first token: a capital letter followed by digits. */
  lemma VURecordShape(row: seq<string>)
    requires VURecord(row).Some?
    ensures |VURecord(row).value| == |VUHeaders|
    ensures VURecord(row).value[0] == Tokens(row)[0]
    ensures |VURecord(row).value[0]| >= 2 && IsAsciiUpper(VURecord(row).value[0][0]) &&
            AllDigits(VURecord(row).value[0][1..])
  {
    VUCategoryOnTokens(Tokens(row)[0]);
  }

  /** The model is made of the tokens after the category up to, not
      including, the first one that is numeric or a volume. */
  lemma VUModelMeaning(toks: seq<string>)
    requires |toks| > 0
    ensures forall k :: 0 <= k < |VUModelParts(toks)| ==>
              VUModelParts(toks)[k] == toks[1 + k] && !IsNum(toks[1 + k]) && !IsVolumeToken(toks[1 + k])
    ensures 1 + |VUModelParts(toks)| < |toks| ==>
              IsNum(toks[1 + |VUModelParts(toks)|]) || IsVolumeToken(toks[1 + |VUModelParts(toks)|])
  {
    var parts := VUModelParts(toks);
    TakeWhileMeaning(toks[1..], IsVUModelToken);
    assert forall k :: 0 <= k < |parts| ==> parts[k] == toks[1..][k];
    if 1 + |parts| < |toks| {
      assert toks[1..][|parts|] == toks[1 + |parts|];
    }
  }

  /** The model and the volume fields are stripped: the `.strip()` after
      each join is a no-op. */
  lemma VUJoinsStripped(toks: seq<string>)
    requires |toks| > 0 && AllTokens(toks)
    ensures Strip(Join(VUModelParts(toks))) == Join(VUModelParts(toks))
    ensures Strip(Join(VUVolume(toks).0)) == Join(VUVolume(toks).0)
  {
    var parts := VUModelParts(toks);
    assert forall k :: 0 <= k < |parts| ==> parts[k] == toks[1 + k];
    JoinStripped(parts);
    VolumePartsAreTokens(toks, 1 + |parts|);
    JoinStripped(VUVolume(toks).0);
  }

  /** The value fields: each non-empty one is numeric, once a field is ""
      every later one is "" too, and the k-th field is the k-th numeric
      token after the volume. */
  lemma VUValuesMeaning(toks: seq<string>)
    requires |toks| > 0
    ensures |VUValues(toks)| == 6
    ensures forall k :: 0 <= k < 6 && |VUValues(toks)[k]| > 0 ==> IsNum(VUValues(toks)[k])
    ensures forall k, l :: 0 <= k < l < 6 && |VUValues(toks)[k]| == 0 ==> |VUValues(toks)[l]| == 0
    ensures forall k :: 0 <= k < 6 && k < |NumericOnly(toks[VUVolume(toks).1..])| ==>
              VUValues(toks)[k] == NumericOnly(toks[VUVolume(toks).1..])[k]
  {
    PaddedNumericFields(toks[VUVolume(toks).1..], VUValueCount);
  }

  /** A model of one word: the token after the category is taken and the
      one after it is not. */
  lemma OneWordVUModel(toks: seq<string>)
    requires |toks| >= 3 && IsVUModelToken(toks[1]) && !IsVUModelToken(toks[2])
    ensures VUModelParts(toks) == [toks[1]]
  {
    TakeWhileUnique(toks[1..], IsVUModelToken, [toks[1]]);
  }

  /** A row laid out as category, one-word model, a volume split into a
      number, "+" and a qualifier, then a token that is not part of a
      volume: the volume is read back as the number and "+ qualifier". */
  lemma VUSplitVolumeRow(toks: seq<string>)
    requires |toks| >= 6
    requires IsVUModelToken(toks[1]) && IsVolumeToken(toks[2]) && toks[3] == "+"
    requires !IsVolumePiece(toks, 5)
    ensures VUVolume(toks) == ([toks[2], "+" + " " + toks[4]], 5)
  {
    OneWordVUModel(toks);
    VolumeMergeSplit(toks, 2);
    assert VUVolume(toks) == VolumeScan(toks, 2);
  }

  /** When exactly six tokens, all numeric, follow the volume, they are the
      six value fields, in order. */
  lemma VUValuesAllPrices(toks: seq<string>)
    requires |toks| > 0 && VUVolume(toks).1 + 6 == |toks|
    requires forall k :: VUVolume(toks).1 <= k < |toks| ==> IsNum(toks[k])
    ensures VUValues(toks) == toks[VUVolume(toks).1..]
  {
    PadFilterAll(toks, VUVolume(toks).1, IsNum, 6);
  }

  /** The tokens of the volume-merge row, classified. */
  lemma VolumeMergeTokens(toks: seq<string>)
    requires |toks| == 11 && toks[0] == "B4" && toks[1] == "Partner"
    requires toks[2] == "20" && toks[3] == "+" && toks[4] == "Hayon"
    requires toks[5] == "60,00" && toks[6] == "0,50" && toks[7] == "35,00"
    requires toks[8] == "150,00" && toks[9] == "60,00" && toks[10] == "40,00"
    ensures IsVUModelToken(toks[1]) && IsVolumeToken(toks[2]) && toks[3] == "+"
    ensures !IsVolumePiece(toks, 5)
    ensures forall k :: 5 <= k < 11 ==> IsNum(toks[k])
  {
    assert !IsDigit(toks[1][0]);
    NonDigitStartNotNum(toks[1]);
    NonDigitStartNotVolume(toks[1]);
    assert IsVolumeToken(toks[2]);
    PriceNotVolumePiece(toks, 5);
    forall k | 5 <= k < 11 ensures IsNum(toks[k]) {
      PricesAreNumbers(toks[k]);
    }
  }

  /** A token that does not start with a digit is not a volume. */
  lemma NonDigitStartNotVolume(s: string)
    requires |s| > 0 && !IsDigit(s[0])
    ensures !IsVolumeToken(s)
  {
    if |s| >= 3 {
      assert s[..|s| - 2][0] == s[0];
    }
    if |s| >= 2 {
      assert s[..|s| - 1][0] == s[0];
      if |s| >= 4 {
        assert s[..|s| - 1][..|s| - 3][0] == s[0];
      }
    }
  }

  /** A row whose tokens contain no V, M or I in either case, and whose first
      token does not start with C, is not a header row: every heading word
      of the test contains one of those letters. */
  lemma NotVUHeader(toks: seq<string>)
    requires |toks| > 0 && |toks[0]| > 0 && UpperChar(toks[0][0]) != 'C'
    requires forall k :: 0 <= k < |toks| ==>
               UpperAvoids(toks[k], 'V') && UpperAvoids(toks[k], 'M') && UpperAvoids(toks[k], 'I')
    ensures !IsVUHeader(toks)
  {
    var j := Join(toks);
    JoinAvoids(toks, 'V');
    JoinAvoids(toks, 'M');
    JoinAvoids(toks, 'I');
    MissingLetter(j, "VEHICULES UTILITAIRES", 0);
    MissingLetter(j, "KILOM\U{C9}TRAGE SUPPL\U{C9}MENTAIRE", 4);
    MissingLetter(j, "GARANTIE", 6);
    MissingLetter(j, "PARTIES HAUTES", 4);
    MissingLetter(j, "COVER", 2);
    MissingLetter(j, "VOLUME", 0);
    JoinStart(toks);
    assert Upper(j)[0] != 'C';
  }

  /** The volume-merge row passes the header filter and the category test. */
  lemma MergeRowIsData(toks: seq<string>)
    requires |toks| == 11 && toks[0] == "B4" && toks[1] == "Partner"
    requires toks[2] == "20" && toks[3] == "+" && toks[4] == "Hayon"
    requires forall k :: 5 <= k < 11 ==> IsNum(toks[k])
    ensures IsVUDataRow(toks)
  {
    forall k | 0 <= k < 11
      ensures UpperAvoids(toks[k], 'V') && UpperAvoids(toks[k], 'M') && UpperAvoids(toks[k], 'I')
    {
      if k >= 5 {
        NumAvoidsLetters(toks[k], 'V');
        NumAvoidsLetters(toks[k], 'M');
        NumAvoidsLetters(toks[k], 'I');
      } else {
        assert k == 0 || k == 1 || k == 2 || k == 3 || k == 4;
      }
    }
    NotVUHeader(toks);
    assert toks[0][1..] == "4";
  }

  /** The volume-merge row: the model is "Partner", the split volume cell
      is read back as "20 + Hayon", and the six prices that follow fill the
      six value fields in order. */
  lemma VUScenarioVolumeMerge(toks: seq<string>)
    requires |toks| == 11 && toks[0] == "B4" && toks[1] == "Partner"
    requires toks[2] == "20" && toks[3] == "+" && toks[4] == "Hayon"
    requires toks[5] == "60,00" && toks[6] == "0,50" && toks[7] == "35,00"
    requires toks[8] == "150,00" && toks[9] == "60,00" && toks[10] == "40,00"
    ensures VUModelParts(toks) == [toks[1]]
    ensures Join(VUVolume(toks).0) == "20 + Hayon"
    ensures VUValues(toks) == toks[5..]
    ensures IsVUDataRow(toks)
  {
    VolumeMergeTokens(toks);
    MergeRowIsData(toks);
    OneWordVUModel(toks);
    VUSplitVolumeRow(toks);
    VUValuesAllPrices(toks);
    JoinPlus(toks[2], toks[4]);
  }

  // ---------------------------------------------------------------------
  // The loop, as the source runs it.

  /** The model loop of one row: from the second token, collect tokens up to
      the first numeric or volume token; the model is their join, stripped.
      Returns the position where the loop stopped. */
  method ScanVUModel(toks: seq<string>) returns (model: string, i: nat)
    requires |toks| > 0 && AllTokens(toks)
    ensures model == Join(VUModelParts(toks))
    ensures i == 1 + |VUModelParts(toks)| && i <= |toks|
  {
    i := 1;
    var parts: seq<string> := [];
    while i < |toks| && !IsNum(toks[i]) && !IsVolumeToken(toks[i])
      invariant 1 <= i <= |toks|
      invariant parts == toks[1..i]
      invariant forall k :: 0 <= k < |parts| ==> IsVUModelToken(parts[k])
    {
      parts := parts + [toks[i]];
      i := i + 1;
    }
    TakeWhileUnique(toks[1..], IsVUModelToken, parts);
    assert VUModelParts(toks) == parts;
    assert |parts| == i - 1;
    VUJoinsStripped(toks);
    model := Strip(Join(parts));
  }

  /** The volume loop of one row, from position `start`. */
  method ScanVolume(toks: seq<string>, start: nat) returns (parts: seq<string>, i: nat)
    requires start <= |toks|
    ensures (parts, i) == VolumeScan(toks, start)
  {
    i := start;
    parts := [];
    assert VolumeScan(toks, start).0 == parts + VolumeScan(toks, i).0;
    while i < |toks|
      invariant start <= i <= |toks|
      invariant VolumeScan(toks, start).0 == parts + VolumeScan(toks, i).0
      invariant VolumeScan(toks, start).1 == VolumeScan(toks, i).1
      decreases |toks| - i
    {
      var t := toks[i];
      if IsVolumeToken(t) {
        assert parts + VolumeScan(toks, i).0 == (parts + [t]) + VolumeScan(toks, i + 1).0;
        parts := parts + [t];
        i := i + 1;
        continue;
      }
      if t == "+" && i + 1 < |toks| {
        assert parts + VolumeScan(toks, i).0 == (parts + ["+" + " " + toks[i + 1]]) + VolumeScan(toks, i + 2).0;
        parts := parts + ["+" + " " + toks[i + 1]];
        i := i + 2;
        continue;
      }
      if Contains(Upper(t), "HAYON") {
        assert parts + VolumeScan(toks, i).0 == (parts + [t]) + VolumeScan(toks, i + 1).0;
        parts := parts + [t];
        i := i + 1;
        continue;
      }
      if IsNum(t) && (Contains(t, ",") || Contains(t, ".")) {
        assert VolumeScan(toks, i) == ([], i);
        break;
      }
      assert VolumeScan(toks, i) == ([], i);
      break;
    }
    assert VolumeScan(toks, i) == ([], i);
    assert parts + [] == parts;
  }

  /** The six `next_num` calls of one row, from position `start`. */
  method ScanVUValues(toks: seq<string>, start: nat) returns (values: seq<string>)
    ensures values == NextValues(toks, start, IsNum, VUValueCount)
  {
    var i := start;
    var v1j, vKm, vFrCdw, vFrTp, vSuper, vGar;
    v1j, i := NextNum(toks, i);
    ghost var i1 := i;
    vKm, i := NextNum(toks, i);
    ghost var i2 := i;
    vFrCdw, i := NextNum(toks, i);
    ghost var i3 := i;
    vFrTp, i := NextNum(toks, i);
    ghost var i4 := i;
    vSuper, i := NextNum(toks, i);
    ghost var i5 := i;
    vGar, i := NextNum(toks, i);
    assert NextValues(toks, i5, IsNum, 1) == [vGar];
    assert NextValues(toks, i4, IsNum, 2) == [vSuper] + NextValues(toks, i5, IsNum, 1);
    assert NextValues(toks, i3, IsNum, 3) == [vFrTp] + NextValues(toks, i4, IsNum, 2);
    assert NextValues(toks, i2, IsNum, 4) == [vFrCdw] + NextValues(toks, i3, IsNum, 3);
    assert NextValues(toks, i1, IsNum, 5) == [vKm] + NextValues(toks, i2, IsNum, 4);
    assert NextValues(toks, start, IsNum, 6) == [v1j] + NextValues(toks, i1, IsNum, 5);
    values := [v1j, vKm, vFrCdw, vFrTp, vSuper, vGar];
    Display6(v1j, vKm, vFrCdw, vFrTp, vSuper, vGar);
  }

  /** A six-element display is its elements consed one by one. */
  lemma Display6(a: string, b: string, c: string, d: string, e: string, f: string)
    ensures [a, b, c, d, e, f] == [a] + ([b] + ([c] + ([d] + ([e] + [f]))))
  {
  }

  /** Started after the volume, the six calls return the value fields. */
  lemma VUValuesFromVolumeEnd(toks: seq<string>)
    requires |toks| > 0
    ensures NextValues(toks, VUVolume(toks).1, IsNum, VUValueCount) == VUValues(toks)
  {
    NextValuesPadded(toks, VUVolume(toks).1, IsNum, VUValueCount);
  }

  /** One iteration of the VU loop: the record of one cleaned row, computed
      as the source does (token filter, header test, category test, model
      loop, volume loop, value scans). */
  method ParseVURow(row: seq<string>) returns (rec: Option<seq<string>>)
    ensures rec == VURecord(row)
  {
    var toks := Tokens(row);
    if |toks| == 0 {
      return None;
    }
    if IsVUHeader(toks) {
      return None;
    }
    var cat := toks[0];
    if !MatchesVUCategory(cat) {
      return None;
    }
    var fields := ScanVUFields(toks);
    rec := Some(fields);
  }

  /** The model loop, the volume loop and the value scans of a data row. */
  method ScanVUFields(toks: seq<string>) returns (fields: seq<string>)
    requires |toks| > 0 && AllTokens(toks)
    ensures fields == VUFields(toks)
  {
    var model, i := ScanVUModel(toks);
    var volParts;
    volParts, i := ScanVolume(toks, i);
    VUJoinsStripped(toks);
    var volume := Strip(Join(volParts));
    var values := ScanVUValues(toks, i);
    VUValuesFromVolumeEnd(toks);
    fields := [toks[0], model, volume] + values;
  }

  /** The VU loop over the cleaned table: the records of the rows that yield
      one, in table order. */
  method VURows(table: seq<seq<string>>) returns (records: seq<seq<string>>)
    ensures records == Collect(table, VURecord)
  {
    records := [];
    for k := 0 to |table|
      invariant records == Collect(table[..k], VURecord)
    {
      var rec := ParseVURow(table[k]);
      CollectPrefix(table, k, VURecord);
      if rec.Some? {
        records := records + [rec.value];
      }
    }
    assert table[..|table|] == table;
  }

  /** The VU pipeline on one extracted table: clean it, then parse it. */
  method ParseVU(raw: seq<RawRow>) returns (records: seq<seq<string>>)
    ensures records == Collect(Collect(raw, CleanRaw), VURecord)
  {
    var cleaned := CleanTable(raw);
    records := VURows(cleaned);
  }

  /** Every record of the VU table is the record of a cleaned row that is
      not a header row, and the records keep the order of their rows. */
  lemma VUTable(table: seq<seq<string>>)
    ensures |Collect(table, VURecord)| == |KeptIndices(table, VURecord)|
    ensures forall m :: 0 <= m < |Collect(table, VURecord)| ==>
              var k := KeptIndices(table, VURecord)[m];
              VURecord(table[k]) == Some(Collect(table, VURecord)[m]) &&
              |Tokens(table[k])| > 0 && !IsVUHeader(Tokens(table[k]))
    ensures forall m, n :: 0 <= m < n < |Collect(table, VURecord)| ==>
              KeptIndices(table, VURecord)[m] < KeptIndices(table, VURecord)[n]
  {
    CollectInOrder(table, VURecord);
    forall m | 0 <= m < |Collect(table, VURecord)|
      ensures |Tokens(table[KeptIndices(table, VURecord)[m]])| > 0 &&
              !IsVUHeader(Tokens(table[KeptIndices(table, VURecord)[m]]))
    {
      VURecordWhen(table[KeptIndices(table, VURecord)[m]]);
    }
  }

  /** The "starts with CAT" test never rejects a row that the category test
      would keep: the second character of the upper-cased join is then a
      digit. */
  lemma CatTestRedundant(toks: seq<string>)
    requires AllTokens(toks) && |toks| > 0
    requires |toks[0]| >= 2 && IsAsciiUpper(toks[0][0]) && IsDigit(toks[0][1])
    ensures !("CAT" <= Upper(Join(toks)))
  {
    if |toks| > 1 {
      assert Join(toks)[1] == toks[0][1];
    }
    assert Upper(Join(toks))[1] == UpperChar(Join(toks)[1]);
  }
}
