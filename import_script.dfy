/** The stand-alone seeding script `importVinyls.js`: a naive CSV parser
    (plain comma split, no quotes, headers trimmed only) and a loop that
    inserts one product per row, counting the inserts that succeed and the
    ones that throw. Reading the file is the `content` parameter; the
    database insert is the `insert` oracle, which says whether the query
    succeeded. */
module ImportScript {
  import opened JsString
  import opened JsNumber
  import CsvImport

  // ---------------------------------------------------------------- parsing

  /** A parsed row: header name to the trimmed value, or `null`. */
  type ScriptRow = map<string, Option<string>>

  /** The header names: the first line split on every comma, each trimmed,
      with their letter case and every character kept. */
  function ScriptHeaders(line: string): (r: seq<string>)
    ensures |r| == Occurrences(line, ',') + 1
    ensures forall i :: 0 <= i < |r| ==> r[i] == Trim(Split(line, ',')[i])
  {
    CsvImport.TrimAll(Split(line, ','))
  }

  /** `values[index] ? values[index].trim() : null`: a missing or empty
      value is `null`; any other is trimmed (so a value of only spaces reads
      as the empty string). */
  function Cell(values: seq<string>, idx: nat): (r: Option<string>)
    ensures r.None? <==> idx >= |values| || values[idx] == []
    ensures r.Some? ==> r.value == Trim(values[idx])
  {
    if idx < |values| && values[idx] != [] then Some(Trim(values[idx])) else None
  }

  /** The row `headers.forEach` builds; a repeated header keeps its last
      value. */
  function RowOf(headers: seq<string>, values: seq<string>): ScriptRow {
    if headers == [] then map[]
    else RowOf(headers[..|headers| - 1], values)[headers[|headers| - 1] := Cell(values, |headers| - 1)]
  }

  method BuildRow(headers: seq<string>, values: seq<string>) returns (row: ScriptRow)
    ensures row == RowOf(headers, values)
  {
    row := map[];
    for index := 0 to |headers|
      invariant row == RowOf(headers[..index], values)
    {
      assert headers[..index + 1][..index] == headers[..index];
      row := row[headers[index] := Cell(values, index)];
    }
    assert headers[..|headers|] == headers;
  }

  /** Each header names the value at its own position (its last position
      when repeated): values are mapped by position alone. */
  lemma {:induction false} RowOfLookup(headers: seq<string>, values: seq<string>, j: nat)
    requires j < |headers|
    requires forall k :: j < k < |headers| ==> headers[k] != headers[j]
    ensures headers[j] in RowOf(headers, values) && RowOf(headers, values)[headers[j]] == Cell(values, j)
  {
    if j < |headers| - 1 {
      RowOfLookup(headers[..|headers| - 1], values, j);
    }
  }

  /** The row read from data line `line`. */
  function RowOfLine(headers: seq<string>, line: string): ScriptRow {
    RowOf(headers, Split(line, ','))
  }

  /** The rows of the file: one per non-blank line after the first. */
  function Rows(lines: seq<string>): (r: seq<ScriptRow>)
    requires |lines| >= 1
    ensures |r| == |lines| - 1
    ensures forall i :: 1 <= i < |lines| ==> r[i - 1] == RowOfLine(ScriptHeaders(lines[0]), lines[i])
  {
    seq(|lines| - 1, i requires 0 <= i < |lines| - 1 => RowOfLine(ScriptHeaders(lines[0]), lines[i + 1]))
  }

  /** `parseCSV`: `None` when the file has no non-blank line, since reading
      the header of an empty list throws. */
  method ParseCsv(content: string) returns (rows: Option<seq<ScriptRow>>)
    ensures rows.None? <==> CsvImport.Lines(content) == []
    ensures rows.Some? ==> rows.value == Rows(CsvImport.Lines(content))
  {
    var lines := CsvImport.Lines(content);
    if lines == [] {
      return None;
    }
    var headers := ScriptHeaders(lines[0]);
    var acc: seq<ScriptRow> := [];
    for i := 1 to |lines|
      invariant |acc| == i - 1
      invariant forall k :: 1 <= k < i ==> acc[k - 1] == RowOfLine(headers, lines[k])
    {
      var row := BuildRow(headers, Split(lines[i], ','));
      acc := acc + [row];
    }
    rows := Some(acc);
  }

  /** The rows are the non-blank lines minus the header: a blank line in the
      middle of the file produces no row. */
  lemma RowCount(content: string)
    requires CsvImport.Lines(content) != []
    ensures |Rows(CsvImport.Lines(content))| == |CsvImport.Lines(content)| - 1
    ensures |CsvImport.Lines(content)| <= |Split(content, '\n')|
  {
  }

  /** The script's splitter knows nothing of quotes: a quoted comma still
      splits the field, and the quotes stay in the values. */
  lemma QuotedCommaSplits()
    ensures Split("\"a,b\",c", ',') == ["\"a", "b\"", "c"]
  {
    SplitNoSep("c", ',');
    SplitAt("b\"", "c", ',');
    SplitAt("\"a", "b\"" + [','] + "c", ',');
    assert "\"a" + [','] + ("b\"" + [','] + "c") == "\"a,b\",c";
  }

  // ---------------------------------------------------------------- coercions

  /** What `parseInt`/`parseFloat` see of a value: JavaScript turns `null`
      into the text `null`, which is not a number. */
  function Text(v: Option<string>): string {
    if v.Some? then v.value else "null"
  }

  /** `row.key`, with a header that is absent reading as `null` too. */
  function Field(row: ScriptRow, key: string): Option<string> {
    if key in row then row[key] else None
  }

  /** `parseInt(v) || d`: NaN and 0 both give the default. */
  function IntOr(v: Option<string>, d: int): (r: int)
    ensures d != 0 ==> r != 0
    ensures r == d || ParseInt(Text(v)) == Some(r)
    ensures ParseInt(Text(v)).None? || ParseInt(Text(v)) == Some(0) ==> r == d
  {
    match ParseInt(Text(v))
    case None => d
    case Some(n) => if n == 0 then d else n
  }

  /** `parseFloat(v) || null`: NaN and 0 both give `null`. */
  function FloatOrNull(v: Option<string>): (r: Option<Float>)
    ensures r.Some? <==> Truthy(ParseFloat(Text(v)))
    ensures r.Some? ==> r.value == ParseFloat(Text(v))
  {
    var x := ParseFloat(Text(v));
    if Truthy(x) then Some(x) else None
  }

  /** `parseInt(v)` sent as it is, with no `|| null`: the integer read, or
      NaN. */
  function IntNumber(v: Option<string>): (x: Float)
    ensures x.NaN? <==> ParseInt(Text(v)).None?
    ensures ParseInt(Text(v)).Some? ==> x == Fin(ParseInt(Text(v)).value, 0)
  {
    match ParseInt(Text(v))
    case None => NaN
    case Some(n) => Fin(n, 0)
  }

  /** `v === "true" || v === "1"`. */
  predicate ScriptFlag(v: Option<string>) {
    v == Some("true") || v == Some("1")
  }

  /** The values one INSERT receives. */
  datatype Vinyl = Vinyl(
    title: Option<string>, artist: Option<string>, price: Float,
    installments: int, installmentPrice: Option<Float>, categoryId: Float,
    recordLabel: Option<string>, country: Option<string>,
    conditionCover: Option<string>, conditionMedia: Option<string>,
    stock: int, imageUrl: Option<string>, isFeatured: bool, isOnSale: bool,
    discount: int, description: Option<string>)

  function VinylOf(row: ScriptRow): Vinyl {
    Vinyl(
      Field(row, "title"), Field(row, "artist"), ParseFloat(Text(Field(row, "price"))),
      IntOr(Field(row, "installments"), 3), FloatOrNull(Field(row, "installment_price")),
      IntNumber(Field(row, "category_id")),
      OrNull(Field(row, "label")), OrNull(Field(row, "country")),
      OrNull(Field(row, "condition_cover")), OrNull(Field(row, "condition_media")),
      IntOr(Field(row, "stock"), 0), OrNull(Field(row, "image_url")),
      ScriptFlag(Field(row, "is_featured")), ScriptFlag(Field(row, "is_on_sale")),
      IntOr(Field(row, "discount_percentage"), 0), OrNull(Field(row, "description")))
  }

  /** `v || null` on a value that is `null` or text. */
  function OrNull(v: Option<string>): (r: Option<string>)
    ensures r.Some? <==> v.Some? && v.value != []
    ensures r.Some? ==> r == v
  {
    if v.Some? && v.value != [] then v else None
  }

  /** The numeric defaults: installments never 0 (an explicit 0 becomes 3),
      stock and discount 0 when unreadable, installment price `null` when
      unreadable or 0. */
  lemma VinylDefaults(row: ScriptRow)
    ensures VinylOf(row).installments != 0
    ensures Field(row, "installments") == Some("0") ==> VinylOf(row).installments == 3
    ensures Field(row, "stock").None? ==> VinylOf(row).stock == 0
    ensures Field(row, "discount_percentage").None? ==> VinylOf(row).discount == 0
    ensures Field(row, "installment_price").None? ==> VinylOf(row).installmentPrice.None?
  {
    assert "0" == NatToString(0) + [];
    ParseIntOfNatToString(0, []);
    NullIsNaN();
  }

  /** A row without a `category_id` column, with an empty one, or naming the
      category instead of numbering it, hands the INSERT a NaN category; a
      numbered one hands it the number. */
  lemma CategoryIdIsNaNUnlessNumbered(row: ScriptRow, n: nat)
    ensures Field(row, "category_id").None? ==> VinylOf(row).categoryId.NaN?
    ensures Field(row, "category_id") == Some("") ==> VinylOf(row).categoryId.NaN?
    ensures Field(row, "category_id") == Some("Jazz") ==> VinylOf(row).categoryId.NaN?
    ensures Field(row, "category_id") == Some(NatToString(n)) ==> VinylOf(row).categoryId == Fin(n, 0)
  {
    NullIsNaN();
    ParseIntWordExample();
    ParseIntOfNatToString(n, []);
    assert NatToString(n) + [] == NatToString(n);
  }

  /** The flags accept exactly `true` and `1`, in that case only; the admin
      import instead accepts any casing of `true` and rejects `1`. */
  lemma FlagsDifferFromAdminImport()
    ensures ScriptFlag(Some("1")) && !CsvImport.Flag("1", "")
    ensures !ScriptFlag(Some("TRUE")) && CsvImport.Flag("TRUE", "")
  {
    assert ToLower("TRUE") == "true";
    assert ToLower("1") == "1";
  }

  // ---------------------------------------------------------------- import loop

  /** The rows whose insert succeeds, given the oracle that answers for the
      `i`-th insert. */
  function Imported(vs: seq<Vinyl>, insert: (nat, Vinyl) -> bool): seq<Vinyl> {
    if vs == [] then []
    else Imported(vs[..|vs| - 1], insert) + (if insert(|vs| - 1, vs[|vs| - 1]) then [vs[|vs| - 1]] else [])
  }

  /** The number of inserts that throw. */
  function Failures(vs: seq<Vinyl>, insert: (nat, Vinyl) -> bool): nat {
    if vs == [] then 0
    else Failures(vs[..|vs| - 1], insert) + (if insert(|vs| - 1, vs[|vs| - 1]) then 0 else 1)
  }

  /** Every row is either imported or counted as an error. */
  lemma {:induction false} ImportedPlusFailures(vs: seq<Vinyl>, insert: (nat, Vinyl) -> bool)
    ensures |Imported(vs, insert)| + Failures(vs, insert) == |vs|
  {
    if vs != [] {
      ImportedPlusFailures(vs[..|vs| - 1], insert);
    }
  }

  /** Every stored vinyl is one of the rows. */
  lemma {:induction false} ImportedAreRows(vs: seq<Vinyl>, insert: (nat, Vinyl) -> bool)
    ensures forall v :: v in Imported(vs, insert) ==> v in vs
  {
    if vs != [] {
      ImportedAreRows(vs[..|vs| - 1], insert);
    }
  }

  /** The script's loop: `imported` and `errors` counters over all rows. */
  method InsertAll(vs: seq<Vinyl>, insert: (nat, Vinyl) -> bool)
    returns (imported: nat, errors: nat, stored: seq<Vinyl>)
    ensures stored == Imported(vs, insert) && imported == |stored|
    ensures errors == Failures(vs, insert)
    ensures imported + errors == |vs|
  {
    imported, errors, stored := 0, 0, [];
    for i := 0 to |vs|
      invariant stored == Imported(vs[..i], insert) && imported == |stored|
      invariant errors == Failures(vs[..i], insert)
    {
      assert vs[..i + 1][..i] == vs[..i];
      if insert(i, vs[i]) {
        stored := stored + [vs[i]];
        imported := imported + 1;
      } else {
        errors := errors + 1;
      }
    }
    assert vs[..|vs|] == vs;
    ImportedPlusFailures(vs, insert);
  }

  /** How a run ends: the file could not be parsed, or the loop finished. */
  datatype Outcome = ReadFailed | Completed(imported: nat, errors: nat, stored: seq<Vinyl>)

  function Vinyls(rows: seq<ScriptRow>): (r: seq<Vinyl>)
    ensures |r| == |rows|
    ensures forall i :: 0 <= i < |rows| ==> r[i].installments != 0
  {
    seq(|rows|, i requires 0 <= i < |rows| => VinylOf(rows[i]))
  }

  /** `importVinyls`: parse, coerce every row, insert them one by one. */
  method ImportVinyls(content: string, insert: (nat, Vinyl) -> bool) returns (o: Outcome)
    ensures o.ReadFailed? <==> CsvImport.Lines(content) == []
    ensures o.Completed? ==>
      var vs := Vinyls(Rows(CsvImport.Lines(content)));
      o.stored == Imported(vs, insert) && o.imported == |o.stored| && o.errors == Failures(vs, insert)
      && o.imported + o.errors == |CsvImport.Lines(content)| - 1
  {
    var rows := ParseCsv(content);
    if rows.None? {
      return ReadFailed;
    }
    var vs := Vinyls(rows.value);
    var imported, errors, stored := InsertAll(vs, insert);
    o := Completed(imported, errors, stored);
  }
}
