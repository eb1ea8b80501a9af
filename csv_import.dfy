/** The bulk import of products from a CSV file (`POST /api/admin/products/csv`):
    non-blank lines, a quote-aware field splitter, normalised header names,
    alias columns in English or Spanish, row validation, category resolution
    and a per-row insert whose failures are collected as error strings. */
module CsvImport {
  import opened JsString
  import opened JsNumber
  import opened Store

  // ---------------------------------------------------------------- lines

  /** The lines kept by `filter((l) => l.trim())`. */
  function NonBlank(ls: seq<string>): (r: seq<string>)
    ensures |r| <= |ls|
    ensures forall i :: 0 <= i < |r| ==> !IsBlank(r[i])
    ensures forall l :: l in r <==> l in ls && !IsBlank(l)
  {
    if ls == [] then []
    else if IsBlank(ls[0]) then NonBlank(ls[1..])
    else [ls[0]] + NonBlank(ls[1..])
  }

  /** Dropping blank lines from a concatenation drops them from each part and
      keeps the parts in order, so the kept lines keep their order and repeats. */
  lemma {:induction false} NonBlankAppend(a: seq<string>, b: seq<string>)
    ensures NonBlank(a + b) == NonBlank(a) + NonBlank(b)
  {
    if a == [] {
      assert a + b == b;
    } else {
      assert (a + b)[0] == a[0];
      assert (a + b)[1..] == a[1..] + b;
      NonBlankAppend(a[1..], b);
      if !IsBlank(a[0]) {
        assert NonBlank(a + b) == [a[0]] + (NonBlank(a[1..]) + NonBlank(b));
      }
    }
  }

  /** The non-blank lines of the uploaded text, split on `\n`. */
  function Lines(content: string): seq<string> {
    NonBlank(Split(content, '\n'))
  }

  // ---------------------------------------------------------------- fields

  /** The splitter's state after reading part of a line: the fields pushed so
      far (before trimming), the field being read and the quote flag. */
  datatype Scan = Scan(fields: seq<string>, current: string, inQuotes: bool)

  /** One character of the splitter: `"` toggles quoted mode and is dropped,
      a comma outside quotes ends the field, anything else is copied. */
  function Step(st: Scan, c: char): Scan {
    if c == '"' then st.(inQuotes := !st.inQuotes)
    else if c == ',' && !st.inQuotes then Scan(st.fields + [st.current], "", st.inQuotes)
    else st.(current := st.current + [c])
  }

  function ScanLine(s: string): Scan {
    if s == [] then Scan([], "", false) else Step(ScanLine(s[..|s| - 1]), s[|s| - 1])
  }

  /** The fields of a line before trimming: those pushed and the last one. */
  function RawFields(s: string): seq<string> {
    ScanLine(s).fields + [ScanLine(s).current]
  }

  function TrimAll(fs: seq<string>): (r: seq<string>)
    ensures |r| == |fs|
    ensures forall i :: 0 <= i < |fs| ==> r[i] == [] || (!IsSpace(r[i][0]) && !IsSpace(r[i][|r[i]| - 1]))
  {
    forall s | s in fs
      ensures var t := Trim(s); t == [] || (!IsSpace(t[0]) && !IsSpace(t[|t| - 1]))
    {
      TrimmedEnds(s);
    }
    seq(|fs|, i requires 0 <= i < |fs| => Trim(fs[i]))
  }

  /** The fields the splitter produces for a line. */
  function SplitQuoted(line: string): seq<string> {
    TrimAll(RawFields(line))
  }

  /** The quote-aware splitter, character by character. */
  method SplitLine(line: string) returns (values: seq<string>)
    ensures values == SplitQuoted(line)
  {
    values := [];
    var current := "";
    var inQuotes := false;
    for k := 0 to |line|
      invariant ScanLine(line[..k]).current == current
      invariant ScanLine(line[..k]).inQuotes == inQuotes
      invariant values == TrimAll(ScanLine(line[..k]).fields)
    {
      assert line[..k + 1][..k] == line[..k];
      var c := line[k];
      if c == '"' {
        inQuotes := !inQuotes;
      } else if c == ',' && !inQuotes {
        values := values + [Trim(current)];
        current := "";
      } else {
        current := current + [c];
      }
    }
    assert line[..|line|] == line;
    values := values + [Trim(current)];
  }

  /** Number of commas of `s` that stand after an even number of quotes. */
  function UnquotedCommas(s: string): nat {
    if s == [] then 0
    else
      var p := s[..|s| - 1];
      UnquotedCommas(p) + (if s[|s| - 1] == ',' && Occurrences(p, '"') % 2 == 0 then 1 else 0)
  }

  /** `s` with every `"` removed. */
  function RemoveQuotes(s: string): (r: string)
    ensures '"' !in r
  {
    if s == [] then []
    else RemoveQuotes(s[..|s| - 1]) + (if s[|s| - 1] == '"' then [] else [s[|s| - 1]])
  }

  /** Quoted mode is on exactly after an odd number of quotes, and one field
      has been pushed per comma outside quotes. */
  lemma {:induction false} ScanCounts(s: string)
    ensures ScanLine(s).inQuotes <==> Occurrences(s, '"') % 2 == 1
    ensures |ScanLine(s).fields| == UnquotedCommas(s)
  {
    if s != [] {
      var p := s[..|s| - 1];
      ScanCounts(p);
      assert s == p + [s[|s| - 1]];
      OccurrencesSnoc(p, s[|s| - 1], '"');
    }
  }

  /** No field ever holds a quote character. */
  lemma {:induction false} ScanDropsQuotes(s: string)
    ensures forall f :: f in ScanLine(s).fields ==> '"' !in f
    ensures '"' !in ScanLine(s).current
  {
    if s != [] {
      ScanDropsQuotes(s[..|s| - 1]);
    }
  }

  /** Joining the untrimmed fields with commas gives back the line without its
      quotes: every comma inside quotes stays in its field, and no other
      character is lost or moved. */
  lemma {:induction false} JoinRawFields(s: string)
    ensures Join(RawFields(s), ',') == RemoveQuotes(s)
  {
    if s != [] {
      var p := s[..|s| - 1];
      var c := s[|s| - 1];
      var st := ScanLine(p);
      JoinRawFields(p);
      JoinSnoc(st.fields, st.current, ',');
      if c == '"' {
      } else if c == ',' && !st.inQuotes {
        assert RawFields(s) == RawFields(p) + [""];
        JoinSnoc(RawFields(p), "", ',');
      } else {
        assert RawFields(s) == st.fields + [st.current + [c]];
        JoinSnoc(st.fields, st.current + [c], ',');
      }
    }
  }

  /** The four rules of the splitter: one field per comma outside quotes plus
      one, no quote character in any field, every field trimmed, and the
      untrimmed fields rejoined give the line without quotes. */
  lemma SplitQuotedRules(line: string)
    ensures |SplitQuoted(line)| == UnquotedCommas(line) + 1
    ensures forall i :: 0 <= i < |SplitQuoted(line)| ==> '"' !in SplitQuoted(line)[i]
    ensures forall i :: 0 <= i < |SplitQuoted(line)| ==> Trim(SplitQuoted(line)[i]) == SplitQuoted(line)[i]
    ensures Join(RawFields(line), ',') == RemoveQuotes(line)
  {
    ScanCounts(line);
    ScanDropsQuotes(line);
    JoinRawFields(line);
    var raw := RawFields(line);
    forall i | 0 <= i < |raw| ensures '"' !in Trim(raw[i]) && Trim(Trim(raw[i])) == Trim(raw[i]) {
      assert raw[i] in ScanLine(line).fields || raw[i] == ScanLine(line).current;
      TrimmedEnds(raw[i]);
      TrimIdempotent(raw[i]);
    }
  }

  // ---------------------------------------------------------------- headers

  predicate IsHeaderChar(c: char) {
    'a' <= c <= 'z' || c == '_'
  }

  /** `replace(/[^a-z_]/g, "")`. */
  function KeepHeaderChars(s: string): (r: string)
    ensures forall i :: 0 <= i < |r| ==> IsHeaderChar(r[i])
    ensures forall c :: c in r <==> c in s && IsHeaderChar(c)
  {
    if s == [] then []
    else (if IsHeaderChar(s[0]) then [s[0]] else []) + KeepHeaderChars(s[1..])
  }

  /** A header name: trimmed, lower-cased, then stripped of everything but
      `a`-`z` and `_`. */
  function NormalizeHeader(h: string): string {
    KeepHeaderChars(ToLower(Trim(h)))
  }

  lemma {:induction false} KeepHeaderCharsOfHeaderChars(s: string)
    requires forall i :: 0 <= i < |s| ==> IsHeaderChar(s[i])
    ensures KeepHeaderChars(s) == s
  {
    if s != [] {
      KeepHeaderCharsOfHeaderChars(s[1..]);
    }
  }

  /** A name made of `a`-`z` and `_` is its own normal form: underscores survive. */
  lemma NormalizeHeaderOfHeaderChars(s: string)
    requires forall i :: 0 <= i < |s| ==> IsHeaderChar(s[i])
    ensures NormalizeHeader(s) == s
  {
    if s != [] {
      assert IsHeaderChar(s[0]) && IsHeaderChar(s[|s| - 1]);
      assert !IsSpace(s[0]) && !IsSpace(s[|s| - 1]);
    }
    NoSpaceTrim(s);
    assert ToLower(s) == s;
    KeepHeaderCharsOfHeaderChars(s);
  }

  /** Normalising a header name twice is normalising it once. */
  lemma NormalizeHeaderIdempotent(h: string)
    ensures NormalizeHeader(NormalizeHeader(h)) == NormalizeHeader(h)
  {
    NormalizeHeaderOfHeaderChars(NormalizeHeader(h));
  }

  /** The normalised names of the header line's comma-separated pieces. */
  function Headers(line: string): (r: seq<string>)
    ensures |r| == Occurrences(line, ',') + 1
    ensures forall i, j :: 0 <= i < |r| && 0 <= j < |r[i]| ==> IsHeaderChar(r[i][j])
  {
    var parts := Split(line, ',');
    seq(|parts|, i requires 0 <= i < |parts| => NormalizeHeader(parts[i]))
  }

  // ---------------------------------------------------------------- rows

  /** A row object: header name to field text. */
  type Row = map<string, string>

  /** `row.key` where an absent key reads as the (equally falsy) empty string. */
  function Get(row: Row, key: string): string {
    if key in row then row[key] else ""
  }

  /** `values[idx] || ""`. */
  function ValueAt(values: seq<string>, idx: nat): string {
    if idx < |values| then values[idx] else ""
  }

  /** The row built by `headers.forEach((h, idx) => row[h] = values[idx] || "")`. */
  function RowOf(headers: seq<string>, values: seq<string>): Row {
    if headers == [] then map[]
    else RowOf(headers[..|headers| - 1], values)[headers[|headers| - 1] := ValueAt(values, |headers| - 1)]
  }

  method BuildRow(headers: seq<string>, values: seq<string>) returns (row: Row)
    ensures row == RowOf(headers, values)
  {
    row := map[];
    for idx := 0 to |headers|
      invariant row == RowOf(headers[..idx], values)
    {
      assert headers[..idx + 1][..idx] == headers[..idx];
      row := row[headers[idx] := ValueAt(values, idx)];
    }
    assert headers[..|headers|] == headers;
  }

  /** The row has a key for each header name; a name that occurs once (or for
      the last time) at position `j` reads the value at `j`, or `""` past the
      end of a short row. */
  lemma {:induction false} RowOfLookup(headers: seq<string>, values: seq<string>, j: nat)
    requires j < |headers|
    requires forall k :: j < k < |headers| ==> headers[k] != headers[j]
    ensures headers[j] in RowOf(headers, values)
    ensures Get(RowOf(headers, values), headers[j]) == ValueAt(values, j)
  {
    if j < |headers| - 1 {
      RowOfLookup(headers[..|headers| - 1], values, j);
    }
  }

  lemma {:induction false} RowOfKeys(headers: seq<string>, values: seq<string>)
    ensures forall k :: k in RowOf(headers, values) <==> k in headers
  {
    if headers != [] {
      RowOfKeys(headers[..|headers| - 1], values);
      assert headers == headers[..|headers| - 1] + [headers[|headers| - 1]];
    }
  }

  // ---------------------------------------------------------------- validation

  function Title(row: Row): string { Or(Get(row, "title"), Get(row, "titulo")) }

  function Artist(row: Row): string { Or(Get(row, "artist"), Get(row, "artista")) }

  /** `parseFloat(row.price || row.precio || "0")`. */
  function PriceOf(row: Row): Float {
    ParseFloat(Or(Or(Get(row, "price"), Get(row, "precio")), "0"))
  }

  /** `!title || !artist || !price`. */
  predicate Rejected(row: Row) {
    Title(row) == [] || Artist(row) == [] || !Truthy(PriceOf(row))
  }

  /** A row is rejected exactly when both title columns are empty, or both
      artist columns are, or the price reads as NaN or zero. */
  lemma RejectedIff(row: Row)
    ensures Rejected(row) <==>
      (Get(row, "title") == [] && Get(row, "titulo") == [])
      || (Get(row, "artist") == [] && Get(row, "artista") == [])
      || PriceOf(row).NaN? || (PriceOf(row).Fin? && PriceOf(row).units == 0)
  {
  }

  /** A row without any price column reads price 0 and is rejected. */
  lemma MissingPriceRejected(row: Row)
    requires Get(row, "price") == [] && Get(row, "precio") == []
    ensures PriceOf(row) == Fin(0, 0) && Rejected(row)
  {
    assert NatToString(0) == "0";
    ParseFloatOfNatToString(0);
  }

  /** A negative price passes validation. */
  lemma NegativePriceAccepted(row: Row)
    requires Title(row) != [] && Artist(row) != [] && Get(row, "price") == "-5"
    ensures PriceOf(row) == Fin(-5, 0) && !Rejected(row)
  {
    ParseFloatExamples();
  }

  // ---------------------------------------------------------------- category

  /** `LOWER(name)=LOWER($1) OR LOWER(slug)=LOWER($1)`. */
  predicate CategoryMatches(c: Category, v: string) {
    ToLower(c.name) == ToLower(v) || ToLower(c.slug) == ToLower(v)
  }

  /** Position of the first matching category, `|cats|` when none matches. */
  function FirstMatch(cats: seq<Category>, v: string): (k: nat)
    ensures k <= |cats|
    ensures k < |cats| ==> CategoryMatches(cats[k], v)
    ensures forall j :: 0 <= j < k ==> !CategoryMatches(cats[j], v)
  {
    if cats == [] then 0
    else if CategoryMatches(cats[0], v) then 0
    else 1 + FirstMatch(cats[1..], v)
  }

  /** `row.category || row.categoria || row.category_id`. */
  function CategoryValue(row: Row): string {
    Or(Or(Get(row, "category"), Get(row, "categoria")), Get(row, "category_id"))
  }

  /** The category id of a row: none for an empty reference, the `parseInt`
      value when it is a number, else the id of the first category whose name
      or slug equals it ignoring case, else none. */
  function ResolveCategory(row: Row, cats: seq<Category>): Option<int> {
    var v := CategoryValue(row);
    if v == [] then None
    else
      match ParseInt(v)
      case Some(n) => Some(n)
      case None =>
        var k := FirstMatch(cats, v);
        if k < |cats| then Some(cats[k].id) else None
  }

  /** The resolver's cases: a number is taken as it is, whatever the table
      holds; a name or slug picks the first match; no match gives none. */
  lemma ResolveCategoryCases(row: Row, cats: seq<Category>)
    ensures CategoryValue(row) == [] ==> ResolveCategory(row, cats) == None
    ensures CategoryValue(row) != [] && ParseInt(CategoryValue(row)).Some? ==>
      ResolveCategory(row, cats) == Some(ParseInt(CategoryValue(row)).value)
    ensures CategoryValue(row) != [] && ParseInt(CategoryValue(row)).None? ==>
      (ResolveCategory(row, cats).Some? <==> exists k :: 0 <= k < |cats| && CategoryMatches(cats[k], CategoryValue(row)))
    ensures ResolveCategory(row, cats).Some? && ParseInt(CategoryValue(row)).None? ==>
      exists k :: 0 <= k < |cats| && cats[k].id == ResolveCategory(row, cats).value
        && CategoryMatches(cats[k], CategoryValue(row))
        && forall j :: 0 <= j < k ==> !CategoryMatches(cats[j], CategoryValue(row))
  {
    var v := CategoryValue(row);
    if v != [] && ParseInt(v).None? {
      var k := FirstMatch(cats, v);
      if k < |cats| {
        assert cats[k].id == ResolveCategory(row, cats).value;
      }
    }
  }

  /** A numeric prefix is used as the id with no existence check. */
  lemma NumericCategoryUnchecked()
    ensures ResolveCategory(map["category" := "12abc"], []) == Some(12)
  {
    var row := map["category" := "12abc"];
    assert Get(row, "category") == "12abc";
    ParseIntPrefixExample();
  }

  // ---------------------------------------------------------------- insert

  /** The values handed to the `INSERT ... ON CONFLICT DO NOTHING` of one row;
      `None` in an integer stands for NaN, in a text column for NULL. */
  datatype Draft = Draft(
    title: string, artist: string, price: Float,
    recordLabel: Option<string>, country: Option<string>,
    conditionCover: Option<string>, conditionMedia: Option<string>,
    categoryId: Option<int>, stock: Option<int>,
    isFeatured: bool, isOnSale: bool, discount: Option<int>,
    description: Option<string>)

  /** `s || null`. */
  function TextOrNull(s: string): (r: Option<string>)
    ensures r.None? <==> s == []
    ensures r.Some? ==> r.value == s
  {
    if s == [] then None else Some(s)
  }

  /** `(a || b || "").toLowerCase() === "true"`. */
  predicate Flag(a: string, b: string) {
    ToLower(Or(a, b)) == "true"
  }

  function DraftOf(row: Row, cats: seq<Category>): Draft {
    Draft(
      Title(row), Artist(row), PriceOf(row),
      TextOrNull(Get(row, "label")),
      TextOrNull(Or(Get(row, "country"), Get(row, "pais"))),
      TextOrNull(Or(Get(row, "condition_cover"), Get(row, "condicion_tapa"))),
      TextOrNull(Or(Get(row, "condition_media"), Get(row, "condicion_disco"))),
      ResolveCategory(row, cats),
      ParseInt(Or(Get(row, "stock"), "1")),
      Flag(Get(row, "is_featured"), Get(row, "destacado")),
      Flag(Get(row, "is_on_sale"), Get(row, "oferta")),
      ParseInt(Or(Or(Get(row, "discount_percentage"), Get(row, "descuento")), "0")),
      TextOrNull(Or(Get(row, "description"), Get(row, "descripcion"))))
  }

  /** Empty stock reads as 1 and empty discount as 0. */
  lemma DraftDefaults(row: Row, cats: seq<Category>)
    ensures Get(row, "stock") == [] ==> DraftOf(row, cats).stock == Some(1)
    ensures Get(row, "discount_percentage") == [] && Get(row, "descuento") == [] ==>
      DraftOf(row, cats).discount == Some(0)
  {
    assert "1" == NatToString(1) + [];
    assert "0" == NatToString(0) + [];
    ParseIntOfNatToString(1, []);
    ParseIntOfNatToString(0, []);
  }

  /** A flag is set by any casing of `true` and by nothing else; `1` does
      not set it. */
  lemma DraftFlags(row: Row, cats: seq<Category>)
    ensures DraftOf(row, cats).isFeatured <==>
      ToLower(Or(Get(row, "is_featured"), Get(row, "destacado"))) == "true"
    ensures Get(row, "is_featured") == "TRUE" ==> DraftOf(row, cats).isFeatured
    ensures Get(row, "is_featured") == "1" ==> !DraftOf(row, cats).isFeatured
  {
    assert ToLower("TRUE") == "true";
    assert ToLower("1") == "1";
  }

  /** What the database does with one insert: store the row, skip it on a
      conflict, or throw with a message. */
  datatype InsertResult = Inserted | Conflict | Threw(message: string)

  /** The result of one data line. */
  datatype RowResult = Created(draft: Draft, stored: bool) | Error(message: string)

  /** `Fila {i+1}: ` */
  function RowPrefix(i: nat): string {
    "Fila " + NatToString(i + 1) + ": "
  }

  function MissingFieldsError(i: nat): string {
    RowPrefix(i) + "falta t\U{00ED}tulo, artista o precio"
  }

  /** Line `i` of the non-blank lines (the header is line 0); `insert` is the
      database's answer to the insert of the row's draft. */
  function ProcessRow(headers: seq<string>, line: string, i: nat, cats: seq<Category>,
                      insert: (nat, Draft) -> InsertResult): RowResult
  {
    var row := RowOf(headers, SplitQuoted(Trim(line)));
    if Rejected(row) then Error(MissingFieldsError(i))
    else
      var d := DraftOf(row, cats);
      match insert(i, d)
      case Threw(m) => Error(RowPrefix(i) + m)
      case Inserted => Created(d, true)
      case Conflict => Created(d, false)
  }

  /** The loop body as a value: line `i` of `lines` gives `ProcessRow` of it. */
  function RowStep(headers: seq<string>, cats: seq<Category>, insert: (nat, Draft) -> InsertResult)
    : (step: (string, nat) -> RowResult)
    ensures forall line, i :: step(line, i) == ProcessRow(headers, line, i, cats, insert)
  {
    (line: string, i: nat) => ProcessRow(headers, line, i, cats, insert)
  }

  /** The results of the data lines `lines[1..n]`, in order. */
  function Results(step: (string, nat) -> RowResult, lines: seq<string>, n: nat): (rs: seq<RowResult>)
    requires n <= |lines|
    ensures |rs| == if n == 0 then 0 else n - 1
  {
    if n <= 1 then []
    else Results(step, lines, n - 1) + [step(lines[n - 1], n - 1)]
  }

  function CreatedCount(rs: seq<RowResult>): nat {
    if rs == [] then 0 else CreatedCount(rs[..|rs| - 1]) + (if rs[|rs| - 1].Created? then 1 else 0)
  }

  function ErrorsOf(rs: seq<RowResult>): seq<string> {
    if rs == [] then []
    else ErrorsOf(rs[..|rs| - 1]) + (if rs[|rs| - 1].Error? then [rs[|rs| - 1].message] else [])
  }

  /** The drafts the database actually stored. */
  function StoredOf(rs: seq<RowResult>): seq<Draft> {
    if rs == [] then []
    else StoredOf(rs[..|rs| - 1]) + (if rs[|rs| - 1].Created? && rs[|rs| - 1].stored then [rs[|rs| - 1].draft] else [])
  }

  /** The tallies of one more result. */
  lemma TallySnoc(rs: seq<RowResult>, r: RowResult)
    ensures CreatedCount(rs + [r]) == CreatedCount(rs) + (if r.Created? then 1 else 0)
    ensures ErrorsOf(rs + [r]) == ErrorsOf(rs) + (if r.Error? then [r.message] else [])
    ensures StoredOf(rs + [r]) == StoredOf(rs) + (if r.Created? && r.stored then [r.draft] else [])
  {
    assert (rs + [r])[..|rs|] == rs;
  }

  /** The JSON body of a completed import. */
  datatype ImportSummary = ImportSummary(message: string, created: nat, errors: seq<string>)

  function Summary(rs: seq<RowResult>): ImportSummary {
    var n := CreatedCount(rs);
    ImportSummary("Importaci\U{00F3}n completada: " + NatToString(n) + " vinilos creados", n, ErrorsOf(rs))
  }

  /** One pass of the loop body: split the trimmed line, build the row,
      validate it, then resolve its category and insert it. */
  method ProcessLine(headers: seq<string>, line: string, i: nat, cats: seq<Category>,
                     insert: (nat, Draft) -> InsertResult) returns (res: RowResult)
    ensures res == ProcessRow(headers, line, i, cats, insert)
  {
    var values := SplitLine(Trim(line));
    var row := BuildRow(headers, values);
    if Rejected(row) {
      return Error(MissingFieldsError(i));
    }
    var d := DraftOf(row, cats);
    match insert(i, d)
    case Threw(m) =>
      res := Error(RowPrefix(i) + m);
    case Inserted =>
      res := Created(d, true);
    case Conflict =>
      res := Created(d, false);
  }

  /** The loop over the data lines: counts the rows whose insert did not
      throw, collects an error string for every other row, in row order, and
      lists the drafts the database kept. `step` is the loop body. */
  method ImportRows(step: (string, nat) -> RowResult, lines: seq<string>)
    returns (created: nat, errors: seq<string>, stored: seq<Draft>)
    requires |lines| >= 1
    ensures created == CreatedCount(Results(step, lines, |lines|))
    ensures errors == ErrorsOf(Results(step, lines, |lines|))
    ensures stored == StoredOf(Results(step, lines, |lines|))
  {
    created, errors, stored := 0, [], [];
    for i := 1 to |lines|
      invariant created == CreatedCount(Results(step, lines, i))
      invariant errors == ErrorsOf(Results(step, lines, i))
      invariant stored == StoredOf(Results(step, lines, i))
    {
      var res := step(lines[i], i);
      ghost var done := Results(step, lines, i);
      assert Results(step, lines, i + 1) == done + [res];
      TallySnoc(done, res);
      if res.Error? {
        errors := errors + [res.message];
      } else {
        created := created + 1;
        if res.stored {
          stored := stored + [res.draft];
        }
      }
    }
  }

  const NoFileError := "Archivo CSV requerido"
  const NoRowsError := "El CSV debe tener al menos una fila de datos"

  /** The handler: 400 without a file or without a data line; otherwise the
      header line is normalised and the data lines are imported. */
  method ImportCsv(file: Option<string>, cats: seq<Category>, insert: (nat, Draft) -> InsertResult)
    returns (r: Reply<ImportSummary>, stored: seq<Draft>)
    ensures file.None? ==> r == Fail(400, NoFileError) && stored == []
    ensures file.Some? && |Lines(file.value)| < 2 ==> r == Fail(400, NoRowsError) && stored == []
    ensures file.Some? && |Lines(file.value)| >= 2 ==>
      var lines := Lines(file.value);
      var rs := Results(RowStep(Headers(lines[0]), cats, insert), lines, |lines|);
      r == Ok(200, Summary(rs)) && stored == StoredOf(rs)
  {
    if file.None? {
      return Fail(400, NoFileError), [];
    }
    var lines := Lines(file.value);
    if |lines| < 2 {
      return Fail(400, NoRowsError), [];
    }
    var headers := Headers(lines[0]);
    var created, errors;
    created, errors, stored := ImportRows(RowStep(headers, cats, insert), lines);
    r := Ok(200, ImportSummary("Importaci\U{00F3}n completada: " + NatToString(created) + " vinilos creados", created, errors));
  }

  // ---------------------------------------------------------------- batch properties

  /** Every data line is counted once: as created or as an error. */
  lemma {:induction false} CreatedPlusErrors(rs: seq<RowResult>)
    ensures CreatedCount(rs) + |ErrorsOf(rs)| == |rs|
    ensures |StoredOf(rs)| <= CreatedCount(rs)
  {
    if rs != [] {
      CreatedPlusErrors(rs[..|rs| - 1]);
    }
  }

  /** After an import, `created + |errors|` is the number of non-blank lines
      minus the header. */
  lemma ImportAccountsForEveryLine(content: string, cats: seq<Category>, insert: (nat, Draft) -> InsertResult)
    requires |Lines(content)| >= 2
    ensures var lines := Lines(content);
      var s := Summary(Results(RowStep(Headers(lines[0]), cats, insert), lines, |lines|));
      s.created + |s.errors| == |lines| - 1
  {
    var lines := Lines(content);
    CreatedPlusErrors(Results(RowStep(Headers(lines[0]), cats, insert), lines, |lines|));
  }

  /** The outcome of one data line: a row failing validation gives exactly
      the missing-fields error; an insert that throws gives its message after
      `Fila {i+1}: `; an insert that does not throw counts as created, and an
      `ON CONFLICT DO NOTHING` no-op does too, though nothing is stored. */
  lemma ProcessRowOutcome(headers: seq<string>, line: string, i: nat, cats: seq<Category>,
                          insert: (nat, Draft) -> InsertResult)
    ensures var row := RowOf(headers, SplitQuoted(Trim(line)));
      var d := DraftOf(row, cats);
      var r := ProcessRow(headers, line, i, cats, insert);
      && (Rejected(row) ==> r == Error(MissingFieldsError(i)))
      && (!Rejected(row) && insert(i, d).Threw? ==> r == Error(RowPrefix(i) + insert(i, d).message))
      && (!Rejected(row) && insert(i, d).Inserted? ==> r == Created(d, true))
      && (!Rejected(row) && insert(i, d).Conflict? ==> r == Created(d, false))
  {
  }

  /** The rows counted as created whose insert was a conflict no-op. */
  function ConflictCount(rs: seq<RowResult>): nat {
    if rs == [] then 0
    else ConflictCount(rs[..|rs| - 1]) + (if rs[|rs| - 1].Created? && !rs[|rs| - 1].stored then 1 else 0)
  }

  /** `created` counts the rows stored and, besides them, every row whose
      insert hit a conflict and stored nothing. */
  lemma {:induction false} CreatedCountsConflicts(rs: seq<RowResult>)
    ensures CreatedCount(rs) == |StoredOf(rs)| + ConflictCount(rs)
  {
    if rs != [] {
      CreatedCountsConflicts(rs[..|rs| - 1]);
    }
  }

  /** Result `k` of a batch is the loop body applied to data line `k + 1`. */
  lemma {:induction false} ResultsAt(step: (string, nat) -> RowResult, lines: seq<string>, n: nat)
    requires n <= |lines|
    ensures forall k :: 0 <= k < |Results(step, lines, n)| ==> Results(step, lines, n)[k] == step(lines[k + 1], k + 1)
  {
    if n > 1 {
      ResultsAt(step, lines, n - 1);
      var p := Results(step, lines, n - 1);
      var rs := Results(step, lines, n);
      assert rs == p + [step(lines[n - 1], n - 1)];
      assert |p| == n - 2;
      forall k | 0 <= k < |rs| ensures rs[k] == step(lines[k + 1], k + 1) {
        if k < |p| {
          assert rs[k] == p[k];
        }
      }
    }
  }

  /** A loop body that never stores a row leaves nothing stored. */
  lemma {:induction false} NothingStored(step: (string, nat) -> RowResult, lines: seq<string>, n: nat)
    requires n <= |lines|
    requires forall line, i :: !(step(line, i).Created? && step(line, i).stored)
    ensures StoredOf(Results(step, lines, n)) == []
  {
    if n > 1 {
      NothingStored(step, lines, n - 1);
      var rs := Results(step, lines, n);
      assert rs[..|rs| - 1] == Results(step, lines, n - 1);
    }
  }

  /** Re-importing a file whose every row already exists: every insert is a
      conflict no-op, so nothing is stored, yet every valid row is reported
      as created and only rows failing validation are errors. */
  lemma ReimportCountsConflictsAsCreated(headers: seq<string>, lines: seq<string>, n: nat, cats: seq<Category>)
    requires n <= |lines|
    ensures var rs := Results(RowStep(headers, cats, (i: nat, d: Draft) => Conflict), lines, n);
      && StoredOf(rs) == [] && CreatedCount(rs) == ConflictCount(rs)
      && forall k :: 0 <= k < |rs| ==>
           (rs[k].Error? <==> Rejected(RowOf(headers, SplitQuoted(Trim(lines[k + 1])))))
  {
    var insert := (i: nat, d: Draft) => Conflict;
    var step := RowStep(headers, cats, insert);
    var rs := Results(step, lines, n);
    forall line, i ensures !(step(line, i).Created? && step(line, i).stored) {
      ProcessRowOutcome(headers, line, i, cats, insert);
    }
    NothingStored(step, lines, n);
    CreatedCountsConflicts(rs);
    ResultsAt(step, lines, n);
    forall k | 0 <= k < |rs|
      ensures rs[k].Error? <==> Rejected(RowOf(headers, SplitQuoted(Trim(lines[k + 1]))))
    {
      ProcessRowOutcome(headers, lines[k + 1], k + 1, cats, insert);
    }
  }

  /** The shape of the result of line `i`: an error starts with
      `Fila {i+1}: `, and a created row passed validation. */
  predicate Shaped(r: RowResult, i: nat) {
    (r.Error? ==> StartsWith(r.message, RowPrefix(i)))
    && (r.Created? ==> r.draft.title != [] && r.draft.artist != [] && Truthy(r.draft.price))
  }

  lemma ProcessRowShape(headers: seq<string>, line: string, i: nat, cats: seq<Category>,
                        insert: (nat, Draft) -> InsertResult)
    ensures Shaped(ProcessRow(headers, line, i, cats, insert), i)
  {
    var row := RowOf(headers, SplitQuoted(Trim(line)));
    if Rejected(row) {
      StartsWithConcat(RowPrefix(i), "falta t\U{00ED}tulo, artista o precio");
    } else {
      match insert(i, DraftOf(row, cats))
      case Threw(m) => StartsWithConcat(RowPrefix(i), m);
      case Inserted =>
      case Conflict =>
    }
  }

  /** The results of a batch, line by line, have the shape of `ProcessRowShape`. */
  predicate WellFormed(rs: seq<RowResult>) {
    forall k :: 0 <= k < |rs| ==> Shaped(rs[k], k + 1)
  }

  /** A loop body whose every result has its shape yields well-formed results. */
  lemma {:induction false} ResultsShaped(step: (string, nat) -> RowResult, lines: seq<string>, n: nat)
    requires n <= |lines|
    requires forall line, i :: Shaped(step(line, i), i)
    ensures WellFormed(Results(step, lines, n))
  {
    if n > 1 {
      var p := Results(step, lines, n - 1);
      ResultsShaped(step, lines, n - 1);
      var rs := Results(step, lines, n);
      assert Shaped(step(lines[n - 1], n - 1), n - 1);
      forall k | 0 <= k < |rs| ensures Shaped(rs[k], k + 1) {
        if k < |p| { assert rs[k] == p[k]; }
      }
    }
  }

  /** The import's results are well formed. */
  lemma ResultsWellFormed(headers: seq<string>, lines: seq<string>, n: nat, cats: seq<Category>,
                          insert: (nat, Draft) -> InsertResult)
    requires n <= |lines|
    ensures WellFormed(Results(RowStep(headers, cats, insert), lines, n))
  {
    forall line, i ensures Shaped(RowStep(headers, cats, insert)(line, i), i) {
      ProcessRowShape(headers, line, i, cats, insert);
    }
    ResultsShaped(RowStep(headers, cats, insert), lines, n);
  }

  /** The row number (1 for the header) of each error, in the order of the list. */
  function ErrorRows(rs: seq<RowResult>): seq<nat> {
    if rs == [] then []
    else ErrorRows(rs[..|rs| - 1]) + (if rs[|rs| - 1].Error? then [|rs| + 1] else [])
  }

  /** Errors are listed in row order: their row numbers strictly increase and
      each error starts with `Fila <row>: `. */
  lemma {:induction false} ErrorsInRowOrder(rs: seq<RowResult>)
    requires WellFormed(rs)
    ensures |ErrorRows(rs)| == |ErrorsOf(rs)|
    ensures forall j :: 0 <= j < |ErrorRows(rs)| ==> 2 <= ErrorRows(rs)[j] <= |rs| + 1
    ensures forall j, k :: 0 <= j < k < |ErrorRows(rs)| ==> ErrorRows(rs)[j] < ErrorRows(rs)[k]
    ensures forall j :: 0 <= j < |ErrorRows(rs)| ==>
      StartsWith(ErrorsOf(rs)[j], "Fila " + NatToString(ErrorRows(rs)[j]) + ": ")
  {
    if rs != [] {
      var p := rs[..|rs| - 1];
      assert WellFormed(p) by {
        forall k | 0 <= k < |p| ensures p[k] == rs[k] { }
      }
      ErrorsInRowOrder(p);
    }
  }

  /** Only rows that passed validation reach the store. */
  lemma {:induction false} StoredRowsAreValid(rs: seq<RowResult>)
    requires WellFormed(rs)
    ensures forall d :: d in StoredOf(rs) ==> d.title != [] && d.artist != [] && Truthy(d.price)
  {
    if rs != [] {
      var p := rs[..|rs| - 1];
      assert WellFormed(p) by {
        forall k | 0 <= k < |p| ensures p[k] == rs[k] { }
      }
      StoredRowsAreValid(p);
    }
  }
}
