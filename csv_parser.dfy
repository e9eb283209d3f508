/**
 * The CSV parser: per-row normalisation of a bank export into transaction
 * previews (date by format, cleaned and optionally inverted amount, optional
 * payee and memo, a fingerprint), rows that raise skipped; the conversion of
 * previews to import requests; and the built-in bank profiles. Reading the
 * file into rows (pandas) is outside the model: a row arrives as the text of
 * each cell, or NA for an empty cell.
 */
module CsvParser {
  import opened Wrappers
  import opened Text
  import opened Calendar
  import opened Fingerprint
  import opened Schemas
  import opened Sequences

  /** A cell of a parsed row: `str(value)` of a present value, or pandas' missing value. */
  datatype Cell = Text(s: string) | NA

  /** One row of the data frame, keyed by column header. */
  type CsvRow = map<string, Cell>

  /** `column_mappings`: transaction field to column header; a field may map to `None`. */
  type ColumnMappings = map<string, Option<string>>

  /** `str(value)`: a missing value prints as `nan`. */
  function CellText(c: Cell): string {
    if c.NA? then "nan" else c.s
  }

  /** `float(s)` as milliunits; `None` where Python raises. Outside the model. */
  const ParseFloat: string -> Option<Money>

  /** `generate_transaction_hash`: the same input string and truncation as the ledger's fingerprint. */
  function GenerateTransactionHash(date: Timestamp, amount: Money, payee: Option<string>, memo: Option<string> := None)
    : (h: string)
    ensures h == GenerateHash(date, amount, payee, memo)
    ensures |h| == FingerprintLength
  {
    var input := IsoDateTime(date) + AmountField(amount) + PayeeMemoText(payee, memo);
    Sha256(input)[..32]
  }

  /** `row[column_mappings[field]]`, or `None` where either lookup raises `KeyError`. */
  function RequiredCell(row: CsvRow, mappings: ColumnMappings, field: string): (c: Option<Cell>)
    ensures c.Some? <==> field in mappings && mappings[field].Some? && mappings[field].value in row
  {
    if field in mappings && mappings[field].Some? && mappings[field].value in row
    then Some(row[mappings[field].value])
    else None
  }

  /** The characters the amount cleaning keeps: all but `$`, `,` and space. */
  predicate KeptInAmount(c: char) {
    c != '$' && c != ',' && c != ' '
  }

  /** The amount text with surrounding whitespace stripped and `$`, `,` and spaces removed. */
  function CleanAmount(s: string): (r: string)
    ensures '$' !in r && ',' !in r && ' ' !in r
    ensures forall c :: c in r ==> c in s
    ensures r == Filter(Strip(s), KeptInAmount)
  {
    var t := Strip(s);
    RemoveCharIsFilter(t, '$');
    RemoveCharIsFilter(RemoveChar(t, '$'), ',');
    RemoveCharIsFilter(RemoveChar(RemoveChar(t, '$'), ','), ' ');
    FilterTwice(t, x => x != '$', x => x != ',', x => x != '$' && x != ',');
    FilterTwice(t, x => x != '$' && x != ',', x => x != ' ', KeptInAmount);
    RemoveChar(RemoveChar(RemoveChar(t, '$'), ','), ' ')
  }

  /**
   * An optional field: `None` when the mapping lacks the field or maps it to
   * an empty or absent header, or the row's cell is missing or NA; otherwise
   * the stripped cell text.
   */
  function OptionalField(row: CsvRow, mappings: ColumnMappings, field: string): (v: Option<string>)
    ensures v.Some? <==> field in mappings && Truthy(mappings[field]) && mappings[field].value in row
                         && row[mappings[field].value].Text?
    ensures v.Some? ==> v.value == Strip(row[mappings[field].value].s)
  {
    if field in mappings && Truthy(mappings[field]) then
      var column := mappings[field].value;
      if column in row && row[column].Text? then Some(Strip(row[column].s)) else None
    else None
  }

  /** The date of a row, or `None` where the lookup or `strptime` raises. */
  function RowDate(row: CsvRow, mappings: ColumnMappings, dateFormat: string): Option<Timestamp> {
    match RequiredCell(row, mappings, "date")
    case None => None
    case Some(c) => ParseWithFormat(Strip(CellText(c)), dateFormat)
  }

  /** The amount of a row before inversion, or `None` where the lookup or `float` raises. */
  function RowAmount(row: CsvRow, mappings: ColumnMappings): Option<Money> {
    match RequiredCell(row, mappings, "amount")
    case None => None
    case Some(c) => ParseFloat(CleanAmount(CellText(c)))
  }

  /** One row as a preview, or `None` for a row whose parsing raises (it is skipped). */
  function ParseRow(row: CsvRow, mappings: ColumnMappings, dateFormat: string, amountInverted: bool)
    : (p: Option<TransactionPreview>)
    ensures p.Some? <==> RowDate(row, mappings, dateFormat).Some? && RowAmount(row, mappings).Some?
    ensures p.Some? ==>
      && p.value.date == RowDate(row, mappings, dateFormat).value
      && p.value.payee == OptionalField(row, mappings, "payee")
      && p.value.memo == OptionalField(row, mappings, "memo")
      && !p.value.isDuplicate
      && p.value.transactionHash == GenerateHash(p.value.date, p.value.amount, p.value.payee, p.value.memo)
  {
    match RowDate(row, mappings, dateFormat)
    case None => None
    case Some(date) =>
      match RowAmount(row, mappings)
      case None => None
      case Some(parsed) =>
        var amount := if amountInverted then -parsed else parsed;
        var payee := OptionalField(row, mappings, "payee");
        var memo := OptionalField(row, mappings, "memo");
        Some(TransactionPreview(date, amount, payee, memo, false, GenerateTransactionHash(date, amount, payee, memo)))
  }

  /** Inverting only negates the amount: the same rows parse, with the same other fields. */
  lemma InversionNegates(row: CsvRow, mappings: ColumnMappings, dateFormat: string)
    ensures ParseRow(row, mappings, dateFormat, true).Some? <==> ParseRow(row, mappings, dateFormat, false).Some?
    ensures ParseRow(row, mappings, dateFormat, false).Some? ==>
      var p, q := ParseRow(row, mappings, dateFormat, false).value, ParseRow(row, mappings, dateFormat, true).value;
      && q.amount == -p.amount && p.amount == RowAmount(row, mappings).value
      && q.date == p.date && q.payee == p.payee && q.memo == p.memo
  {
  }

  function RowParser(mappings: ColumnMappings, dateFormat: string, amountInverted: bool): CsvRow -> Option<TransactionPreview> {
    row => ParseRow(row, mappings, dateFormat, amountInverted)
  }

  /** The previews of the rows that parse, in file order. */
  function ParsedRows(rows: seq<CsvRow>, mappings: ColumnMappings, dateFormat: string, amountInverted: bool)
    : seq<TransactionPreview>
  {
    FilterMap(rows, RowParser(mappings, dateFormat, amountInverted))
  }

  /**
   * Each preview comes from one row, in file order; every row not listed
   * failed to parse; and every preview starts unflagged with the
   * fingerprint of its own fields.
   */
  lemma ParsedRowsOrigins(rows: seq<CsvRow>, mappings: ColumnMappings, dateFormat: string, amountInverted: bool)
    returns (idx: seq<nat>)
    ensures var ps := ParsedRows(rows, mappings, dateFormat, amountInverted);
      && |idx| == |ps|
      && (forall k :: 0 <= k < |idx| ==>
            idx[k] < |rows| && ParseRow(rows[idx[k]], mappings, dateFormat, amountInverted) == Some(ps[k]))
      && (forall k, l :: 0 <= k < l < |idx| ==> idx[k] < idx[l])
      && (forall i :: 0 <= i < |rows| && i !in idx ==> ParseRow(rows[i], mappings, dateFormat, amountInverted).None?)
      && (forall k :: 0 <= k < |ps| ==>
            !ps[k].isDuplicate && ps[k].transactionHash == GenerateHash(ps[k].date, ps[k].amount, ps[k].payee, ps[k].memo))
  {
    var f := RowParser(mappings, dateFormat, amountInverted);
    idx := FilterMapOrigins(rows, f);
    var ps := FilterMap(rows, f);
    forall k | 0 <= k < |ps|
      ensures !ps[k].isDuplicate && ps[k].transactionHash == GenerateHash(ps[k].date, ps[k].amount, ps[k].payee, ps[k].memo)
    {
      assert f(rows[idx[k]]) == Some(ps[k]);
    }
  }

  /**
   * `parse_csv` over the rows of the data frame: each row is parsed on its
   * own and appended, and a row whose parsing raises is skipped.
   */
  method ParseCsv(rows: seq<CsvRow>, mappings: ColumnMappings, dateFormat: string := "%d/%m/%Y",
                  amountInverted: bool := false)
    returns (transactions: seq<TransactionPreview>)
    ensures transactions == ParsedRows(rows, mappings, dateFormat, amountInverted)
  {
    transactions := [];
    for i := 0 to |rows|
      invariant transactions == FilterMap(rows[..i], RowParser(mappings, dateFormat, amountInverted))
    {
      FilterMapSnoc(rows[..i], rows[i], RowParser(mappings, dateFormat, amountInverted));
      assert rows[..i + 1] == rows[..i] + [rows[i]];
      var parsed := ParseRow(rows[i], mappings, dateFormat, amountInverted);
      if parsed.None? {
        continue;
      }
      transactions := transactions + [parsed.value];
    }
    assert rows[..|rows|] == rows;
  }

  function CreateFor(sourceAccount: Option<string>): TransactionPreview -> Option<TransactionCreate> {
    (p: TransactionPreview) => if p.isDuplicate then None
         else Some(TransactionCreate(p.date, p.amount, p.payee, p.memo, "csv", sourceAccount))
  }

  /** `to_transaction_creates`: the previews not flagged as duplicates, as import requests. */
  function ToTransactionCreates(previews: seq<TransactionPreview>, sourceAccount: Option<string> := None)
    : (txs: seq<TransactionCreate>)
    ensures |txs| == |previews| <==> forall i :: 0 <= i < |previews| ==> !previews[i].isDuplicate
  {
    FilterMap(previews, CreateFor(sourceAccount))
  }

  /**
   * Each request comes from one unflagged preview, in order, with its date,
   * amount, payee and memo, source `csv` and the given source account; no
   * unflagged preview is dropped.
   */
  lemma ToTransactionCreatesOrigins(previews: seq<TransactionPreview>, sourceAccount: Option<string>)
    returns (idx: seq<nat>)
    ensures var txs := ToTransactionCreates(previews, sourceAccount);
      && |idx| == |txs|
      && (forall k :: 0 <= k < |idx| ==>
            && idx[k] < |previews| && !previews[idx[k]].isDuplicate
            && txs[k] == TransactionCreate(previews[idx[k]].date, previews[idx[k]].amount, previews[idx[k]].payee,
                                           previews[idx[k]].memo, "csv", sourceAccount, None))
      && (forall k, l :: 0 <= k < l < |idx| ==> idx[k] < idx[l])
      && (forall i :: 0 <= i < |previews| && !previews[i].isDuplicate ==> i in idx)
  {
    var f := CreateFor(sourceAccount);
    idx := FilterMapOrigins(previews, f);
    var txs := FilterMap(previews, f);
    forall k | 0 <= k < |idx|
      ensures !previews[idx[k]].isDuplicate
      ensures txs[k] == TransactionCreate(previews[idx[k]].date, previews[idx[k]].amount, previews[idx[k]].payee,
                                          previews[idx[k]].memo, "csv", sourceAccount, None)
    {
      assert f(previews[idx[k]]) == Some(txs[k]);
    }
  }

  /** A pre-configured bank export layout. */
  datatype BankProfile = BankProfile(
    name: string,
    columnMappings: ColumnMappings,
    dateFormat: string,
    amountInverted: bool,
    skipRows: int)

  function NzProfile(name: string, payeeColumn: string, memoColumn: string): BankProfile {
    BankProfile(
      name,
      map["date" := Some("Date"), "amount" := Some("Amount"), "payee" := Some(payeeColumn), "memo" := Some(memoColumn)],
      "%d/%m/%Y", false, 0)
  }

  /** `BANK_PROFILES` */
  function BankProfiles(): map<string, BankProfile> {
    map[
      "asb" := NzProfile("ASB Bank", "Payee", "Memo"),
      "anz" := NzProfile("ANZ Bank", "Description", "Reference"),
      "westpac" := NzProfile("Westpac", "Other Party", "Particulars"),
      "bnz" := NzProfile("BNZ", "Payee", "Particulars"),
      "kiwibank" := NzProfile("Kiwibank", "Description", "Reference")]
  }

  /**
   * Exactly five profiles, all reading `Date` and `Amount` with the
   * day-first format, not inverted, no rows skipped.
   */
  lemma BankProfilesUniform()
    ensures BankProfiles().Keys == {"asb", "anz", "westpac", "bnz", "kiwibank"}
    ensures forall id :: id in BankProfiles() ==>
      var p := BankProfiles()[id];
      && p.dateFormat == "%d/%m/%Y" && !p.amountInverted && p.skipRows == 0
      && RequiredColumn(p.columnMappings, "date") == Some("Date")
      && RequiredColumn(p.columnMappings, "amount") == Some("Amount")
      && Truthy(RequiredColumn(p.columnMappings, "payee")) && Truthy(RequiredColumn(p.columnMappings, "memo"))
  {
  }

  /** The header a field maps to, if any. */
  function RequiredColumn(mappings: ColumnMappings, field: string): Option<string> {
    if field in mappings then mappings[field] else None
  }
}
