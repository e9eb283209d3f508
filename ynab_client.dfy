/**
 * The YNAB client's local logic: the import-id generator with its
 * per-call occurrence counter, the conversion of transaction dicts to the
 * YNAB row shape, reading the create response, the empty-import shortcut
 * and the deleted-account filter. The HTTP exchange itself is a parameter.
 */
module YnabClient {
  import opened Wrappers
  import opened Text
  import opened Calendar
  import opened Fingerprint
  import opened Schemas
  import opened Sequences

  /** The `date` entry of a transaction dict: a datetime, a date, or an ISO string. */
  datatype DateValue = DateTimeValue(t: Timestamp) | DateOnly(d: CalendarDate) | TextValue(s: string)

  /** A transaction dict as callers pass it: `date`, `amount`, and optional `payee` and `memo`. */
  datatype TxDict = TxDict(date: DateValue, amount: Money, payee: Option<string>, memo: Option<string>)

  /** A row of the POST body sent to YNAB. */
  datatype YnabTransaction = YnabTransaction(
    accountId: string,
    date: string,
    amount: int,
    payeeName: Option<string>,
    memo: Option<string>,
    cleared: string,
    importId: string)

  /** The date a transaction is imported under: a datetime's date part, a parsed ISO string's date, or the date itself. */
  function NormalizeDate(v: DateValue): (r: Result<CalendarDate, string>)
    ensures v.DateTimeValue? ==> r == Ok(v.t.date)
    ensures v.DateOnly? ==> r == Ok(v.d)
    ensures v.TextValue? ==> (r.Ok? <==> ParseIsoDateTime(v.s).Some?)
  {
    match v
    case DateTimeValue(t) => Ok(t.date)
    case DateOnly(d) => Ok(d)
    case TextValue(s) =>
      match ParseIsoDateTime(s)
      case Some(t) => Ok(t.date)
      case None => Err("Invalid isoformat string: '" + s + "'")
  }

  /** The dates of all rows, or the error of the first row whose date does not parse. */
  function NormalizeAll(txs: seq<TxDict>): (r: Result<seq<CalendarDate>, string>)
    ensures r.Ok? ==> |r.value| == |txs|
  {
    if txs == [] then Ok([])
    else
      match NormalizeAll(txs[..|txs| - 1])
      case Err(e) => Err(e)
      case Ok(ds) =>
        match NormalizeDate(txs[|txs| - 1].date)
        case Err(e) => Err(e)
        case Ok(d) => Ok(ds + [d])
  }

  /** The dates succeed exactly when every row's date does. */
  lemma {:induction false} NormalizeAllOk(txs: seq<TxDict>)
    ensures NormalizeAll(txs).Ok? <==> forall i :: 0 <= i < |txs| ==> NormalizeDate(txs[i].date).Ok?
    ensures NormalizeAll(txs).Ok? ==> forall i :: 0 <= i < |txs| ==> Ok(NormalizeAll(txs).value[i]) == NormalizeDate(txs[i].date)
  {
    if txs != [] {
      var front := txs[..|txs| - 1];
      NormalizeAllOk(front);
      assert forall i :: 0 <= i < |front| ==> front[i] == txs[i];
    }
  }

  /** A failing row ends the conversion with its error, whatever follows. */
  lemma {:induction false} FirstErrorWins(txs: seq<TxDict>, i: nat, j: nat)
    requires i < j <= |txs|
    requires NormalizeAll(txs[..i]).Ok? && NormalizeDate(txs[i].date).Err?
    ensures NormalizeAll(txs[..j]) == Err(NormalizeDate(txs[i].date).error)
  {
    if j == i + 1 {
      assert txs[..j][..i] == txs[..i];
    } else {
      FirstErrorWins(txs, i, j - 1);
      assert txs[..j][..j - 1] == txs[..j - 1];
    }
  }

  /** `generate_import_id`: `YNAB:<amount>:<iso date>:<occurrence>`. */
  function GenerateImportId(date: CalendarDate, amount: int, occurrence: int := 1): string {
    "YNAB:" + (IntToString(amount) + ":" + (IsoDate(date) + ":" + IntToString(occurrence)))
  }

  lemma NoColonInIsoDate(d: CalendarDate)
    ensures ':' !in IsoDate(d)
  {
    var s := IsoDate(d);
    forall i | 0 <= i < |s| ensures s[i] != ':' {
      if i != 4 && i != 7 {
        assert IsDigit(s[i]);
      }
    }
  }

  lemma NoColonInInt(n: int)
    ensures ':' !in IntToString(n)
  {
    var s := IntToString(n);
    forall i | 0 <= i < |s| ensures s[i] != ':' {
      assert IsDigit(s[i]) || s[i] == '-';
    }
  }

  /** `<date>:<occurrence>` determines both parts. */
  lemma DateOccurrenceInjective(d1: CalendarDate, o1: int, d2: CalendarDate, o2: int)
    requires IsoDate(d1) + ":" + IntToString(o1) == IsoDate(d2) + ":" + IntToString(o2)
    ensures d1 == d2 && o1 == o2
  {
    NoColonInIsoDate(d1);
    NoColonInIsoDate(d2);
    SplitAtSeparator(IsoDate(d1), IntToString(o1), IsoDate(d2), IntToString(o2), ':');
    IntToStringInjective(o1, o2);
    IsoDateInjective(d1, d2);
  }

  /** Distinct (amount, date, occurrence) triples give distinct import ids. */
  lemma GenerateImportIdInjective(d1: CalendarDate, a1: int, o1: int, d2: CalendarDate, a2: int, o2: int)
    requires GenerateImportId(d1, a1, o1) == GenerateImportId(d2, a2, o2)
    ensures d1 == d2 && a1 == a2 && o1 == o2
  {
    var rest1 := IsoDate(d1) + ":" + IntToString(o1);
    var rest2 := IsoDate(d2) + ":" + IntToString(o2);
    var t1 := IntToString(a1) + ":" + rest1;
    var t2 := IntToString(a2) + ":" + rest2;
    assert t1 == GenerateImportId(d1, a1, o1)[5..];
    assert t2 == GenerateImportId(d2, a2, o2)[5..];
    NoColonInInt(a1);
    NoColonInInt(a2);
    SplitAtSeparator(IntToString(a1), rest1, IntToString(a2), rest2, ':');
    IntToStringInjective(a1, a2);
    DateOccurrenceInjective(d1, o1, d2, o2);
  }

  /** The (milliunits, date) pair the occurrence counter is keyed by. */
  datatype ImportKey = ImportKey(milliunits: int, date: CalendarDate)

  /** `f"{amount_milliunits}:{tx_date.isoformat()}"`, the counter's dictionary key. */
  function BaseKey(k: ImportKey): string {
    IntToString(k.milliunits) + ":" + IsoDate(k.date)
  }

  /** The dictionary key determines the pair, so counting keys counts pairs. */
  lemma BaseKeyInjective(k1: ImportKey, k2: ImportKey)
    requires BaseKey(k1) == BaseKey(k2)
    ensures k1 == k2
  {
    NoColonInInt(k1.milliunits);
    NoColonInInt(k2.milliunits);
    SplitAtSeparator(IntToString(k1.milliunits), IsoDate(k1.date), IntToString(k2.milliunits), IsoDate(k2.date), ':');
    IntToStringInjective(k1.milliunits, k2.milliunits);
    IsoDateInjective(k1.date, k2.date);
  }

  /** How many of `keys` equal `key`. */
  function CountKey(keys: seq<ImportKey>, key: ImportKey): nat {
    if keys == [] then 0
    else CountKey(keys[..|keys| - 1], key) + (if keys[|keys| - 1] == key then 1 else 0)
  }

  /** How many of `keys` have dictionary key `text`. */
  function CountByText(keys: seq<ImportKey>, text: string): nat {
    if keys == [] then 0
    else CountByText(keys[..|keys| - 1], text) + (if BaseKey(keys[|keys| - 1]) == text then 1 else 0)
  }

  lemma {:induction false} CountByTextIsCountKey(keys: seq<ImportKey>, key: ImportKey)
    ensures CountByText(keys, BaseKey(key)) == CountKey(keys, key)
  {
    if keys != [] {
      CountByTextIsCountKey(keys[..|keys| - 1], key);
      if BaseKey(keys[|keys| - 1]) == BaseKey(key) {
        BaseKeyInjective(keys[|keys| - 1], key);
      }
    }
  }

  /**
   * The i-th row's occurrence number: one more than the number of earlier
   * rows of the same call with the same milliunits and date.
   */
  function Occurrence(keys: seq<ImportKey>, i: nat): nat
    requires i < |keys|
  {
    CountKey(keys[..i], keys[i]) + 1
  }

  /** The keys of all rows, given their dates. */
  function KeysOf(txs: seq<TxDict>, dates: seq<CalendarDate>): (keys: seq<ImportKey>)
    requires |dates| == |txs|
    ensures |keys| == |txs|
  {
    seq(|txs|, i requires 0 <= i < |txs| => ImportKey(txs[i].amount, dates[i]))
  }

  function RowFor(accountId: string, tx: TxDict, date: CalendarDate, occurrence: nat): YnabTransaction {
    var amount := tx.amount;
    YnabTransaction(accountId, IsoDate(date), amount, tx.payee, tx.memo, "cleared", GenerateImportId(date, amount, occurrence))
  }

  /**
   * The rows `create_transactions` sends: one per input, in order, each
   * numbered by its occurrence among earlier rows; or the first date error.
   */
  function ConvertedRows(accountId: string, txs: seq<TxDict>): Result<seq<YnabTransaction>, string> {
    match NormalizeAll(txs)
    case Err(e) => Err(e)
    case Ok(dates) => Ok(RowsFor(accountId, txs, dates))
  }

  /** The rows for inputs whose dates are known. */
  function RowsFor(accountId: string, txs: seq<TxDict>, dates: seq<CalendarDate>): (rows: seq<YnabTransaction>)
    requires |dates| == |txs|
    ensures |rows| == |txs|
  {
    var keys := KeysOf(txs, dates);
    seq(|txs|, i requires 0 <= i < |txs| => RowFor(accountId, txs[i], dates[i], Occurrence(keys, i)))
  }

  /** One input more: its row is numbered by the earlier rows with its key. */
  lemma RowsForSnoc(accountId: string, txs: seq<TxDict>, dates: seq<CalendarDate>, tx: TxDict, d: CalendarDate)
    requires |dates| == |txs|
    ensures KeysOf(txs + [tx], dates + [d]) == KeysOf(txs, dates) + [ImportKey(tx.amount, d)]
    ensures RowsFor(accountId, txs + [tx], dates + [d])
      == RowsFor(accountId, txs, dates)
         + [RowFor(accountId, tx, d, CountKey(KeysOf(txs, dates), ImportKey(tx.amount, d)) + 1)]
  {
    var keys := KeysOf(txs, dates);
    var keys' := KeysOf(txs + [tx], dates + [d]);
    assert keys' == keys + [ImportKey(tx.amount, d)];
    forall k | 0 <= k < |txs| ensures Occurrence(keys', k) == Occurrence(keys, k) {
      assert keys'[..k] == keys[..k];
    }
    assert keys'[..|txs|] == keys;
  }

  /** Every converted row carries the account, "cleared", whole milliunits and an ISO date of its own input. */
  lemma ConvertedRowsShape(accountId: string, txs: seq<TxDict>)
    requires ConvertedRows(accountId, txs).Ok?
    ensures var rows := ConvertedRows(accountId, txs).value;
      && |rows| == |txs|
      && forall i :: 0 <= i < |rows| ==>
           && rows[i].accountId == accountId && rows[i].cleared == "cleared"
           && rows[i].amount == txs[i].amount
           && rows[i].payeeName == txs[i].payee && rows[i].memo == txs[i].memo
           && Ok(rows[i].date) == (match NormalizeDate(txs[i].date) case Ok(d) => Ok(IsoDate(d)) case Err(e) => Err(e))
  {
    NormalizeAllOk(txs);
  }

  lemma {:induction false} CountKeyGrows(keys: seq<ImportKey>, i: nat, j: nat)
    requires i < j <= |keys|
    ensures CountKey(keys[..j], keys[i]) >= CountKey(keys[..i], keys[i]) + 1
  {
    if j == i + 1 {
      assert keys[..j][..i] == keys[..i];
    } else {
      CountKeyGrows(keys, i, j - 1);
      assert keys[..j][..j - 1] == keys[..j - 1];
    }
  }

  /** Import ids generated within one call are pairwise distinct. */
  lemma ImportIdsDistinct(accountId: string, txs: seq<TxDict>)
    requires ConvertedRows(accountId, txs).Ok?
    ensures var rows := ConvertedRows(accountId, txs).value;
      forall i, j :: 0 <= i < j < |rows| ==> rows[i].importId != rows[j].importId
  {
    var dates := NormalizeAll(txs).value;
    var keys := KeysOf(txs, dates);
    var rows := RowsFor(accountId, txs, dates);
    forall i, j | 0 <= i < j < |rows| ensures rows[i].importId != rows[j].importId {
      if rows[i].importId == rows[j].importId {
        GenerateImportIdInjective(dates[i], keys[i].milliunits, Occurrence(keys, i),
                                  dates[j], keys[j].milliunits, Occurrence(keys, j));
        assert keys[i] == keys[j];
        CountKeyGrows(keys, i, j);
        assert false;
      }
    }
  }

  /** The first of several rows with the same amount and date is occurrence 1, the next 2. */
  lemma OccurrenceExample(accountId: string, d: CalendarDate)
    ensures var txs := [TxDict(DateOnly(d), 4500, None, None), TxDict(DateOnly(d), 4500, None, None)];
      ConvertedRows(accountId, txs) == Ok([
        YnabTransaction(accountId, IsoDate(d), 4500, None, None, "cleared", GenerateImportId(d, 4500, 1)),
        YnabTransaction(accountId, IsoDate(d), 4500, None, None, "cleared", GenerateImportId(d, 4500, 2))])
  {
    var txs := [TxDict(DateOnly(d), 4500, None, None), TxDict(DateOnly(d), 4500, None, None)];
    NormalizeAllOk(txs);
    assert NormalizeAll(txs).value == [d, d];
    var k := ImportKey(4500, d);
    var keys := KeysOf(txs, [d, d]);
    assert keys == [k, k];
    assert keys[..0] == [] && keys[..1] == [k] && [k][..0] == [];
    assert Occurrence(keys, 0) == 1;
    assert Occurrence(keys, 1) == 2;
    var rows := RowsFor(accountId, txs, [d, d]);
    assert rows[0] == RowFor(accountId, txs[0], d, 1);
    assert rows[1] == RowFor(accountId, txs[1], d, 2);
    assert rows == [rows[0], rows[1]];
  }

  /** One row more in the counter's keys: the step of the loop. */
  lemma CountByTextSnoc(keys: seq<ImportKey>, k: ImportKey, text: string)
    ensures CountByText(keys + [k], text) == CountByText(keys, text) + (if BaseKey(k) == text then 1 else 0)
  {
    assert (keys + [k])[..|keys|] == keys;
  }

  /** The counter dictionary holds, per dictionary key, how many of `keys` have it. */
  ghost predicate CountsMatch(counts: map<string, nat>, keys: seq<ImportKey>) {
    && (forall t :: t in counts ==> counts[t] == CountByText(keys, t))
    && (forall t :: t !in counts ==> CountByText(keys, t) == 0)
  }

  /** Reading and bumping the counter for `key` yields its occurrence number and keeps the counter exact. */
  lemma CountsStep(counts: map<string, nat>, keys: seq<ImportKey>, key: ImportKey)
    requires CountsMatch(counts, keys)
    ensures var b := BaseKey(key);
      var o := (if b in counts then counts[b] else 0) + 1;
      o == CountKey(keys, key) + 1 && CountsMatch(counts[b := o], keys + [key])
  {
    CountByTextIsCountKey(keys, key);
    forall t ensures CountByText(keys + [key], t) == CountByText(keys, t) + (if BaseKey(key) == t then 1 else 0) {
      CountByTextSnoc(keys, key, t);
    }
  }

  /** One more input whose date parses extends the dates by that date. */
  lemma NormalizeStep(txs: seq<TxDict>, i: nat, dates: seq<CalendarDate>, d: CalendarDate)
    requires i < |txs| && NormalizeAll(txs[..i]) == Ok(dates)
    requires NormalizeDate(txs[i].date) == Ok(d)
    ensures NormalizeAll(txs[..i + 1]) == Ok(dates + [d])
  {
    assert txs[..i + 1][..i] == txs[..i];
  }

  /** The loop step: one more converted input extends the counter and the rows together. */
  lemma ConvertStep(accountId: string, front: seq<TxDict>, tx: TxDict, dates: seq<CalendarDate>,
                    counts: map<string, nat>, rows: seq<YnabTransaction>, d: CalendarDate)
    requires |dates| == |front|
    requires CountsMatch(counts, KeysOf(front, dates))
    requires rows == RowsFor(accountId, front, dates)
    ensures var b := BaseKey(ImportKey(tx.amount, d));
      var o := (if b in counts then counts[b] else 0) + 1;
      && CountsMatch(counts[b := o], KeysOf(front + [tx], dates + [d]))
      && rows + [RowFor(accountId, tx, d, o)] == RowsFor(accountId, front + [tx], dates + [d])
  {
    var key := ImportKey(tx.amount, d);
    var keys := KeysOf(front, dates);
    var b := BaseKey(key);
    var o := (if b in counts then counts[b] else 0) + 1;
    CountsStep(counts, keys, key);
    assert o == CountKey(keys, key) + 1 && CountsMatch(counts[b := o], keys + [key]);
    RowsForSnoc(accountId, front, dates, tx, d);
    assert KeysOf(front + [tx], dates + [d]) == keys + [key];
  }

  /**
   * The conversion loop of `create_transactions`: one YNAB row per input
   * row, with the occurrence counter kept in a dictionary that starts empty.
   */
  method BuildYnabTransactions(accountId: string, txs: seq<TxDict>) returns (r: Result<seq<YnabTransaction>, string>)
    ensures r == ConvertedRows(accountId, txs)
  {
    var ynabTransactions: seq<YnabTransaction> := [];
    var importIdCounts: map<string, nat> := map[];
    ghost var dates: seq<CalendarDate> := [];
    for i := 0 to |txs|
      invariant |dates| == i && NormalizeAll(txs[..i]) == Ok(dates)
      invariant CountsMatch(importIdCounts, KeysOf(txs[..i], dates))
      invariant ynabTransactions == RowsFor(accountId, txs[..i], dates)
    {
      var txDate := NormalizeDate(txs[i].date);
      if txDate.Err? {
        FirstErrorWins(txs, i, |txs|);
        assert txs[..|txs|] == txs;
        return Err(txDate.error);
      }
      // amounts are already milliunits, so `dollars_to_milliunits` is the identity
      var amountMilliunits := txs[i].amount;
      var baseKey := BaseKey(ImportKey(amountMilliunits, txDate.value));
      NormalizeStep(txs, i, dates, txDate.value);
      assert txs[..i + 1] == txs[..i] + [txs[i]];
      ConvertStep(accountId, txs[..i], txs[i], dates, importIdCounts, ynabTransactions, txDate.value);
      var occurrence := (if baseKey in importIdCounts then importIdCounts[baseKey] else 0) + 1;
      importIdCounts := importIdCounts[baseKey := occurrence];
      var importId := GenerateImportId(txDate.value, amountMilliunits, occurrence);
      var row := YnabTransaction(
        accountId, IsoDate(txDate.value), amountMilliunits, txs[i].payee, txs[i].memo, "cleared", importId);
      assert row == RowFor(accountId, txs[i], txDate.value, occurrence);
      ynabTransactions := ynabTransactions + [row];
      dates := dates + [txDate.value];
    }
    assert txs[..|txs|] == txs;
    r := Ok(ynabTransactions);
  }

  /** One created transaction in YNAB's response. */
  datatype CreatedTransaction = CreatedTransaction(id: string)

  /** The `data` object of the create response; either list may be absent. */
  datatype ResponseData = ResponseData(
    transactions: Option<seq<CreatedTransaction>>,
    duplicateImportIds: Option<seq<string>>)

  /** The create response body; `data` may be absent. */
  datatype CreateResponse = CreateResponse(data: Option<ResponseData>)

  /** Created ids in response order, and the duplicate ids, each defaulting to empty. */
  function ExtractIds(response: CreateResponse): (ids: (seq<string>, seq<string>))
    ensures response.data.None? ==> ids == ([], [])
    ensures response.data.Some? && response.data.value.transactions.Some? ==>
      var created := response.data.value.transactions.value;
      |ids.0| == |created| && forall k :: 0 <= k < |created| ==> ids.0[k] == created[k].id
    ensures response.data.Some? && response.data.value.transactions.None? ==> ids.0 == []
    ensures response.data.Some? ==>
      ids.1 == (if response.data.value.duplicateImportIds.Some? then response.data.value.duplicateImportIds.value else [])
  {
    match response.data
    case None => ([], [])
    case Some(d) =>
      var created := if d.transactions.Some? then d.transactions.value else [];
      (seq(|created|, k requires 0 <= k < |created| => created[k].id),
       if d.duplicateImportIds.Some? then d.duplicateImportIds.value else [])
  }

  /**
   * `create_transactions`: converts the rows, sends them once, and reads the
   * ids back. `response` is what the POST returns (an error when the request
   * fails); `sent` is the body posted, if the conversion got that far.
   */
  method CreateTransactions(accountId: string, txs: seq<TxDict>, response: Result<CreateResponse, string>)
    returns (r: Result<(seq<string>, seq<string>), string>, sent: Option<seq<YnabTransaction>>)
    ensures ConvertedRows(accountId, txs).Err? ==> r == Err(ConvertedRows(accountId, txs).error) && sent.None?
    ensures ConvertedRows(accountId, txs).Ok? ==> sent == Some(ConvertedRows(accountId, txs).value)
    ensures ConvertedRows(accountId, txs).Ok? ==>
      r == (match response case Ok(resp) => Ok(ExtractIds(resp)) case Err(e) => Err(e))
  {
    var rows := BuildYnabTransactions(accountId, txs);
    if rows.Err? {
      return Err(rows.error), None;
    }
    sent := Some(rows.value);
    match response
    case Err(e) => r := Err(e);
    case Ok(resp) => r := Ok(ExtractIds(resp));
  }

  /** What `import_transactions` reports for a non-empty list, given YNAB's answer to the create request. */
  function ImportReport(response: Result<CreateResponse, string>): (r: Result<YnabImportResult, string>)
    ensures response.Err? ==> r == Err(response.error)
    ensures response.Ok? ==>
      r.Ok? && r.value.transactionIds == ExtractIds(response.value).0
      && r.value.duplicateImportIds == ExtractIds(response.value).1
  {
    match response
    case Ok(resp) => Ok(YnabImportResult(ExtractIds(resp).0, ExtractIds(resp).1))
    case Err(e) => Err(e)
  }

  /**
   * `import_transactions`: an empty list returns empty results without
   * sending anything; otherwise the result of `create_transactions`.
   */
  method ImportTransactions(accountId: string, txs: seq<TxDict>, response: Result<CreateResponse, string>)
    returns (r: Result<YnabImportResult, string>, sent: Option<seq<YnabTransaction>>)
    ensures txs == [] ==> r == Ok(YnabImportResult([], [])) && sent.None?
    ensures txs != [] && ConvertedRows(accountId, txs).Err? ==> r == Err(ConvertedRows(accountId, txs).error) && sent.None?
    ensures txs != [] && ConvertedRows(accountId, txs).Ok? ==>
      && sent == Some(ConvertedRows(accountId, txs).value)
      && r == ImportReport(response)
  {
    if txs == [] {
      return Ok(YnabImportResult([], [])), None;
    }
    var created;
    created, sent := CreateTransactions(accountId, txs, response);
    match created
    case Err(e) => r := Err(e);
    case Ok(ids) => r := Ok(YnabImportResult(ids.0, ids.1));
  }

  /** An account entry of YNAB's account list, with its `deleted` flag. */
  datatype RawYnabAccount = RawYnabAccount(
    id: string, name: string, accountType: string, onBudget: bool, closed: bool, balance: int, deleted: bool)

  /** An account as the client returns it. */
  datatype YnabAccount = YnabAccount(
    id: string, name: string, accountType: string, onBudget: bool, closed: bool, balance: int)

  function Visible(a: RawYnabAccount): Option<YnabAccount> {
    if a.deleted then None else Some(YnabAccount(a.id, a.name, a.accountType, a.onBudget, a.closed, a.balance))
  }

  /** `get_accounts`: the accounts not marked deleted. */
  function VisibleAccounts(accounts: seq<RawYnabAccount>): (r: seq<YnabAccount>)
    ensures |r| <= |accounts|
    ensures |r| == |accounts| <==> forall i :: 0 <= i < |accounts| ==> !accounts[i].deleted
  {
    FilterMap(accounts, Visible)
  }

  /**
   * Each listed account comes from an undeleted entry with the same fields,
   * in the original order, and every undeleted entry is listed.
   */
  lemma VisibleAccountsInOrder(accounts: seq<RawYnabAccount>) returns (idx: seq<nat>)
    ensures |idx| == |VisibleAccounts(accounts)|
    ensures forall k :: 0 <= k < |idx| ==>
      && idx[k] < |accounts| && !accounts[idx[k]].deleted
      && VisibleAccounts(accounts)[k] == YnabAccount(accounts[idx[k]].id, accounts[idx[k]].name,
           accounts[idx[k]].accountType, accounts[idx[k]].onBudget, accounts[idx[k]].closed, accounts[idx[k]].balance)
    ensures forall k, l :: 0 <= k < l < |idx| ==> idx[k] < idx[l]
    ensures forall i :: 0 <= i < |accounts| && !accounts[i].deleted ==> i in idx
  {
    idx := FilterMapOrigins(accounts, Visible);
  }
}
