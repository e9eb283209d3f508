/**
 * The Akahu client's local logic: the page-accumulation loop of
 * `get_transactions` with its account filter and per-item conversion, the
 * conversion of fetched transactions to the dict shape the YNAB import
 * takes, and the field defaults of `get_accounts`. Each HTTP response is
 * given: the n-th request made is answered by the n-th page.
 */
module AkahuClient {
  import opened Wrappers
  import opened Text
  import opened Calendar
  import opened Fingerprint
  import opened Schemas

  /** A nested JSON object with an optional `name`, such as `merchant` or `connection`. */
  datatype NamedRef = NamedRef(name: Option<string>)

  /** One item of a `/transactions` page; a `None` field is a key missing from the JSON. */
  datatype RawTransaction = RawTransaction(
    id: Option<string>,
    account: Option<string>,
    date: Option<string>,
    amount: Option<Money>,
    description: Option<string>,
    merchant: Option<NamedRef>,
    category: Option<NamedRef>)

  /** A `/transactions` response: its items and `cursor.next`, if any. */
  datatype Page = Page(items: seq<RawTransaction>, nextCursor: Option<string>)

  /** The query string of one `/transactions` request. */
  datatype Request = Request(start: string, end: string, cursor: Option<string>)

  /** `str(KeyError(key))`: the key in single quotes. */
  function KeyErrorText(key: string): string {
    "'" + key + "'"
  }

  /** `x.get("name")` of an optional nested object, which is `None` when the object is absent. */
  function NameOf(r: Option<NamedRef>): Option<string> {
    if r.Some? then r.value.name else None
  }

  /** The item is skipped: an account was asked for and the item's `_account` differs. */
  predicate FilteredOut(tx: RawTransaction, accountId: Option<string>) {
    Truthy(accountId) && tx.account != Some(accountId.value)
  }

  /**
   * One item of a page: skipped by the account filter, converted, or the
   * exception its conversion raises. Keys are read in argument order: `_id`,
   * `_account`, `date` (then parsed with `Z` read as `+00:00`), `amount`.
   */
  function ConvertItem(tx: RawTransaction, accountId: Option<string>): (r: Result<Option<AkahuTransaction>, string>)
    ensures FilteredOut(tx, accountId) ==> r == Ok(None)
    ensures !FilteredOut(tx, accountId) && tx.id.None? ==> r == Err(KeyErrorText("_id"))
    ensures r.Ok? && r.value.Some? ==>
      && tx.id == Some(r.value.value.id) && tx.account == Some(r.value.value.accountId)
      && tx.amount == Some(r.value.value.amount)
      && r.value.value.description == (if tx.description.Some? then tx.description.value else "")
      && r.value.value.merchant == NameOf(tx.merchant) && r.value.value.category == NameOf(tx.category)
      && tx.date.Some? && ParseIsoDateTime(ReplaceChar(tx.date.value, 'Z', "+00:00")) == Some(r.value.value.date)
  {
    if FilteredOut(tx, accountId) then Ok(None)
    else if tx.id.None? then Err(KeyErrorText("_id"))
    else if tx.account.None? then Err(KeyErrorText("_account"))
    else if tx.date.None? then Err(KeyErrorText("date"))
    else
      var text := ReplaceChar(tx.date.value, 'Z', "+00:00");
      match ParseIsoDateTime(text)
      case None => Err("Invalid isoformat string: '" + text + "'")
      case Some(date) =>
        if tx.amount.None? then Err(KeyErrorText("amount"))
        else
          Ok(Some(AkahuTransaction(
            tx.id.value, tx.account.value, date, tx.amount.value,
            if tx.description.Some? then tx.description.value else "",
            NameOf(tx.merchant), NameOf(tx.category))))
  }

  /** The converted items of one page in page order, or the first item's exception. */
  function ConvertItems(items: seq<RawTransaction>, accountId: Option<string>): Result<seq<AkahuTransaction>, string> {
    if items == [] then Ok([])
    else
      match ConvertItems(items[..|items| - 1], accountId)
      case Err(e) => Err(e)
      case Ok(txs) =>
        match ConvertItem(items[|items| - 1], accountId)
        case Err(e) => Err(e)
        case Ok(t) => Ok(txs + (if t.Some? then [t.value] else []))
  }

  /** With an account asked for, every kept transaction belongs to it. */
  lemma {:induction false} ConvertItemsKeepsAccount(items: seq<RawTransaction>, accountId: Option<string>)
    requires Truthy(accountId) && ConvertItems(items, accountId).Ok?
    ensures forall k :: 0 <= k < |ConvertItems(items, accountId).value| ==>
      ConvertItems(items, accountId).value[k].accountId == accountId.value
  {
    if items != [] {
      ConvertItemsKeepsAccount(items[..|items| - 1], accountId);
    }
  }

  /** Without an account filter nothing is skipped: one transaction per item. */
  lemma {:induction false} ConvertItemsKeepsAll(items: seq<RawTransaction>, accountId: Option<string>)
    requires !Truthy(accountId) && ConvertItems(items, accountId).Ok?
    ensures |ConvertItems(items, accountId).value| == |items|
  {
    if items != [] {
      ConvertItemsKeepsAll(items[..|items| - 1], accountId);
    }
  }

  /** Conversion fails exactly when some item that passes the filter lacks `_id`, `_account`, `date` or `amount`, or has an unparsable date. */
  lemma {:induction false} ConvertItemsFails(items: seq<RawTransaction>, accountId: Option<string>)
    ensures ConvertItems(items, accountId).Err? <==> exists i :: 0 <= i < |items| && ConvertItem(items[i], accountId).Err?
  {
    if items != [] {
      var front := items[..|items| - 1];
      ConvertItemsFails(front, accountId);
      assert forall i :: 0 <= i < |front| ==> front[i] == items[i];
    }
  }

  /** The fetch stops after this response: it failed, an item raised, or there is no next cursor. */
  predicate Stops(page: Result<Page, string>, accountId: Option<string>) {
    page.Err? || ConvertItems(page.value.items, accountId).Err? || !Truthy(page.value.nextCursor)
  }

  /** Some response ends the fetch; otherwise the source loops for ever. */
  predicate Terminates(pages: seq<Result<Page, string>>, accountId: Option<string>) {
    exists k :: 0 <= k < |pages| && Stops(pages[k], accountId)
  }

  /** The index of the last response read: the first one that stops the fetch. */
  function LastPage(pages: seq<Result<Page, string>>, accountId: Option<string>): (n: nat)
    requires Terminates(pages, accountId)
    ensures n < |pages| && Stops(pages[n], accountId)
    ensures forall k :: 0 <= k < n ==> !Stops(pages[k], accountId)
  {
    if Stops(pages[0], accountId) then 0
    else
      var k :| 0 <= k < |pages| && Stops(pages[k], accountId);
      assert Stops(pages[1..][k - 1], accountId);
      1 + LastPage(pages[1..], accountId)
  }

  /** Every transaction of the responses read, in page order and item order within a page. */
  function Accumulate(pages: seq<Result<Page, string>>, accountId: Option<string>): Result<seq<AkahuTransaction>, string> {
    if pages == [] then Ok([])
    else
      match Accumulate(pages[..|pages| - 1], accountId)
      case Err(e) => Err(e)
      case Ok(acc) =>
        match pages[|pages| - 1]
        case Err(e) => Err(e)
        case Ok(p) =>
          match ConvertItems(p.items, accountId)
          case Err(e) => Err(e)
          case Ok(txs) => Ok(acc + txs)
  }

  /** With an account asked for, every accumulated transaction belongs to it. */
  lemma {:induction false} AccumulateKeepsAccount(pages: seq<Result<Page, string>>, accountId: Option<string>)
    requires Truthy(accountId) && Accumulate(pages, accountId).Ok?
    ensures forall k :: 0 <= k < |Accumulate(pages, accountId).value| ==>
      Accumulate(pages, accountId).value[k].accountId == accountId.value
  {
    if pages != [] {
      AccumulateKeepsAccount(pages[..|pages| - 1], accountId);
      ConvertItemsKeepsAccount(pages[|pages| - 1].value.items, accountId);
    }
  }

  /** The number of items on the pages read. */
  function ItemCount(pages: seq<Result<Page, string>>): nat {
    if pages == [] then 0
    else ItemCount(pages[..|pages| - 1]) + (if pages[|pages| - 1].Ok? then |pages[|pages| - 1].value.items| else 0)
  }

  /** Without an account filter, a successful fetch returns one transaction per item read. */
  lemma {:induction false} AccumulateKeepsAll(pages: seq<Result<Page, string>>, accountId: Option<string>)
    requires !Truthy(accountId) && Accumulate(pages, accountId).Ok?
    ensures |Accumulate(pages, accountId).value| == ItemCount(pages)
  {
    if pages != [] {
      AccumulateKeepsAll(pages[..|pages| - 1], accountId);
      ConvertItemsKeepsAll(pages[|pages| - 1].value.items, accountId);
    }
  }

  /** The `start` parameter: the given start date, or 30 days before now, as `YYYY-MM-DD`. */
  function StartParam(startDate: Option<Instant>, now: Instant): string {
    IsoDate(LocalDateOf(if startDate.Some? then startDate.value else now - Days(30)))
  }

  /** The `end` parameter: the given end date, or now, as `YYYY-MM-DD`. */
  function EndParam(endDate: Option<Instant>, now: Instant): string {
    IsoDate(LocalDateOf(if endDate.Some? then endDate.value else now))
  }

  /** The page step: one more page read extends the accumulated list by that page's converted items. */
  lemma AccumulateStep(pages: seq<Result<Page, string>>, i: nat, accountId: Option<string>, acc: seq<AkahuTransaction>)
    requires i < |pages| && Accumulate(pages[..i], accountId) == Ok(acc)
    ensures pages[i].Err? ==> Accumulate(pages[..i + 1], accountId) == Err(pages[i].error)
    ensures pages[i].Ok? ==> Accumulate(pages[..i + 1], accountId) == AppendedPage(acc, pages[i].value.items, accountId)
  {
    assert pages[..i + 1][..i] == pages[..i];
  }

  /** `all` followed by the page's converted items, or the page's error. */
  function AppendedPage(all: seq<AkahuTransaction>, items: seq<RawTransaction>, accountId: Option<string>)
    : Result<seq<AkahuTransaction>, string>
  {
    match ConvertItems(items, accountId)
    case Err(e) => Err(e)
    case Ok(txs) => Ok(all + txs)
  }

  /**
   * The items of one page appended to those already collected, one at a
   * time; the first item that raises ends the fetch with its exception.
   */
  method AppendPage(all: seq<AkahuTransaction>, items: seq<RawTransaction>, accountId: Option<string>)
    returns (r: Result<seq<AkahuTransaction>, string>)
    ensures r == AppendedPage(all, items, accountId)
  {
    var collected := all;
    ghost var kept: seq<AkahuTransaction> := [];
    for j := 0 to |items|
      invariant ConvertItems(items[..j], accountId) == Ok(kept)
      invariant collected == all + kept
    {
      assert items[..j + 1][..j] == items[..j];
      var tx := items[j];
      if FilteredOut(tx, accountId) {
        assert kept + [] == kept;
        continue;
      }
      var converted := ConvertItem(tx, accountId);
      if converted.Err? {
        ConvertItemsStopsAt(items, j, accountId);
        return Err(converted.error);
      }
      assert ConvertItems(items[..j + 1], accountId) == Ok(kept + [converted.value.value]);
      collected := collected + [converted.value.value];
      kept := kept + [converted.value.value];
    }
    assert items[..|items|] == items;
    r := Ok(collected);
  }

  /** An item that raises ends the page's conversion with its error, whatever follows. */
  lemma {:induction false} ConvertItemsStopsAt(items: seq<RawTransaction>, j: nat, accountId: Option<string>)
    requires j < |items| && ConvertItems(items[..j], accountId).Ok? && ConvertItem(items[j], accountId).Err?
    ensures ConvertItems(items, accountId) == Err(ConvertItem(items[j], accountId).error)
    decreases |items|
  {
    if j == |items| - 1 {
      assert items[..|items| - 1] == items[..j];
    } else {
      var front := items[..|items| - 1];
      assert front[..j] == items[..j] && front[j] == items[j];
      ConvertItemsStopsAt(front, j, accountId);
    }
  }

  /**
   * The query strings sent so far: all with the same dates, the first
   * without a cursor and each later one with the previous response's cursor.
   */
  predicate RequestsMatch(requests: seq<Request>, pages: seq<Result<Page, string>>, start: string, end: string) {
    && |requests| <= |pages|
    && (forall k :: 0 <= k < |requests| ==> requests[k].start == start && requests[k].end == end)
    && (|requests| > 0 ==> requests[0].cursor.None?)
    && (forall k :: 0 < k < |requests| ==> FollowsPage(requests[k], pages[k - 1]))
  }

  /** A request carries the cursor of the response before it. */
  predicate FollowsPage(request: Request, previous: Result<Page, string>) {
    previous.Ok? && request.cursor == previous.value.nextCursor
  }

  /** Sending one more request with the previous response's cursor keeps the query strings matched. */
  lemma RequestsStep(requests: seq<Request>, pages: seq<Result<Page, string>>, start: string, end: string, next: Request)
    requires RequestsMatch(requests, pages, start, end) && |requests| < |pages|
    requires next.start == start && next.end == end
    requires |requests| == 0 ==> next.cursor.None?
    requires |requests| > 0 ==> FollowsPage(next, pages[|requests| - 1])
    ensures RequestsMatch(requests + [next], pages, start, end)
  {
    var r' := requests + [next];
    assert forall k :: 0 <= k < |requests| ==> r'[k] == requests[k];
  }

  /** One response of the loop: its error, or its items appended to those collected so far. */
  method ReadPage(pages: seq<Result<Page, string>>, i: nat, accountId: Option<string>, all: seq<AkahuTransaction>)
    returns (r: Result<seq<AkahuTransaction>, string>)
    requires Terminates(pages, accountId) && i <= LastPage(pages, accountId)
    requires Accumulate(pages[..i], accountId) == Ok(all)
    ensures r == Accumulate(pages[..i + 1], accountId)
    ensures r.Ok? ==> pages[i].Ok?
    ensures i == LastPage(pages, accountId) <==> r.Err? || !Truthy(pages[i].value.nextCursor)
  {
    AccumulateStep(pages, i, accountId, all);
    var data := pages[i];
    if data.Err? {
      return Err(data.error);
    }
    r := AppendPage(all, data.value.items, accountId);
  }

  /**
   * `get_transactions`: repeats the request with the previous response's
   * cursor until a response has no next cursor, collecting the items that
   * pass the account filter. `now` is the local clock reading the default
   * dates are taken from; `requests` are the query strings sent.
   */
  method GetTransactions(accountId: Option<string>, startDate: Option<Instant>, endDate: Option<Instant>,
                         now: Instant, pages: seq<Result<Page, string>>)
    returns (r: Result<seq<AkahuTransaction>, string>, requests: seq<Request>)
    requires Terminates(pages, accountId)
    ensures |requests| == LastPage(pages, accountId) + 1
    ensures RequestsMatch(requests, pages, StartParam(startDate, now), EndParam(endDate, now))
    ensures r == Accumulate(pages[..|requests|], accountId)
  {
    var params := Request(StartParam(startDate, now), EndParam(endDate, now), None);
    var allTransactions: seq<AkahuTransaction> := [];
    var cursor: Option<string> := None;
    var i := 0;
    ghost var last := LastPage(pages, accountId);
    requests := [];
    while true
      invariant i <= last && |requests| == i
      invariant Accumulate(pages[..i], accountId) == Ok(allTransactions)
      invariant params.start == StartParam(startDate, now) && params.end == EndParam(endDate, now)
      invariant RequestsMatch(requests, pages, params.start, params.end)
      invariant i == 0 ==> cursor.None? && params.cursor.None?
      invariant i > 0 ==> pages[i - 1].Ok? && cursor == pages[i - 1].value.nextCursor && Truthy(cursor)
      decreases last - i
    {
      if Truthy(cursor) {
        params := params.(cursor := cursor);
      }
      assert |requests| > 0 ==> FollowsPage(params, pages[|requests| - 1]);
      RequestsStep(requests, pages, params.start, params.end, params);
      requests := requests + [params];
      var appended := ReadPage(pages, i, accountId, allTransactions);
      assert appended.Ok? ==> pages[..i + 1] == pages[..|requests|];
      if appended.Err? {
        assert i == last;
        return appended, requests;
      }
      allTransactions := appended.value;
      cursor := pages[i].value.nextCursor;
      if !Truthy(cursor) {
        assert i == last;
        return Ok(allTransactions), requests;
      }
      i := i + 1;
    }
  }

  /** `get_account_transactions`: the same fetch, filtered to the one account. */
  method GetAccountTransactions(accountId: string, startDate: Option<Instant>, endDate: Option<Instant>,
                                now: Instant, pages: seq<Result<Page, string>>)
    returns (r: Result<seq<AkahuTransaction>, string>, requests: seq<Request>)
    requires Terminates(pages, Some(accountId))
    ensures |requests| == LastPage(pages, Some(accountId)) + 1
    ensures RequestsMatch(requests, pages, StartParam(startDate, now), EndParam(endDate, now))
    ensures r == Accumulate(pages[..|requests|], Some(accountId))
    ensures accountId != "" && r.Ok? ==> forall k :: 0 <= k < |r.value| ==> r.value[k].accountId == accountId
  {
    r, requests := GetTransactions(Some(accountId), startDate, endDate, now, pages);
    if accountId != "" && r.Ok? {
      AccumulateKeepsAccount(pages[..|requests|], Some(accountId));
    }
  }

  /** A transaction in the dict shape the YNAB import and the ledger take. */
  datatype YnabFormatRow = YnabFormatRow(
    date: Timestamp,
    amount: Money,
    payee: Option<string>,
    memo: string,
    sourceTransactionId: string)

  /**
   * `tx.merchant or tx.description[:50] if tx.description else None`: the
   * conditional binds loosest, so an empty description gives no payee even
   * when a merchant is known.
   */
  function AkahuPayee(merchant: Option<string>, description: string): (p: Option<string>)
    ensures description == "" ==> p.None?
    ensures description != "" && Truthy(merchant) ==> p == merchant
    ensures description != "" && !Truthy(merchant) ==> p == Some(Prefix(description, 50))
  {
    if description != "" then (if Truthy(merchant) then merchant else Some(Prefix(description, 50)))
    else None
  }

  /** The precedence matters: a merchant with an empty description is dropped. */
  lemma MerchantDroppedWithoutDescription()
    ensures AkahuPayee(Some("Countdown"), "") == None
    ensures AkahuPayee(Some("Countdown"), "POS 1234") == Some("Countdown")
    ensures AkahuPayee(None, "POS 1234") == Some("POS 1234")
  {
  }

  function ToYnabRow(tx: AkahuTransaction): YnabFormatRow {
    YnabFormatRow(tx.date, tx.amount, AkahuPayee(tx.merchant, tx.description), tx.description, tx.id)
  }

  /** `transactions_to_ynab_format`: one row per transaction, in order. */
  function TransactionsToYnabFormat(txs: seq<AkahuTransaction>): (rows: seq<YnabFormatRow>)
    ensures |rows| == |txs|
    ensures forall k :: 0 <= k < |txs| ==>
      && rows[k].date == txs[k].date && rows[k].amount == txs[k].amount
      && rows[k].memo == txs[k].description && rows[k].sourceTransactionId == txs[k].id
      && rows[k].payee == AkahuPayee(txs[k].merchant, txs[k].description)
  {
    seq(|txs|, k requires 0 <= k < |txs| => ToYnabRow(txs[k]))
  }

  /** One item of the `/accounts` response; a `None` field is a key missing from the JSON. */
  datatype RawAccount = RawAccount(
    id: Option<string>,
    name: Option<string>,
    accountType: Option<string>,
    connection: Option<NamedRef>,
    balance: Option<Balance>)

  /** The `balance` object of an account. */
  datatype Balance = Balance(current: Option<Money>)

  function WithDefault(s: Option<string>, d: string): string {
    if s.Some? then s.value else d
  }

  function ToAccountResponse(acc: RawAccount): AkahuAccountResponse
    requires acc.id.Some?
  {
    AkahuAccountResponse(
      acc.id.value,
      WithDefault(acc.name, "Unknown Account"),
      WithDefault(acc.accountType, "unknown"),
      WithDefault(if acc.connection.Some? then acc.connection.value.name else None, "Unknown"),
      if acc.balance.Some? then acc.balance.value.current else None)
  }

  /**
   * `get_accounts`: one response per item, in order, with absent name, type
   * and institution replaced by their defaults; an item without `_id` raises.
   */
  function GetAccounts(accounts: seq<RawAccount>): (r: Result<seq<AkahuAccountResponse>, string>)
    ensures r.Err? <==> exists i :: 0 <= i < |accounts| && accounts[i].id.None?
    ensures r.Err? ==> r.error == KeyErrorText("_id")
    ensures r.Ok? ==> |r.value| == |accounts| && forall k :: 0 <= k < |accounts| ==>
      && Some(r.value[k].id) == accounts[k].id
      && r.value[k].name == WithDefault(accounts[k].name, "Unknown Account")
      && r.value[k].accountType == WithDefault(accounts[k].accountType, "unknown")
      && r.value[k].institution == WithDefault(NameOf(accounts[k].connection), "Unknown")
      && r.value[k].balance == (if accounts[k].balance.Some? then accounts[k].balance.value.current else None)
  {
    if accounts == [] then Ok([])
    else
      var front := accounts[..|accounts| - 1];
      assert forall i :: 0 <= i < |front| ==> front[i] == accounts[i];
      match GetAccounts(front)
      case Err(e) => Err(e)
      case Ok(rs) =>
        if accounts[|accounts| - 1].id.None? then Err(KeyErrorText("_id"))
        else Ok(rs + [ToAccountResponse(accounts[|accounts| - 1])])
  }
}
