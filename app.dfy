/** The decisions `main` makes (src/main.rs): the colour switch, the
    credentials from the environment, the transaction length and date
    window, the transfer arguments, the interactive source removal and the
    `is_error` check. The environment, the clock, chrono's date parser, the
    float parser, stdin and fzf are inputs; what is printed is returned. */
module App {
  import opened Wrappers
  import opened Strings
  import opened Errors
  import opened Entities
  import opened DateTime
  import opened Interactive
  import opened Authorize
  import opened Bank

  /** `env::var`: a variable's value, or nothing when it is not set. */
  type Env = string -> Option<string>

  /** Everything outside the program that the commands consult. */
  datatype World = World(
    http: Http,
    decoders: Decoders,
    fzf: (string, string) -> string,
    parseDate: string -> Result<int, ChronoParseError>,
    parseAmount: string -> Option<Float>,
    toJson: TransferRequest -> string,
    now: int,
    stdinAmount: Float,
    stdinMessage: string)

  // --------------------------------------------------------------- colour

  /** Colour is on when SBANKEN_COLOR is exactly "1" or the flag is given. */
  function ColorEnabled(colorEnv: Option<string>, colorFlag: bool): (on: bool)
    ensures on <==> colorEnv == Some("1") || colorFlag
  {
    var fromEnv := match colorEnv
      case Some(value) => value == "1"
      case None => false;
    fromEnv || colorFlag
  }

  // ---------------------------------------------------------- environment

  const EnvNames: seq<string> := ["SBANKEN_SECRET", "SBANKEN_CLIENT_ID", "SBANKEN_CUSTOMER_ID"]

  /** The three credentials, read in the order secret, client id, customer id;
      the first one missing is the error. */
  function LoadCredentials(env: Env): (r: Result<Credentials, Error>)
    ensures r.Ok? <==> forall k :: 0 <= k < 3 ==> env(EnvNames[k]).Some?
    ensures r.Ok? ==> r.value == Credentials(env(EnvNames[0]).value, env(EnvNames[1]).value,
                                              env(EnvNames[2]).value)
    ensures forall k :: 0 <= k < 3 && env(EnvNames[k]).None? &&
                        (forall j :: 0 <= j < k ==> env(EnvNames[j]).Some?) ==>
              r == Err(EnvMissing(EnvNames[k]))
  {
    assert EnvNames[0] == "SBANKEN_SECRET" && EnvNames[1] == "SBANKEN_CLIENT_ID" &&
           EnvNames[2] == "SBANKEN_CUSTOMER_ID";
    match env("SBANKEN_SECRET")
    case None => Err(EnvMissing("SBANKEN_SECRET"))
    case Some(secret) =>
      match env("SBANKEN_CLIENT_ID")
      case None => Err(EnvMissing("SBANKEN_CLIENT_ID"))
      case Some(clientId) =>
        match env("SBANKEN_CUSTOMER_ID")
        case None => Err(EnvMissing("SBANKEN_CUSTOMER_ID"))
        case Some(customerId) => Ok(Credentials(secret, clientId, customerId))
  }

  // ----------------------------------------------------------- transactions

  const DefaultLength: i32 := 20
  const LengthMessage := "given value for length couldn't be parsed to integer"
  const WindowMessage := "end_date was earlier than start date"
  const DefaultSpan := 30 * 86400

  /** The `--length` value: 20 when absent, otherwise the i32 it spells. */
  function ParseLength(arg: Option<string>): (r: Result<i32, Error>)
    ensures arg.None? ==> r == Ok(20)
    ensures arg.Some? ==> (r.Ok? <==> ParseI32(arg.value).Some?)
    ensures arg.Some? && r.Ok? ==> r.value == ParseI32(arg.value).value
    ensures r.Err? ==> r.error == Parsable("given value for length couldn't be parsed to integer")
  {
    match arg
    case None => Ok(DefaultLength)
    case Some(text) =>
      match ParseI32(text)
      case Some(n) => Ok(n)
      case None => Err(Parsable(LengthMessage))
  }

  /** Any length written in decimal is taken as that length. */
  lemma LengthReadsDecimal(n: i32)
    ensures ParseLength(Some(DecimalString(n))) == Ok(n)
  {
    ParseDecimalString(n);
  }

  /** The end of the window: the last second of the `--to` day, or now. */
  function WindowEnd(to: Option<string>, now: int, parseDate: string -> Result<int, ChronoParseError>)
    : Result<int, Error>
  {
    match to
    case None => Ok(now)
    case Some(text) =>
      match parseDate(text)
      case Err(e) => Err(FromChrono(e))
      case Ok(day) => Ok(DayEnd(day))
  }

  /** The start of the window: the first second of the `--from` day, or
      thirty days before the end. */
  function WindowStart(from: Option<string>, end: int, parseDate: string -> Result<int, ChronoParseError>)
    : Result<int, Error>
  {
    match from
    case None => Ok(end - DefaultSpan)
    case Some(text) =>
      match parseDate(text)
      case Err(e) => Err(FromChrono(e))
      case Ok(day) => Ok(DayStart(day))
  }

  /** The transaction window (start, end): the end is worked out first, and
      a window that ends before it starts is refused. */
  function TransactionWindow(to: Option<string>, from: Option<string>, now: int,
                             parseDate: string -> Result<int, ChronoParseError>)
    : (r: Result<(int, int), Error>)
    ensures r.Ok? ==> r.value.0 <= r.value.1
  {
    match WindowEnd(to, now, parseDate)
    case Err(e) => Err(e)
    case Ok(end) =>
      match WindowStart(from, end, parseDate)
      case Err(e) => Err(e)
      case Ok(start) => if end < start then Err(Message(WindowMessage)) else Ok((start, end))
  }

  /** The window is refused with "end_date was earlier than start date"
      exactly when both ends are known and the end comes before the start;
      otherwise it is accepted with those two ends or fails on a date. */
  lemma WindowRejection(to: Option<string>, from: Option<string>, now: int,
                        parseDate: string -> Result<int, ChronoParseError>)
    ensures var r := TransactionWindow(to, from, now, parseDate);
      var end := WindowEnd(to, now, parseDate);
      (r == Err(Message("end_date was earlier than start date")) <==>
        end.Ok? && WindowStart(from, end.value, parseDate).Ok? &&
        end.value < WindowStart(from, end.value, parseDate).value) &&
      (r.Ok? <==>
        end.Ok? && WindowStart(from, end.value, parseDate).Ok? &&
        WindowStart(from, end.value, parseDate).value <= end.value) &&
      (r.Ok? ==> r.value == (WindowStart(from, end.value, parseDate).value, end.value))
  {
    assert DateFormatMessage != WindowMessage;
  }

  /** With both days given, the window runs from the first second of the
      `--from` day to the last second of the `--to` day, rendered with
      `T00:00:00Z` and `T23:59:59Z`, and is refused exactly when the `--to`
      day comes before the `--from` day. */
  lemma WindowOfDays(f: string, t: string, now: int, parseDate: string -> Result<int, ChronoParseError>,
                     fromDay: int, toDay: int)
    requires parseDate(f) == Ok(fromDay) && parseDate(t) == Ok(toDay)
    ensures var r := TransactionWindow(Some(t), Some(f), now, parseDate);
      (r.Err? <==> toDay < fromDay) &&
      (r.Err? ==> r.error == Message("end_date was earlier than start date")) &&
      (r.Ok? ==> r.value == (DayStart(fromDay), DayEnd(toDay)) &&
                 Rfc3339(r.value.0) == DateText(CivilFromDays(fromDay)) + "T00:00:00Z" &&
                 Rfc3339(r.value.1) == DateText(CivilFromDays(toDay)) + "T23:59:59Z")
  {
    DayStartText(fromDay);
    DayEndText(toDay);
  }

  /** Without `--from` the window is the thirty days up to the end, and it is never refused. */
  lemma WindowDefaultStart(to: Option<string>, now: int, parseDate: string -> Result<int, ChronoParseError>)
    requires WindowEnd(to, now, parseDate).Ok?
    ensures var end := WindowEnd(to, now, parseDate).value;
      TransactionWindow(to, None, now, parseDate) == Ok((end - 30 * 86400, end))
    ensures to.None? ==> TransactionWindow(to, None, now, parseDate) == Ok((now - 30 * 86400, now))
  {
  }

  /** A date that does not parse gives the one date-format error, and the
      `--to` date is looked at before the `--from` date. */
  lemma WindowDateErrors(to: Option<string>, from: Option<string>, now: int,
                         parseDate: string -> Result<int, ChronoParseError>)
    ensures to.Some? && parseDate(to.value).Err? ==>
      TransactionWindow(to, from, now, parseDate) == Err(Message("Couldn't parse date on format `YYYY-MM-DD`"))
    ensures WindowEnd(to, now, parseDate).Ok? && from.Some? && parseDate(from.value).Err? ==>
      TransactionWindow(to, from, now, parseDate) == Err(Message("Couldn't parse date on format `YYYY-MM-DD`"))
  {
  }

  /** The arguments of the `transaction` subcommand. */
  datatype TransactionArgs = TransactionArgs(
    length: Option<string>,
    to: Option<string>,
    from: Option<string>,
    interactive: bool,
    account: Option<string>)

  /** A reqwest error turned into the command line's error by `?`. */
  function Lift<T>(r: Result<T, ReqwestError>): (l: Result<T, Error>)
    ensures r.Ok? ==> l == Ok(r.value)
    ensures r.Err? ==> l == Err(FromReqwest(r.error)) && CauseOf(l.error) == Some(ReqwestCause(r.error))
  {
    match r
    case Ok(v) => Ok(v)
    case Err(e) => Err(FromReqwest(e))
  }

  const FromHeader := "Select from_account"
  const ToHeader := "Select to_account"
  const AccountMessage := "account wasn't parsable"

  /** What fzf makes of a list shown under a header. */
  function Pick(w: World, accounts: seq<AccountObj>, header: string): Result<AccountObj, Error> {
    PickResult(accounts, w.fzf(PickerInput(accounts), header))
  }

  /** What the `transaction` subcommand yields and the requests it sends:
      the length, then the window, are checked before any request; then the
      account is either the argument or the one picked from all accounts;
      then that account's transactions are queried over the window. */
  function TransactionOutcome(c: Credentials, w: World, args: TransactionArgs)
    : (Result<Transactions, Error>, seq<Request>)
  {
    var length := ParseLength(args.length);
    var window := TransactionWindow(args.to, args.from, w.now, w.parseDate);
    if length.Err? then (Err(length.error), [])
    else if window.Err? then (Err(window.error), [])
    else
      var query := QueryMap(length.value, window.value.0, window.value.1);
      if !args.interactive then
        if args.account.None? then (Err(Parsable(AccountMessage)), [])
        else AccountTransactions(c, w, args.account.value, query)
      else
        var fetch := Authorized(c, w.http, Get, AccountsUrl, None, None);
        var fetched := Decoded(fetch, w.decoders.accounts);
        if fetched.Err? then (Err(Reqwest(fetched.error)), fetch.sent)
        else
          var pick := Pick(w, fetched.value.items, FromHeader);
          if pick.Err? then (Err(pick.error), fetch.sent)
          else
            var q := AccountTransactions(c, w, pick.value.accountId, query);
            (q.0, fetch.sent + q.1)
  }

  /** One account's transactions over the query, and the requests that takes. */
  function AccountTransactions(c: Credentials, w: World, account: string, query: map<string, string>)
    : (Result<Transactions, Error>, seq<Request>)
  {
    var o := Authorized(c, w.http, Get, TransactionsUrl(account), Some(query), None);
    (Lift(Decoded(o, w.decoders.transactions)), o.sent)
  }

  /** The `transaction` subcommand: length, then window, then the account,
      then the request. */
  method TransactionCommand(c: Credentials, w: World, args: TransactionArgs)
    returns (r: Result<Transactions, Error>, sent: seq<Request>)
    ensures (r, sent) == TransactionOutcome(c, w, args)
  {
    var length := ParseLength(args.length);
    if length.Err? {
      return Err(length.error), [];
    }
    var window := TransactionWindow(args.to, args.from, w.now, w.parseDate);
    if window.Err? {
      return Err(window.error), [];
    }
    var (start, end) := window.value;
    var account: string;
    sent := [];
    if args.interactive {
      var response, fetchSent := GetAccounts(c, w.http, w.decoders);
      sent := fetchSent;
      if response.Err? {
        return Err(Reqwest(response.error)), sent;
      }
      var picked, _ := FuzzyMatchAccount(response.value.items, FromHeader, w.fzf);
      if picked.Err? {
        return Err(picked.error), sent;
      }
      account := picked.value.accountId;
    } else {
      if args.account.None? {
        return Err(Parsable(AccountMessage)), [];
      }
      account := args.account.value;
    }
    var transactions, callSent := GetTransactions(c, w.http, w.decoders, account, length.value, start, end);
    assert (Lift(transactions), callSent) == AccountTransactions(c, w, account, QueryMap(length.value, start, end));
    if !args.interactive {
      assert sent + callSent == callSent;
    }
    sent := sent + callSent;
    r := Lift(transactions);
  }

  // --------------------------------------------------------------- transfers

  /** The arguments of the `transfer` subcommand. */
  datatype TransferArgs = TransferArgs(
    interactive: bool,
    from: Option<string>,
    to: Option<string>,
    amount: Option<string>,
    message: Option<string>)

  const AmountMessage := "amount couldn't be parsed to a float value"
  const ArgNames: seq<string> := ["from", "to", "amount", "message"]

  function ArgValues(a: TransferArgs): (v: seq<Option<string>>)
    ensures |v| == 4
  {
    [a.from, a.to, a.amount, a.message]
  }

  /** The non-interactive transfer request. Arguments are checked in the
      order from, to, amount, message; the amount is parsed as soon as it is
      found, before the message is looked for. */
  function TransferFromArgs(a: TransferArgs, parseAmount: string -> Option<Float>): (r: Result<TransferRequest, Error>)
    ensures r.Ok? <==> (forall k :: 0 <= k < 4 ==> ArgValues(a)[k].Some?) &&
                       a.amount.Some? && parseAmount(a.amount.value).Some?
    ensures r.Ok? ==>
      a.from.Some? && a.to.Some? && a.amount.Some? && a.message.Some? && parseAmount(a.amount.value).Some? &&
      r.value == TransferRequest(a.from.value, a.to.value, a.message.value, parseAmount(a.amount.value).value)
    ensures forall k :: 0 <= k < 4 && ArgValues(a)[k].None? &&
                        (forall j :: 0 <= j < k ==> ArgValues(a)[j].Some?) &&
                        (k == 3 ==> a.amount.Some? && parseAmount(a.amount.value).Some?) ==>
              r == Err(ArgumentMissing(ArgNames[k]))
    ensures a.from.Some? && a.to.Some? && a.amount.Some? && parseAmount(a.amount.value).None? ==>
              r == Err(Parsable("amount couldn't be parsed to a float value"))
  {
    assert ArgValues(a)[0] == a.from && ArgValues(a)[1] == a.to && ArgValues(a)[2] == a.amount &&
           ArgValues(a)[3] == a.message;
    assert ArgNames[0] == "from" && ArgNames[1] == "to" && ArgNames[2] == "amount" && ArgNames[3] == "message";
    match a.from
    case None => Err(ArgumentMissing("from"))
    case Some(from) =>
      match a.to
      case None => Err(ArgumentMissing("to"))
      case Some(to) =>
        match a.amount
        case None => Err(ArgumentMissing("amount"))
        case Some(text) =>
          match parseAmount(text)
          case None => Err(Parsable(AmountMessage))
          case Some(amount) =>
            match a.message
            case None => Err(ArgumentMissing("message"))
            case Some(message) => Ok(TransferRequest(from, to, message, amount))
  }

  const SuccessText := "Your transfer was successfully executed."
  const TransferFailed := "couldn't perform your transfer"

  /** What the command prints on success, and whether it is coloured. */
  datatype Notice = Notice(colored: bool, text: string)

  /** The end of a transfer: the `?` on the request, then the `is_error` check. */
  function Conclude(response: Result<TransferResponse, ReqwestError>, color: bool): (r: Result<Notice, Error>)
    ensures r.Ok? <==> response.Ok? && !response.value.isError
    ensures r.Ok? ==> r.value == Notice(color, "Your transfer was successfully executed.")
    ensures response.Ok? && response.value.isError ==> r == Err(Message("couldn't perform your transfer"))
    ensures response.Err? ==> r == Err(Reqwest(response.error))
  {
    match response
    case Err(e) => Err(Reqwest(e))
    case Ok(answer) =>
      if answer.isError then Err(Message(TransferFailed)) else Ok(Notice(color, SuccessText))
  }

  /** The refusal never carries the bank's own error text or type. */
  lemma RefusalIgnoresDetails(t: TransferResponse, color: bool, message: Option<string>, kind: Option<string>)
    requires t.isError
    ensures Conclude(Ok(t.(errorMessage := message, errorType := kind)), color) == Conclude(Ok(t), color)
  {
  }

  /** The interactive choice of both accounts: fetch the accounts, pick the
      source, remove it from the list in place, pick the destination from
      what is left. Returns both ids and the lists shown to fzf. */
  method PickAccounts(c: Credentials, w: World)
    returns (r: Result<(string, string), Error>, sent: seq<Request>, shown: seq<seq<AccountObj>>)
    ensures var fetch := Authorized(c, w.http, Get, AccountsUrl, None, None);
      var fetched := Decoded(fetch, w.decoders.accounts);
      sent == fetch.sent &&
      (fetched.Err? ==> r == Err(Reqwest(fetched.error)) && shown == []) &&
      (fetched.Ok? ==>
        var all := fetched.value.items;
        var source := Pick(w, all, FromHeader);
        |shown| >= 1 && shown[0] == all &&
        (source.Err? ==> r == Err(source.error) && shown == [all]) &&
        (source.Ok? ==>
          var rest := RemoveFirst(all, source.value.accountId);
          var target := Pick(w, rest, ToHeader);
          shown == [all, rest] &&
          (target.Err? ==> r == Err(target.error)) &&
          (target.Ok? ==> r == Ok((source.value.accountId, target.value.accountId)))))
  {
    var response;
    response, sent := GetAccounts(c, w.http, w.decoders);
    if response.Err? {
      return Err(Reqwest(response.error)), sent, [];
    }
    var accounts := new AccountVec(response.value.items);
    shown := [accounts.items];
    var source, _ := FuzzyMatchAccount(accounts.items, FromHeader, w.fzf);
    if source.Err? {
      return Err(source.error), sent, shown;
    }
    var fromAccountId := source.value.accountId;
    var _ := RemoveAccount(accounts, fromAccountId);
    shown := shown + [accounts.items];
    var target, _ := FuzzyMatchAccount(accounts.items, ToHeader, w.fzf);
    if target.Err? {
      return Err(target.error), sent, shown;
    }
    r := Ok((fromAccountId, target.value.accountId));
  }

  /** Posting a settled transfer: the request's JSON goes to the transfers
      URL, and the answer decides between the notice and the error. */
  function Posted(c: Credentials, w: World, t: TransferRequest, color: bool): (Result<Notice, Error>, seq<Request>) {
    var o := Authorized(c, w.http, Post, TransfersUrl, None, Some(w.toJson(t)));
    (Conclude(Decoded(o, w.decoders.transfer), color), o.sent)
  }

  /** What the `transfer` subcommand yields and the requests it sends. From
      the arguments: nothing is sent unless they settle, then the settled
      request is posted. Interactively: the accounts are fetched, the source
      picked from all of them, the destination from those left once the
      source is removed, and only when both picks succeed is a transfer from
      the source to the destination posted, with the amount and message read
      from stdin. */
  function TransferOutcome(c: Credentials, w: World, a: TransferArgs, color: bool): (Result<Notice, Error>, seq<Request>) {
    if !a.interactive then
      var settled := TransferFromArgs(a, w.parseAmount);
      if settled.Err? then (Err(settled.error), []) else Posted(c, w, settled.value, color)
    else
      var fetch := Authorized(c, w.http, Get, AccountsUrl, None, None);
      var fetched := Decoded(fetch, w.decoders.accounts);
      if fetched.Err? then (Err(Reqwest(fetched.error)), fetch.sent)
      else
        var all := fetched.value.items;
        var source := Pick(w, all, FromHeader);
        if source.Err? then (Err(source.error), fetch.sent)
        else
          var target := Pick(w, RemoveFirst(all, source.value.accountId), ToHeader);
          if target.Err? then (Err(target.error), fetch.sent)
          else
            var p := Posted(c, w, TransferRequest(source.value.accountId, target.value.accountId,
                                                  w.stdinMessage, w.stdinAmount), color);
            (p.0, fetch.sent + p.1)
  }

  /** The `transfer` subcommand, with the lists shown to fzf: none from the
      arguments, and interactively the second is the first without the source. */
  method TransferCommand(c: Credentials, w: World, a: TransferArgs, color: bool)
    returns (r: Result<Notice, Error>, sent: seq<Request>, shown: seq<seq<AccountObj>>)
    ensures (r, sent) == TransferOutcome(c, w, a, color)
    ensures !a.interactive ==> shown == []
    ensures a.interactive && |shown| == 2 ==>
      var source := Pick(w, shown[0], FromHeader);
      source.Ok? && shown[1] == RemoveFirst(shown[0], source.value.accountId)
  {
    var settled: Result<TransferRequest, Error>;
    sent, shown := [], [];
    if a.interactive {
      var picked;
      picked, sent, shown := PickAccounts(c, w);
      if picked.Err? {
        return Err(picked.error), sent, shown;
      }
      var (from, to) := picked.value;
      settled := Ok(TransferRequest(from, to, w.stdinMessage, w.stdinAmount));
    } else {
      settled := TransferFromArgs(a, w.parseAmount);
      if settled.Err? {
        return Err(settled.error), [], [];
      }
    }
    var transfer := settled.value;
    var response, postSent := PostTransfer(c, w.http, w.decoders, transfer, w.toJson);
    assert (Conclude(response, color), postSent) == Posted(c, w, transfer, color);
    if !a.interactive {
      assert sent + postSent == postSent;
    }
    sent := sent + postSent;
    r := Conclude(response, color);
  }

  /** A transfer that succeeds shows the notice in the colour chosen, and its
      last request posts a transfer's JSON to the transfers URL; interactively
      that transfer carries the amount and message read from stdin. */
  lemma TransferSucceeded(c: Credentials, w: World, a: TransferArgs, color: bool)
    ensures var (r, sent) := TransferOutcome(c, w, a, color);
      r.Ok? ==>
        r.value == Notice(color, "Your transfer was successfully executed.") && |sent| > 0 &&
        sent[|sent| - 1].verb == Post && sent[|sent| - 1].url == TransfersUrl &&
        exists t :: (sent[|sent| - 1].body == Some(w.toJson(t)) &&
          (a.interactive ==> t.message == w.stdinMessage && t.amount == w.stdinAmount))
  {
    var (r, sent) := TransferOutcome(c, w, a, color);
    if r.Ok? {
      var t: TransferRequest;
      if a.interactive {
        var fetched := Decoded(Authorized(c, w.http, Get, AccountsUrl, None, None), w.decoders.accounts);
        var source := Pick(w, fetched.value.items, FromHeader);
        var target := Pick(w, RemoveFirst(fetched.value.items, source.value.accountId), ToHeader);
        t := TransferRequest(source.value.accountId, target.value.accountId, w.stdinMessage, w.stdinAmount);
      } else {
        t := TransferFromArgs(a, w.parseAmount).value;
      }
      PostedLast(c, w, t, color);
      assert sent[|sent| - 1].body == Some(w.toJson(t));
    }
  }

  /** A post that succeeds was sent last, with the transfer's JSON. */
  lemma PostedLast(c: Credentials, w: World, t: TransferRequest, color: bool)
    ensures var (r, sent) := Posted(c, w, t, color);
      r.Ok? ==>
        |sent| == 2 && sent[1].verb == Post && sent[1].url == TransfersUrl &&
        sent[1].body == Some(w.toJson(t))
  {
    AnsweredCallSentRequest(c, w.http, Post, TransfersUrl, None, Some(w.toJson(t)));
  }

  /** Interactively, no request reaches the transfers URL unless the
      accounts were fetched and both picks succeeded. */
  lemma NoPostWithoutPicks(c: Credentials, w: World, a: TransferArgs, color: bool)
    requires a.interactive
    ensures var fetched := Decoded(Authorized(c, w.http, Get, AccountsUrl, None, None), w.decoders.accounts);
      var sent := TransferOutcome(c, w, a, color).1;
      (fetched.Err? ||
       Pick(w, fetched.value.items, FromHeader).Err? ||
       Pick(w, RemoveFirst(fetched.value.items, Pick(w, fetched.value.items, FromHeader).value.accountId),
            ToHeader).Err?) ==>
        forall i :: 0 <= i < |sent| ==> sent[i].url != TransfersUrl
  {
    AuthorizedUrls(c, w.http, Get, AccountsUrl, None, None);
  }

  /** When the account ids are distinct, the destination offered can never
      be the source account. */
  lemma DestinationIsNotSource(all: seq<AccountObj>, source: AccountObj, output: string)
    requires source in all
    requires forall i, j :: 0 <= i < j < |all| ==> all[i].accountId != all[j].accountId
    ensures var target := PickResult(RemoveFirst(all, source.accountId), output);
      target.Ok? ==> target.value.accountId != source.accountId
  {
    var i :| 0 <= i < |all| && all[i] == source;
    RemovedIdGone(all, source.accountId, i);
    PickFromList(RemoveFirst(all, source.accountId), output);
  }

  /** With distinct ids, no account of the removed id is left. */
  lemma RemovedIdGone(all: seq<AccountObj>, id: string, i: nat)
    requires i < |all| && all[i].accountId == id
    requires forall i, j :: 0 <= i < j < |all| ==> all[i].accountId != all[j].accountId
    ensures var rest := RemoveFirst(all, id);
      forall n :: 0 <= n < |rest| ==> rest[n].accountId != id
  {
    var k := FirstId(all, id);
    RemoveFirstAt(all, id, k);
    var rest := RemoveFirst(all, id);
    forall n | 0 <= n < |rest| ensures rest[n].accountId != id {
      if n < k { assert rest[n] == all[n]; } else { assert rest[n] == all[n + 1]; }
    }
  }

  /** fzf's pick is always one of the accounts it was shown. */
  lemma PickFromList(s: seq<AccountObj>, output: string)
    ensures var r := PickResult(s, output);
      r.Ok? ==> exists n :: 0 <= n < |s| && s[n] == r.value
  {
    var r := PickResult(s, output);
    if r.Ok? {
      var at := FindNumber(s, Capture(output).value).value;
      assert s[at] == r.value;
    }
  }

  /** The position of the first account with an id some account has. */
  function FirstId(s: seq<AccountObj>, id: string): (k: nat)
    requires exists i :: 0 <= i < |s| && s[i].accountId == id
    ensures k < |s| && s[k].accountId == id && forall j :: 0 <= j < k ==> s[j].accountId != id
  {
    if s[0].accountId == id then 0
    else
      var i :| 0 <= i < |s| && s[i].accountId == id;
      assert s[1..][i - 1].accountId == id;
      1 + FirstId(s[1..], id)
  }

  // ------------------------------------------------- account and customer

  /** The arguments of the `account` subcommand. */
  datatype AccountArgs = AccountArgs(account: Option<string>, interactive: bool, list: bool)

  const AccountHeader := "Select account"

  /** What the account listing prints: every account's name and number,
      one `println!` each, in the order the bank returned them. The loop
      over `response.items`. */
  method ListAccounts(items: seq<AccountObj>) returns (printed: seq<string>)
    ensures printed == PickerLabels(items)
  {
    printed := [];
    for i := 0 to |items|
      invariant |printed| == i && forall j :: 0 <= j < i ==> printed[j] == PickerLabel(items[j])
    {
      printed := printed + [PickerLabel(items[i])];
    }
  }

  /** Every listed line, read by the fzf capture, gives back its account's
      number: the listing and the picker agree. */
  lemma ListingCaptures(items: seq<AccountObj>, i: nat)
    requires i < |items| && NoNewline(items[i].name) && IsWord(items[i].accountNumber)
    ensures Capture(PickerLabels(items)[i] + "\n") == Some(items[i].accountNumber)
  {
    PickerRoundTrip(items[i], "");
    assert PickerLabels(items)[i] + "\n" + "" == PickerLine(items[i]);
  }

  /** What the `account` subcommand prints and the requests it sends. With
      an account number, that account; otherwise all accounts, the picked one
      first when interactive, then either the name-and-number listing or the
      full rendering. Each element of the result is one `println!`. */
  function AccountOutcome(c: Credentials, w: World, args: AccountArgs): (Result<seq<string>, Error>, seq<Request>) {
    if args.account.Some? then
      var o := Authorized(c, w.http, Get, AccountUrl(args.account.value), None, None);
      var d := Decoded(o, w.decoders.account);
      (if d.Err? then Err(Reqwest(d.error)) else Ok([AccountDisplay(d.value.item)]), o.sent)
    else
      var o := Authorized(c, w.http, Get, AccountsUrl, None, None);
      var d := Decoded(o, w.decoders.accounts);
      if d.Err? then (Err(Reqwest(d.error)), o.sent)
      else
        var items := d.value.items;
        var listing := if args.list then PickerLabels(items) else [ItemsDisplay(items, AccountDisplay)];
        var pick := Pick(w, items, AccountHeader);
        if !args.interactive then (Ok(listing), o.sent)
        else if pick.Err? then (Err(pick.error), o.sent)
        else (Ok([AccountDisplay(pick.value)] + listing), o.sent)
  }

  /** The `account` subcommand. */
  method AccountCommand(c: Credentials, w: World, args: AccountArgs)
    returns (r: Result<seq<string>, Error>, sent: seq<Request>)
    ensures (r, sent) == AccountOutcome(c, w, args)
  {
    if args.account.Some? {
      var account;
      account, sent := GetAccount(c, w.http, w.decoders, args.account.value);
      if account.Err? {
        return Err(Reqwest(account.error)), sent;
      }
      return Ok([SingleDisplay(account.value, AccountDisplay)]), sent;
    }
    var response;
    response, sent := GetAccounts(c, w.http, w.decoders);
    if response.Err? {
      return Err(Reqwest(response.error)), sent;
    }
    var printed := [];
    if args.interactive {
      var picked, _ := FuzzyMatchAccount(response.value.items, AccountHeader, w.fzf);
      if picked.Err? {
        return Err(picked.error), sent;
      }
      printed := [AccountDisplay(picked.value)];
    }
    var listing;
    if args.list {
      listing := ListAccounts(response.value.items);
    } else {
      var all := WriteItems(response.value, AccountDisplay);
      listing := [all];
    }
    if !args.interactive {
      assert printed + listing == listing;
    }
    r := Ok(printed + listing);
  }

  /** What the `customer` subcommand prints and the request it sends: the
      customer's rendering, or the request's error. */
  function CustomerOutcome(c: Credentials, w: World): (Result<seq<string>, Error>, seq<Request>) {
    var o := Authorized(c, w.http, Get, CustomersUrl, None, None);
    var d := Decoded(o, w.decoders.customer);
    (if d.Err? then Err(Reqwest(d.error)) else Ok([CustomerDisplay(d.value.item)]), o.sent)
  }

  /** The `customer` subcommand. */
  method CustomerCommand(c: Credentials, w: World)
    returns (r: Result<seq<string>, Error>, sent: seq<Request>)
    ensures (r, sent) == CustomerOutcome(c, w)
  {
    var customer;
    customer, sent := GetCustomer(c, w.http, w.decoders);
    if customer.Err? {
      return Err(Reqwest(customer.error)), sent;
    }
    r := Ok([SingleDisplay(customer.value, CustomerDisplay)]);
  }

  // ------------------------------------------------------------------ main

  /** The subcommands; with none, the program ends without a request. */
  datatype Command =
    | AccountCmd(accountArgs: AccountArgs)
    | CustomerCmd
    | TransactionCmd(transaction: TransactionArgs)
    | TransferCmd(transfer: TransferArgs)
    | NoCmd

  /** What a run ends with: the lines printed, or the transfer notice. */
  datatype Shown = Printed(lines: seq<string>) | TransferNotice(notice: Notice)

  /** A subcommand's printed lines, or its error. */
  function PrintedLines(x: Result<seq<string>, Error>): Result<Shown, Error> {
    if x.Ok? then Ok(Printed(x.value)) else Err(x.error)
  }

  /** What running a subcommand with loaded credentials shows and sends:
      each subcommand's own outcome, the transactions printed as one
      rendering, the transfer's notice in the colour chosen. */
  function Dispatch(c: Credentials, w: World, cmd: Command, color: bool): (Result<Shown, Error>, seq<Request>) {
    match cmd
    case NoCmd => (Ok(Printed([])), [])
    case AccountCmd(args) =>
      var x := AccountOutcome(c, w, args);
      (PrintedLines(x.0), x.1)
    case CustomerCmd =>
      var x := CustomerOutcome(c, w);
      (PrintedLines(x.0), x.1)
    case TransactionCmd(args) =>
      var x := TransactionOutcome(c, w, args);
      (if x.0.Ok? then Ok(Printed([ItemsDisplay(x.0.value.items, TransactionDisplay)])) else Err(x.0.error), x.1)
    case TransferCmd(args) =>
      var x := TransferOutcome(c, w, args, color);
      (if x.0.Ok? then Ok(TransferNotice(x.0.value)) else Err(x.0.error), x.1)
  }

  /** Every request any subcommand sends is made on behalf of the
      credentials it was given: their token request, or their API headers. */
  lemma DispatchOnBehalfOf(c: Credentials, w: World, cmd: Command, color: bool)
    ensures AllOnBehalfOf(c, Dispatch(c, w, cmd, color).1)
  {
    var fetch := Authorized(c, w.http, Get, AccountsUrl, None, None);
    AuthorizedOnBehalfOf(c, w.http, Get, AccountsUrl, None, None);
    match cmd
    case NoCmd =>
    case AccountCmd(args) =>
      if args.account.Some? {
        AuthorizedOnBehalfOf(c, w.http, Get, AccountUrl(args.account.value), None, None);
      }
    case CustomerCmd =>
      AuthorizedOnBehalfOf(c, w.http, Get, CustomersUrl, None, None);
    case TransactionCmd(args) =>
      TransactionOnBehalfOf(c, w, args);
    case TransferCmd(args) =>
      TransferOnBehalfOf(c, w, args, color);
  }

  lemma TransactionOnBehalfOf(c: Credentials, w: World, args: TransactionArgs)
    ensures AllOnBehalfOf(c, TransactionOutcome(c, w, args).1)
  {
    var length := ParseLength(args.length);
    var window := TransactionWindow(args.to, args.from, w.now, w.parseDate);
    if length.Ok? && window.Ok? {
      var query := QueryMap(length.value, window.value.0, window.value.1);
      var fetch := Authorized(c, w.http, Get, AccountsUrl, None, None);
      var fetched := Decoded(fetch, w.decoders.accounts);
      if !args.interactive {
        if args.account.Some? {
          AuthorizedOnBehalfOf(c, w.http, Get, TransactionsUrl(args.account.value), Some(query), None);
        }
      } else {
        AuthorizedOnBehalfOf(c, w.http, Get, AccountsUrl, None, None);
        if fetched.Ok? && Pick(w, fetched.value.items, FromHeader).Ok? {
          var id := Pick(w, fetched.value.items, FromHeader).value.accountId;
          AuthorizedOnBehalfOf(c, w.http, Get, TransactionsUrl(id), Some(query), None);
          OnBehalfOfJoin(c, fetch.sent, AccountTransactions(c, w, id, query).1);
        }
      }
    }
  }

  lemma TransferOnBehalfOf(c: Credentials, w: World, a: TransferArgs, color: bool)
    ensures AllOnBehalfOf(c, TransferOutcome(c, w, a, color).1)
  {
    if !a.interactive {
      var settled := TransferFromArgs(a, w.parseAmount);
      if settled.Ok? {
        AuthorizedOnBehalfOf(c, w.http, Post, TransfersUrl, None, Some(w.toJson(settled.value)));
      }
    } else {
      var fetch := Authorized(c, w.http, Get, AccountsUrl, None, None);
      var fetched := Decoded(fetch, w.decoders.accounts);
      AuthorizedOnBehalfOf(c, w.http, Get, AccountsUrl, None, None);
      if fetched.Ok? {
        var all := fetched.value.items;
        var source := Pick(w, all, FromHeader);
        if source.Ok? {
          var target := Pick(w, RemoveFirst(all, source.value.accountId), ToHeader);
          if target.Ok? {
            var t := TransferRequest(source.value.accountId, target.value.accountId, w.stdinMessage, w.stdinAmount);
            AuthorizedOnBehalfOf(c, w.http, Post, TransfersUrl, None, Some(w.toJson(t)));
            OnBehalfOfJoin(c, fetch.sent, Posted(c, w, t, color).1);
          }
        }
      }
    }
  }

  /** `main` after the completions: the colour, the credentials, then the
      subcommand. A missing variable stops the run before any request; with
      the credentials loaded, the run is the subcommand's outcome, and every
      request goes out on behalf of those credentials. */
  method Run(env: Env, colorFlag: bool, cmd: Command, w: World)
    returns (r: Result<Shown, Error>, sent: seq<Request>)
    ensures LoadCredentials(env).Err? ==> r == Err(LoadCredentials(env).error) && sent == []
    ensures LoadCredentials(env).Ok? ==>
      (r, sent) == Dispatch(LoadCredentials(env).value, w, cmd, ColorEnabled(env("SBANKEN_COLOR"), colorFlag))
    ensures LoadCredentials(env).Ok? ==> AllOnBehalfOf(LoadCredentials(env).value, sent)
    ensures cmd.NoCmd? ==> sent == []
    ensures r.Ok? && r.value.TransferNotice? ==>
      cmd.TransferCmd? && r.value.notice == Notice(ColorEnabled(env("SBANKEN_COLOR"), colorFlag), SuccessText)
  {
    var color := ColorEnabled(env("SBANKEN_COLOR"), colorFlag);
    var credentials := LoadCredentials(env);
    if credentials.Err? {
      return Err(credentials.error), [];
    }
    DispatchOnBehalfOf(credentials.value, w, cmd, color);
    match cmd
    case NoCmd =>
      r, sent := Ok(Printed([])), [];
    case AccountCmd(args) =>
      var lines;
      lines, sent := AccountCommand(credentials.value, w, args);
      r := PrintedLines(lines);
    case CustomerCmd =>
      var lines;
      lines, sent := CustomerCommand(credentials.value, w);
      r := PrintedLines(lines);
    case TransactionCmd(args) =>
      var t;
      t, sent := TransactionCommand(credentials.value, w, args);
      if t.Err? {
        return Err(t.error), sent;
      }
      var text := WriteItems(t.value, TransactionDisplay);
      r := Ok(Printed([text]));
    case TransferCmd(args) =>
      var n, transferSent, _ := TransferCommand(credentials.value, w, args, color);
      TransferSucceeded(credentials.value, w, args, color);
      sent := transferSent;
      r := if n.Ok? then Ok(TransferNotice(n.value)) else Err(n.error);
  }
}
