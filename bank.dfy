/** The bank API calls (src/core/bank.rs) and the customer call
    (src/core/customers.rs): their URLs, the transaction query map, and how
    a failed request propagates before any decoding. The JSON decoders are
    functions handed in. */
module Bank {
  import opened Wrappers
  import opened Strings
  import opened Errors
  import opened Entities
  import opened DateTime
  import opened Authorize

  /** The JSON decoders of `Response::json`, one per answer type. */
  datatype Decoders = Decoders(
    accounts: Response -> Result<Accounts, ReqwestError>,
    account: Response -> Result<Account, ReqwestError>,
    transactions: Response -> Result<Transactions, ReqwestError>,
    transfer: Response -> Result<TransferResponse, ReqwestError>,
    customer: Response -> Result<Customer, ReqwestError>)

  const AccountsUrl := "https://api.sbanken.no/bank/api/v1/accounts"
  const TransactionsPrefix := "https://api.sbanken.no/bank/api/v1/transactions/"
  const TransfersUrl := "https://api.sbanken.no/bank/api/v1/transfers"
  const CustomersUrl := "https://api.sbanken.no/customers/api/v1/customers"

  // ----------------------------------------------------------------- URLs

  /** `get_account`'s URL: the account after the accounts path, then `/`. */
  function AccountUrl(account: string): (u: string)
    ensures |u| == |AccountsUrl| + |account| + 2
    ensures u[..|AccountsUrl| + 1] == AccountsUrl + "/" && u[|u| - 1] == '/'
    ensures u[|AccountsUrl| + 1..|u| - 1] == account
  {
    var u := AccountsUrl + "/" + account + "/";
    assert u == (AccountsUrl + "/") + account + "/";
    u
  }

  /** `get_transactions`'s URL: the account after the transactions path, no trailing `/`. */
  function TransactionsUrl(account: string): (u: string)
    ensures |u| == |TransactionsPrefix| + |account|
    ensures u[..|TransactionsPrefix|] == TransactionsPrefix && u[|TransactionsPrefix|..] == account
  {
    TransactionsPrefix + account
  }

  /** The account can be read back off either URL, so different accounts
      never share one. */
  lemma UrlsKeepAccount(a1: string, a2: string)
    ensures AccountUrl(a1) == AccountUrl(a2) ==> a1 == a2
    ensures TransactionsUrl(a1) == TransactionsUrl(a2) ==> a1 == a2
  {
  }

  // ----------------------------------------------------------- the query

  /** The transaction query map: the length in decimal and both dates in
      RFC 3339 at seconds precision. */
  function QueryMap(length: i32, start: int, end: int): map<string, string> {
    map["length" := DecimalString(length), "startDate" := Rfc3339(start), "endDate" := Rfc3339(end)]
  }

  /** `get_transactions` fills its `HashMap` one `insert` at a time. */
  method TransactionParams(length: i32, start: int, end: int) returns (params: map<string, string>)
    ensures params == QueryMap(length, start, end)
  {
    params := map[];
    params := params["length" := DecimalString(length)];
    params := params["startDate" := Rfc3339(start)];
    params := params["endDate" := Rfc3339(end)];
  }

  /** The query has exactly the keys `length`, `startDate` and `endDate`, and
      each value reads back as exactly the number or the instant given. */
  lemma QueryMapReadsBack(length: i32, start: int, end: int)
    ensures var q := QueryMap(length, start, end);
      q.Keys == {"length", "startDate", "endDate"} &&
      ParseI32(q["length"]) == Some(length) &&
      ParseRfc3339(q["startDate"]) == Some(start) &&
      ParseRfc3339(q["endDate"]) == Some(end)
  {
    QueryMapEntries(length, start, end);
    ParseDecimalString(length);
    ParseRenders(start);
    ParseRenders(end);
  }

  lemma QueryMapEntries(length: i32, start: int, end: int)
    ensures var q := QueryMap(length, start, end);
      q.Keys == {"length", "startDate", "endDate"} && q["length"] == DecimalString(length) &&
      q["startDate"] == Rfc3339(start) && q["endDate"] == Rfc3339(end)
  {
  }

  // ------------------------------------------------------------ the calls

  /** The `?` after every request, then `response.json()`. */
  function Decoded<T>(o: Outcome, decode: Response -> Result<T, ReqwestError>): Result<T, ReqwestError> {
    match o.result
    case Err(e) => Err(e)
    case Ok(response) => decode(response)
  }

  /** A failed request comes back unchanged, whatever the decoder would have made of an answer. */
  lemma FailureSkipsDecoding<T>(o: Outcome, d1: Response -> Result<T, ReqwestError>,
                                d2: Response -> Result<T, ReqwestError>)
    requires o.result.Err?
    ensures Decoded(o, d1) == Decoded(o, d2) == Err(o.result.error)
  {
  }

  /** `get_request` followed by the `?` and `response.json()`. */
  method GetAndDecode<T>(c: Credentials, http: Http, url: string, query: Option<map<string, string>>,
                         decode: Response -> Result<T, ReqwestError>)
    returns (r: Result<T, ReqwestError>, sent: seq<Request>)
    ensures var o := Authorized(c, http, Get, url, query, None);
      sent == o.sent && r == Decoded(o, decode)
  {
    var response;
    response, sent := GetRequest(c, http, url, query);
    if response.Err? {
      return Err(response.error), sent;
    }
    r := decode(response.value);
  }

  /** `get_accounts`: a GET of the accounts URL with no query. */
  method GetAccounts(c: Credentials, http: Http, d: Decoders)
    returns (r: Result<Accounts, ReqwestError>, sent: seq<Request>)
    ensures var o := Authorized(c, http, Get, AccountsUrl, None, None);
      sent == o.sent && r == Decoded(o, d.accounts)
  {
    r, sent := GetAndDecode(c, http, AccountsUrl, None, d.accounts);
  }

  /** `get_account`. */
  method GetAccount(c: Credentials, http: Http, d: Decoders, account: string)
    returns (r: Result<Account, ReqwestError>, sent: seq<Request>)
    ensures var o := Authorized(c, http, Get, AccountUrl(account), None, None);
      sent == o.sent && r == Decoded(o, d.account)
  {
    r, sent := GetAndDecode(c, http, AccountUrl(account), None, d.account);
  }

  /** `get_transactions`: a GET of the account's transactions with the query map. */
  method GetTransactions(c: Credentials, http: Http, d: Decoders, account: string,
                         length: i32, start: int, end: int)
    returns (r: Result<Transactions, ReqwestError>, sent: seq<Request>)
    ensures var o := Authorized(c, http, Get, TransactionsUrl(account), Some(QueryMap(length, start, end)), None);
      sent == o.sent && r == Decoded(o, d.transactions)
  {
    var params := TransactionParams(length, start, end);
    r, sent := GetAndDecode(c, http, TransactionsUrl(account), Some(params), d.transactions);
  }

  /** `post_transfer`: a POST of the transfer's JSON to the transfers URL. */
  method PostTransfer(c: Credentials, http: Http, d: Decoders, transfer: TransferRequest,
                      toJson: TransferRequest -> string)
    returns (r: Result<TransferResponse, ReqwestError>, sent: seq<Request>)
    ensures var o := Authorized(c, http, Post, TransfersUrl, None, Some(toJson(transfer)));
      sent == o.sent && r == Decoded(o, d.transfer)
  {
    var response;
    response, sent := PostRequest(c, http, TransfersUrl, transfer, toJson);
    if response.Err? {
      return Err(response.error), sent;
    }
    r := d.transfer(response.value);
  }

  /** `get_customer` (src/core/customers.rs): a GET of the customers URL. */
  method GetCustomer(c: Credentials, http: Http, d: Decoders)
    returns (r: Result<Customer, ReqwestError>, sent: seq<Request>)
    ensures var o := Authorized(c, http, Get, CustomersUrl, None, None);
      sent == o.sent && r == Decoded(o, d.customer)
  {
    r, sent := GetAndDecode(c, http, CustomersUrl, None, d.customer);
  }

  /** What each call sends once it has a token and a client: the
      last request sent is a GET (or, for a transfer, a POST) of that call's
      URL, with the transaction query and nothing else attached. */
  lemma CallShapes(c: Credentials, http: Http, t: AccessToken, account: string, length: i32,
                   start: int, end: int, body: string)
    requires TokenStep(c, http).0 == Ok(t)
    requires http.build(ApiHeaders(c, t.accessToken)).None?
    ensures var s := Authorized(c, http, Get, AccountsUrl, None, None).sent;
      |s| == 2 && s[1].verb == Get && s[1].url == "https://api.sbanken.no/bank/api/v1/accounts" &&
      s[1].query == None && s[1].body == None
    ensures var s := Authorized(c, http, Get, TransactionsUrl(account), Some(QueryMap(length, start, end)), None).sent;
      |s| == 2 && s[1].verb == Get && s[1].url == "https://api.sbanken.no/bank/api/v1/transactions/" + account &&
      s[1].query == Some(QueryMap(length, start, end)) && s[1].body == None
    ensures var s := Authorized(c, http, Post, TransfersUrl, None, Some(body)).sent;
      |s| == 2 && s[1].verb == Post && s[1].url == "https://api.sbanken.no/bank/api/v1/transfers" &&
      s[1].query == None && s[1].body == Some(body)
  {
    WithTokenOneRequest(c, http, Get, AccountsUrl, None, None, t);
    WithTokenOneRequest(c, http, Get, TransactionsUrl(account), Some(QueryMap(length, start, end)), None, t);
    WithTokenOneRequest(c, http, Post, TransfersUrl, None, Some(body), t);
  }
}
