/** The API's records (src/core/entities.rs) and their `Display` renderings.
    An f32 field is kept as the text its `Display` prints. */
module Entities {
  import opened Wrappers
  import opened Strings

  /** An f32, seen only through the text `{}` prints for it. */
  datatype Float = Float(text: string)

  // -------------------------------------------------------------- accounts

  datatype AccountObj = AccountObj(
    accountId: string,
    accountNumber: string,
    ownerCustomerId: string,
    name: string,
    accountType: string,
    available: Float,
    balance: Float,
    creditLimit: Float)

  /** `Display for AccountObj`: one `write!` of six tab-separated lines. */
  function AccountDisplay(a: AccountObj): string {
    "Account Id:\t" + a.accountId +
    "\nAccount Nr:\t" + a.accountNumber +
    "\nName:\t\t" + a.name +
    "\nType:\t\t" + a.accountType +
    "\nAvailable:\t" + a.available.text +
    "\nBalance:\t" + a.balance.text
  }

  /** The six lines an account is shown as, in order. */
  function AccountLines(a: AccountObj): seq<string> {
    [ "Account Id:\t" + a.accountId,
      "Account Nr:\t" + a.accountNumber,
      "Name:\t\t" + a.name,
      "Type:\t\t" + a.accountType,
      "Available:\t" + a.available.text,
      "Balance:\t" + a.balance.text ]
  }

  predicate AccountFieldsPlain(a: AccountObj) {
    NoNewline(a.accountId) && NoNewline(a.accountNumber) && NoNewline(a.name) &&
    NoNewline(a.accountType) && NoNewline(a.available.text) && NoNewline(a.balance.text)
  }

  /** An account renders as exactly six lines: id, number, name, type,
      available, balance, in that order. */
  lemma AccountDisplayLines(a: AccountObj)
    requires AccountFieldsPlain(a)
    ensures Lines(AccountDisplay(a)) == AccountLines(a)
  {
    var x3 := AccountHead(a);
    var x4 := x3 + "\nType:\t\t" + a.accountType;
    var x5 := x4 + "\nAvailable:\t" + a.available.text;
    AccountHeadLines(a);
    LinesField(x3, "\nType:\t\t", a.accountType);
    LinesField(x4, "\nAvailable:\t", a.available.text);
    LinesField(x5, "\nBalance:\t", a.balance.text);
  }

  /** The first three lines of an account's rendering. */
  function AccountHead(a: AccountObj): string {
    "Account Id:\t" + a.accountId + "\nAccount Nr:\t" + a.accountNumber + "\nName:\t\t" + a.name
  }

  lemma AccountHeadLines(a: AccountObj)
    requires NoNewline(a.accountId) && NoNewline(a.accountNumber) && NoNewline(a.name)
    ensures Lines(AccountHead(a)) == ["Account Id:\t" + a.accountId, "Account Nr:\t" + a.accountNumber, "Name:\t\t" + a.name]
  {
    var x1 := "Account Id:\t" + a.accountId;
    var x2 := x1 + "\nAccount Nr:\t" + a.accountNumber;
    NoNewlineConcat("Account Id:\t", a.accountId);
    LinesOfPlain(x1);
    LinesField(x1, "\nAccount Nr:\t", a.accountNumber);
    LinesField(x2, "\nName:\t\t", a.name);
  }

  /** The owner id and the credit limit are never shown. */
  lemma AccountDisplayHidesOwnerAndLimit(a: AccountObj, owner: string, limit: Float)
    ensures AccountDisplay(a.(ownerCustomerId := owner, creditLimit := limit)) == AccountDisplay(a)
  {
  }

  // ------------------------------------------------------------- envelopes

  /** The envelope around a list answer. */
  datatype MultipleItems<T> = MultipleItems(
    availableItems: i32,
    items: seq<T>,
    errorType: Option<string>,
    isError: bool,
    errorMessage: Option<string>,
    traceId: Option<string>)

  /** The envelope around a single answer. */
  datatype SingleItem<T> = SingleItem(
    item: T,
    errorType: Option<string>,
    errorMessage: Option<string>,
    isError: bool,
    traceId: Option<string>)

  /** What `Display for MultipleItems` writes for `items`: each item's own
      rendering followed by a blank line (`writeln!(f, "{}\n", object)`). */
  function ItemsDisplay<T>(items: seq<T>, show: T -> string): string {
    if items == [] then "" else show(items[0]) + "\n\n" + ItemsDisplay(items[1..], show)
  }

  lemma {:induction false} ItemsDisplaySnoc<T>(items: seq<T>, x: T, show: T -> string)
    ensures ItemsDisplay(items + [x], show) == ItemsDisplay(items, show) + show(x) + "\n\n"
  {
    if items != [] {
      assert (items + [x])[1..] == items[1..] + [x];
      ItemsDisplaySnoc(items[1..], x, show);
    }
  }

  /** Rendering a list is rendering its parts one after the other. */
  lemma {:induction false} ItemsDisplayConcat<T>(xs: seq<T>, ys: seq<T>, show: T -> string)
    ensures ItemsDisplay(xs + ys, show) == ItemsDisplay(xs, show) + ItemsDisplay(ys, show)
  {
    if xs != [] {
      assert (xs + ys)[1..] == xs[1..] + ys;
      ItemsDisplayConcat(xs[1..], ys, show);
      var h := show(xs[0]) + "\n\n";
      assert (xs + ys)[0] == xs[0];
      assert ItemsDisplay(xs + ys, show) == h + ItemsDisplay(xs[1..] + ys, show);
      assert ItemsDisplay(xs, show) == h + ItemsDisplay(xs[1..], show);
      assert h + (ItemsDisplay(xs[1..], show) + ItemsDisplay(ys, show))
          == (h + ItemsDisplay(xs[1..], show)) + ItemsDisplay(ys, show);
    } else {
      assert xs + ys == ys;
    }
  }

  /** The lines of every item in order, each item's lines followed by one empty line. */
  function ItemBlocks<T>(items: seq<T>, show: T -> string): seq<string> {
    if items == [] then [] else Lines(show(items[0])) + [""] + ItemBlocks(items[1..], show)
  }

  /** Line by line, a list shows every item in order with a blank line after
      each, however the items render; the empty list shows nothing. */
  lemma {:induction false} ItemsDisplayLines<T>(items: seq<T>, show: T -> string)
    ensures Lines(ItemsDisplay(items, show)) == ItemBlocks(items, show) + [""]
    ensures items == [] ==> ItemsDisplay(items, show) == ""
  {
    if items != [] {
      var x, rest := show(items[0]), ItemsDisplay(items[1..], show);
      assert ItemsDisplay(items, show) == x + "\n" + ("" + "\n" + rest);
      LinesAppend(x, "" + "\n" + rest);
      LinesAppend("", rest);
      ItemsDisplayLines(items[1..], show);
    }
  }

  /** `Display for MultipleItems`: the `for` loop over the items. */
  method WriteItems<T>(m: MultipleItems<T>, show: T -> string) returns (out: string)
    ensures out == ItemsDisplay(m.items, show)
  {
    out := "";
    for i := 0 to |m.items|
      invariant out == ItemsDisplay(m.items[..i], show)
    {
      ItemsDisplaySnoc(m.items[..i], m.items[i], show);
      assert m.items[..i + 1] == m.items[..i] + [m.items[i]];
      out := out + show(m.items[i]) + "\n\n";
    }
    assert m.items[..|m.items|] == m.items;
  }

  /** `Display for SingleItem`: the item alone. */
  function SingleDisplay<T>(s: SingleItem<T>, show: T -> string): string {
    show(s.item)
  }

  /** The single envelope shows what a one-item list shows, minus the blank
      line, and none of its error fields. */
  lemma SingleDisplayIsItem<T>(s: SingleItem<T>, show: T -> string,
                               errorType: Option<string>, errorMessage: Option<string>,
                               isError: bool, traceId: Option<string>)
    ensures SingleDisplay(s, show) + "\n\n" == ItemsDisplay([s.item], show)
    ensures SingleDisplay(s.(errorType := errorType, errorMessage := errorMessage,
                             isError := isError, traceId := traceId), show)
            == SingleDisplay(s, show)
  {
    assert [s.item][1..] == [];
  }

  type Account = SingleItem<AccountObj>
  type Accounts = MultipleItems<AccountObj>

  // ------------------------------------------------------------- customers

  datatype AddressObj = AddressObj(
    addressLine1: Option<string>,
    addressLine2: Option<string>,
    addressLine3: Option<string>,
    addressLine4: Option<string>,
    country: Option<string>,
    zipCode: Option<string>,
    city: Option<string>)

  datatype PhoneNumberObj = PhoneNumberObj(countryCode: string, number: string)

  /** `Display for PhoneNumberObj`. */
  function PhoneDisplay(p: PhoneNumberObj): string {
    "\t\t+" + p.countryCode + " " + p.number
  }

  datatype CustomerObj = CustomerObj(
    customerId: string,
    firstName: string,
    lastName: string,
    emailAddress: string,
    dateOfBirth: string,
    postalAddress: AddressObj,
    streetAddress: AddressObj,
    phoneNumbers: seq<PhoneNumberObj>)

  /** The text of the first `writeln!` in `Display for CustomerObj`, without its newline. */
  function CustomerHeader(c: CustomerObj): string {
    "First name:\t" + c.firstName +
    "\nLast name:\t" + c.lastName +
    "\nEmail:\t\t" + c.emailAddress +
    "\nPhone numbers:"
  }

  /** One `writeln!` per phone number. */
  function PhoneLines(ps: seq<PhoneNumberObj>): string {
    if ps == [] then "" else PhoneDisplay(ps[0]) + "\n" + PhoneLines(ps[1..])
  }

  /** `Display for CustomerObj`. */
  function CustomerDisplay(c: CustomerObj): string {
    CustomerHeader(c) + "\n" + PhoneLines(c.phoneNumbers)
  }

  lemma {:induction false} PhoneLinesSnoc(ps: seq<PhoneNumberObj>, p: PhoneNumberObj)
    ensures PhoneLines(ps + [p]) == PhoneLines(ps) + PhoneDisplay(p) + "\n"
  {
    if ps != [] {
      assert (ps + [p])[1..] == ps[1..] + [p];
      PhoneLinesSnoc(ps[1..], p);
    }
  }

  /** `Display for CustomerObj`: the header, then the `for` loop over the phone numbers. */
  method WriteCustomer(c: CustomerObj) returns (out: string)
    ensures out == CustomerDisplay(c)
  {
    out := CustomerHeader(c) + "\n";
    var ps := c.phoneNumbers;
    for i := 0 to |ps|
      invariant out == CustomerHeader(c) + "\n" + PhoneLines(ps[..i])
    {
      PhoneLinesSnoc(ps[..i], ps[i]);
      assert ps[..i + 1] == ps[..i] + [ps[i]];
      out := out + PhoneDisplay(ps[i]) + "\n";
    }
    assert ps[..|ps|] == ps;
  }

  /** The phone numbers as shown, one per entry, in order. */
  function PhoneTexts(ps: seq<PhoneNumberObj>): (r: seq<string>)
    ensures |r| == |ps| && forall i :: 0 <= i < |ps| ==> r[i] == PhoneDisplay(ps[i])
  {
    if ps == [] then [] else [PhoneDisplay(ps[0])] + PhoneTexts(ps[1..])
  }

  predicate PhonePlain(p: PhoneNumberObj) {
    NoNewline(p.countryCode) && NoNewline(p.number)
  }

  lemma {:induction false} PhoneLinesLines(ps: seq<PhoneNumberObj>)
    requires forall i :: 0 <= i < |ps| ==> PhonePlain(ps[i])
    ensures Lines(PhoneLines(ps)) == PhoneTexts(ps) + [""]
  {
    if ps != [] {
      var p := ps[0];
      NoNewlineConcat("\t\t+", p.countryCode);
      NoNewlineConcat("\t\t+" + p.countryCode, " ");
      NoNewlineConcat("\t\t+" + p.countryCode + " ", p.number);
      LinesOfPlain(PhoneDisplay(p));
      LinesAppend(PhoneDisplay(p), PhoneLines(ps[1..]));
      PhoneLinesLines(ps[1..]);
    }
  }

  /** A customer renders as first name, last name, email, a "Phone numbers:"
      heading, then one line per phone number in order, ending in a newline. */
  lemma CustomerDisplayLines(c: CustomerObj)
    requires NoNewline(c.firstName) && NoNewline(c.lastName) && NoNewline(c.emailAddress)
    requires forall i :: 0 <= i < |c.phoneNumbers| ==> PhonePlain(c.phoneNumbers[i])
    ensures Lines(CustomerDisplay(c)) ==
      ["First name:\t" + c.firstName, "Last name:\t" + c.lastName,
       "Email:\t\t" + c.emailAddress, "Phone numbers:"]
      + PhoneTexts(c.phoneNumbers) + [""]
  {
    var x1 := "First name:\t" + c.firstName;
    var x2 := x1 + "\nLast name:\t" + c.lastName;
    var x3 := x2 + "\nEmail:\t\t" + c.emailAddress;
    NoNewlineConcat("First name:\t", c.firstName);
    LinesOfPlain(x1);
    LinesField(x1, "\nLast name:\t", c.lastName);
    LinesField(x2, "\nEmail:\t\t", c.emailAddress);
    LinesField(x3, "\nPhone numbers:", "");
    assert x3 + "\nPhone numbers:" + "" == CustomerHeader(c);
    assert "\nPhone numbers:"[1..] + "" == "Phone numbers:";
    var hl := ["First name:\t" + c.firstName, "Last name:\t" + c.lastName,
               "Email:\t\t" + c.emailAddress, "Phone numbers:"];
    assert Lines(CustomerHeader(c)) == hl;
    LinesAppend(CustomerHeader(c), PhoneLines(c.phoneNumbers));
    PhoneLinesLines(c.phoneNumbers);
  }

  type Customer = SingleItem<CustomerObj>

  // ---------------------------------------------------------------- tokens

  datatype AccessToken = AccessToken(accessToken: string, expiresIn: i32, tokenType: string)

  // ---------------------------------------------------------- transactions

  datatype CardDetailsObj = CardDetailsObj(
    cardNumber: string,
    currencyAmount: Float,
    currencyRate: Float,
    merchantCategoryCode: string,
    merchantCategoryDescription: string,
    merchantCity: string,
    merchantName: string,
    originalCurrencyCode: string,
    purchaseDate: string,
    transactionId: string)

  datatype TransactionObj = TransactionObj(
    accountingDate: string,
    interestDate: string,
    otherAccountNumberSpecified: bool,
    otherAccountNumber: Option<string>,
    amount: Float,
    text: string,
    transactionType: string,
    transactionTypeCode: i32,
    transactionTypeText: string,
    isReservation: bool,
    reservationType: Option<string>,
    cardDetailsSpecified: bool,
    cardDetails: Option<CardDetailsObj>,
    transactionId: string)

  /** The characters of a string as `{:?}` writes them between its quotes.
      The escapes for quote, backslash, newline, carriage return and tab are
      modelled; every other character is written as it is. */
  function Escaped(s: string): (r: string)
    ensures NoNewline(r)
  {
    if s == [] then ""
    else
      var head :=
        if s[0] == '"' then "\\\""
        else if s[0] == '\\' then "\\\\"
        else if s[0] == '\n' then "\\n"
        else if s[0] == '\r' then "\\r"
        else if s[0] == '\t' then "\\t"
        else [s[0]];
      NoNewlineConcat(head, Escaped(s[1..]));
      head + Escaped(s[1..])
  }

  /** `{:?}` of an `Option<String>`: `None` or `Some("...")`. */
  function DebugOption(o: Option<string>): (r: string)
    ensures NoNewline(r)
  {
    match o
    case None => "None"
    case Some(s) =>
      NoNewlineConcat("Some(\"", Escaped(s));
      NoNewlineConcat("Some(\"" + Escaped(s), "\")");
      "Some(\"" + Escaped(s) + "\")"
  }

  /** The lines of a transaction, in order. */
  function TransactionLines(t: TransactionObj): seq<string> {
    ["Accounting date:\t" + t.accountingDate,
     "Interest date:\t\t" + t.interestDate]
    + (if t.otherAccountNumberSpecified
       then ["Other account number:\t" + DebugOption(t.otherAccountNumber)]
       else [])
    + ["Amount:\t\t\t" + t.amount.text,
       "Description:\t\t" + t.text,
       "Reserved:\t\t" + (if t.isReservation then "Yes" else "No"),
       "Transaction id:\t\t" + t.transactionId]
  }

  /** Each line of `ls` followed by a newline. */
  function Terminated(ls: seq<string>): string {
    if ls == [] then "" else ls[0] + "\n" + Terminated(ls[1..])
  }

  lemma {:induction false} LinesOfTerminated(ls: seq<string>)
    requires forall i :: 0 <= i < |ls| ==> NoNewline(ls[i])
    ensures Lines(Terminated(ls)) == ls + [""]
  {
    if ls != [] {
      LinesOfPlain(ls[0]);
      LinesAppend(ls[0], Terminated(ls[1..]));
      LinesOfTerminated(ls[1..]);
    }
  }

  lemma {:induction false} TerminatedConcat(xs: seq<string>, ys: seq<string>)
    ensures Terminated(xs + ys) == Terminated(xs) + Terminated(ys)
  {
    if xs != [] {
      assert (xs + ys)[1..] == xs[1..] + ys;
      TerminatedConcat(xs[1..], ys);
      var h := xs[0] + "\n";
      assert (xs + ys)[0] == xs[0];
      assert Terminated(xs + ys) == h + Terminated(xs[1..] + ys);
      assert Terminated(xs) == h + Terminated(xs[1..]);
      assert h + (Terminated(xs[1..]) + Terminated(ys)) == (h + Terminated(xs[1..])) + Terminated(ys);
    } else {
      assert xs + ys == ys;
    }
  }

  /** What `Display for TransactionObj` writes: its lines, each ended by a newline. */
  function TransactionDisplay(t: TransactionObj): string {
    Terminated(TransactionLines(t))
  }

  lemma TerminatedSnoc(ls: seq<string>, l: string)
    ensures Terminated(ls + [l]) == Terminated(ls) + l + "\n"
  {
    TerminatedConcat(ls, [l]);
    assert [l][1..] == [];
  }

  /** `Display for TransactionObj`: one `writeln!` after another, the
      other-account line only when the flag says it is specified. */
  method WriteTransaction(t: TransactionObj) returns (out: string)
    ensures out == TransactionDisplay(t)
  {
    ghost var written: seq<string> := [];
    out := "";
    var line := "Accounting date:\t" + t.accountingDate;
    TerminatedSnoc(written, line);
    out, written := out + line + "\n", written + [line];
    line := "Interest date:\t\t" + t.interestDate;
    TerminatedSnoc(written, line);
    out, written := out + line + "\n", written + [line];
    if t.otherAccountNumberSpecified {
      line := "Other account number:\t" + DebugOption(t.otherAccountNumber);
      TerminatedSnoc(written, line);
      out, written := out + line + "\n", written + [line];
    }
    line := "Amount:\t\t\t" + t.amount.text;
    TerminatedSnoc(written, line);
    out, written := out + line + "\n", written + [line];
    line := "Description:\t\t" + t.text;
    TerminatedSnoc(written, line);
    out, written := out + line + "\n", written + [line];
    line := "Reserved:\t\t" + (if t.isReservation then "Yes" else "No");
    TerminatedSnoc(written, line);
    out, written := out + line + "\n", written + [line];
    line := "Transaction id:\t\t" + t.transactionId;
    TerminatedSnoc(written, line);
    out, written := out + line + "\n", written + [line];
    assert written == TransactionLines(t);
  }

  predicate TransactionFieldsPlain(t: TransactionObj) {
    NoNewline(t.accountingDate) && NoNewline(t.interestDate) && NoNewline(t.amount.text) &&
    NoNewline(t.text) && NoNewline(t.transactionId)
  }

  /** A transaction renders as six lines, or seven when the other account
      number is specified, each ended by a newline; the other-account line
      never breaks, whatever the number holds. */
  lemma TransactionDisplayLines(t: TransactionObj)
    requires TransactionFieldsPlain(t)
    ensures Lines(TransactionDisplay(t)) == TransactionLines(t) + [""]
    ensures |TransactionLines(t)| == if t.otherAccountNumberSpecified then 7 else 6
  {
    NoNewlineConcat("Accounting date:\t", t.accountingDate);
    NoNewlineConcat("Interest date:\t\t", t.interestDate);
    NoNewlineConcat("Other account number:\t", DebugOption(t.otherAccountNumber));
    NoNewlineConcat("Amount:\t\t\t", t.amount.text);
    NoNewlineConcat("Description:\t\t", t.text);
    NoNewlineConcat("Reserved:\t\t", if t.isReservation then "Yes" else "No");
    NoNewlineConcat("Transaction id:\t\t", t.transactionId);
    LinesOfTerminated(TransactionLines(t));
  }

  const OtherPrefix := "Other account number:\t"

  predicate IsOtherLine(l: string) {
    |l| >= |OtherPrefix| && l[..|OtherPrefix|] == OtherPrefix
  }

  /** The other-account line is there exactly when the number is marked as
      specified, third in order, showing the `{:?}` form of the number. */
  lemma OtherAccountLine(t: TransactionObj)
    ensures var ls := TransactionLines(t);
      (exists i :: 0 <= i < |ls| && IsOtherLine(ls[i])) <==> t.otherAccountNumberSpecified
    ensures t.otherAccountNumberSpecified ==>
      TransactionLines(t)[2] == "Other account number:\t" + DebugOption(t.otherAccountNumber)
  {
    var ls := TransactionLines(t);
    if t.otherAccountNumberSpecified {
      assert IsOtherLine(ls[2]);
    } else {
      forall i | 0 <= i < |ls| ensures !IsOtherLine(ls[i]) {
        assert ls[i][0] != 'O';
      }
    }
  }

  /** The reservation line reads "Yes" exactly when the transaction is a reservation. */
  lemma ReservedLine(t: TransactionObj)
    ensures var ls := TransactionLines(t);
      ls[|ls| - 2] == (if t.isReservation then "Reserved:\t\tYes" else "Reserved:\t\tNo")
  {
  }

  type Transactions = MultipleItems<TransactionObj>

  // ------------------------------------------------------------- transfers

  datatype TransferRequest = TransferRequest(
    fromAccountId: string,
    toAccountId: string,
    message: string,
    amount: Float)

  datatype TransferResponse = TransferResponse(
    errorType: Option<string>,
    isError: bool,
    errorMessage: Option<string>)
}
