/** The interactive helpers (src/core/interactive.rs): removing an account
    from the list in place, and picking an account through fzf. The fzf
    process is a function from its input text and header to its output
    text; the rest of `fuzzy_match_account` is modelled: the picker input,
    the one pattern `.+\[nr: (\w+)\]` matched by hand, and the lookup. */
module Interactive {
  import opened Wrappers
  import opened Strings
  import opened Errors
  import opened Entities

  // ------------------------------------------------------- remove_account

  /** The `Vec<AccountObj>` the interactive commands edit in place. */
  class AccountVec {
    var items: seq<AccountObj>

    constructor (initial: seq<AccountObj>)
      ensures items == initial
    {
      items := initial;
    }

    /** `Vec::remove`: drops the element at `i`, shifting the rest down. */
    method Remove(i: nat)
      requires i < |items|
      modifies this
      ensures items == old(items[..i]) + old(items[i + 1..])
    {
      items := items[..i] + items[i + 1..];
    }
  }

  /** The list without its first account whose id is `id`. */
  function RemoveFirst(s: seq<AccountObj>, id: string): seq<AccountObj> {
    if s == [] then []
    else if s[0].accountId == id then s[1..]
    else [s[0]] + RemoveFirst(s[1..], id)
  }

  /** How many accounts of `s` have the id `id`. */
  function CountId(s: seq<AccountObj>, id: string): nat {
    if s == [] then 0 else (if s[0].accountId == id then 1 else 0) + CountId(s[1..], id)
  }

  /** `remove_account`: finds the first account with the id, stops looking,
      removes it if there was one, and hands back the same vector. */
  method RemoveAccount(accounts: AccountVec, accountId: string) returns (same: AccountVec)
    modifies accounts
    ensures same == accounts
    ensures accounts.items == RemoveFirst(old(accounts.items), accountId)
  {
    var indexToDelete: Option<nat> := None;
    var i := 0;
    while i < |accounts.items|
      invariant 0 <= i <= |accounts.items|
      invariant forall j :: 0 <= j < i ==> accounts.items[j].accountId != accountId
    {
      if accounts.items[i].accountId == accountId {
        indexToDelete := Some(i);
        break;
      }
      i := i + 1;
    }
    if indexToDelete.Some? {
      RemoveFirstAt(accounts.items, accountId, indexToDelete.value);
      accounts.Remove(indexToDelete.value);
    } else {
      RemoveFirstNoMatch(accounts.items, accountId);
    }
    same := accounts;
  }

  /** With no account of that id, nothing changes. */
  lemma {:induction false} RemoveFirstNoMatch(s: seq<AccountObj>, id: string)
    requires forall j :: 0 <= j < |s| ==> s[j].accountId != id
    ensures RemoveFirst(s, id) == s
  {
    if s != [] {
      RemoveFirstNoMatch(s[1..], id);
    }
  }

  /** The removal cuts out exactly the first match and keeps the order of
      everything else. */
  lemma {:induction false} RemoveFirstAt(s: seq<AccountObj>, id: string, k: nat)
    requires k < |s| && s[k].accountId == id
    requires forall j :: 0 <= j < k ==> s[j].accountId != id
    ensures RemoveFirst(s, id) == s[..k] + s[k + 1..]
  {
    if k > 0 {
      RemoveFirstAt(s[1..], id, k - 1);
      assert s[..k] == [s[0]] + s[1..][..k - 1];
      assert s[k + 1..] == s[1..][k..];
    }
  }

  /** Only one account goes even when several share the id: the list loses
      exactly one element and exactly one account with that id. */
  lemma {:induction false} RemoveFirstCounts(s: seq<AccountObj>, id: string)
    requires CountId(s, id) > 0
    ensures |RemoveFirst(s, id)| == |s| - 1
    ensures CountId(RemoveFirst(s, id), id) == CountId(s, id) - 1
  {
    if s[0].accountId != id {
      RemoveFirstCounts(s[1..], id);
      assert ([s[0]] + RemoveFirst(s[1..], id))[1..] == RemoveFirst(s[1..], id);
    }
  }

  /** A match is an account with that id, so the count says whether one exists. */
  lemma {:induction false} CountIdPositive(s: seq<AccountObj>, id: string)
    ensures CountId(s, id) > 0 <==> exists j :: 0 <= j < |s| && s[j].accountId == id
  {
    if s != [] {
      CountIdPositive(s[1..], id);
      if CountId(s[1..], id) > 0 {
        var j :| 0 <= j < |s[1..]| && s[1..][j].accountId == id;
        assert s[j + 1].accountId == id;
      }
      if exists j :: 0 <= j < |s| && s[j].accountId == id {
        var j :| 0 <= j < |s| && s[j].accountId == id;
        if j > 0 { assert s[1..][j - 1].accountId == id; }
      }
    }
  }

  // --------------------------------------------------------- picker input

  /** One picker entry, without its newline: `name\t\t[nr: number]`. */
  function PickerLabel(a: AccountObj): string {
    a.name + "\t\t[nr: " + a.accountNumber + "]"
  }

  /** One picker line as the loop pushes it. */
  function PickerLine(a: AccountObj): string {
    PickerLabel(a) + "\n"
  }

  function PickerLabels(s: seq<AccountObj>): (r: seq<string>)
    ensures |r| == |s| && forall i :: 0 <= i < |s| ==> r[i] == PickerLabel(s[i])
  {
    if s == [] then [] else [PickerLabel(s[0])] + PickerLabels(s[1..])
  }

  /** The text piped to fzf: every account's entry, each ended by a newline. */
  function PickerInput(s: seq<AccountObj>): string {
    Terminated(PickerLabels(s))
  }

  /** The loop that builds fzf's input with `push_str`. */
  method BuildPickerInput(accounts: seq<AccountObj>) returns (input: string)
    ensures input == PickerInput(accounts)
  {
    input := "";
    for i := 0 to |accounts|
      invariant input == PickerInput(accounts[..i])
    {
      assert PickerLabels(accounts[..i + 1]) == PickerLabels(accounts[..i]) + [PickerLabel(accounts[i])];
      TerminatedSnoc(PickerLabels(accounts[..i]), PickerLabel(accounts[i]));
      input := input + PickerLabel(accounts[i]) + "\n";
    }
    assert accounts[..|accounts|] == accounts;
  }

  predicate PickerPlain(a: AccountObj) {
    NoNewline(a.name) && NoNewline(a.accountNumber)
  }

  /** The picker sees exactly one line per account, in list order. */
  lemma PickerInputLines(s: seq<AccountObj>)
    requires forall i :: 0 <= i < |s| ==> PickerPlain(s[i])
    ensures Lines(PickerInput(s)) == PickerLabels(s) + [""]
  {
    var ls := PickerLabels(s);
    forall i | 0 <= i < |ls| ensures NoNewline(ls[i]) {
      PickerLabelPlain(s[i]);
    }
    LinesOfTerminated(ls);
  }

  lemma PickerLabelPlain(a: AccountObj)
    requires PickerPlain(a)
    ensures NoNewline(PickerLabel(a))
  {
    NoNewlineConcat(a.name, "\t\t[nr: ");
    NoNewlineConcat(a.name + "\t\t[nr: ", a.accountNumber);
    NoNewlineConcat(a.name + "\t\t[nr: " + a.accountNumber, "]");
  }

  // ------------------------------------------------------- the hand matcher

  /** `\w`, restricted to ASCII. */
  predicate IsWordChar(c: char) {
    ('0' <= c <= '9') || ('A' <= c <= 'Z') || ('a' <= c <= 'z') || c == '_'
  }

  predicate IsWord(w: string) {
    |w| >= 1 && forall i :: 0 <= i < |w| ==> IsWordChar(w[i])
  }

  /** The length of the longest run of word characters starting at `i`. */
  function WordRun(s: string, i: nat): (n: nat)
    ensures i + n <= |s| || n == 0
    decreases |s| - i
  {
    if i < |s| && IsWordChar(s[i]) then 1 + WordRun(s, i + 1) else 0
  }

  const Marker := "[nr: "

  /** `\[nr: (\w+)\]` matches at `q` of the line: the marker, a greedy word
      run of at least one character, then `]`. */
  predicate OccursAt(line: string, q: nat) {
    q + 5 <= |line| && line[q..q + 5] == Marker &&
    var n := WordRun(line, q + 5);
    n >= 1 && q + 5 + n < |line| && line[q + 5 + n] == ']'
  }

  /** The greedy `.+` backs off from the end of the line: the last match at
      or before `q`, counting only places with at least one character before them. */
  function LastOccurrence(line: string, q: nat): (r: Option<nat>)
    ensures r.Some? ==> 1 <= r.value <= q && OccursAt(line, r.value)
    ensures r.None? ==> forall k :: 1 <= k <= q ==> !OccursAt(line, k)
  {
    if q < 1 then None
    else if OccursAt(line, q) then Some(q)
    else LastOccurrence(line, q - 1)
  }

  /** The `account_nr` group a line yields, if the pattern matches in it. */
  function LineCapture(line: string): Option<string> {
    match LastOccurrence(line, |line|)
    case None => None
    case Some(q) =>
      var n := WordRun(line, q + 5);
      Some(line[q + 5..q + 5 + n])
  }

  /** The leftmost match lies in the first line that has one. */
  function FirstCapture(lines: seq<string>): Option<string> {
    if lines == [] then None
    else match LineCapture(lines[0])
      case Some(w) => Some(w)
      case None => FirstCapture(lines[1..])
  }

  /** `re.captures(&account_picked)` followed by `caps.name("account_nr")`:
      `.` never crosses a '\n', and nor do the marker or a word run, so a
      match lies within one line. */
  function Capture(output: string): Option<string> {
    FirstCapture(Lines(output))
  }

  lemma {:induction false} WordRunOf(line: string, i: nat, w: string)
    requires forall k :: 0 <= k < |w| ==> IsWordChar(w[k])
    requires i + |w| < |line| && line[i..i + |w|] == w && !IsWordChar(line[i + |w|])
    ensures WordRun(line, i) == |w|
    decreases |w|
  {
    if w != [] {
      assert line[i] == w[0];
      assert line[i + 1..i + 1 + |w[1..]|] == w[1..];
      WordRunOf(line, i + 1, w[1..]);
    }
  }

  lemma {:induction false} LastOccurrenceIs(line: string, q: nat, q0: nat)
    requires 1 <= q0 <= q && OccursAt(line, q0)
    requires forall k :: q0 < k <= q && k < |line| ==> line[k] != '['
    ensures LastOccurrence(line, q) == Some(q0)
    decreases q
  {
    if q > q0 {
      assert !OccursAt(line, q) by {
        if q + 5 <= |line| {
          assert line[q..q + 5][0] == line[q];
        }
      }
      LastOccurrenceIs(line, q - 1, q0);
    }
  }

  /** The pattern reads back the number of a entry, whatever the name holds,
      because the greedy `.+` takes the last marker and the entry's only
      marker after the name is the one the format put there. */
  lemma LabelCapture(a: AccountObj)
    requires IsWord(a.accountNumber)
    ensures LineCapture(PickerLabel(a)) == Some(a.accountNumber)
  {
    var line := PickerLabel(a);
    var w := a.accountNumber;
    var q0 := |a.name| + 2;
    assert line == a.name + "\t\t" + Marker + w + "]";
    assert line[q0..q0 + 5] == Marker;
    assert line[q0 + 5..q0 + 5 + |w|] == w;
    assert line[q0 + 5 + |w|] == ']';
    WordRunOf(line, q0 + 5, w);
    assert OccursAt(line, q0);
    forall k | q0 < k <= |line| && k < |line| ensures line[k] != '[' {
      if k < q0 + 5 {
        assert line[k] == Marker[k - q0];
      } else if k < q0 + 5 + |w| {
        assert line[k] == w[k - q0 - 5];
      }
    }
    LastOccurrenceIs(line, |line|, q0);
  }

  /** Extracting from a picker line gives back that account's number, when
      the name has no newline and the number is a run of word characters. */
  lemma PickerRoundTrip(a: AccountObj, rest: string)
    requires NoNewline(a.name) && IsWord(a.accountNumber)
    ensures Capture(PickerLine(a) + rest) == Some(a.accountNumber)
  {
    var entry := PickerLabel(a);
    assert NoNewline(a.accountNumber);
    PickerLabelPlain(a);
    LinesOfPlain(entry);
    assert PickerLine(a) + rest == entry + "\n" + rest;
    LinesAppend(entry, rest);
    LabelCapture(a);
  }

  predicate NoBracket(s: string) {
    forall k :: 0 <= k < |s| ==> s[k] != '['
  }

  lemma {:induction false} NoBracketNoOccurrence(line: string, q: nat)
    requires NoBracket(line)
    ensures LastOccurrence(line, q) == None
    decreases q
  {
    if q >= 1 {
      assert !OccursAt(line, q) by {
        if q + 5 <= |line| {
          assert line[q..q + 5][0] == line[q];
        }
      }
      NoBracketNoOccurrence(line, q - 1);
    }
  }

  lemma {:induction false} LinesNoBracket(s: string)
    requires NoBracket(s)
    ensures forall i :: 0 <= i < |Lines(s)| ==> NoBracket(Lines(s)[i])
  {
    if s != [] {
      assert NoBracket(s[1..]) by {
        forall k | 0 <= k < |s[1..]| ensures s[1..][k] != '[' {
          assert s[1..][k] == s[k + 1];
        }
      }
      LinesNoBracket(s[1..]);
      var rest := Lines(s[1..]);
      if s[0] != '\n' {
        var head := [s[0]] + rest[0];
        assert NoBracket(head) by {
          forall k | 0 <= k < |head| ensures head[k] != '[' {
            if k > 0 {
              assert head[k] == rest[0][k - 1];
            }
          }
        }
        assert Lines(s) == [head] + rest[1..];
      }
    }
  }

  lemma {:induction false} FirstCaptureNoBracket(lines: seq<string>)
    requires forall i :: 0 <= i < |lines| ==> NoBracket(lines[i])
    ensures FirstCapture(lines) == None
  {
    if lines != [] {
      NoBracketNoOccurrence(lines[0], |lines[0]|);
      FirstCaptureNoBracket(lines[1..]);
    }
  }

  /** Output without a `[` holds no match and captures nothing; the empty
      output of a cancelled pick is one such. */
  lemma NoBracketCapturesNothing(output: string)
    requires NoBracket(output)
    ensures Capture(output) == None
  {
    LinesNoBracket(output);
    FirstCaptureNoBracket(Lines(output));
  }

  // --------------------------------------------------------------- lookup

  /** The position of the first account with number `nr`. */
  function FindNumber(s: seq<AccountObj>, nr: string): (r: Option<nat>)
    ensures r.Some? ==> r.value < |s| && s[r.value].accountNumber == nr &&
                        forall j :: 0 <= j < r.value ==> s[j].accountNumber != nr
    ensures r.None? ==> forall j :: 0 <= j < |s| ==> s[j].accountNumber != nr
  {
    if s == [] then None
    else if s[0].accountNumber == nr then Some(0)
    else match FindNumber(s[1..], nr)
      case None => None
      case Some(k) => Some(k + 1)
  }

  const NotFound := NoAccountFound("Could not an account")
  const NoCapture := Message("couldn't find a capture")

  /** The lookup loop of `fuzzy_match_account`: the first account with the
      captured number, otherwise `NoAccountFound`. */
  method LookupAccount(accounts: seq<AccountObj>, nr: string) returns (r: Result<AccountObj, Error>)
    ensures FindNumber(accounts, nr).Some? ==> r == Ok(accounts[FindNumber(accounts, nr).value])
    ensures FindNumber(accounts, nr).None? ==> r == Err(NotFound)
  {
    for i := 0 to |accounts|
      invariant forall j :: 0 <= j < i ==> accounts[j].accountNumber != nr
    {
      if accounts[i].accountNumber == nr {
        return Ok(accounts[i]);
      }
    }
    return Err(NotFound);
  }

  /** What `fuzzy_match_account` returns once fzf has answered `output`. */
  function PickResult(accounts: seq<AccountObj>, output: string): Result<AccountObj, Error> {
    match Capture(output)
    case None => Err(NoCapture)
    case Some(nr) =>
      match FindNumber(accounts, nr)
      case None => Err(NotFound)
      case Some(k) => Ok(accounts[k])
  }

  /** `fuzzy_match_account`: builds the input, asks the picker, extracts the
      number and looks it up. The picker input is returned alongside. */
  method FuzzyMatchAccount(accounts: seq<AccountObj>, header: string,
                           fzf: (string, string) -> string)
    returns (r: Result<AccountObj, Error>, input: string)
    ensures input == PickerInput(accounts)
    ensures r == PickResult(accounts, fzf(input, header))
  {
    input := BuildPickerInput(accounts);
    var accountPicked := fzf(input, header);
    var caps := Capture(accountPicked);
    if caps.None? {
      return Err(NoCapture), input;
    }
    r := LookupAccount(accounts, caps.value);
  }

  /** Picking the line of account `i` yields the first account with the same
      number, which is account `i` itself when numbers are distinct. */
  lemma PickLine(accounts: seq<AccountObj>, i: nat, rest: string)
    requires i < |accounts|
    requires NoNewline(accounts[i].name) && IsWord(accounts[i].accountNumber)
    ensures var r := PickResult(accounts, PickerLine(accounts[i]) + rest);
      r.Ok? && r.value.accountNumber == accounts[i].accountNumber
    ensures (forall j :: 0 <= j < |accounts| && j != i ==>
               accounts[j].accountNumber != accounts[i].accountNumber) ==>
            PickResult(accounts, PickerLine(accounts[i]) + rest) == Ok(accounts[i])
  {
    PickerRoundTrip(accounts[i], rest);
  }

  /** The capture error is returned exactly when the output holds no match:
      a failed lookup never reports it, whatever the accounts. */
  lemma PickNoCapture(accounts: seq<AccountObj>, output: string)
    ensures PickResult(accounts, output) == Err(Message("couldn't find a capture")) <==>
            Capture(output) == None
  {
    if Capture(output).Some? {
      assert NotFound != NoCapture;
    }
  }
}
