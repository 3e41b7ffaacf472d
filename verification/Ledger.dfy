/**
 The double-entry posting rules of internal/service/ledger.go, shared by
 PostLedgerTransaction and the webhook's postEntryInTx, on the tables of
 migrations/000002_create_ledger.up.sql.
 */
module Ledger {
  import opened Int64

  datatype AccountType = Asset | Liability | Revenue | Expense

  datatype Account = Account(kind: AccountType, balance: int)

  type Accounts = map<string, Account>

  /** One requested debit or credit. */
  datatype Line = Line(code: string, debit: int, credit: int)

  /** A row of ledger_entries, with its account named by code. */
  datatype Entry = Entry(code: string, debit: int, credit: int, running: int)

  datatype LedgerError =
    | TooFewEntries
    | NegativeAmount
    | DebitAndCredit
    | Unbalanced(debits: int, credits: int)
    | AccountNotFound(code: string)
    | CheckViolation

  const PSP_SETTLEMENT := "PSP_SETTLEMENT"
  const MERCHANT_PAY := "MERCHANT_PAY"
  const REFUND_EXP := "REFUND_EXP"

  /** Assets and expenses grow by debits, liabilities and revenue by credits. */
  predicate NormalDebit(kind: AccountType) {
    kind.Asset? || kind.Expense?
  }

  function NewBalance(account: Account, debit: int, credit: int): int {
    if NormalDebit(account.kind)
    then Add(account.balance, Sub(debit, credit))
    else Add(account.balance, Sub(credit, debit))
  }

  /** The table constraint chk_debit_credit. */
  predicate RowCheck(debit: int, credit: int) {
    (debit > 0 && credit == 0) || (credit > 0 && debit == 0)
  }

  datatype Posting = Posted(accounts: Accounts, entries: seq<Entry>) | Refused(error: LedgerError)

  /** Lock the account, write its new balance, insert the entry row. */
  function PostLine(accounts: Accounts, entries: seq<Entry>, line: Line): Posting {
    if line.code !in accounts then
      Refused(AccountNotFound(line.code))
    else if !RowCheck(line.debit, line.credit) then
      Refused(CheckViolation)
    else
      var account := accounts[line.code];
      var balance := NewBalance(account, line.debit, line.credit);
      Posted(accounts[line.code := account.(balance := balance)],
             entries + [Entry(line.code, line.debit, line.credit, balance)])
  }

  function PostLines(accounts: Accounts, lines: seq<Line>): Posting
    decreases |lines|
  {
    if lines == [] then
      Posted(accounts, [])
    else
      var done := PostLines(accounts, lines[..|lines| - 1]);
      if done.Refused? then done else PostLine(done.accounts, done.entries, lines[|lines| - 1])
  }

  /** Posting one more line. */
  lemma PostOneMore(accounts: Accounts, lines: seq<Line>, k: nat)
    requires k < |lines|
    ensures PostLines(accounts, lines[..k + 1]) ==
            var done := PostLines(accounts, lines[..k]);
            if done.Refused? then done else PostLine(done.accounts, done.entries, lines[k])
  {
    assert lines[..k + 1][..k] == lines[..k];
  }

  /** A posting names only the accounts it finds, and keeps the chart of accounts. */
  lemma {:induction false} PostingShape(accounts: Accounts, lines: seq<Line>)
    requires PostLines(accounts, lines).Posted?
    ensures var done := PostLines(accounts, lines);
            && done.accounts.Keys == accounts.Keys
            && |done.entries| == |lines|
            && (forall c :: c in accounts ==> done.accounts[c].kind == accounts[c].kind)
            && (forall i :: 0 <= i < |lines| ==>
              && lines[i].code in accounts
              && RowCheck(lines[i].debit, lines[i].credit)
              && done.entries[i].code == lines[i].code
              && done.entries[i].debit == lines[i].debit
              && done.entries[i].credit == lines[i].credit)
    decreases |lines|
  {
    if lines != [] {
      PostingShape(accounts, lines[..|lines| - 1]);
    }
  }

  /** A posting neither reads nor writes accounts it does not name: more
      accounts beside the ones it works on change nothing. */
  lemma {:induction false} PostingFrame(accounts: Accounts, others: Accounts, lines: seq<Line>)
    requires accounts.Keys !! others.Keys
    requires PostLines(accounts, lines).Posted?
    ensures PostLines(others + accounts, lines) ==
            Posted(others + PostLines(accounts, lines).accounts, PostLines(accounts, lines).entries)
    decreases |lines|
  {
    if lines != [] {
      var most, line := lines[..|lines| - 1], lines[|lines| - 1];
      var done := PostLines(accounts, most);
      PostingFrame(accounts, others, most);
      PostingShape(accounts, most);
      FrameOne(done.accounts, others, done.entries, line);
    }
  }

  lemma FrameOne(accounts: Accounts, others: Accounts, entries: seq<Entry>, line: Line)
    requires accounts.Keys !! others.Keys
    requires PostLine(accounts, entries, line).Posted?
    ensures PostLine(others + accounts, entries, line) ==
            Posted(others + PostLine(accounts, entries, line).accounts, PostLine(accounts, entries, line).entries)
  {
    var account := accounts[line.code];
    var after := account.(balance := NewBalance(account, line.debit, line.credit));
    assert (others + accounts)[line.code := after] == others + accounts[line.code := after];
  }

  function SumDebit(lines: seq<Line>): int {
    if lines == [] then 0 else SumDebit(lines[..|lines| - 1]) + lines[|lines| - 1].debit
  }

  function SumCredit(lines: seq<Line>): int {
    if lines == [] then 0 else SumCredit(lines[..|lines| - 1]) + lines[|lines| - 1].credit
  }

  /** Debits minus credits of the lines on one account. */
  function NetLines(lines: seq<Line>, code: string): int {
    if lines == [] then 0
    else
      var line := lines[|lines| - 1];
      NetLines(lines[..|lines| - 1], code) + if line.code == code then line.debit - line.credit else 0
  }

  predicate CleanLine(line: Line) {
    line.debit >= 0 && line.credit >= 0 && !(line.debit > 0 && line.credit > 0)
  }

  /** What the validation of PostLedgerTransaction accepts: the totals are int64 sums. */
  predicate Acceptable(lines: seq<Line>) {
    && 2 <= |lines|
    && (forall i :: 0 <= i < |lines| ==> CleanLine(lines[i]))
    && Wrap(SumDebit(lines)) == Wrap(SumCredit(lines))
  }

  lemma TwoLineTotals(a: Line, b: Line)
    ensures SumDebit([a, b]) == a.debit + b.debit && SumCredit([a, b]) == a.credit + b.credit
  {
    assert [a, b][..1] == [a] && [a][..0] == [];
    assert SumDebit([a]) == a.debit && SumCredit([a]) == a.credit;
  }

  lemma TwoLinesPost(accounts: Accounts, debited: string, credited: string, amount: int)
    requires debited in accounts && credited in accounts && 0 < amount
    ensures PostLines(accounts, [Line(debited, amount, 0), Line(credited, 0, amount)]).Posted?
  {
    var lines := [Line(debited, amount, 0), Line(credited, 0, amount)];
    PostOneMore(accounts, lines, 0);
    PostOneMore(accounts, lines, 1);
    assert lines[..0] == [] && lines[..2] == lines;
  }
}
