/**
 What the stored balances mean: each is the type-signed sum of the account's
 entries, and the two sides of the chart of accounts agree.
 A book is the list of all entry rows in commit order.
 */
module Balances {
  import opened Int64
  import opened Ledger

  /** Debits minus credits booked on one account. */
  function Net(book: seq<Entry>, code: string): int {
    if book == [] then 0
    else
      var e := book[|book| - 1];
      Net(book[..|book| - 1], code) + if e.code == code then e.debit - e.credit else 0
  }

  function Signed(kind: AccountType, net: int): int {
    if NormalDebit(kind) then net else -net
  }

  lemma NetOneMore(book: seq<Entry>, e: Entry, code: string)
    ensures Net(book + [e], code) == Net(book, code) + if e.code == code then e.debit - e.credit else 0
  {
    assert (book + [e])[..|book|] == book;
  }

  /** The account rows carry the sums of the book, as int64. */
  ghost predicate BalancesAgree(accounts: Accounts, book: seq<Entry>) {
    forall c :: c in accounts ==> accounts[c].balance == Wrap(Signed(accounts[c].kind, Net(book, c)))
  }

  /** Every entry's running balance is the sum of its account up to and including itself. */
  ghost predicate RunningAgrees(accounts: Accounts, book: seq<Entry>) {
    forall i :: 0 <= i < |book| ==> RunningAt(accounts, book, i)
  }

  ghost predicate RunningAt(accounts: Accounts, book: seq<Entry>, i: nat)
    requires i < |book|
  {
    && book[i].code in accounts
    && book[i].running == Wrap(Signed(accounts[book[i].code].kind, Net(book[..i + 1], book[i].code)))
  }

  ghost predicate Reconciled(accounts: Accounts, book: seq<Entry>) {
    BalancesAgree(accounts, book) && RunningAgrees(accounts, book)
  }

  lemma NewBalanceIsSum(account: Account, net: int, debit: int, credit: int)
    requires account.balance == Wrap(Signed(account.kind, net))
    ensures NewBalance(account, debit, credit) == Wrap(Signed(account.kind, net + debit - credit))
  {
    if NormalDebit(account.kind) {
      WrapAccumulates(net, debit, credit);
    } else {
      WrapAccumulates(-net, credit, debit);
    }
  }

  lemma LineKeepsReconciled(accounts: Accounts, book: seq<Entry>, entries: seq<Entry>, line: Line)
    requires Reconciled(accounts, book + entries)
    requires PostLine(accounts, entries, line).Posted?
    ensures var done := PostLine(accounts, entries, line);
            Reconciled(done.accounts, book + done.entries)
  {
    var done := PostLine(accounts, entries, line);
    var before := book + entries;
    var e := done.entries[|entries|];
    assert book + done.entries == before + [e];
    NewBalanceIsSum(accounts[line.code], Net(before, line.code), line.debit, line.credit);
    forall c | c in done.accounts
      ensures done.accounts[c].balance == Wrap(Signed(done.accounts[c].kind, Net(before + [e], c)))
    {
      NetOneMore(before, e, c);
    }
    forall i | 0 <= i < |before + [e]|
      ensures RunningAt(done.accounts, before + [e], i)
    {
      if i < |before| {
        assert RunningAt(accounts, before, i);
        assert (before + [e])[..i + 1] == before[..i + 1];
      } else {
        assert (before + [e])[..i + 1] == before + [e];
      }
    }
  }

  /** Posting keeps every balance and every running balance equal to its prefix sum. */
  lemma {:induction false} PostingKeepsReconciled(accounts: Accounts, book: seq<Entry>, lines: seq<Line>)
    requires Reconciled(accounts, book)
    requires PostLines(accounts, lines).Posted?
    ensures var done := PostLines(accounts, lines);
            Reconciled(done.accounts, book + done.entries)
    decreases |lines|
  {
    if lines == [] {
      assert book + [] == book;
    } else {
      var most := lines[..|lines| - 1];
      PostingKeepsReconciled(accounts, book, most);
      var done := PostLines(accounts, most);
      LineKeepsReconciled(done.accounts, book, done.entries, lines[|lines| - 1]);
    }
  }

  /** The rows written for a posting carry what its lines say. */
  lemma {:induction false} PostingNet(accounts: Accounts, lines: seq<Line>, code: string)
    requires PostLines(accounts, lines).Posted?
    ensures Net(PostLines(accounts, lines).entries, code) == NetLines(lines, code)
    decreases |lines|
  {
    if lines != [] {
      var most := lines[..|lines| - 1];
      var done := PostLines(accounts, most);
      PostingNet(accounts, most, code);
      NetOneMore(done.entries, PostLines(accounts, lines).entries[|done.entries|], code);
    }
  }

  // ---- The two sides of the chart of accounts

  function Imbalance(entries: seq<Entry>): int {
    if entries == [] then 0
    else Imbalance(entries[..|entries| - 1]) + entries[|entries| - 1].debit - entries[|entries| - 1].credit
  }

  lemma {:induction false} ImbalanceConcat(a: seq<Entry>, b: seq<Entry>)
    ensures Imbalance(a + b) == Imbalance(a) + Imbalance(b)
    decreases |b|
  {
    if b == [] {
      assert a + b == a;
    } else {
      assert (a + b)[..|a + b| - 1] == a + b[..|b| - 1];
      ImbalanceConcat(a, b[..|b| - 1]);
    }
  }

  /** The rows written for a posting are off balance by exactly what its lines are. */
  lemma {:induction false} PostingImbalance(accounts: Accounts, lines: seq<Line>)
    requires PostLines(accounts, lines).Posted?
    ensures Imbalance(PostLines(accounts, lines).entries) == SumDebit(lines) - SumCredit(lines)
    decreases |lines|
  {
    if lines != [] {
      PostingImbalance(accounts, lines[..|lines| - 1]);
      var done := PostLines(accounts, lines[..|lines| - 1]);
      assert (done.entries + [PostLines(accounts, lines).entries[|done.entries|]])[..|done.entries|] == done.entries;
    }
  }

  /** Assets plus expenses minus liabilities minus revenue, over the accounts listed. */
  function Sheet(accounts: Accounts, codes: seq<string>): int
    requires forall c :: c in codes ==> c in accounts
  {
    if codes == [] then 0
    else
      var a := accounts[codes[0]];
      Sheet(accounts, codes[1..]) + if NormalDebit(a.kind) then a.balance else -a.balance
  }

  function SumNet(book: seq<Entry>, codes: seq<string>): int {
    if codes == [] then 0 else SumNet(book, codes[1..]) + Net(book, codes[0])
  }

  ghost predicate Distinct(codes: seq<string>) {
    forall i, j :: 0 <= i < j < |codes| ==> codes[i] != codes[j]
  }

  lemma {:induction false} SumNetOneMore(book: seq<Entry>, e: Entry, codes: seq<string>)
    requires Distinct(codes)
    ensures SumNet(book + [e], codes) == SumNet(book, codes) + if e.code in codes then e.debit - e.credit else 0
    decreases |codes|
  {
    if codes != [] {
      NetOneMore(book, e, codes[0]);
      SumNetOneMore(book, e, codes[1..]);
    }
  }

  lemma {:induction false} SumNetEmpty(codes: seq<string>)
    ensures SumNet([], codes) == 0
    decreases |codes|
  {
    if codes != [] {
      SumNetEmpty(codes[1..]);
    }
  }

  /** Every entry is counted on exactly one account. */
  lemma {:induction false} SumNetIsImbalance(book: seq<Entry>, codes: seq<string>)
    requires Distinct(codes)
    requires forall i :: 0 <= i < |book| ==> book[i].code in codes
    ensures SumNet(book, codes) == Imbalance(book)
    decreases |book|
  {
    if book == [] {
      SumNetEmpty(codes);
    } else {
      var most := book[..|book| - 1];
      SumNetIsImbalance(most, codes);
      SumNetOneMore(most, book[|book| - 1], codes);
      assert most + [book[|book| - 1]] == book;
    }
  }

  lemma {:induction false} SheetIsSumNet(accounts: Accounts, book: seq<Entry>, codes: seq<string>)
    requires BalancesAgree(accounts, book)
    requires forall c :: c in codes ==> c in accounts
    ensures Congruent(Sheet(accounts, codes), SumNet(book, codes))
    ensures (forall c :: c in codes ==> Fits(Net(book, c)) && Fits(-Net(book, c))) ==>
              Sheet(accounts, codes) == SumNet(book, codes)
    decreases |codes|
  {
    if codes != [] {
      SheetIsSumNet(accounts, book, codes[1..]);
      var a, net := accounts[codes[0]], Net(book, codes[0]);
      WrapAgrees(Signed(a.kind, net), Signed(a.kind, net));
      CongruentBack(Signed(a.kind, net), a.balance);
      if NormalDebit(a.kind) {
        CongruentSum(Sheet(accounts, codes[1..]), SumNet(book, codes[1..]), a.balance, net);
      } else {
        CongruentSum(Sheet(accounts, codes[1..]), SumNet(book, codes[1..]), a.balance, -net);
      }
    }
  }
}
