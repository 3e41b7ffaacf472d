/**
 When the int64 arithmetic of the ledger is exact: amounts are capped by the
 handlers (internal/handler/payment.go), so only the number of entries matters.
 */
module LedgerBounds {
  import opened Int64
  import opened Ledger
  import opened Balances

  const MAX_AMOUNT: int := 999_999_999_999
  const MAX_ENTRIES: int := 9_223_372

  /** What internal/handler/payment.go lets through, for payments and for refunds. */
  predicate Validated(amount: int) {
    0 < amount <= MAX_AMOUNT
  }

  predicate Capped(debit: int, credit: int) {
    0 <= debit <= MAX_AMOUNT && 0 <= credit <= MAX_AMOUNT
  }

  ghost predicate CappedBook(book: seq<Entry>) {
    forall i :: 0 <= i < |book| ==> Capped(book[i].debit, book[i].credit)
  }

  ghost predicate CappedLines(lines: seq<Line>) {
    forall i :: 0 <= i < |lines| ==> Capped(lines[i].debit, lines[i].credit)
  }

  lemma {:induction false} NetBound(book: seq<Entry>, code: string)
    requires CappedBook(book)
    ensures -(|book| * MAX_AMOUNT) <= Net(book, code) <= |book| * MAX_AMOUNT
    decreases |book|
  {
    if book != [] {
      NetBound(book[..|book| - 1], code);
    }
  }

  lemma {:induction false} TotalsBound(lines: seq<Line>)
    requires CappedLines(lines)
    ensures 0 <= SumDebit(lines) <= |lines| * MAX_AMOUNT
    ensures 0 <= SumCredit(lines) <= |lines| * MAX_AMOUNT
    decreases |lines|
  {
    if lines != [] {
      TotalsBound(lines[..|lines| - 1]);
    }
  }

  /** Up to MAX_ENTRIES capped entries, every stored balance is the exact integer sum. */
  lemma BalancesExact(accounts: Accounts, book: seq<Entry>)
    requires Reconciled(accounts, book)
    requires CappedBook(book) && |book| <= MAX_ENTRIES
    ensures forall c :: c in accounts ==> accounts[c].balance == Signed(accounts[c].kind, Net(book, c))
    ensures forall i :: 0 <= i < |book| ==>
              && book[i].code in accounts
              && book[i].running == Signed(accounts[book[i].code].kind, Net(book[..i + 1], book[i].code))
  {
    forall c | c in accounts
      ensures accounts[c].balance == Signed(accounts[c].kind, Net(book, c))
    {
      NetBound(book, c);
      WrapAgrees(Signed(accounts[c].kind, Net(book, c)), 0);
    }
    forall i | 0 <= i < |book|
      ensures book[i].code in accounts
      ensures book[i].running == Signed(accounts[book[i].code].kind, Net(book[..i + 1], book[i].code))
    {
      assert RunningAt(accounts, book, i);
      NetBound(book[..i + 1], book[i].code);
      WrapAgrees(Signed(accounts[book[i].code].kind, Net(book[..i + 1], book[i].code)), 0);
    }
  }

  /** The debit = credit test compares the totals modulo 2^64 only. */
  lemma ValidationMeaning(lines: seq<Line>)
    ensures Acceptable(lines) <==>
              && 2 <= |lines|
              && (forall i :: 0 <= i < |lines| ==>
                0 <= lines[i].debit && 0 <= lines[i].credit && (lines[i].debit == 0 || lines[i].credit == 0))
              && (SumDebit(lines) - SumCredit(lines)) % 0x1_0000_0000_0000_0000 == 0
  {
    WrapAgrees(SumDebit(lines), SumCredit(lines));
  }

  /** Up to MAX_ENTRIES capped lines, it accepts exactly the balanced postings. */
  lemma ValidationExact(lines: seq<Line>)
    requires CappedLines(lines) && |lines| <= MAX_ENTRIES
    ensures Acceptable(lines) <==>
              && 2 <= |lines|
              && (forall i :: 0 <= i < |lines| ==> CleanLine(lines[i]))
              && SumDebit(lines) == SumCredit(lines)
  {
    TotalsBound(lines);
    WrapAgrees(SumDebit(lines), 0);
    WrapAgrees(SumCredit(lines), 0);
  }

  /** Without the cap it does not: three debits summing to 2^64 pass with no credit at all,
      and every line also satisfies the table constraint. */
  lemma ValidationFooled()
    ensures exists lines: seq<Line> :: Acceptable(lines) && SumDebit(lines) != SumCredit(lines) &&
                            forall i :: 0 <= i < |lines| ==> RowCheck(lines[i].debit, lines[i].credit)
  {
    var big := Line(PSP_SETTLEMENT, TWO63 - 1, 0);
    var two := Line(PSP_SETTLEMENT, 2, 0);
    var lines := [big, big, two];
    assert lines[..2] == [big, big] && [big, big][..1] == [big] && [big][..0] == [];
    assert SumDebit([big]) == TWO63 - 1 && SumCredit([big]) == 0;
    assert SumDebit([big, big]) == TWO64 - 2 && SumCredit([big, big]) == 0;
    assert SumDebit(lines) == TWO64 && SumCredit(lines) == 0;
    WrapAgrees(TWO64, 0);
    assert Acceptable(lines);
  }

  // ---- Neither bound can be improved

  ghost predicate Below(lines: seq<Line>, cap: int) {
    forall i :: 0 <= i < |lines| ==> lines[i].debit <= cap && lines[i].credit <= cap
  }

  /** Validation accepts only balanced ones among the postings of at most n lines up to the cap. */
  ghost predicate ExactUpTo(n: nat, cap: int) {
    forall lines: seq<Line> ::
      |lines| <= n && Below(lines, cap) && Acceptable(lines) ==> SumDebit(lines) == SumCredit(lines)
  }

  lemma {:induction false} SumsBelow(lines: seq<Line>, cap: int)
    requires Below(lines, cap) && 0 <= cap && forall i :: 0 <= i < |lines| ==> CleanLine(lines[i])
    ensures 0 <= SumDebit(lines) <= |lines| * cap && 0 <= SumCredit(lines) <= |lines| * cap
    decreases |lines|
  {
    if lines != [] {
      var most := lines[..|lines| - 1];
      SumsBelow(most, cap);
      Distribute(|most|, cap);
    }
  }

  lemma Distribute(n: nat, cap: int)
    ensures (n + 1) * cap == n * cap + cap
  {
  }

  lemma ProductGrows(m: nat, n: nat, cap: int)
    requires m <= n && 0 <= cap
    ensures m * cap <= n * cap
  {
    assert 0 <= (n - m) * cap;
  }

  lemma NearIsEqual(x: int, y: int)
    requires Wrap(x) == Wrap(y) && -TWO64 < x - y < TWO64
    ensures x == y
  {
    WrapAgrees(x, y);
  }

  /** Debits on one account that add up to the total, each up to the cap. */
  function Debits(total: int, cap: int): seq<Line>
    requires 0 < cap
    decreases total
  {
    if total <= 0 then []
    else if total <= cap then [Line(PSP_SETTLEMENT, total, 0)]
    else Debits(total - cap, cap) + [Line(PSP_SETTLEMENT, cap, 0)]
  }

  lemma {:induction false} DebitsAddUp(total: int, cap: int, n: nat)
    requires 0 < cap && 0 <= total <= n * cap
    ensures var lines := Debits(total, cap);
            && SumDebit(lines) == total && SumCredit(lines) == 0 && |lines| <= n && Below(lines, cap)
            && (cap < total ==> 2 <= |lines|)
            && forall i :: 0 <= i < |lines| ==> RowCheck(lines[i].debit, lines[i].credit)
    decreases n
  {
    if total > cap {
      Distribute(n - 1, cap);
      DebitsAddUp(total - cap, cap, n - 1);
      assert Debits(total, cap)[..|Debits(total, cap)| - 1] == Debits(total - cap, cap);
    } else if total > 0 {
      assert Debits(total, cap)[..0] == [];
    }
  }

  /** For int64 amounts up to a cap, validation is exact exactly while no posting can reach 2^64. */
  lemma ValidationExactIff(n: nat, cap: int)
    requires 0 < cap < TWO63
    ensures ExactUpTo(n, cap) <==> n * cap < TWO64
  {
    if n * cap < TWO64 {
      forall lines: seq<Line> | |lines| <= n && Below(lines, cap) && Acceptable(lines)
        ensures SumDebit(lines) == SumCredit(lines)
      {
        SumsBelow(lines, cap);
        ProductGrows(|lines|, n, cap);
        NearIsEqual(SumDebit(lines), SumCredit(lines));
      }
    } else {
      DebitsAddUp(TWO64, cap, n);
      WrapAgrees(TWO64, 0);
      assert Acceptable(Debits(TWO64, cap));
    }
  }

  function Repeat(line: Line, n: nat): seq<Line> {
    if n == 0 then [] else Repeat(line, n - 1) + [line]
  }

  lemma AppendPosts(accounts: Accounts, lines: seq<Line>, line: Line)
    requires PostLines(accounts, lines).Posted? && line.code in accounts && RowCheck(line.debit, line.credit)
    ensures PostLines(accounts, lines + [line]).Posted?
  {
    PostingShape(accounts, lines);
    assert (lines + [line])[..|lines|] == lines;
  }

  lemma AppendNet(lines: seq<Line>, line: Line)
    ensures NetLines(lines + [line], line.code) == NetLines(lines, line.code) + line.debit - line.credit
  {
    assert (lines + [line])[..|lines|] == lines;
  }

  lemma {:induction false} RepeatPosts(accounts: Accounts, line: Line, n: nat)
    requires line.code in accounts && RowCheck(line.debit, line.credit)
    ensures PostLines(accounts, Repeat(line, n)).Posted?
    decreases n
  {
    if n > 0 {
      RepeatPosts(accounts, line, n - 1);
      AppendPosts(accounts, Repeat(line, n - 1), line);
    }
  }

  lemma {:induction false} RepeatNet(line: Line, amount: int, n: nat)
    requires amount == line.debit - line.credit
    ensures NetLines(Repeat(line, n), line.code) == n * amount
    decreases n
  {
    if n > 0 {
      RepeatNet(line, amount, n - 1);
      Distribute(n - 1, amount);
      AppendNet(Repeat(line, n - 1), line);
    }
  }

  lemma RepeatBalance(accounts: Accounts, code: string, amount: int, n: nat)
    requires code in accounts && accounts[code].kind == Asset && 0 < amount
    requires forall c :: c in accounts ==> accounts[c].balance == 0
    ensures var done := PostLines(accounts, Repeat(Line(code, amount, 0), n));
            done.Posted? && code in done.accounts && done.accounts[code].balance == Wrap(n * amount)
  {
    var lines := Repeat(Line(code, amount, 0), n);
    RepeatPosts(accounts, Line(code, amount, 0), n);
    RepeatNet(Line(code, amount, 0), amount, n);
    PostingShape(accounts, lines);
    PostingNet(accounts, lines, code);
    FreshIsReconciled(accounts);
    PostingKeepsReconciled(accounts, [], lines);
    assert [] + PostLines(accounts, lines).entries == PostLines(accounts, lines).entries;
  }

  /** One entry more than MAX_ENTRIES does not fit: so many debits of MAX_AMOUNT turn the balance of an asset
      account negative. */
  lemma OneEntryTooMany(accounts: Accounts, code: string, n: nat)
    requires code in accounts && accounts[code].kind == Asset && n == MAX_ENTRIES + 1
    requires forall c :: c in accounts ==> accounts[c].balance == 0
    ensures var done := PostLines(accounts, Repeat(Line(code, MAX_AMOUNT, 0), n));
            done.Posted? && code in done.accounts && done.accounts[code].balance < 0
  {
    RepeatBalance(accounts, code, MAX_AMOUNT, n);
    JustTooMuch(n);
  }

  lemma FreshIsReconciled(accounts: Accounts)
    requires forall c :: c in accounts ==> accounts[c].balance == 0
    ensures Reconciled(accounts, [])
  {
    WrapAgrees(0, 0);
  }

  lemma JustTooMuch(n: nat)
    requires n == MAX_ENTRIES + 1
    ensures Wrap(n * MAX_AMOUNT) < 0
  {
  }
}
