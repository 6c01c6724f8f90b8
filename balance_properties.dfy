/** What the trial balance promises, proved about the query model. */
module BalanceProperties {
  import opened Wrappers
  import opened Ledger
  import opened SqlOrder
  import opened Balances
  import opened BalanceSort

  // ---------------------------------------------------------------------------
  // The reference sum.

  lemma SumWhereAppend(es: seq<Entry>, e: Entry, id: int, pos: string)
    ensures SumWhere(es + [e], id, pos) == SumWhere(es, id, pos) + Contribution(e, id, pos)
  {
    assert (es + [e])[..|es|] == es;
  }

  /** Only the entries of account `id` enter its sums. */
  lemma {:induction false} SumWhereOfEntriesOf(es: seq<Entry>, id: int, pos: string)
    ensures SumWhere(EntriesOf(es, id), id, pos) == SumWhere(es, id, pos)
  {
    if es != [] {
      var init, last := es[..|es| - 1], es[|es| - 1];
      SumWhereOfEntriesOf(init, id, pos);
      assert SumWhere(es, id, pos) == SumWhere(init, id, pos) + Contribution(last, id, pos);
      if last.accountId == id {
        assert EntriesOf(es, id) == EntriesOf(init, id) + [last];
        SumWhereAppend(EntriesOf(init, id), last, id, pos);
      } else {
        assert EntriesOf(es, id) == EntriesOf(init, id);
      }
    }
  }

  lemma {:induction false} SumWhereNone(es: seq<Entry>, id: int, pos: string)
    requires forall e :: e in es ==> e.accountId != id
    ensures SumWhere(es, id, pos) == 0.0
  {
    if es != [] {
      SumWhereNone(es[..|es| - 1], id, pos);
    }
  }

  /** SUM over the CASE column of a non-empty list of one account's entries is their filtered sum. */
  lemma {:induction false} SqlSumOfEntries(m: seq<Entry>, id: int, pos: string)
    requires m != []
    requires forall e :: e in m ==> e.accountId == id
    ensures SqlSum(CaseColumn(Lift(m), pos)) == Some(SumWhere(m, id, pos))
  {
    var xs := CaseColumn(Lift(m), pos);
    var init := m[..|m| - 1];
    assert xs[..|xs| - 1] == CaseColumn(Lift(init), pos);
    if init == [] {
      assert SqlSum(xs[..|xs| - 1]) == None;
    } else {
      SqlSumOfEntries(init, id, pos);
    }
  }

  /**
   * The SQL total — COALESCE of SUM of the CASE column over the left join — is the
   * sum of the amounts of the account's entries on that side, 0 when there are none.
   */
  lemma SideTotalIsSum(a: Account, es: seq<Entry>, pos: string)
    ensures SideTotal(a, es, pos) == SumWhere(es, a.id, pos)
  {
    var m := EntriesOf(es, a.id);
    SumWhereOfEntriesOf(es, a.id, pos);
    if m == [] {
      var xs := CaseColumn(LeftJoin(a, es), pos);
      assert xs == [Some(0.0)];
      assert xs[..0] == [];
    } else {
      SqlSumOfEntries(m, a.id, pos);
    }
  }

  // ---------------------------------------------------------------------------
  // One row.

  /** The columns of an account's row that come from the account itself. */
  lemma RowCopiesAccount(a: Account, es: seq<Entry>)
    ensures var r := RowFor(a, es);
      r.accountId == a.id && r.code == a.code && r.accountName == a.name &&
      r.accountType == a.accountType && r.homePosition == a.homePosition
  {
  }

  /** debit_total and credit_total are the filtered sums of the account's entries. */
  lemma RowTotals(a: Account, es: seq<Entry>)
    ensures RowFor(a, es).debitTotal == SumWhere(es, a.id, "debit")
    ensures RowFor(a, es).creditTotal == SumWhere(es, a.id, "credit")
  {
    SideTotalIsSum(a, es, "debit");
    SideTotalIsSum(a, es, "credit");
  }

  /** raw_balance is debit_total minus credit_total. */
  lemma RowRawBalance(a: Account, es: seq<Entry>)
    ensures var r := RowFor(a, es);
      r.rawBalance == r.debitTotal - r.creditTotal &&
      r.rawBalance == SumWhere(es, a.id, "debit") - SumWhere(es, a.id, "credit")
  {
    RowTotals(a, es);
  }

  /** balance_position is 'debit' exactly when debit_total >= credit_total (a tie is 'debit'), else 'credit'. */
  lemma RowBalancePosition(a: Account, es: seq<Entry>)
    ensures var r := RowFor(a, es);
      (r.balancePosition == "debit" <==> r.debitTotal >= r.creditTotal) &&
      (r.balancePosition == "credit" <==> r.debitTotal < r.creditTotal)
  {
  }

  /**
   * home_signed_balance is raw_balance for a debit-home account and its negation for
   * any other home_position, so its magnitude is always that of raw_balance.
   */
  lemma RowHomeSignedBalance(a: Account, es: seq<Entry>)
    ensures var r := RowFor(a, es);
      (a.homePosition == "debit" ==> r.homeSignedBalance == r.rawBalance) &&
      (a.homePosition != "debit" ==> r.homeSignedBalance == r.creditTotal - r.debitTotal == -r.rawBalance) &&
      Abs(r.homeSignedBalance) == Abs(r.rawBalance)
  {
  }

  /** An account with no entries gets a row of zeros on the debit side. */
  lemma IdleAccountRow(a: Account, es: seq<Entry>)
    requires forall e :: e in es ==> e.accountId != a.id
    ensures var r := RowFor(a, es);
      r.debitTotal == 0.0 && r.creditTotal == 0.0 && r.rawBalance == 0.0 &&
      r.homeSignedBalance == 0.0 && r.balancePosition == "debit"
  {
    RowTotals(a, es);
    SumWhereNone(es, a.id, "debit");
    SumWhereNone(es, a.id, "credit");
  }

  /** A further entry adds its amount to its own account's side and changes nothing else. */
  lemma AppendedEntryAdds(a: Account, es: seq<Entry>, e: Entry)
    ensures RowFor(a, es + [e]).debitTotal == RowFor(a, es).debitTotal + Contribution(e, a.id, "debit")
    ensures RowFor(a, es + [e]).creditTotal == RowFor(a, es).creditTotal + Contribution(e, a.id, "credit")
  {
    RowTotals(a, es);
    RowTotals(a, es + [e]);
    SumWhereAppend(es, e, a.id, "debit");
    SumWhereAppend(es, e, a.id, "credit");
  }

  // ---------------------------------------------------------------------------
  // The whole report.

  /** The query hands over no NULL total, so the null-to-0 rule of the mapping never changes a value. */
  lemma NullDefaultsUnused(accounts: seq<Account>, es: seq<Entry>)
    ensures forall q :: q in Query(accounts, es) ==>
      q.debitTotal.Some? && q.creditTotal.Some? && q.rawBalance.Some? && q.homeSignedBalance.Some? &&
      MapRow(q) == BalanceRow(q.accountId, q.code, q.accountName, q.accountType, q.homePosition,
                              q.debitTotal.value, q.creditTotal.value, q.rawBalance.value,
                              q.balancePosition, q.homeSignedBalance.value)
  {
    var g := Groups(accounts, es);
    SortRowsCorrect(g);
    forall q | q in Query(accounts, es)
      ensures q.debitTotal.Some? && q.creditTotal.Some? && q.rawBalance.Some? && q.homeSignedBalance.Some? &&
        MapRow(q) == BalanceRow(q.accountId, q.code, q.accountName, q.accountType, q.homePosition,
                                q.debitTotal.value, q.creditTotal.value, q.rawBalance.value,
                                q.balancePosition, q.homeSignedBalance.value)
    {
      assert q in multiset(g);
      var i :| 0 <= i < |g| && g[i] == q;
      assert q == QueryRowFor(accounts[i], es);
      MapRowOfTotals(q);
    }
  }

  /** On a row with no NULL total, the mapping only unwraps the four numeric columns. */
  lemma MapRowOfTotals(q: QueryRow)
    requires q.debitTotal.Some? && q.creditTotal.Some? && q.rawBalance.Some? && q.homeSignedBalance.Some?
    ensures MapRow(q) == BalanceRow(q.accountId, q.code, q.accountName, q.accountType, q.homePosition,
                                    q.debitTotal.value, q.creditTotal.value, q.rawBalance.value,
                                    q.balancePosition, q.homeSignedBalance.value)
  {
  }

  /** The report is a rearrangement of the account rows. */
  lemma TrialBalancePermutes(accounts: seq<Account>, es: seq<Entry>)
    ensures multiset(TrialBalance(accounts, es)) == multiset(AccountRows(accounts, es))
  {
    var g := Groups(accounts, es);
    SortRowsCorrect(g);
    MapRowsPermutes(Query(accounts, es), g);
  }

  /** Row `i` of the account rows belongs to account `i`. */
  lemma AccountRowsAt(accounts: seq<Account>, es: seq<Entry>, i: int)
    requires 0 <= i < |accounts|
    ensures |AccountRows(accounts, es)| == |accounts|
    ensures AccountRows(accounts, es)[i] == RowFor(accounts[i], es)
    ensures AccountRows(accounts, es)[i].accountId == accounts[i].id
  {
  }

  /**
   * The left join keeps every account: the report has one row per account row, the
   * account's own row, and no other.
   */
  lemma OneRowPerAccount(accounts: seq<Account>, es: seq<Entry>)
    ensures |TrialBalance(accounts, es)| == |accounts|
    ensures multiset(TrialBalance(accounts, es)) == multiset(AccountRows(accounts, es))
    ensures forall i :: 0 <= i < |accounts| ==> RowFor(accounts[i], es) in TrialBalance(accounts, es)
    ensures forall r :: r in TrialBalance(accounts, es) ==>
      exists i :: 0 <= i < |accounts| && r == RowFor(accounts[i], es)
  {
    var report, rows := TrialBalance(accounts, es), AccountRows(accounts, es);
    TrialBalancePermutes(accounts, es);
    SameRowsSameMembers(report, rows);
    forall i | 0 <= i < |accounts| ensures RowFor(accounts[i], es) in report {
      AccountRowsAt(accounts, es, i);
    }
    forall r | r in report ensures exists i :: 0 <= i < |accounts| && r == RowFor(accounts[i], es) {
      var i :| 0 <= i < |rows| && rows[i] == r;
      AccountRowsAt(accounts, es, i);
    }
  }

  /** Two arrangements of the same rows have the same members. */
  lemma SameRowsSameMembers(s: seq<BalanceRow>, t: seq<BalanceRow>)
    requires multiset(s) == multiset(t)
    ensures |s| == |t| && forall r :: r in s <==> r in t
  {
    assert |multiset(s)| == |multiset(t)|;
    forall r ensures r in s <==> r in t {
      assert r in s <==> r in multiset(s);
    }
  }

  /** The report is in `ORDER BY a.code NULLS LAST, a.id` order. */
  lemma TrialBalanceSorted(accounts: seq<Account>, es: seq<Entry>)
    ensures SortedBalanceRows(TrialBalance(accounts, es))
  {
    SortRowsCorrect(Groups(accounts, es));
  }

  lemma UniqueIdsIndex(accounts: seq<Account>, i: int, j: int)
    requires UniqueIds(accounts)
    requires 0 <= i < |accounts| && 0 <= j < |accounts| && accounts[i].id == accounts[j].id
    ensures i == j
  {
  }

  /** Rows that carry the ids of a key, one row per account, are told apart by their key. */
  lemma KeyedRowsDetermined(accounts: seq<Account>, rows: seq<BalanceRow>)
    requires UniqueIds(accounts) && |rows| == |accounts|
    requires forall i :: 0 <= i < |rows| ==> rows[i].accountId == accounts[i].id
    ensures KeyDetermines(multiset(rows))
  {
    forall x: BalanceRow, y: BalanceRow | x in multiset(rows) && y in multiset(rows) && x.Key() == y.Key()
      ensures x == y
    {
      var i :| 0 <= i < |rows| && rows[i] == x;
      var j :| 0 <= j < |rows| && rows[j] == y;
      UniqueIdsIndex(accounts, i, j);
    }
  }

  /** Account ids that are a key make the row key tell the rows apart. */
  lemma UniqueIdsDetermineRows(accounts: seq<Account>, es: seq<Entry>)
    requires UniqueIds(accounts)
    ensures KeyDetermines(multiset(AccountRows(accounts, es)))
  {
    var rows := AccountRows(accounts, es);
    forall i | 0 <= i < |rows| ensures rows[i].accountId == accounts[i].id {
      AccountRowsAt(accounts, es, i);
    }
    KeyedRowsDetermined(accounts, rows);
  }

  /**
   * With `id` a key of `accounts` the order is total: every key-sorted arrangement of
   * the account rows is the report itself, so a fixed ledger yields one fixed output.
   */
  lemma TrialBalanceOrderDetermined(accounts: seq<Account>, es: seq<Entry>, t: seq<BalanceRow>)
    requires UniqueIds(accounts)
    requires SortedBalanceRows(t) && multiset(t) == multiset(AccountRows(accounts, es))
    ensures t == TrialBalance(accounts, es)
  {
    TrialBalancePermutes(accounts, es);
    TrialBalanceSorted(accounts, es);
    UniqueIdsDetermineRows(accounts, es);
    SortedArrangementUnique(t, TrialBalance(accounts, es));
  }

  lemma SameSumsSameRow(a: Account, es1: seq<Entry>, es2: seq<Entry>)
    requires SumWhere(es1, a.id, "debit") == SumWhere(es2, a.id, "debit")
    requires SumWhere(es1, a.id, "credit") == SumWhere(es2, a.id, "credit")
    ensures QueryRowFor(a, es1) == QueryRowFor(a, es2)
  {
    SideTotalIsSum(a, es1, "debit");
    SideTotalIsSum(a, es2, "debit");
    SideTotalIsSum(a, es1, "credit");
    SideTotalIsSum(a, es2, "credit");
    var d, c := SideTotal(a, es1, "debit"), SideTotal(a, es1, "credit");
    assert SideTotal(a, es2, "debit") == d && SideTotal(a, es2, "credit") == c;
    assert QueryRowFor(a, es1) == QueryRowFor(a, es2) == RowOfTotals(a, d, c);
  }

  /** The report depends on the entries only through each account's two filtered sums. */
  lemma SameSumsSameReport(accounts: seq<Account>, es1: seq<Entry>, es2: seq<Entry>)
    requires forall a :: a in accounts ==>
      SumWhere(es1, a.id, "debit") == SumWhere(es2, a.id, "debit") &&
      SumWhere(es1, a.id, "credit") == SumWhere(es2, a.id, "credit")
    ensures TrialBalance(accounts, es1) == TrialBalance(accounts, es2)
  {
    var g1, g2 := Groups(accounts, es1), Groups(accounts, es2);
    forall i | 0 <= i < |accounts| ensures g1[i] == g2[i] {
      SameSumsSameRow(accounts[i], es1, es2);
    }
    assert g1 == g2;
  }

  lemma {:induction false} SumWhereKnown(accounts: seq<Account>, es: seq<Entry>, id: int, pos: string)
    requires id in AccountIds(accounts)
    ensures SumWhere(KnownEntries(accounts, es), id, pos) == SumWhere(es, id, pos)
  {
    if es != [] {
      var init, last := es[..|es| - 1], es[|es| - 1];
      SumWhereKnown(accounts, init, id, pos);
      assert SumWhere(es, id, pos) == SumWhere(init, id, pos) + Contribution(last, id, pos);
      if last.accountId in AccountIds(accounts) {
        assert KnownEntries(accounts, es) == KnownEntries(accounts, init) + [last];
        SumWhereAppend(KnownEntries(accounts, init), last, id, pos);
      } else {
        assert KnownEntries(accounts, es) == KnownEntries(accounts, init);
      }
    }
  }

  /** Entries whose account_id matches no account affect no row. */
  lemma OrphanEntriesIgnored(accounts: seq<Account>, es: seq<Entry>)
    ensures TrialBalance(accounts, KnownEntries(accounts, es)) == TrialBalance(accounts, es)
  {
    forall a | a in accounts
      ensures SumWhere(KnownEntries(accounts, es), a.id, "debit") == SumWhere(es, a.id, "debit")
      ensures SumWhere(KnownEntries(accounts, es), a.id, "credit") == SumWhere(es, a.id, "credit")
    {
      SumWhereKnown(accounts, es, a.id, "debit");
      SumWhereKnown(accounts, es, a.id, "credit");
    }
    SameSumsSameReport(accounts, KnownEntries(accounts, es), es);
  }

  /** An entry posted on a side other than 'debit' or 'credit' changes no total. */
  lemma OtherPositionIgnored(accounts: seq<Account>, es: seq<Entry>, e: Entry)
    requires e.position != "debit" && e.position != "credit"
    ensures TrialBalance(accounts, es + [e]) == TrialBalance(accounts, es)
  {
    forall a | a in accounts
      ensures SumWhere(es + [e], a.id, "debit") == SumWhere(es, a.id, "debit")
      ensures SumWhere(es + [e], a.id, "credit") == SumWhere(es, a.id, "credit")
    {
      SumWhereAppend(es, e, a.id, "debit");
      SumWhereAppend(es, e, a.id, "credit");
    }
    SameSumsSameReport(accounts, es + [e], es);
  }
}
