/**
 * A two-account ledger: cash (a debit-home asset) and sales (a credit-home revenue
 * account), with one sale of 1000 posted as a debit line and a credit line.
 */
module LedgerScenario {
  import opened Wrappers
  import opened Ledger
  import opened SqlOrder
  import opened Balances
  import opened BalanceProperties

  const Cash: Account := Account(1, Some("101"), "現金", "asset", "debit")
  const Sales: Account := Account(2, Some("401"), "売上", "revenue", "credit")
  const Sale: seq<Entry> := [Entry(1, 1000.0, "debit"), Entry(2, 1000.0, "credit")]

  lemma SaleSums()
    ensures SumWhere(Sale, 1, "debit") == 1000.0 && SumWhere(Sale, 1, "credit") == 0.0
    ensures SumWhere(Sale, 2, "debit") == 0.0 && SumWhere(Sale, 2, "credit") == 1000.0
  {
    assert Sale[..1] == [Sale[0]] && [Sale[0]][..0] == [];
  }

  lemma SaleRows()
    ensures RowFor(Cash, Sale) ==
      BalanceRow(1, Some("101"), "現金", "asset", "debit", 1000.0, 0.0, 1000.0, "debit", 1000.0)
    ensures RowFor(Sales, Sale) ==
      BalanceRow(2, Some("401"), "売上", "revenue", "credit", 0.0, 1000.0, -1000.0, "credit", 1000.0)
  {
    SaleSums();
    RowTotals(Cash, Sale);
    RowTotals(Sales, Sale);
  }

  /** Two rows out of key order come back swapped. */
  lemma SortTwo(x: QueryRow, y: QueryRow)
    requires !KeyLe(x.Key(), y.Key())
    ensures SortRows([x, y]) == [y, x]
  {
    assert [x, y][1..] == [y] && [y][1..] == [];
    assert SortRows([y]) == InsertRow(y, []) == [y];
    assert InsertRow(x, [y]) == [y] + InsertRow(x, []);
  }

  lemma MapTwo(x: QueryRow, y: QueryRow)
    ensures MapRows([x, y]) == [MapRow(x), MapRow(y)]
  {
  }

  lemma TwoGroups(a: Account, b: Account, es: seq<Entry>)
    ensures Groups([a, b], es) == [QueryRowFor(a, es), QueryRowFor(b, es)]
  {
    var accounts := [a, b];
    assert accounts[0] == a && accounts[1] == b;
    PairOf(Groups(accounts, es), QueryRowFor(a, es), QueryRowFor(b, es));
  }

  /**
   * A sequence fact kept apart on purpose: stated on plain row variables, it keeps the
   * solver from unfolding `QueryRowFor` while it proves the equality in `TwoGroups`.
   */
  lemma PairOf(g: seq<QueryRow>, x: QueryRow, y: QueryRow)
    requires |g| == 2 && g[0] == x && g[1] == y
    ensures g == [x, y]
  {
  }

  /** Two accounts out of key order come out of the query swapped. */
  lemma TwoAccountQuery(a: Account, b: Account, es: seq<Entry>)
    requires !KeyLe(SortKey(a.code, a.id), SortKey(b.code, b.id))
    ensures Query([a, b], es) == [QueryRowFor(b, es), QueryRowFor(a, es)]
  {
    TwoGroups(a, b, es);
    SortTwo(QueryRowFor(a, es), QueryRowFor(b, es));
  }

  lemma CodeOrder()
    ensures !KeyLe(SortKey(Some("401"), 2), SortKey(Some("101"), 1))
  {
    assert "401"[0] == '4' && "101"[0] == '1';
  }

  /** ORDER BY puts cash (code "101") before sales (code "401"). */
  lemma SaleQuery()
    ensures Query([Sales, Cash], Sale) == [QueryRowFor(Cash, Sale), QueryRowFor(Sales, Sale)]
  {
    CodeOrder();
    TwoAccountQuery(Sales, Cash, Sale);
  }

  /** Both accounts show 1000 on their home side, and sales is listed after cash. */
  lemma SaleReport()
    ensures TrialBalance([Sales, Cash], Sale) == [
      BalanceRow(1, Some("101"), "現金", "asset", "debit", 1000.0, 0.0, 1000.0, "debit", 1000.0),
      BalanceRow(2, Some("401"), "売上", "revenue", "credit", 0.0, 1000.0, -1000.0, "credit", 1000.0)]
  {
    SaleQuery();
    MapTwo(QueryRowFor(Cash, Sale), QueryRowFor(Sales, Sale));
    assert TrialBalance([Sales, Cash], Sale) == [RowFor(Cash, Sale), RowFor(Sales, Sale)];
    SaleRows();
  }
}
