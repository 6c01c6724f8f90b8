/**
 * The trial balance of pages/api/balances.ts: the SQL query over `accounts` and
 * `journal_entries`, clause by clause, and the mapping that turns NULL totals into 0.
 * Amounts are exact (`real`), as NUMERIC is in the database.
 */
module Balances {
  import opened Wrappers
  import opened Ledger
  import opened SqlOrder

  /** A row as the query returns it; the numeric columns may in principle be NULL. */
  datatype QueryRow = QueryRow(
    accountId: int, code: Option<string>, accountName: string, accountType: string, homePosition: string,
    debitTotal: Option<real>, creditTotal: Option<real>, rawBalance: Option<real>,
    balancePosition: string, homeSignedBalance: Option<real>)
  {
    function Key(): SortKey { SortKey(code, accountId) }
  }

  /** A row of the report, after NULL totals have been replaced by 0. */
  datatype BalanceRow = BalanceRow(
    accountId: int, code: Option<string>, accountName: string, accountType: string, homePosition: string,
    debitTotal: real, creditTotal: real, rawBalance: real,
    balancePosition: string, homeSignedBalance: real)
  {
    function Key(): SortKey { SortKey(code, accountId) }
  }

  // ---------------------------------------------------------------------------
  // Reference definition: the filtered sum the report is meant to compute.

  /** What entry `e` adds to the `pos` side of account `id`. */
  function Contribution(e: Entry, id: int, pos: string): real {
    if e.accountId == id && e.position == pos then e.amount else 0.0
  }

  /** The sum of the amounts of the entries of account `id` posted on side `pos`. */
  function SumWhere(es: seq<Entry>, id: int, pos: string): real {
    if es == [] then 0.0
    else SumWhere(es[..|es| - 1], id, pos) + Contribution(es[|es| - 1], id, pos)
  }

  // ---------------------------------------------------------------------------
  // The query, as PostgreSQL evaluates it.

  /** The entries that `je.account_id = a.id` pairs with account `id`, in table order. */
  function EntriesOf(es: seq<Entry>, id: int): (m: seq<Entry>)
    ensures forall e :: e in m ==> e in es && e.accountId == id
    ensures forall e :: e in es && e.accountId == id ==> e in m
    ensures forall e :: multiset(m)[e] == if e.accountId == id then multiset(es)[e] else 0
  {
    if es == [] then []
    else
      assert es == es[..|es| - 1] + [es[|es| - 1]];
      EntriesOf(es[..|es| - 1], id) + (if es[|es| - 1].accountId == id then [es[|es| - 1]] else [])
  }

  /** Each entry as the `je` half of a joined row. */
  function Lift(m: seq<Entry>): (js: seq<Option<Entry>>)
    ensures |js| == |m| && forall i :: 0 <= i < |m| ==> js[i] == Some(m[i])
  {
    seq(|m|, i requires 0 <= i < |m| => Some(m[i]))
  }

  /**
   * The rows `accounts a LEFT JOIN journal_entries je ON je.account_id = a.id`
   * gives account `a`: one per matching entry, or one whose `je` columns are NULL.
   */
  function LeftJoin(a: Account, es: seq<Entry>): (js: seq<Option<Entry>>)
    ensures js != []
    ensures js == [None] <==> forall e :: e in es ==> e.accountId != a.id
  {
    var m := EntriesOf(es, a.id);
    if m == [] then [None]
    else
      assert m[0] in es;
      Lift(m)
  }

  /** `CASE WHEN je.position = pos THEN je.amount ELSE 0 END`; a NULL position is not equal to `pos`. */
  function CaseAmount(j: Option<Entry>, pos: string): Option<real> {
    match j
    case Some(e) => if e.position == pos then Some(e.amount) else Some(0.0)
    case None => Some(0.0)
  }

  /** The CASE expression evaluated on every joined row of a group. */
  function CaseColumn(js: seq<Option<Entry>>, pos: string): (xs: seq<Option<real>>)
    ensures |xs| == |js| && forall i :: 0 <= i < |js| ==> xs[i] == CaseAmount(js[i], pos)
  {
    seq(|js|, i requires 0 <= i < |js| => CaseAmount(js[i], pos))
  }

  /** `SUM`: the total of the non-NULL inputs, NULL when there is none. */
  function SqlSum(xs: seq<Option<real>>): (r: Option<real>)
    ensures r.None? <==> forall i :: 0 <= i < |xs| ==> xs[i].None?
  {
    if xs == [] then None
    else
      var rest := SqlSum(xs[..|xs| - 1]);
      match xs[|xs| - 1]
      case None => rest
      case Some(v) => Some(rest.GetOr(0.0) + v)
  }

  /** `COALESCE(x, fallback)`. */
  function Coalesce(x: Option<real>, fallback: real): real {
    x.GetOr(fallback)
  }

  /** `COALESCE(SUM(CASE WHEN je.position = pos THEN je.amount ELSE 0 END), 0)` for account `a`. */
  function SideTotal(a: Account, es: seq<Entry>, pos: string): real {
    Coalesce(SqlSum(CaseColumn(LeftJoin(a, es), pos)), 0.0)
  }

  /** The select list evaluated on account `a`'s group. */
  function QueryRowFor(a: Account, es: seq<Entry>): (r: QueryRow)
    ensures r.Key() == SortKey(a.code, a.id)
  {
    RowOfTotals(a, SideTotal(a, es, "debit"), SideTotal(a, es, "credit"))
  }

  /** The select list once the group's two totals are known. */
  function RowOfTotals(a: Account, debit: real, credit: real): QueryRow {
    QueryRow(a.id, a.code, a.name, a.accountType, a.homePosition,
             Some(debit), Some(credit), Some(debit - credit),
             if debit >= credit then "debit" else "credit",
             Some(if a.homePosition == "debit" then debit - credit else credit - debit))
  }

  /** `GROUP BY a.id, a.code, a.name, a.type, a.home_position`: one group per account row, in table order. */
  function Groups(accounts: seq<Account>, es: seq<Entry>): (rows: seq<QueryRow>)
    ensures |rows| == |accounts|
    ensures forall i :: 0 <= i < |accounts| ==> rows[i] == QueryRowFor(accounts[i], es)
  {
    seq(|accounts|, i requires 0 <= i < |accounts| => QueryRowFor(accounts[i], es))
  }

  /** Rows in `ORDER BY a.code NULLS LAST, a.id` order. */
  predicate SortedQueryRows(s: seq<QueryRow>) {
    forall i, j :: 0 <= i < j < |s| ==> KeyLe(s[i].Key(), s[j].Key())
  }

  /** `x` placed before the first row of `s` it may precede. */
  function InsertRow(x: QueryRow, s: seq<QueryRow>): (r: seq<QueryRow>)
    ensures |r| == |s| + 1
  {
    if s == [] then [x]
    else if KeyLe(x.Key(), s[0].Key()) then [x] + s
    else [s[0]] + InsertRow(x, s[1..])
  }

  /** The groups put in ORDER BY order. */
  function SortRows(s: seq<QueryRow>): (r: seq<QueryRow>)
    ensures |r| == |s|
  {
    if s == [] then [] else InsertRow(s[0], SortRows(s[1..]))
  }

  /** The rows the query returns. */
  function Query(accounts: seq<Account>, es: seq<Entry>): (rows: seq<QueryRow>)
    ensures |rows| == |accounts|
  {
    SortRows(Groups(accounts, es))
  }

  // ---------------------------------------------------------------------------
  // The `rows.map` null-to-0 mapping and the report.

  /** `row.x === null ? 0 : Number(row.x)`, on exact amounts. */
  function NullToZero(x: Option<real>): real {
    if x.None? then 0.0 else x.value
  }

  /** One query row as the route returns it; the other columns are passed through. */
  function MapRow(q: QueryRow): (r: BalanceRow)
    ensures r.Key() == q.Key()
  {
    BalanceRow(q.accountId, q.code, q.accountName, q.accountType, q.homePosition,
               NullToZero(q.debitTotal), NullToZero(q.creditTotal), NullToZero(q.rawBalance),
               q.balancePosition, NullToZero(q.homeSignedBalance))
  }

  /** `rows.map(...)`. */
  function MapRows(s: seq<QueryRow>): (r: seq<BalanceRow>)
    ensures |r| == |s| && forall i :: 0 <= i < |s| ==> r[i] == MapRow(s[i])
  {
    seq(|s|, i requires 0 <= i < |s| => MapRow(s[i]))
  }

  /** The trial balance the GET route returns for a ledger. */
  function TrialBalance(accounts: seq<Account>, es: seq<Entry>): (rows: seq<BalanceRow>)
    ensures |rows| == |accounts|
  {
    MapRows(Query(accounts, es))
  }

  /** The report row of account `a`. */
  function RowFor(a: Account, es: seq<Entry>): BalanceRow {
    MapRow(QueryRowFor(a, es))
  }

  /** One report row per account, in table order, before sorting. */
  function AccountRows(accounts: seq<Account>, es: seq<Entry>): seq<BalanceRow> {
    MapRows(Groups(accounts, es))
  }

  /** Report rows in ORDER BY order. */
  predicate SortedBalanceRows(s: seq<BalanceRow>) {
    forall i, j :: 0 <= i < j < |s| ==> KeyLe(s[i].Key(), s[j].Key())
  }

  /** The entries whose account exists: the only ones the join can pair with an account. */
  function KnownEntries(accounts: seq<Account>, es: seq<Entry>): (r: seq<Entry>)
    ensures forall e :: e in r <==> e in es && e.accountId in AccountIds(accounts)
    ensures forall e :: multiset(r)[e] == if e.accountId in AccountIds(accounts) then multiset(es)[e] else 0
  {
    if es == [] then []
    else
      var last := es[|es| - 1];
      assert es == es[..|es| - 1] + [last];
      KnownEntries(accounts, es[..|es| - 1]) + (if last.accountId in AccountIds(accounts) then [last] else [])
  }

  function Abs(x: real): real {
    if x < 0.0 then -x else x
  }
}
