# Trial balance and journal posting of a small bookkeeping app

This project models the ledger logic of a minimal double-entry bookkeeping web
application (a Next.js app over PostgreSQL) and proves properties of it in Dafny.
It covers three pieces of the API routes:

- `getDbHost` in `pages/api/balances.ts`. It turns the `SQL_CONN` environment
  variable into the host the balance report connects to. The variable is passed
  in as `Option<string>`, with `None` meaning unset. JavaScript's `trim` is
  modelled with the whitespace and line-terminator characters ECMAScript defines.
- The trial-balance query in `pages/api/balances.ts`, evaluated clause by clause:
  the `LEFT JOIN` (an account with no entries gets one NULL-padded row), the
  `CASE` column, `SUM` (which skips NULLs and is NULL when nothing is left),
  `COALESCE`, `GROUP BY` and `ORDER BY a.code NULLS LAST, a.id`. Then comes the
  `rows.map` step that turns NULL totals into 0. Amounts are exact `real`
  numbers, like NUMERIC. For the totals there is a separate reference
  definition, `SumWhere`: the plain filtered sum of an account's amounts on one
  side. The lemmas connect the two.
- The POST handler of `pages/api/journal.ts`. `JournalStore` is a class that
  holds the `accounts` and `journals` tables. `Post` runs the handler's steps in
  order: the method check, the two name lookups, the 400 rejection, and the
  single insert. A pure function, `Respond`, specifies what `Post` returns.
  Because `pg` sends every parameter as text, and `null`/`undefined` as NULL,
  each request field is an `Option<string>`. The body itself is `None` when
  the parsed JSON is `null`, which the handler cannot destructure. An empty
  body parses to `{}` or `""`, whose fields are all undefined. It is
  `Some(Body(None, None, None, None, None))`, and the handler rejects it with 400.

Modules: `Wrappers` (Option), `JsText` (trim, startsWith), `DbHost`, `Ledger`
(table rows), `SqlOrder` (text order and the sort key), `Balances` (the query
and the mapping), `BalanceSort` (the sort), `BalanceProperties` (what the
report promises), `LedgerScenario` (a worked two-account ledger) and `Journal`.

Three points about the code are worth stating plainly:

- A `SQL_CONN` value containing `:` (and not starting with `/`) gets
  `/cloudsql/` put in front of it. A `host:port` value is therefore not used
  as a TCP host. Any value without a `:` is used as it is.
- A posting inserts a single `journals` row holding both account ids. No field
  is validated: the amount may be zero or negative, and the two accounts may be
  the same.
- Posting writes `journals`, while the report reads `journal_entries`. No
  property here links the two routes.

## Model

| member | source | states |
|---|---|---|
| `DbHost.GetDbHost` | pages/api/balances.ts:7-12 | an unset variable gives "localhost"; the host never starts or ends with a trimmable character; the host is a socket path (starts with "/") or contains no ':' |
| `DbHost.GetDbHostCases` | pages/api/balances.ts:8-11 | on the trimmed value: one starting with "/" is returned as it is; one containing ':' (and not starting with "/") becomes "/cloudsql/" + value; any other is returned as it is |
| `DbHost.GetDbHostChangesOnlyColonValues` | pages/api/balances.ts:9-11 | the host differs from the trimmed value exactly when that value does not start with "/" and contains ':' |
| `DbHost.CloudSqlTestRedundant` | pages/api/balances.ts:9 | the `startsWith('/cloudsql')` test is implied by the `startsWith('/')` test |
| `DbHost.BlankVariableGivesEmptyHost` | pages/api/balances.ts:8 | a variable that is set but holds only whitespace gives the empty host, not "localhost" (`??` only replaces a missing value) |
| `DbHost.PrefixedKeepsShape` | pages/api/balances.ts:10 | "/cloudsql/" + a non-empty trimmed value is trimmed and starts with "/" |
| `DbHost.GetDbHostIdempotent` | pages/api/balances.ts:8-11 | applying the rule to its own result gives that result again |
| `JsText.TrimStart` | pages/api/balances.ts:8 | the result is a suffix of the input; everything dropped is trimmable; the result does not start with a trimmable character |
| `JsText.TrimEnd` | pages/api/balances.ts:8 | the result is a prefix of the input; everything dropped is trimmable; the result does not end with a trimmable character |
| `JsText.Trim` | pages/api/balances.ts:8 | neither end of the result is trimmable |
| `JsText.TrimIsSlice` | pages/api/balances.ts:8 | the trimmed value is one contiguous slice of the input |
| `JsText.TrimDropsTrimmable` | pages/api/balances.ts:8 | every character before and after that slice is trimmable |
| `JsText.TrimKeepsTrimmed` | pages/api/balances.ts:8 | trimming a value whose ends are not trimmable returns it unchanged |
| `JsText.TrimIdempotent` | pages/api/balances.ts:8 | trimming twice is the same as trimming once |
| `SqlOrder.TextLess` | pages/api/balances.ts:80 | the code-point order on codes. `TextLessIrreflexive`, `TextLessTransitive`, `TextLessTotal` and `TextLessAsymmetric` make it a strict total order |
| `SqlOrder.KeyLe` | pages/api/balances.ts:80 | `ORDER BY a.code NULLS LAST, a.id`. `KeyLeTotal`, `KeyLeTransitive` and `KeyLeAntisymmetric` make it a total order on keys |
| `SqlOrder.TextLessIrreflexive` | pages/api/balances.ts:80 | no code sorts strictly before itself |
| `SqlOrder.TextLessTransitive` | pages/api/balances.ts:80 | the text order is transitive |
| `SqlOrder.TextLessTotal` | pages/api/balances.ts:80 | of two different codes, one sorts before the other |
| `SqlOrder.TextLessAsymmetric` | pages/api/balances.ts:80 | two codes never sort before each other |
| `SqlOrder.KeyLeTotal` | pages/api/balances.ts:80 | any two (code NULLS LAST, id) keys are comparable |
| `SqlOrder.KeyLeTransitive` | pages/api/balances.ts:80 | the key order is transitive |
| `SqlOrder.KeyLeAntisymmetric` | pages/api/balances.ts:80 | two keys that sort no later than each other have equal code and id |
| `Balances.EntriesOf` | pages/api/balances.ts:78 | the entries joined to an account are those whose account_id equals its id, each with as many copies as it has in the table |
| `Balances.LeftJoin` | pages/api/balances.ts:77-78 | every account gets at least one joined row; it gets the single NULL-padded row exactly when no entry has its id |
| `Balances.SqlSum` | pages/api/balances.ts:58-59 | SUM is NULL exactly when every input is NULL |
| `Balances.TrialBalance` | pages/api/balances.ts:51-92 | one row per account. The report's content is specified by `OneRowPerAccount`, `TrialBalanceSorted`, `TrialBalanceOrderDetermined`, `OrphanEntriesIgnored`, `OtherPositionIgnored` and `NullDefaultsUnused` |
| `Balances.Query` | pages/api/balances.ts:51-80 | one row per account: the grouped rows in ORDER BY order, as `SortRowsCorrect` and `TrialBalancePermutes` state |
| `Balances.Groups` | pages/api/balances.ts:79 | one group per account row, in table order. `AccountRowsAt` and `OneRowPerAccount` state what GROUP BY promises: every account, idle ones included, appears exactly once with its own row |
| `Balances.InsertRow` | pages/api/balances.ts:80 | adds exactly one row. `InsertRowPermutes` and `InsertRowSorted` state that it adds that row and keeps the order |
| `Balances.SortRows` | pages/api/balances.ts:80 | keeps the number of rows. `SortRowsCorrect` states that the result is sorted and a permutation |
| `Balances.QueryRowFor` | pages/api/balances.ts:53-76 | the row is keyed by the account's code and id. Its columns come from `RowOfTotals` applied to the two side totals, and `RowCopiesAccount`, `RowTotals`, `RowRawBalance`, `RowBalancePosition` and `RowHomeSignedBalance` specify them |
| `Balances.MapRows` | pages/api/balances.ts:86 | maps the query rows element by element into a new sequence of the same length. `MapRowsPermutes` and `NullDefaultsUnused` specify the result |
| `Balances.MapRow` | pages/api/balances.ts:86-92 | the mapping keeps the code and the account id that the rows are sorted by |
| `Balances.KnownEntries` | pages/api/balances.ts:77-78 | the entries whose account_id is the id of some account are kept, each with as many copies as it has in the table, and no others |
| `BalanceSort.InsertRowPermutes` | pages/api/balances.ts:80 | inserting a row adds exactly that row to the multiset |
| `BalanceSort.InsertRowSorted` | pages/api/balances.ts:80 | inserting into sorted rows keeps them sorted |
| `BalanceSort.SortRowsCorrect` | pages/api/balances.ts:80 | ORDER BY returns a permutation of the grouped rows, sorted by code (NULLs last) and then id |
| `BalanceSort.MapRowsPermutes` | pages/api/balances.ts:86 | mapping two rearrangements of the same rows gives rearrangements of the same mapped rows |
| `BalanceSort.SortedArrangementsStartAlike` | pages/api/balances.ts:80 | two sorted arrangements of the same rows, told apart by key, start with the same row |
| `BalanceSort.SortedArrangementUnique` | pages/api/balances.ts:80 | two sorted arrangements of the same rows, told apart by key, are equal |
| `BalanceProperties.SumWhereAppend` | pages/api/balances.ts:58-59 | one more entry adds exactly its own contribution to a filtered sum |
| `BalanceProperties.SumWhereOfEntriesOf` | pages/api/balances.ts:78 | an account's sums depend only on the entries joined to it |
| `BalanceProperties.SumWhereNone` | pages/api/balances.ts:58-59 | an account with no entries has sum 0 on each side |
| `BalanceProperties.SqlSumOfEntries` | pages/api/balances.ts:58-59 | SUM over the CASE column of an account's entries is the filtered sum of their amounts |
| `BalanceProperties.SideTotalIsSum` | pages/api/balances.ts:58-59 | COALESCE(SUM(CASE ...), 0) over the left join equals the sum of the account's amounts on that side, and is 0 when there are none |
| `BalanceProperties.RowCopiesAccount` | pages/api/balances.ts:53-57 | the row carries the account's id, code, name, type and home_position |
| `BalanceProperties.RowTotals` | pages/api/balances.ts:58-59 | debit_total and credit_total are the filtered sums over the account's 'debit' and 'credit' entries |
| `BalanceProperties.RowRawBalance` | pages/api/balances.ts:61-63 | raw_balance = debit_total − credit_total |
| `BalanceProperties.RowBalancePosition` | pages/api/balances.ts:64-67 | balance_position is 'debit' exactly when debit_total ≥ credit_total (a tie gives 'debit'), and 'credit' exactly otherwise |
| `BalanceProperties.RowHomeSignedBalance` | pages/api/balances.ts:69-76 | home_signed_balance is raw_balance when home_position = 'debit', credit_total − debit_total = −raw_balance otherwise, so |home_signed_balance| = |raw_balance| |
| `BalanceProperties.IdleAccountRow` | pages/api/balances.ts:77-79 | an account with no entries has all totals and balances 0, and balance_position 'debit' |
| `BalanceProperties.AppendedEntryAdds` | pages/api/balances.ts:58-59 | one more entry raises its own account's total on its own side by its amount, and changes no other total |
| `BalanceProperties.NullDefaultsUnused` | pages/api/balances.ts:86-92 | the query never returns a NULL total, so the null-to-0 mapping changes no value |
| `BalanceProperties.TrialBalancePermutes` | pages/api/balances.ts:77-80 | the report is a permutation of the per-account rows |
| `BalanceProperties.AccountRowsAt` | pages/api/balances.ts:79 | per-account row i is account i's row and carries its id |
| `BalanceProperties.OneRowPerAccount` | pages/api/balances.ts:77-79 | the report has exactly one row per account row, including accounts with no entries, and every row is some account's row |
| `BalanceProperties.TrialBalanceSorted` | pages/api/balances.ts:80 | the report is sorted by code with NULLs last, then by id |
| `BalanceProperties.UniqueIdsIndex` | pages/api/balances.ts:79 | when ids are a key, equal ids mean the same account row |
| `BalanceProperties.KeyedRowsDetermined` | pages/api/balances.ts:79-80 | rows carrying the ids of a key, one row per account, are told apart by their sort key |
| `BalanceProperties.UniqueIdsDetermineRows` | pages/api/balances.ts:79-80 | when ids are a key, no two different report rows share a sort key |
| `BalanceProperties.TrialBalanceOrderDetermined` | pages/api/balances.ts:80 | when ids are a key, the only sorted arrangement of the account rows is the report, so a fixed ledger has one output |
| `BalanceProperties.SameSumsSameRow` | pages/api/balances.ts:58-76 | an account's row depends on the entries only through its two side sums |
| `BalanceProperties.SameSumsSameReport` | pages/api/balances.ts:51-92 | the report depends on the entries only through each account's two side sums |
| `BalanceProperties.SumWhereKnown` | pages/api/balances.ts:78 | dropping entries of unknown accounts leaves a known account's sums unchanged |
| `BalanceProperties.OrphanEntriesIgnored` | pages/api/balances.ts:77-78 | entries whose account_id matches no account change no row of the report |
| `BalanceProperties.OtherPositionIgnored` | pages/api/balances.ts:58-59 | an entry whose position is neither 'debit' nor 'credit' changes nothing in the report |
| `LedgerScenario.SaleSums` | pages/api/balances.ts:58-59 | for a sale of 1000, cash sums to 1000 on the debit side and sales to 1000 on the credit side |
| `LedgerScenario.SaleRows` | pages/api/balances.ts:53-76 | cash shows debit 1000, raw 1000, home-signed 1000; sales shows credit 1000, raw −1000, home-signed 1000 |
| `LedgerScenario.SaleQuery` | pages/api/balances.ts:80 | the account coded "101" is listed before the one coded "401" |
| `LedgerScenario.SaleReport` | pages/api/balances.ts:51-92 | the whole report for that ledger, row by row |
| `Journal.Named` | pages/api/journal.ts:25-27 | `name = $1` on one account row. It is never true for a NULL name, which `IdsNamed` states for the lookup |
| `Journal.Resolves` | pages/api/journal.ts:29-31 | some account row has the name. `Respond` gives 400 exactly when this fails for either name |
| `Journal.IdsNamed` | pages/api/journal.ts:25-27 | the lookup is empty exactly when no account has the name (always for a NULL name); every id is that of a named account; the first id is that of the first named account row |
| `Journal.Respond` | pages/api/journal.ts:12-47 | 405 exactly for a non-POST method; 500 exactly for a POST whose body is `null` (destructuring throws before the `try`); 400 exactly when a name does not resolve; 200 with a row exactly when both resolve; the row carries the request's date, amount and description and the ids of accounts with the two names |
| `Journal.JournalStore.Post` | pages/api/journal.ts:12-47 | returns what `Respond` specifies; appends exactly the returned row to `journals` on success and changes nothing otherwise, the 405 and null-body 500 answers included; never changes `accounts`; every journal row keeps naming existing accounts |
| `Journal.EmptyBodyRejected` | pages/api/journal.ts:17-31 | a POST whose body has no fields (an empty body) is answered 400 and carries no row |
| `Journal.PostedIdsAreFirstMatches` | pages/api/journal.ts:33-34 | on success the row's two ids are those of the first account row with each name |
| `Journal.NoFieldValidation` | pages/api/journal.ts:17 | the status does not depend on date, amount or description, so none of them is validated |
| `Journal.SameAccountBothSides` | pages/api/journal.ts:25-34 | a request naming one existing account on both sides succeeds, with equal debit and credit ids |

## Left out

- Connection handling (`withClient`, `connect`/`end`, `connectionTimeoutMillis`), logging and the HTTP response objects: I/O only.
- The 500 paths taken when the database throws, for instance on a date or amount text it cannot coerce: these are failures of a foreign system. The null-body 500 is modelled.
- The `pg` NUMERIC parser and `Number(...)` (floating point): amounts stay exact, and only the null-to-0 rule is modelled.
- The GET-only check of the balance route (405 for other methods): part of the I/O handler.
- The host rule at the top of `pages/api/journal.ts` (`/cloudsql/${SQL_CONN}`, with no trim and no default): connection configuration, and it is not `getDbHost`.
- The texts sent for date and amount are kept as they are in `JournalRow`. The database stores, and `RETURNING *` returns, the values it coerces them to: a DATE, which `pg` hands back as a JavaScript `Date`, and a NUMERIC. `Journal.Respond` states that the row carries the request's date and amount only up to that coercion.
- `RETURNING *` also returns columns the insert does not name, such as a generated id. The model's row holds only the five inserted columns.
- Text order follows code points (PostgreSQL's "C" collation). Orders that depend on a locale are not modelled.
- A NULL `position` or `home_position` is represented as a string other than 'debit' and 'credit', which gives the same result here. `journal_entries.amount`, `accounts.name` and `accounts.type` are taken to be NOT NULL. An account with a NULL name, which `name = $1` never matches, cannot be represented.
- `GROUP BY` is modelled as one group per account row. This is what PostgreSQL does when `id` is a key of `accounts`. Two identical account rows would instead merge into one group. That group joins every matching entry once per duplicate row, so its sums would be multiplied by the number of duplicates.
- `Journal.IdsNamed`: for `rows[0]` it uses the first matching row in table order. SQL without `ORDER BY` does not fix an order.
- `Journal.JournalStore.Post`: for a non-POST request it states that nothing changes. It cannot state that no table is read.
- `pages/index.tsx`, `pages/api/health.ts` and `next.config.ts`: UI, a connectivity probe and build settings, not ledger logic.
