/** Rows of the two ledger tables that the API routes read. */
module Ledger {
  import opened Wrappers

  /**
   * A row of `accounts`. `code` may be NULL. `homePosition` is the side on which
   * the account's balance counts as positive; the report only compares it with 'debit'.
   */
  datatype Account = Account(id: int, code: Option<string>, name: string, accountType: string, homePosition: string)

  /**
   * A row of `journal_entries`: the account it belongs to, an exact NUMERIC amount
   * and the side it is posted on. The report only compares `position` with 'debit' and 'credit'.
   */
  datatype Entry = Entry(accountId: int, amount: real, position: string)

  /** The ids present in `accounts`. */
  function AccountIds(accounts: seq<Account>): set<int> {
    set a | a in accounts :: a.id
  }

  /** `id` is a key of `accounts`: no two rows share an id. */
  predicate UniqueIds(accounts: seq<Account>) {
    forall i, j :: 0 <= i < j < |accounts| ==> accounts[i].id != accounts[j].id
  }
}
