/**
 * The POST route of pages/api/journal.ts: it resolves the debit and credit account
 * names against `accounts` and inserts one row into `journals`.
 * `pg` sends every query parameter as text, and a JavaScript `null` or `undefined`
 * as SQL NULL, so each body field is the text sent for it, or `None`.
 */
module Journal {
  import opened Wrappers
  import opened Ledger

  datatype Body = Body(
    date: Option<string>, debitName: Option<string>, creditName: Option<string>,
    amount: Option<string>, description: Option<string>)

  /**
   * `body` is `None` when the parsed JSON body is `null`. An empty body parses to `{}` or `""`,
   * whose fields are all undefined: `Some(Body(None, None, None, None, None))`. Destructuring `null`
   * throws before the handler's `try`, and Next.js answers 500.
   */
  datatype Request = Request(httpMethod: string, body: Option<Body>)

  /** The columns the INSERT names; the database coerces the texts to the column types. */
  datatype JournalRow = JournalRow(
    date: Option<string>, debitAccountId: int, creditAccountId: int,
    amount: Option<string>, description: Option<string>)

  /** The status code and, on success, the inserted row that the response carries. */
  datatype Response = Response(status: int, journal: Option<JournalRow>)

  /** `name = $1` holds for this account; it is never true when the parameter is NULL. */
  predicate Named(a: Account, name: Option<string>) {
    name.Some? && a.name == name.value
  }

  /** `SELECT id FROM accounts WHERE name = $1`, rows in table order. */
  function IdsNamed(accounts: seq<Account>, name: Option<string>): (ids: seq<int>)
    ensures |ids| <= |accounts|
    ensures ids == [] <==> forall a :: a in accounts ==> !Named(a, name)
    ensures forall id :: id in ids ==> exists a :: a in accounts && Named(a, name) && a.id == id
    ensures forall k ::
      (0 <= k < |accounts| && Named(accounts[k], name) && forall j :: 0 <= j < k ==> !Named(accounts[j], name))
      ==> ids != [] && ids[0] == accounts[k].id
  {
    if accounts == [] then []
    else
      var rest := IdsNamed(accounts[1..], name);
      assert forall a :: a in accounts[1..] ==> a in accounts;
      if Named(accounts[0], name) then [accounts[0].id] + rest
      else
        assert forall k :: 1 <= k < |accounts| ==> accounts[k] == accounts[1..][k - 1];
        rest
  }

  /** Some account answers to `name`. */
  predicate Resolves(accounts: seq<Account>, name: Option<string>) {
    exists a :: a in accounts && Named(a, name)
  }

  /** What the handler answers for `req` against `accounts`, and the row it inserts if any. */
  function Respond(accounts: seq<Account>, req: Request): (r: Response)
    ensures r.status == 405 <==> req.httpMethod != "POST"
    ensures r.status == 500 <==> req.httpMethod == "POST" && req.body.None?
    ensures r.status == 400 <==>
      (req.httpMethod == "POST" && req.body.Some? &&
       (!Resolves(accounts, req.body.value.debitName) || !Resolves(accounts, req.body.value.creditName)))
    ensures r.status == 200 <==>
      (req.httpMethod == "POST" && req.body.Some? &&
       Resolves(accounts, req.body.value.debitName) && Resolves(accounts, req.body.value.creditName))
    ensures r.journal.Some? <==> r.status == 200
    ensures r.journal.Some? ==>
      req.body.Some? &&
      r.journal.value.date == req.body.value.date &&
      r.journal.value.amount == req.body.value.amount &&
      r.journal.value.description == req.body.value.description &&
      (exists a :: a in accounts && Named(a, req.body.value.debitName) && a.id == r.journal.value.debitAccountId) &&
      (exists a :: a in accounts && Named(a, req.body.value.creditName) && a.id == r.journal.value.creditAccountId)
  {
    if req.httpMethod != "POST" then Response(405, None)
    else if req.body.None? then Response(500, None)
    else
      var b := req.body.value;
      var debitIds := IdsNamed(accounts, b.debitName);
      var creditIds := IdsNamed(accounts, b.creditName);
      if |debitIds| == 0 || |creditIds| == 0 then Response(400, None)
      else
        assert debitIds[0] in debitIds && creditIds[0] in creditIds;
        Response(200, Some(JournalRow(b.date, debitIds[0], creditIds[0], b.amount, b.description)))
  }

  /** The store the route talks to: the two tables it reads or writes. */
  class JournalStore {
    var accounts: seq<Account>
    var journals: seq<JournalRow>

    /**
     * Every journal row names two existing accounts, as the foreign keys of `journals` demand.
     * The constructor takes the tables as they are and does not establish this; it is an
     * invariant that `Post` preserves whenever it already holds.
     */
    ghost predicate ReferencesAccounts()
      reads this
    {
      forall row :: row in journals ==>
        row.debitAccountId in AccountIds(accounts) && row.creditAccountId in AccountIds(accounts)
    }

    constructor (accounts: seq<Account>, journals: seq<JournalRow>)
      ensures this.accounts == accounts && this.journals == journals
    {
      this.accounts := accounts;
      this.journals := journals;
    }

    /**
     * Handles one request: anything but POST is refused with 405; a null body fails
     * with 500 before any table is touched; a debit or credit
     * name that matches no account is refused with 400; otherwise exactly one row is
     * appended to `journals` and returned with 200. `accounts` never changes.
     */
    method Post(req: Request) returns (status: int, journal: Option<JournalRow>)
      modifies this`journals
      ensures Response(status, journal) == Respond(accounts, req)
      ensures journal.None? ==> journals == old(journals)
      ensures journal.Some? ==> journals == old(journals) + [journal.value]
      ensures old(ReferencesAccounts()) ==> ReferencesAccounts()
    {
      if req.httpMethod != "POST" {
        return 405, None;
      }
      if req.body.None? {
        return 500, None;
      }
      var b := req.body.value;
      var debitIds := IdsNamed(accounts, b.debitName);
      var creditIds := IdsNamed(accounts, b.creditName);
      if |debitIds| == 0 || |creditIds| == 0 {
        return 400, None;
      }
      var row := JournalRow(b.date, debitIds[0], creditIds[0], b.amount, b.description);
      assert debitIds[0] in debitIds && creditIds[0] in creditIds;
      journals := journals + [row];
      return 200, Some(row);
    }
  }

  /** An empty body names no account, so it is refused with 400 whatever the tables hold. */
  lemma EmptyBodyRejected(accounts: seq<Account>)
    ensures var r := Respond(accounts, Request("POST", Some(Body(None, None, None, None, None))));
      r.status == 400 && r.journal.None?
  {
  }

  /** Each side's id is that of the first account row carrying the requested name. */
  lemma PostedIdsAreFirstMatches(accounts: seq<Account>, req: Request, d: nat, c: nat)
    requires Respond(accounts, req).status == 200
    requires d < |accounts| && Named(accounts[d], req.body.value.debitName)
    requires forall j :: 0 <= j < d ==> !Named(accounts[j], req.body.value.debitName)
    requires c < |accounts| && Named(accounts[c], req.body.value.creditName)
    requires forall j :: 0 <= j < c ==> !Named(accounts[j], req.body.value.creditName)
    ensures Respond(accounts, req).journal ==
      Some(JournalRow(req.body.value.date, accounts[d].id, accounts[c].id, req.body.value.amount, req.body.value.description))
  {
  }

  /** The date, amount and description are not validated: they never change the status. */
  lemma NoFieldValidation(accounts: seq<Account>, httpMethod: string, b: Body, date: Option<string>,
                          amount: Option<string>, description: Option<string>)
    ensures var other := b.(date := date, amount := amount, description := description);
      Respond(accounts, Request(httpMethod, Some(other))).status == Respond(accounts, Request(httpMethod, Some(b))).status
  {
  }

  /** Nothing stops the debit and the credit side naming the same account. */
  lemma SameAccountBothSides(accounts: seq<Account>, req: Request)
    requires req.httpMethod == "POST" && req.body.Some? && req.body.value.debitName == req.body.value.creditName
    requires Resolves(accounts, req.body.value.debitName)
    ensures Respond(accounts, req).status == 200
    ensures Respond(accounts, req).journal.value.debitAccountId == Respond(accounts, req).journal.value.creditAccountId
  {
  }
}
