/** The accounts table, one balance row per (owner, symbol code), and the effect on it
    of the row-level operations of the contract: add_balance, sub_balance, and the row
    that open creates and close erases. Also the amount in circulation of one symbol,
    the sum of its balance rows. */
module AccountRows {
  import opened TokenTypes

  /** A balance row is stored in the owner's scope under the symbol code. */
  type AccountKey = (Name, SymCode)

  type Accounts = map<AccountKey, Asset>

  /** The key under which `owner`'s row for `value`'s symbol is stored. */
  function KeyOf(owner: Name, value: Asset): AccountKey {
    (owner, value.symbol.code)
  }

  /** The balance a key holds, zero when it has no row. */
  function BalanceAt(accounts: Accounts, key: AccountKey): int {
    if key in accounts then accounts[key].amount else 0
  }

  /** add_balance: credit `value` to `owner`. An existing row grows by the amount; a
      missing row is created holding exactly `value`. */
  function Credit(accounts: Accounts, owner: Name, value: Asset): (r: Accounts)
    ensures r.Keys == accounts.Keys + {KeyOf(owner, value)}
    ensures BalanceAt(r, KeyOf(owner, value)) == BalanceAt(accounts, KeyOf(owner, value)) + value.amount
    ensures r[KeyOf(owner, value)].symbol
            == if KeyOf(owner, value) in accounts then accounts[KeyOf(owner, value)].symbol else value.symbol
    ensures forall k :: k in accounts && k != KeyOf(owner, value) ==> r[k] == accounts[k]
  {
    var key := KeyOf(owner, value);
    if key in accounts then accounts[key := accounts[key].(amount := accounts[key].amount + value.amount)]
    else accounts[key := value]
  }

  /** sub_balance: debit `value` from `owner`'s existing row. Whether the row exists and
      holds enough is checked by the caller, which rejects the action otherwise. */
  function Debit(accounts: Accounts, owner: Name, value: Asset): (r: Accounts)
    requires KeyOf(owner, value) in accounts
    ensures r.Keys == accounts.Keys
    ensures r[KeyOf(owner, value)].amount == accounts[KeyOf(owner, value)].amount - value.amount
    ensures r[KeyOf(owner, value)].symbol == accounts[KeyOf(owner, value)].symbol
    ensures forall k :: k in accounts && k != KeyOf(owner, value) ==> r[k] == accounts[k]
  {
    var key := KeyOf(owner, value);
    accounts[key := accounts[key].(amount := accounts[key].amount - value.amount)]
  }

  /** open: make sure `owner` has a row for `sym`, adding a zero-balance row if none. */
  function Opened(accounts: Accounts, owner: Name, sym: Symbol): (r: Accounts)
    ensures r.Keys == accounts.Keys + {(owner, sym.code)}
    ensures (owner, sym.code) in accounts ==> r == accounts
    ensures (owner, sym.code) !in accounts ==> r[(owner, sym.code)] == ZeroOf(sym)
    ensures forall k :: k in accounts ==> r[k] == accounts[k]
  {
    if (owner, sym.code) in accounts then accounts else accounts[(owner, sym.code) := ZeroOf(sym)]
  }

  /** close: erase `owner`'s row for `code`. */
  function Closed(accounts: Accounts, owner: Name, code: SymCode): (r: Accounts)
    ensures r.Keys == accounts.Keys - {(owner, code)}
    ensures forall k :: k in r ==> r[k] == accounts[k]
  {
    accounts - {(owner, code)}
  }

  // ---------------------------------------------------------------------------
  // Round trips and idempotence

  /** Crediting and then debiting the same quantity restores an existing row, and
      leaves a zero-balance row where there was none: the accounts table ends as
      `open` would have left it. */
  lemma CreditThenDebit(accounts: Accounts, owner: Name, value: Asset)
    ensures KeyOf(owner, value) in Credit(accounts, owner, value)
    ensures Debit(Credit(accounts, owner, value), owner, value) == Opened(accounts, owner, value.symbol)
  {
  }

  /** Moving `value` from `a` to `b` and back again restores every row, except that
      `b` keeps a zero-balance row if it had none before. */
  lemma TransferRoundTrip(accounts: Accounts, a: Name, b: Name, value: Asset)
    requires a != b
    requires KeyOf(a, value) in accounts
    ensures var there := Credit(Debit(accounts, a, value), b, value);
            && KeyOf(b, value) in there
            && Credit(Debit(there, b, value), a, value) == Opened(accounts, b, value.symbol)
  {
  }

  /** Opening twice leaves the table as opening once. */
  lemma OpenIdempotent(accounts: Accounts, owner: Name, sym: Symbol)
    ensures Opened(Opened(accounts, owner, sym), owner, sym) == Opened(accounts, owner, sym)
  {
  }

  /** Closing a zero-balance row and opening it again reproduces the same row. */
  lemma CloseThenOpen(accounts: Accounts, owner: Name, sym: Symbol)
    requires (owner, sym.code) in accounts && accounts[(owner, sym.code)] == ZeroOf(sym)
    ensures Opened(Closed(accounts, owner, sym.code), owner, sym) == accounts
  {
  }

  // ---------------------------------------------------------------------------
  // Circulation: the sum of the balance rows of one symbol code

  /** What the row under `k` contributes to the circulation of `code`. */
  function Held(accounts: Accounts, k: AccountKey, code: SymCode): int
    requires k in accounts
  {
    if k.1 == code then accounts[k].amount else 0
  }

  /** Some key of a non-empty table; the choice is fixed, which the sum relies on. */
  ghost function SomeKey(accounts: Accounts): (k: AccountKey)
    requires accounts != map[]
    ensures k in accounts
  {
    assert accounts.Keys != {};
    var k :| k in accounts.Keys; k
  }

  lemma RemoveShrinks(accounts: Accounts, k: AccountKey)
    requires k in accounts
    ensures |accounts - {k}| == |accounts| - 1
  {
  }

  /** The total amount of `code` held over all balance rows. */
  ghost function Circulating(accounts: Accounts, code: SymCode): int
    decreases |accounts|
  {
    if accounts == map[] then 0
    else
      var k := SomeKey(accounts);
      RemoveShrinks(accounts, k);
      Held(accounts, k, code) + Circulating(accounts - {k}, code)
  }

  /** The sum can be split at any key, not only at the one it happens to pick. */
  lemma {:induction false} CirculatingSplit(accounts: Accounts, k: AccountKey, code: SymCode)
    requires k in accounts
    ensures Circulating(accounts, code) == Held(accounts, k, code) + Circulating(accounts - {k}, code)
    decreases |accounts|
  {
    var j := SomeKey(accounts);
    if j != k {
      RemoveShrinks(accounts, j);
      RemoveShrinks(accounts, k);
      CirculatingSplit(accounts - {j}, k, code);
      CirculatingSplit(accounts - {k}, j, code);
      assert accounts - {j} - {k} == accounts - {k} - {j};
    }
  }

  /** Writing one row changes the circulation by the difference it makes to that row. */
  lemma CirculatingUpdate(accounts: Accounts, k: AccountKey, v: Asset, code: SymCode)
    ensures Circulating(accounts[k := v], code)
            == Circulating(accounts, code)
               - (if k in accounts then Held(accounts, k, code) else 0)
               + (if k.1 == code then v.amount else 0)
  {
    CirculatingSplit(accounts[k := v], k, code);
    assert accounts[k := v] - {k} == accounts - {k};
    if k in accounts {
      CirculatingSplit(accounts, k, code);
    } else {
      assert accounts - {k} == accounts;
    }
  }

  /** A code no row is stored under has nothing in circulation. */
  lemma {:induction false} CirculatingAbsent(accounts: Accounts, code: SymCode)
    requires forall k :: k in accounts ==> k.1 != code
    ensures Circulating(accounts, code) == 0
    decreases |accounts|
  {
    if accounts != map[] {
      var k := SomeKey(accounts);
      RemoveShrinks(accounts, k);
      CirculatingAbsent(accounts - {k}, code);
    }
  }

  /** Rows that are never negative have a non-negative sum. */
  lemma {:induction false} CirculatingNonNegative(accounts: Accounts, code: SymCode)
    requires forall k :: k in accounts ==> accounts[k].amount >= 0
    ensures Circulating(accounts, code) >= 0
    decreases |accounts|
  {
    if accounts != map[] {
      var k := SomeKey(accounts);
      RemoveShrinks(accounts, k);
      CirculatingNonNegative(accounts - {k}, code);
    }
  }

  /** With no negative rows, no single row of `code` holds more than its circulation. */
  lemma RowWithinCirculation(accounts: Accounts, k: AccountKey)
    requires forall j :: j in accounts ==> accounts[j].amount >= 0
    requires k in accounts
    ensures accounts[k].amount <= Circulating(accounts, k.1)
  {
    CirculatingSplit(accounts, k, k.1);
    CirculatingNonNegative(accounts - {k}, k.1);
  }

  /** add_balance raises the circulation of the credited symbol by exactly the amount. */
  lemma CreditCirculating(accounts: Accounts, owner: Name, value: Asset, code: SymCode)
    ensures Circulating(Credit(accounts, owner, value), code)
            == Circulating(accounts, code) + (if code == value.symbol.code then value.amount else 0)
  {
    var key := KeyOf(owner, value);
    if key in accounts {
      CirculatingUpdate(accounts, key, accounts[key].(amount := accounts[key].amount + value.amount), code);
    } else {
      CirculatingUpdate(accounts, key, value, code);
    }
  }

  /** sub_balance lowers the circulation of the debited symbol by exactly the amount. */
  lemma DebitCirculating(accounts: Accounts, owner: Name, value: Asset, code: SymCode)
    requires KeyOf(owner, value) in accounts
    ensures Circulating(Debit(accounts, owner, value), code)
            == Circulating(accounts, code) - (if code == value.symbol.code then value.amount else 0)
  {
    var key := KeyOf(owner, value);
    CirculatingUpdate(accounts, key, accounts[key].(amount := accounts[key].amount - value.amount), code);
  }

  /** Opening a row leaves every circulation as it was. */
  lemma OpenedCirculating(accounts: Accounts, owner: Name, sym: Symbol, code: SymCode)
    ensures Circulating(Opened(accounts, owner, sym), code) == Circulating(accounts, code)
  {
    if (owner, sym.code) !in accounts {
      CirculatingUpdate(accounts, (owner, sym.code), ZeroOf(sym), code);
    }
  }

  /** Erasing a zero-balance row leaves every circulation as it was. */
  lemma ClosedCirculating(accounts: Accounts, owner: Name, c: SymCode, code: SymCode)
    requires (owner, c) in accounts && accounts[(owner, c)].amount == 0
    ensures Circulating(Closed(accounts, owner, c), code) == Circulating(accounts, code)
  {
    CirculatingSplit(accounts, (owner, c), code);
  }
}
