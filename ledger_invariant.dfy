/** What holds of the two tables between actions, and that each action's effect keeps it:
    every row is stored under its own symbol code, supply stays within [0, max_supply],
    no balance is negative, balance rows exist only for created symbols with the
    registered precision, and each symbol's supply equals the sum of its balance rows. */
module LedgerInvariant {
  import opened TokenTypes
  import opened AccountRows

  type Stats = map<SymCode, CurrencyStats>

  /** A stats row, keyed by its supply's symbol code, with a positive maximum supply
      within MAX_AMOUNT and a supply between zero and the maximum. */
  predicate StatsRowOk(code: SymCode, st: CurrencyStats) {
    && st.supply.symbol.code == code
    && st.maxSupply.symbol == st.supply.symbol
    && 0 < st.maxSupply.amount <= MAX_AMOUNT
    && 0 <= st.supply.amount <= st.maxSupply.amount
  }

  /** A balance row, keyed by its balance's symbol code, for a created symbol with the
      registered precision, and never negative. */
  predicate AccountRowOk(stats: Stats, key: AccountKey, balance: Asset) {
    && balance.symbol.code == key.1
    && key.1 in stats
    && balance.symbol == stats[key.1].supply.symbol
    && balance.amount >= 0
  }

  ghost predicate Invariant(stats: Stats, accounts: Accounts) {
    && (forall code :: code in stats ==> StatsRowOk(code, stats[code]))
    && (forall key :: key in accounts ==> AccountRowOk(stats, key, accounts[key]))
    && (forall code :: code in stats ==> stats[code].supply.amount == Circulating(accounts, code))
  }

  /** The stats row create inserts: zero supply of the maximum supply's symbol. */
  function NewStats(issuer: Name, maximumSupply: Asset): (st: CurrencyStats)
    ensures st.supply == ZeroOf(maximumSupply.symbol)
    ensures st.maxSupply == maximumSupply && st.issuer == issuer
  {
    CurrencyStats(ZeroOf(maximumSupply.symbol), maximumSupply, issuer)
  }

  /** A stats row whose supply has changed by `delta`; maximum supply and issuer stay. */
  function WithSupply(st: CurrencyStats, delta: int): (r: CurrencyStats)
    ensures r.supply.amount == st.supply.amount + delta
    ensures r.supply.symbol == st.supply.symbol
    ensures r.maxSupply == st.maxSupply && r.issuer == st.issuer
  {
    st.(supply := st.supply.(amount := st.supply.amount + delta))
  }

  /** The tables of a freshly deployed contract. */
  lemma EmptyInvariant()
    ensures Invariant(map[], map[])
  {
  }

  /** Under the invariant every balance lies between zero and its symbol's supply, so no
      balance can pass MAX_AMOUNT: crediting a row never overflows the amount field.
      The invariant is a hypothesis of the ensures rather than a requires because
      Token.GetBalance calls this lemma in its body, where only the row's existence is
      required and its ensures are conditional on Valid(). */
  lemma BalanceWithinSupply(stats: Stats, accounts: Accounts, key: AccountKey)
    requires key in accounts
    ensures Invariant(stats, accounts) ==>
              && key.1 in stats
              && 0 <= accounts[key].amount <= stats[key.1].supply.amount <= MAX_AMOUNT
  {
    if Invariant(stats, accounts) {
      RowWithinCirculation(accounts, key);
    }
  }

  lemma CreatePreserves(stats: Stats, accounts: Accounts, issuer: Name, maximumSupply: Asset)
    requires Invariant(stats, accounts)
    requires maximumSupply.symbol.code !in stats
    requires 0 < maximumSupply.amount <= MAX_AMOUNT
    ensures Invariant(stats[maximumSupply.symbol.code := NewStats(issuer, maximumSupply)], accounts)
  {
    var code := maximumSupply.symbol.code;
    var stats' := stats[code := NewStats(issuer, maximumSupply)];
    CirculatingAbsent(accounts, code);
    forall key | key in accounts
      ensures AccountRowOk(stats', key, accounts[key])
    {
      assert AccountRowOk(stats, key, accounts[key]);
    }
  }

  lemma IssuePreserves(stats: Stats, accounts: Accounts, to: Name, quantity: Asset)
    requires Invariant(stats, accounts)
    requires quantity.symbol.code in stats
    requires quantity.symbol == stats[quantity.symbol.code].supply.symbol
    requires 0 < quantity.amount
    requires quantity.amount <= stats[quantity.symbol.code].maxSupply.amount - stats[quantity.symbol.code].supply.amount
    ensures Invariant(
              stats[quantity.symbol.code := WithSupply(stats[quantity.symbol.code], quantity.amount)],
              Credit(accounts, to, quantity))
  {
    var code := quantity.symbol.code;
    var stats' := stats[code := WithSupply(stats[code], quantity.amount)];
    var accounts' := Credit(accounts, to, quantity);
    forall c | c in stats'
      ensures stats'[c].supply.amount == Circulating(accounts', c)
    {
      CreditCirculating(accounts, to, quantity, c);
    }
    forall key | key in accounts'
      ensures AccountRowOk(stats', key, accounts'[key])
    {
      if key in accounts {
        assert AccountRowOk(stats, key, accounts[key]);
      }
    }
  }

  lemma RetirePreserves(stats: Stats, accounts: Accounts, quantity: Asset)
    requires Invariant(stats, accounts)
    requires quantity.symbol.code in stats
    requires quantity.symbol == stats[quantity.symbol.code].supply.symbol
    requires 0 < quantity.amount
    requires KeyOf(stats[quantity.symbol.code].issuer, quantity) in accounts
    requires accounts[KeyOf(stats[quantity.symbol.code].issuer, quantity)].amount >= quantity.amount
    ensures Invariant(
              stats[quantity.symbol.code := WithSupply(stats[quantity.symbol.code], -quantity.amount)],
              Debit(accounts, stats[quantity.symbol.code].issuer, quantity))
  {
    var code := quantity.symbol.code;
    var issuer := stats[code].issuer;
    var stats' := stats[code := WithSupply(stats[code], -quantity.amount)];
    var accounts' := Debit(accounts, issuer, quantity);
    RowWithinCirculation(accounts, KeyOf(issuer, quantity));
    forall c | c in stats'
      ensures stats'[c].supply.amount == Circulating(accounts', c)
    {
      DebitCirculating(accounts, issuer, quantity, c);
    }
    forall key | key in accounts'
      ensures AccountRowOk(stats', key, accounts'[key])
    {
      assert AccountRowOk(stats, key, accounts[key]);
    }
  }

  lemma TransferPreserves(stats: Stats, accounts: Accounts, from: Name, to: Name, quantity: Asset)
    requires Invariant(stats, accounts)
    requires quantity.symbol.code in stats
    requires quantity.symbol == stats[quantity.symbol.code].supply.symbol
    requires 0 < quantity.amount
    requires KeyOf(from, quantity) in accounts
    requires accounts[KeyOf(from, quantity)].amount >= quantity.amount
    ensures Invariant(stats, Credit(Debit(accounts, from, quantity), to, quantity))
  {
    var debited := Debit(accounts, from, quantity);
    var accounts' := Credit(debited, to, quantity);
    forall c | c in stats
      ensures stats[c].supply.amount == Circulating(accounts', c)
    {
      DebitCirculating(accounts, from, quantity, c);
      CreditCirculating(debited, to, quantity, c);
    }
    forall key | key in accounts'
      ensures AccountRowOk(stats, key, accounts'[key])
    {
      if key in accounts {
        assert AccountRowOk(stats, key, accounts[key]);
      }
    }
  }

  lemma OpenPreserves(stats: Stats, accounts: Accounts, owner: Name, sym: Symbol)
    requires Invariant(stats, accounts)
    requires sym.code in stats && stats[sym.code].supply.symbol == sym
    ensures Invariant(stats, Opened(accounts, owner, sym))
  {
    var accounts' := Opened(accounts, owner, sym);
    forall c | c in stats
      ensures stats[c].supply.amount == Circulating(accounts', c)
    {
      OpenedCirculating(accounts, owner, sym, c);
    }
    forall key | key in accounts'
      ensures AccountRowOk(stats, key, accounts'[key])
    {
      if key in accounts {
        assert AccountRowOk(stats, key, accounts[key]);
      }
    }
  }

  lemma ClosePreserves(stats: Stats, accounts: Accounts, owner: Name, code: SymCode)
    requires Invariant(stats, accounts)
    requires (owner, code) in accounts && accounts[(owner, code)].amount == 0
    ensures Invariant(stats, Closed(accounts, owner, code))
  {
    var accounts' := Closed(accounts, owner, code);
    forall c | c in stats
      ensures stats[c].supply.amount == Circulating(accounts', c)
    {
      ClosedCirculating(accounts, owner, code, c);
    }
    forall key | key in accounts'
      ensures AccountRowOk(stats, key, accounts'[key])
    {
      assert AccountRowOk(stats, key, accounts[key]);
    }
  }
}
