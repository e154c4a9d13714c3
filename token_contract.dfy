/** The token contract: the stats table (one row per symbol code) and the accounts table
    (one row per owner and symbol code), the actions that change them, and the two read
    queries. Every action either commits all of its changes or is rejected with an
    `Outcome.Fail` and changes nothing, as a failed check aborts the whole transaction. */
module TokenContract {
  import opened TokenTypes
  import opened AccountRows
  import opened LedgerInvariant

  class Token {
    /** The stats table: scope and primary key are both the symbol code. */
    var stats: map<SymCode, CurrencyStats>
    /** The accounts table: scope is the owner, primary key the symbol code. */
    var accounts: map<(Name, SymCode), Asset>
    /** Which symbols are valid. The symbol rules live outside this contract. */
    const validSymbol: Symbol -> bool

    ghost predicate Valid()
      reads this
    {
      Invariant(stats, accounts)
    }

    /** A contract with empty tables. */
    constructor (validSymbol: Symbol -> bool)
      ensures Valid()
      ensures stats == map[] && accounts == map[] && this.validSymbol == validSymbol
    {
      this.validSymbol := validSymbol;
      stats := map[];
      accounts := map[];
      EmptyInvariant();
    }

    /** create: register `maximumSupply`'s symbol with `issuer`. Rejected when the symbol is
        invalid, already registered, or the maximum supply is not positive or passes
        MAX_AMOUNT (assumed: a maximum equal to MAX_AMOUNT is allowed, reading "smaller than
        the maximum allowed" as "at most"); otherwise exactly one stats row is added, holding
        zero supply (assumed: the declaration does not say what supply a new row starts
        with). */
    method Create(issuer: Name, maximumSupply: Asset) returns (r: Outcome)
      requires Valid()
      modifies this
      ensures Valid()
      ensures r.Ok? <==>
                && validSymbol(maximumSupply.symbol)
                && maximumSupply.symbol.code !in old(stats)
                && AmountInRange(maximumSupply.amount)
                && maximumSupply.amount > 0
      ensures r.Fail? ==> r.error in {InvalidSymbol, AlreadyExists, InvalidQuantity, NonPositive}
      ensures r == Fail(InvalidSymbol) ==> !validSymbol(maximumSupply.symbol)
      ensures r == Fail(AlreadyExists) ==> maximumSupply.symbol.code in old(stats)
      ensures r == Fail(InvalidQuantity) ==> !AmountInRange(maximumSupply.amount)
      ensures r == Fail(NonPositive) ==> maximumSupply.amount <= 0
      ensures r.Ok? ==> stats == old(stats)[maximumSupply.symbol.code := NewStats(issuer, maximumSupply)]
      ensures r.Fail? ==> stats == old(stats)
      ensures accounts == old(accounts)
    {
      var sym := maximumSupply.symbol;
      if !validSymbol(sym) {
        return Fail(InvalidSymbol);
      }
      if sym.code in stats {
        return Fail(AlreadyExists);
      }
      if !AmountInRange(maximumSupply.amount) {
        return Fail(InvalidQuantity);
      }
      if maximumSupply.amount <= 0 {
        return Fail(NonPositive);
      }
      CreatePreserves(stats, accounts, issuer, maximumSupply);
      stats := stats[sym.code := NewStats(issuer, maximumSupply)];
      r := Ok;
    }

    /** issue: put `quantity` new tokens into circulation, credited to `to`, which must be the
        registered issuer. Rejected when `to` is not the issuer. Also rejected (assumed) for
        an invalid or unknown symbol, an invalid or non-positive quantity, a precision other
        than the registered one, or a quantity that would take supply past the maximum.
        Raising the supply is assumed too: the declaration only says that `quantity` is
        issued to `to`. */
    method Issue(to: Name, quantity: Asset) returns (r: Outcome)
      requires Valid()
      modifies this
      ensures Valid()
      ensures r.Ok? <==>
                && validSymbol(quantity.symbol)
                && quantity.symbol.code in old(stats)
                && to == old(stats)[quantity.symbol.code].issuer
                && AmountInRange(quantity.amount)
                && quantity.amount > 0
                && quantity.symbol == old(stats)[quantity.symbol.code].supply.symbol
                && quantity.amount <= old(stats)[quantity.symbol.code].maxSupply.amount
                                      - old(stats)[quantity.symbol.code].supply.amount
      ensures r.Fail? ==>
                r.error in {InvalidSymbol, UnknownSymbol, NotIssuer, InvalidQuantity, NonPositive,
                            PrecisionMismatch, ExceedsSupply}
      ensures r == Fail(InvalidSymbol) ==> !validSymbol(quantity.symbol)
      ensures r == Fail(UnknownSymbol) ==> quantity.symbol.code !in old(stats)
      ensures r == Fail(InvalidQuantity) ==> !AmountInRange(quantity.amount)
      ensures r == Fail(NonPositive) ==> quantity.amount <= 0
      ensures r == Fail(PrecisionMismatch) ==>
                quantity.symbol.code in old(stats) && quantity.symbol != old(stats)[quantity.symbol.code].supply.symbol
      ensures r == Fail(NotIssuer) ==>
                quantity.symbol.code in old(stats) && to != old(stats)[quantity.symbol.code].issuer
      ensures r == Fail(ExceedsSupply) ==>
                quantity.symbol.code in old(stats)
                && old(stats)[quantity.symbol.code].supply.amount + quantity.amount
                   > old(stats)[quantity.symbol.code].maxSupply.amount
      ensures r.Ok? ==>
                && stats == old(stats)[quantity.symbol.code := WithSupply(old(stats)[quantity.symbol.code], quantity.amount)]
                && accounts == Credit(old(accounts), to, quantity)
      ensures r.Fail? ==> stats == old(stats) && accounts == old(accounts)
    {
      var sym := quantity.symbol;
      if !validSymbol(sym) {
        return Fail(InvalidSymbol);
      }
      if sym.code !in stats {
        return Fail(UnknownSymbol);
      }
      var st := stats[sym.code];
      if to != st.issuer {
        return Fail(NotIssuer);
      }
      if !AmountInRange(quantity.amount) {
        return Fail(InvalidQuantity);
      }
      if quantity.amount <= 0 {
        return Fail(NonPositive);
      }
      if sym != st.supply.symbol {
        return Fail(PrecisionMismatch);
      }
      if quantity.amount > st.maxSupply.amount - st.supply.amount {
        return Fail(ExceedsSupply);
      }
      IssuePreserves(stats, accounts, to, quantity);
      stats := stats[sym.code := WithSupply(st, quantity.amount)];
      AddBalance(st.issuer, quantity, st.issuer);
      r := Ok;
    }

    /** retire: take `quantity` out of circulation. The supply falls by exactly `quantity`;
        maximum supply, issuer and every other symbol's row stay. The tokens come out of the
        issuer's own balance row (assumed: the declaration only names the supply), so the
        action is rejected when that row is missing or holds too little, as well as for an
        invalid or unknown symbol, an invalid or non-positive quantity, or a precision other
        than the registered one. */
    method Retire(quantity: Asset) returns (r: Outcome)
      requires Valid()
      modifies this
      ensures Valid()
      ensures r.Ok? <==>
                && validSymbol(quantity.symbol)
                && quantity.symbol.code in old(stats)
                && AmountInRange(quantity.amount)
                && quantity.amount > 0
                && quantity.symbol == old(stats)[quantity.symbol.code].supply.symbol
                && KeyOf(old(stats)[quantity.symbol.code].issuer, quantity) in old(accounts)
                && old(accounts)[KeyOf(old(stats)[quantity.symbol.code].issuer, quantity)].amount >= quantity.amount
      ensures r.Fail? ==>
                r.error in {InvalidSymbol, UnknownSymbol, InvalidQuantity, NonPositive, PrecisionMismatch,
                            NoBalanceRow, Overdrawn}
      ensures r == Fail(InvalidSymbol) ==> !validSymbol(quantity.symbol)
      ensures r == Fail(UnknownSymbol) ==> quantity.symbol.code !in old(stats)
      ensures r == Fail(InvalidQuantity) ==> !AmountInRange(quantity.amount)
      ensures r == Fail(NonPositive) ==> quantity.amount <= 0
      ensures r == Fail(PrecisionMismatch) ==>
                quantity.symbol.code in old(stats) && quantity.symbol != old(stats)[quantity.symbol.code].supply.symbol
      ensures r == Fail(NoBalanceRow) ==>
                quantity.symbol.code in old(stats)
                && KeyOf(old(stats)[quantity.symbol.code].issuer, quantity) !in old(accounts)
      ensures r == Fail(Overdrawn) ==>
                quantity.symbol.code in old(stats)
                && var key := KeyOf(old(stats)[quantity.symbol.code].issuer, quantity);
                   key in old(accounts) && old(accounts)[key].amount < quantity.amount
      ensures r.Ok? ==>
                && stats == old(stats)[quantity.symbol.code := WithSupply(old(stats)[quantity.symbol.code], -quantity.amount)]
                && stats[quantity.symbol.code].supply.amount == old(stats)[quantity.symbol.code].supply.amount - quantity.amount
                && accounts == Debit(old(accounts), old(stats)[quantity.symbol.code].issuer, quantity)
      ensures r.Fail? ==> stats == old(stats) && accounts == old(accounts)
    {
      var sym := quantity.symbol;
      if !validSymbol(sym) {
        return Fail(InvalidSymbol);
      }
      if sym.code !in stats {
        return Fail(UnknownSymbol);
      }
      var st := stats[sym.code];
      if !AmountInRange(quantity.amount) {
        return Fail(InvalidQuantity);
      }
      if quantity.amount <= 0 {
        return Fail(NonPositive);
      }
      if sym != st.supply.symbol {
        return Fail(PrecisionMismatch);
      }
      ghost var before := accounts;
      r := SubBalance(st.issuer, quantity);
      if r.Fail? {
        return;
      }
      RetirePreserves(stats, before, quantity);
      stats := stats[sym.code := WithSupply(st, -quantity.amount)];
    }

    /** transfer: move `quantity` from `from` to `to`; one row is debited and the other
        credited. Assumed, as the declaration says no more: a missing `to` row is created,
        the stats table and every other row are unchanged, and the action is rejected when
        `from` and `to` coincide, for an unknown or invalid symbol, an out-of-range or
        non-positive quantity, a precision other than the registered one, or when `from` has
        no row or too little in it. */
    method Transfer(from: Name, to: Name, quantity: Asset) returns (r: Outcome)
      requires Valid()
      modifies this
      ensures Valid()
      ensures r.Ok? <==>
                && from != to
                && quantity.symbol.code in old(stats)
                && validSymbol(quantity.symbol)
                && AmountInRange(quantity.amount)
                && quantity.amount > 0
                && quantity.symbol == old(stats)[quantity.symbol.code].supply.symbol
                && KeyOf(from, quantity) in old(accounts)
                && old(accounts)[KeyOf(from, quantity)].amount >= quantity.amount
      ensures r.Fail? ==>
                r.error in {SelfTransfer, UnknownSymbol, InvalidSymbol, InvalidQuantity, NonPositive,
                            PrecisionMismatch, NoBalanceRow, Overdrawn}
      ensures r == Fail(SelfTransfer) ==> from == to
      ensures r == Fail(UnknownSymbol) ==> quantity.symbol.code !in old(stats)
      ensures r == Fail(InvalidSymbol) ==> !validSymbol(quantity.symbol)
      ensures r == Fail(InvalidQuantity) ==> !AmountInRange(quantity.amount)
      ensures r == Fail(NonPositive) ==> quantity.amount <= 0
      ensures r == Fail(PrecisionMismatch) ==>
                quantity.symbol.code in old(stats) && quantity.symbol != old(stats)[quantity.symbol.code].supply.symbol
      ensures r == Fail(NoBalanceRow) ==> KeyOf(from, quantity) !in old(accounts)
      ensures r == Fail(Overdrawn) ==>
                KeyOf(from, quantity) in old(accounts) && old(accounts)[KeyOf(from, quantity)].amount < quantity.amount
      ensures r.Ok? ==>
                && accounts == Credit(Debit(old(accounts), from, quantity), to, quantity)
                && BalanceAt(accounts, KeyOf(from, quantity)) + BalanceAt(accounts, KeyOf(to, quantity))
                   == BalanceAt(old(accounts), KeyOf(from, quantity)) + BalanceAt(old(accounts), KeyOf(to, quantity))
      ensures r.Fail? ==> accounts == old(accounts)
      ensures stats == old(stats)
    {
      if from == to {
        return Fail(SelfTransfer);
      }
      var sym := quantity.symbol;
      if sym.code !in stats {
        return Fail(UnknownSymbol);
      }
      var st := stats[sym.code];
      if !validSymbol(sym) {
        return Fail(InvalidSymbol);
      }
      if !AmountInRange(quantity.amount) {
        return Fail(InvalidQuantity);
      }
      if quantity.amount <= 0 {
        return Fail(NonPositive);
      }
      if sym != st.supply.symbol {
        return Fail(PrecisionMismatch);
      }
      ghost var before := accounts;
      r := SubBalance(from, quantity);
      if r.Fail? {
        return;
      }
      TransferPreserves(stats, before, from, to, quantity);
      AddBalance(to, quantity, from);
    }

    /** open: make sure `owner` has a balance row for `sym`, creating it with zero balance
        when it is missing and leaving an existing row untouched (assumed: the declaration
        does not say what happens to an existing row; the call succeeds rather than failing
        as a duplicate create does). Rejected when `sym` has no stats row or a different
        precision (assumed: the declaration names no failure). */
    method Open(owner: Name, sym: Symbol, ramPayer: Name) returns (r: Outcome)
      requires Valid()
      modifies this
      ensures Valid()
      ensures r.Ok? <==> sym.code in old(stats) && old(stats)[sym.code].supply.symbol == sym
      ensures r == Fail(UnknownSymbol) <==> sym.code !in old(stats)
      ensures r == Fail(PrecisionMismatch) <==> sym.code in old(stats) && old(stats)[sym.code].supply.symbol != sym
      ensures r.Ok? ==> (owner, sym.code) in accounts && accounts == Opened(old(accounts), owner, sym)
      ensures r.Ok? && (owner, sym.code) !in old(accounts) ==> accounts[(owner, sym.code)].amount == 0
      ensures r.Fail? ==> accounts == old(accounts)
      ensures stats == old(stats)
    {
      if sym.code !in stats {
        return Fail(UnknownSymbol);
      }
      if stats[sym.code].supply.symbol != sym {
        return Fail(PrecisionMismatch);
      }
      OpenPreserves(stats, accounts, owner, sym);
      if (owner, sym.code) !in accounts {
        accounts := accounts[(owner, sym.code) := ZeroOf(sym)];
      }
      r := Ok;
    }

    /** close: erase `owner`'s balance row for `sym`. With no such row nothing happens and the
        action succeeds (assumed: "no action is executed" is read as a no-op rather than an
        abort, which would leave the tables equally unchanged); a row that still holds tokens
        is refused; a zero row is removed and no other row changes. */
    method Close(owner: Name, sym: Symbol) returns (r: Outcome)
      requires Valid()
      modifies this
      ensures Valid()
      ensures r.Fail? <==> (owner, sym.code) in old(accounts) && old(accounts)[(owner, sym.code)].amount != 0
      ensures r.Fail? ==> r.error == NonZeroBalance && accounts == old(accounts)
      ensures (owner, sym.code) !in old(accounts) ==> accounts == old(accounts)
      ensures r.Ok? ==> accounts == Closed(old(accounts), owner, sym.code) && (owner, sym.code) !in accounts
      ensures stats == old(stats)
    {
      var key := (owner, sym.code);
      if key !in accounts {
        return Ok;
      }
      if accounts[key].amount != 0 {
        return Fail(NonZeroBalance);
      }
      ClosePreserves(stats, accounts, owner, sym.code);
      accounts := accounts - {key};
      r := Ok;
    }

    /** get_supply: the current supply of `code`. Only defined for a symbol that has a stats
        row; it is stored under its own code and lies between zero and the maximum supply,
        and it is the total of all balance rows of that symbol. */
    function GetSupply(code: SymCode): (s: Asset)
      reads this
      requires code in stats
      ensures Valid() ==>
                && s.symbol.code == code
                && 0 <= s.amount <= stats[code].maxSupply.amount <= MAX_AMOUNT
                && s.amount == Circulating(accounts, code)
    {
      stats[code].supply
    }

    /** get_balance: `owner`'s balance of `code`. Only defined when the row exists; it is
        stored under its own code with the registered precision, is never negative and
        never more than the symbol's supply. */
    function GetBalance(owner: Name, code: SymCode): (b: Asset)
      reads this
      requires (owner, code) in accounts
      ensures Valid() ==>
                && code in stats
                && b.symbol == stats[code].supply.symbol
                && b.symbol.code == code
                && 0 <= b.amount <= GetSupply(code).amount
    {
      BalanceWithinSupply(stats, accounts, (owner, code));
      accounts[(owner, code)]
    }

    /** sub_balance: debit `value` from `owner`'s row. Rejected, changing nothing, when
        the row is missing or holds less than `value` (assumed: the declaration has no
        comment, so this behaviour is inferred from its name). A private step of Retire and
        Transfer only: on its own it changes a balance without the supply, so it cannot
        keep Valid(), which holds again once the calling action has finished. */
    method SubBalance(owner: Name, value: Asset) returns (r: Outcome)
      modifies this
      ensures r.Ok? <==> KeyOf(owner, value) in old(accounts) && old(accounts)[KeyOf(owner, value)].amount >= value.amount
      ensures r == Fail(NoBalanceRow) <==> KeyOf(owner, value) !in old(accounts)
      ensures r == Fail(Overdrawn) <==>
                KeyOf(owner, value) in old(accounts) && old(accounts)[KeyOf(owner, value)].amount < value.amount
      ensures r.Ok? ==> accounts == Debit(old(accounts), owner, value)
      ensures r.Fail? ==> accounts == old(accounts)
      ensures stats == old(stats)
    {
      var key := KeyOf(owner, value);
      if key !in accounts {
        return Fail(NoBalanceRow);
      }
      if accounts[key].amount < value.amount {
        return Fail(Overdrawn);
      }
      accounts := accounts[key := accounts[key].(amount := accounts[key].amount - value.amount)];
      r := Ok;
    }

    /** add_balance: credit `value` to `owner`, adding the row when it is missing. The
        storage payer has no effect on the tables (assumed: the declaration has no comment,
        so this behaviour is inferred from its name and its `ram_payer` argument, which
        pays for a row it adds). A private step of Issue and Transfer
        only: halfway through those actions supply and balances disagree, so it neither
        requires nor ensures Valid(). */
    method AddBalance(owner: Name, value: Asset, ramPayer: Name)
      modifies this
      ensures accounts == Credit(old(accounts), owner, value)
      ensures stats == old(stats)
    {
      var key := KeyOf(owner, value);
      if key in accounts {
        accounts := accounts[key := accounts[key].(amount := accounts[key].amount + value.amount)];
      } else {
        accounts := accounts[key := value];
      }
    }
  }
}
