/** Account names, symbols, assets, the currency-stats row and the failures an
    action can report: the value types the token contract's tables are built from. */
module TokenTypes {

  /** An unsigned 64-bit word: the raw encoding of an account name and of a symbol code. */
  newtype u64 = x: int | 0 <= x < 0x1_0000_0000_0000_0000

  /** An unsigned byte: the precision (number of decimals) of a symbol. */
  newtype u8 = x: int | 0 <= x < 0x100

  /** An account name, by its raw 64-bit value. */
  type Name = u64

  /** A symbol code ("TOK"), by its raw 64-bit value: the primary key of both tables. */
  type SymCode = u64

  /** A symbol: the code together with its decimal precision. */
  datatype Symbol = Symbol(code: SymCode, precision: u8)

  /** A quantity of tokens: a signed amount in the smallest unit and its symbol. */
  datatype Asset = Asset(amount: int, symbol: Symbol)

  /** The largest amount the system allows, 2^62 - 1. */
  const MAX_AMOUNT: int := 0x3FFF_FFFF_FFFF_FFFF

  /** The range an asset's amount must lie in to be a valid quantity. */
  predicate AmountInRange(amount: int) {
    -MAX_AMOUNT <= amount <= MAX_AMOUNT
  }

  /** An asset with amount zero and the given symbol: what a freshly opened balance row holds. */
  function ZeroOf(sym: Symbol): (a: Asset)
    ensures a.amount == 0 && a.symbol == sym
  {
    Asset(0, sym)
  }

  /** One row of the stats table: current supply, maximum supply and the issuer. */
  datatype CurrencyStats = CurrencyStats(supply: Asset, maxSupply: Asset, issuer: Name)

  /** Why an action was rejected. A rejected action changes no table. */
  datatype Error =
    | InvalidSymbol       // the symbol is not a valid symbol
    | InvalidQuantity     // the amount lies outside [-MAX_AMOUNT, MAX_AMOUNT]
    | NonPositive         // a maximum supply or quantity that is zero or negative
    | AlreadyExists       // create: the symbol code already has a stats row
    | UnknownSymbol       // the symbol code has no stats row
    | NotIssuer           // issue: `to` is not the registered issuer
    | PrecisionMismatch   // the symbol's precision differs from the registered one
    | ExceedsSupply       // issue: supply would pass the maximum supply
    | NoBalanceRow        // sub_balance: the owner has no row for the symbol
    | Overdrawn           // sub_balance: the balance is smaller than the quantity
    | SelfTransfer        // transfer: `from` and `to` are the same account
    | NonZeroBalance      // close: the row still holds tokens

  /** The result of an action: it committed, or it was rejected with a reason. */
  datatype Outcome = Ok | Fail(error: Error)

  /** `base` to the power `exp`. */
  function Pow(base: nat, exp: nat): (p: nat)
    ensures base > 0 ==> p > 0
  {
    if exp == 0 then 1 else base * Pow(base, exp - 1)
  }

  /** The bound as the declaration of create writes it, "1^62 - 1", read literally:
      one to the power 62, minus one. */
  const WRITTEN_BOUND: int := Pow(1, 62) - 1

  lemma {:induction false} PowOfOne(k: nat)
    ensures Pow(1, k) == 1
  {
    if k > 0 {
      PowOfOne(k - 1);
    }
  }

  /** Read literally, "1^62 - 1" is zero, so no maximum supply could be both positive and
      within it, and create could never succeed. */
  lemma WrittenBoundExcludesEveryPositiveSupply(amount: int)
    requires amount > 0
    ensures !(amount <= WRITTEN_BOUND)
  {
    PowOfOne(62);
  }

  /** The intended bound, 2^62 - 1, is positive, fits in the signed 64-bit amount field
      and admits the full range of positive maximum supplies up to it. */
  lemma MaxAmountIsIntended()
    ensures MAX_AMOUNT == Pow(2, 62) - 1
    ensures 0 < MAX_AMOUNT < 0x8000_0000_0000_0000
    ensures AmountInRange(1) && AmountInRange(MAX_AMOUNT) && !AmountInRange(MAX_AMOUNT + 1)
  {
    PowAdd(2, 31, 31);
    PowAdd(2, 16, 15);
    PowAdd(2, 8, 8);
    PowAdd(2, 8, 7);
    assert Pow(2, 8) == 256;
    assert Pow(2, 7) == 128;
  }

  lemma {:induction false} PowAdd(base: nat, m: nat, n: nat)
    ensures Pow(base, m + n) == Pow(base, m) * Pow(base, n)
  {
    if m > 0 {
      PowAdd(base, m - 1, n);
    }
  }
}
