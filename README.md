# atrom.token ledger, modelled in Dafny

The `atrom.token` contract keeps a fungible-token ledger in two keyed tables:

- **stats**: one `currency_stats` row per symbol code. It holds the current `supply`, the `max_supply` and the `issuer`.
- **accounts**: one `account` row per owner and symbol code. It holds that owner's `balance`.

Six actions change these tables: `create`, `issue`, `retire`, `transfer`, `open` and `close`. Two row-level helpers, `add_balance` and `sub_balance`, do the crediting and debiting. Two static queries, `get_supply` and `get_balance`, read single rows.

This model is built from the header alone. The action bodies are not available to it, so the behaviour modelled here comes from the doc comments and `@pre` notes on each declaration. Where a comment says nothing, the model uses the usual behaviour of such a token ledger. Each such choice is marked "assumed" in the doc comment of the method that makes it, and listed below.

## Layout

- `token_types.dfy` — module `TokenTypes`. Names and symbol codes as raw 64-bit words, `Symbol`, `Asset`, the `CurrencyStats` row, `MAX_AMOUNT = 2^62 - 1`, the error kinds, and `Outcome` (an action either commits or fails).
- `account_rows.dfy` — module `AccountRows`. The accounts table as a `map<(Name, SymCode), Asset>`. Pure functions give the effect of `add_balance` (`Credit`), `sub_balance` (`Debit`), the row `open` adds (`Opened`) and the row `close` erases (`Closed`). The ghost function `Circulating` sums one symbol's balance rows. Lemmas cover round trips and how each effect moves the sum.
- `ledger_invariant.dfy` — module `LedgerInvariant`. The invariant that holds between actions, and one lemma per action showing that its effect keeps the invariant. The invariant says:
  - every row is stored under its own symbol code (`primary_key` at lines 160 and 168);
  - `0 <= supply <= max_supply <= MAX_AMOUNT` and `max_supply > 0`;
  - balances are never negative;
  - balance rows exist only for created symbols, with the registered precision;
  - each symbol's supply equals the sum of its balance rows (supply conservation).
- `token_contract.dfy` — module `TokenContract`. Class `Token` has the two tables as `map` fields. The actions are methods that return an `Outcome`. A failed action changes neither table, because a failed check aborts the whole transaction. The queries are functions that are defined only when their row exists, since `multi_index::get` aborts on a missing key. `SubBalance` and `AddBalance` model the two private helpers.
- `scenario.dfy` — module `TokenScenario`. A client that runs create, issue, transfer, retire, close and open on a `Token`. Using only the action contracts, it concludes the supplies, balances and error kinds that result.

### Where the comments are silent (assumed behaviour)

- `create` starts the new row at zero supply of the maximum supply's symbol.
- `issue` raises the supply by the quantity and credits the issuer's row. Its comment only says that the quantity is issued to `to`, and that `to` must be the issuer. The model also rejects:
  - an invalid symbol;
  - an unknown symbol;
  - a non-positive or out-of-range quantity;
  - a precision other than the registered one;
  - a quantity larger than `max_supply - supply`.
- `retire` takes the tokens out of the issuer's own balance row. Its comment only says that it lowers the supply. The model rejects:
  - an invalid symbol;
  - an unknown symbol;
  - a non-positive or out-of-range quantity;
  - a precision other than the registered one;
  - an issuer row that is missing or holds less than the quantity.
- The stats table is unchanged by `transfer`. `transfer` fails when `from == to`, when the symbol is unknown or invalid, when the quantity is out of range or not positive, when the precision differs, or when `from` has no row or too little in it. A missing `to` row is created.
- `open` fails when the symbol has no stats row, or when the precision differs from the registered one. An existing row is left as it is and the call succeeds.
- `sub_balance` and `add_balance` have no comment at all. Their behaviour is inferred from their names and from the `ram_payer` argument of `add_balance`:
  - `sub_balance` fails when the owner has no row for the symbol, or when the row holds less than the value; otherwise it lowers that row by the value;
  - `add_balance` raises the owner's row by the value, and when the row is missing it adds one holding the value, paid for by `ram_payer`. `issue` and `transfer` rely on this to create the receiver's row.
- `close` with no row is read as a successful no-op ("otherwise no action is executed"). An aborting implementation would leave the tables just as unchanged.
- The create bound is read as `amount <= MAX_AMOUNT`. The comment says the maximum supply must be "smaller than the maximum supply allowed by the system", and a maximum that is allowed can itself be used.

Some token ledgers let `issue` credit any account. The comment on `issue` (atrom.token.hpp:41) forbids that, and the model follows the comment: such an issue fails with `NotIssuer`, as the scenario shows.

## Model

| member | source | states |
|---|---|---|
| `TokenContract.Token.Create` | include/atrom.token/atrom.token.hpp:24-37 | Succeeds exactly when the symbol is valid, has no stats row yet, and the maximum supply is positive and at most 2^62 - 1. On success it adds exactly that row, with the given `max_supply` and `issuer` and zero supply. No balance row changes. Each reported error names a condition that really fails; a failure changes nothing. The invariant is kept. |
| `TokenContract.Token.Issue` | include/atrom.token/atrom.token.hpp:38-46 | Fails with `NotIssuer`, changing nothing, when `to` is not the registered issuer. Succeeds exactly when all checks pass. Then the supply grows by `quantity`, `to`'s row is credited with it, and nothing else changes. The supply never passes `max_supply`. |
| `TokenContract.Token.Retire` | include/atrom.token/atrom.token.hpp:82-90 | On success `stats[sym].supply` falls by exactly `quantity`. `max_supply`, `issuer` and the other symbols' rows are unchanged. The issuer's row is debited by the same amount. The action fails, changing nothing, when that row is missing or overdrawn. |
| `TokenContract.Token.Transfer` | include/atrom.token/atrom.token.hpp:92-105 | On success `from` is debited by `quantity` and `to` is credited by it, so the sum of the two balances is unchanged. All other rows and the whole stats table are unchanged. Fails with `SelfTransfer`, `Overdrawn`, `NoBalanceRow` and so on exactly when the matching check fails. |
| `TokenContract.Token.Open` | include/atrom.token/atrom.token.hpp:106-118 | Afterwards the `(owner, symbol)` row exists. A row that was not there before is new and has a zero balance. An existing row is untouched. The stats table is unchanged. |
| `TokenContract.Token.Close` | include/atrom.token/atrom.token.hpp:120-131 | With no `(owner, symbol)` row, nothing changes. With a non-zero row, the action fails with `NonZeroBalance`. Otherwise exactly that row is removed. |
| `TokenContract.Token.GetSupply` | include/atrom.token/atrom.token.hpp:133-138 | Defined only when the stats row exists, and reads nothing else. The result is stored under its own code, lies between 0 and `max_supply`, and equals the sum of the symbol's balance rows. |
| `TokenContract.Token.GetBalance` | include/atrom.token/atrom.token.hpp:140-145 | Defined only when the row exists. The result has the registered symbol and precision, is never negative, and is never more than the symbol's supply. |
| `TokenContract.Token.SubBalance` | include/atrom.token/atrom.token.hpp:186 | Fails with `NoBalanceRow` exactly when the owner has no row, and with `Overdrawn` exactly when the row holds less than the value. Otherwise it debits that row, and only that row. |
| `TokenContract.Token.AddBalance` | include/atrom.token/atrom.token.hpp:187 | Credits the owner's row with `value`, creating the row when it is missing. The stats table is unchanged. |
| `AccountRows.KeyOf` | include/atrom.token/atrom.token.hpp:157-161 | A balance row is stored in its owner's scope under the raw symbol code of its balance, which is the `primary_key` of `account`. |
| `LedgerInvariant.Invariant` | include/atrom.token/atrom.token.hpp:157-169 | Every stats row is stored under its supply's symbol code and every balance row under its balance's code (the two `primary_key`s). Supply lies in [0, `max_supply`], `max_supply` is positive and at most 2^62 - 1, balances are never negative, balance rows exist only for created symbols with the registered precision, and each symbol's supply equals the sum of its balance rows. |
| `AccountRows.Credit` | include/atrom.token/atrom.token.hpp:187 | The credited row's balance grows by exactly the amount, and a missing row starts from zero. The row keeps its symbol. Every other row is unchanged, and the only key that can be added is the credited one. |
| `AccountRows.Debit` | include/atrom.token/atrom.token.hpp:186 | The debited row's balance falls by exactly the amount. The keys, the row's symbol and every other row are unchanged. |
| `AccountRows.Opened` | include/atrom.token/atrom.token.hpp:106-118 | The `(owner, code)` key is present afterwards. A new row is a zero balance of the symbol. Existing rows are untouched. |
| `AccountRows.Closed` | include/atrom.token/atrom.token.hpp:120-131 | Exactly the `(owner, code)` key is removed. Every remaining row is unchanged. |
| `AccountRows.CreditThenDebit` | include/atrom.token/atrom.token.hpp:186-187 | Crediting and then debiting the same quantity leaves the table as `open` would. An existing row is restored. A missing row comes back as a zero-balance row. This is the issue-then-retire round trip on balances. |
| `AccountRows.TransferRoundTrip` | include/atrom.token/atrom.token.hpp:92-105 | Transferring `q` from A to B and back restores every row. The one exception: B keeps a zero-balance row if it had none before. |
| `AccountRows.OpenIdempotent` | include/atrom.token/atrom.token.hpp:106-118 | Opening twice leaves the table as opening once. |
| `AccountRows.CloseThenOpen` | include/atrom.token/atrom.token.hpp:120-131 | Closing a zero-balance row and then opening it again reproduces the identical row. |
| `AccountRows.CreditCirculating` | include/atrom.token/atrom.token.hpp:187 | `add_balance` raises the credited symbol's circulation by exactly the amount. Other symbols are unchanged. |
| `AccountRows.DebitCirculating` | include/atrom.token/atrom.token.hpp:186 | `sub_balance` lowers the debited symbol's circulation by exactly the amount. Other symbols are unchanged. |
| `AccountRows.OpenedCirculating` | include/atrom.token/atrom.token.hpp:106-118 | Opening a row changes no symbol's circulation. |
| `AccountRows.ClosedCirculating` | include/atrom.token/atrom.token.hpp:120-131 | Erasing a zero-balance row changes no symbol's circulation. |
| `AccountRows.RowWithinCirculation` | include/atrom.token/atrom.token.hpp:157-161 | When no balance is negative, no row holds more than its symbol's total in circulation. |
| `LedgerInvariant.NewStats` | include/atrom.token/atrom.token.hpp:24-37 | The row that `create` inserts has zero supply in the maximum supply's symbol, and the given maximum supply and issuer. |
| `LedgerInvariant.WithSupply` | include/atrom.token/atrom.token.hpp:163-169 | Changing the supply keeps its symbol, the maximum supply and the issuer. |
| `LedgerInvariant.BalanceWithinSupply` | include/atrom.token/atrom.token.hpp:157-169 | Under the invariant every balance lies between 0 and its symbol's supply, which is at most 2^62 - 1. So a credit can never overflow the amount. |
| `LedgerInvariant.CreatePreserves` | include/atrom.token/atrom.token.hpp:24-37 | The new zero-supply row keeps the invariant. No balance row can already hold the new symbol, so its circulation is 0. |
| `LedgerInvariant.IssuePreserves` | include/atrom.token/atrom.token.hpp:38-46 | Raising supply and crediting the same quantity keeps supply conservation and `supply <= max_supply`. |
| `LedgerInvariant.RetirePreserves` | include/atrom.token/atrom.token.hpp:82-90 | Lowering supply and debiting the issuer keeps conservation. The supply cannot go negative, because the issuer's row is part of it. |
| `LedgerInvariant.TransferPreserves` | include/atrom.token/atrom.token.hpp:92-105 | Debit plus credit of one quantity keeps every symbol's supply equal to its balances. No balance goes negative. |
| `LedgerInvariant.OpenPreserves` | include/atrom.token/atrom.token.hpp:106-118 | A zero row with the registered precision keeps the invariant. |
| `LedgerInvariant.ClosePreserves` | include/atrom.token/atrom.token.hpp:120-131 | Removing a zero row keeps the invariant. |
| `TokenTypes.WrittenBoundExcludesEveryPositiveSupply` | include/atrom.token/atrom.token.hpp:32-33 | Read literally, the bound "1^62 - 1" is 0. No positive maximum supply stays within it. |
| `TokenTypes.MaxAmountIsIntended` | include/atrom.token/atrom.token.hpp:32 | `MAX_AMOUNT` is 2^62 - 1. It is positive and fits in the signed 64-bit amount. `1` and `MAX_AMOUNT` are in range; `MAX_AMOUNT + 1` is not. |

## Left out

- The admin actions `admin_create`, `admin_update` and `transfer_admin`, and the `admin_info` table, are not modelled. Their declarations are defective, so their meaning cannot be recovered:
  - `admin_update` names two parameters `old_admin_user`;
  - all three action wrappers bind to `create`;
  - `admin_info::primary_key` reads a `supply` field that the row does not have.
- Authorization is not modelled. The header shows no authorization check. `require_auth` and the other host calls would be in the action bodies, which are not part of this model. Recipient notification and checks that an account exists are left out for the same reason.
- Memo strings are left out. They change no table, and no length limit appears in the header.
- The RAM payer and storage billing are left out. `AddBalance` and `Open` take the payer as a parameter and ignore it.
- `multi_index` scopes, the action wrappers, ABI and serialisation are left out. Each table is a plain map keyed by (scope, primary key).
- The `token_contract_account` argument of `get_supply` and `get_balance` is not a parameter. The `Token` object the query is called on stands for that contract's tables.
- Symbol validity is a parameter, `Token.validSymbol`, because its rules live in `atrom/asset.hpp`, which is not part of this model.
- Asset arithmetic (`atrom/asset.hpp`) is not modelled either. Amounts are unbounded integers with the explicit range check `AmountInRange` (±2^62 - 1, inside int64). The overflow checks of asset `+=`/`-=` are not modelled. `LedgerInvariant.BalanceWithinSupply` shows that under the invariant no balance or supply passes `MAX_AMOUNT`.
- The order of an action's checks is not fixed. When several checks fail at once, the contracts allow any of the failing ones to be reported, since the action bodies are not shown. Each reported error always names a check that fails.
- The forward-declared `atromsystem::system_contract` is not used by anything in this model.

## Findings

| source | as written | input that shows it | evidently intended | confidence | as-written member | corrected member |
|---|---|---|---|---|---|---|
| include/atrom.token/atrom.token.hpp:32 | the maximum supply must be smaller than "1^62 - 1", which is 0 | `create` with a maximum supply of amount 1, which the positivity precondition on line 33 requires | 2^62 - 1 (`MAX_AMOUNT`) | not executed | `TokenTypes.WrittenBoundExcludesEveryPositiveSupply` | `TokenTypes.MaxAmountIsIntended` |
