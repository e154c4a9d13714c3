/** A client of the token contract, showing what the action contracts let a caller
    conclude about a run of actions without looking at their bodies. */
module TokenScenario {
  import opened TokenTypes
  import opened AccountRows
  import opened LedgerInvariant
  import opened TokenContract

  /** "TOK" with two decimals; the code is the raw value of the three letters. */
  const TOK: Symbol := Symbol(0x4B4F54, 2)

  const ISSUER: Name := 1
  const ALICE: Name := 2
  const BOB: Name := 3

  /** A contract where ISSUER has created TOK with a maximum of 1000.00 and issued 100.00
      to itself. Only the issuer may receive issued tokens. */
  method CreateAndIssue() returns (token: Token)
    ensures fresh(token) && token.Valid() && token.validSymbol(TOK)
    ensures token.stats == map[TOK.code := WithSupply(NewStats(ISSUER, Asset(100000, TOK)), 10000)]
    ensures token.accounts == map[(ISSUER, TOK.code) := Asset(10000, TOK)]
  {
    token := new Token((s: Symbol) => true);
    var r := token.Create(ISSUER, Asset(100000, TOK));
    assert r == Ok;
    r := token.Create(ALICE, Asset(5, TOK));
    assert r == Fail(AlreadyExists);
    r := token.Issue(ALICE, Asset(10000, TOK));
    assert r == Fail(NotIssuer);
    r := token.Issue(ISSUER, Asset(10000, TOK));
    assert r == Ok;
    assert token.GetSupply(TOK.code).amount == 10000;
  }

  /** Transfer moves tokens between rows; retire always draws on the issuer's own row. */
  method TransferThenRetire()
  {
    var token := CreateAndIssue();
    var r := token.Transfer(ISSUER, ALICE, Asset(4000, TOK));
    assert r == Ok;
    assert token.GetBalance(ISSUER, TOK.code).amount == 6000;
    assert token.GetBalance(ALICE, TOK.code).amount == 4000;

    r := token.Retire(Asset(6000, TOK));
    assert r == Ok;
    assert token.GetSupply(TOK.code).amount == 4000;
    assert token.GetBalance(ISSUER, TOK.code).amount == 0;
    r := token.Retire(Asset(1, TOK));
    assert r == Fail(Overdrawn);
  }

  /** A row with tokens cannot be closed; an empty one can, and reopens as it was. */
  method CloseAndReopen()
  {
    var token := CreateAndIssue();
    var r := token.Close(ISSUER, TOK);
    assert r == Fail(NonZeroBalance);
    r := token.Retire(Asset(10000, TOK));
    assert r == Ok;
    r := token.Close(ISSUER, TOK);
    assert r == Ok;
    r := token.Close(ISSUER, TOK);
    assert r == Ok && token.accounts == map[];
    r := token.Open(ISSUER, TOK, BOB);
    assert r == Ok;
    assert token.GetBalance(ISSUER, TOK.code) == ZeroOf(TOK);
  }
}
