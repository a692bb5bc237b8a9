/** Client code that replays the call sequences of the marketplace's test
    suite against the contracts of `Exchange.Marketplace`: every assertion
    below follows from those contracts alone. */
module Scenarios {
  import opened Types
  import opened IndexStore
  import opened TokenLedger
  import opened Exchange

  const OWNER: Address := 1
  const BUYER: Address := 2
  const MARKET: Address := 100

  const STRINGS: seq<string> :=
    ["imageURL", "websiteURL", "discordURL", "twitterURL", "marketplaceURL", "name", "desciprtion", "enddate"]
  const INTS: Terms := Terms(10, 1, 10)

  /** A fresh token in which `BUYER` holds `funds` and has allowed the
      marketplace `funds`, and a fresh marketplace deployed by `OWNER`. */
  method Deploy(funds: nat) returns (m: Marketplace, t: Token)
    ensures fresh(m) && fresh(t)
    ensures m.Valid() && m.owner == OWNER && m.self == MARKET && m.token == t
    ensures m.roles == {} && m.nextID == 1 && m.listings == map[] && m.active == [] && m.closed == []
    ensures m.redeemed == {}
    ensures t.Balance(BUYER) == funds && t.Allowance(BUYER, MARKET) == funds
    ensures t.Balance(MARKET) == 0 && t.Balance(OWNER) == 0
  {
    t := new Token(map[BUYER := funds], map[(BUYER, MARKET) := funds]);
    m := new Marketplace(OWNER, MARKET, t);
  }

  method DeploymentState()
  {
    var m, t := Deploy(0);
    assert m.ActiveListings() == [];
    assert m.token == t;
  }

  method ListingGates()
  {
    var m, t := Deploy(0);
    var r := m.List(BUYER, 1, STRINGS, INTS);
    assert r == Fail(InvalidPermissions) && Reason(r.error) == "Invalid Permissions";
    r := m.List(OWNER, 3, STRINGS, INTS);
    assert r == Fail(InvalidType) && Reason(r.error) == "Invalid Type";
    assert m.active == [] && m.nextID == 1;
  }

  method ListingTypes()
  {
    var m, t := Deploy(0);
    var r0 := m.List(OWNER, 0, STRINGS, INTS);
    assert r0 == Ok(1) && m.active == [1];
    var r1 := m.List(OWNER, 1, STRINGS, INTS);
    var r2 := m.List(OWNER, 2, STRINGS, INTS);
    assert r1 == Ok(2) && r2 == Ok(3);
    assert m.active == [1, 2, 3];
    assert m.active[1] - m.active[0] == 1;
  }

  method Closing()
  {
    var m, t := Deploy(0);
    var l := m.List(OWNER, 1, STRINGS, INTS);
    var c := m.Close(BUYER, 1);
    assert c == Fail(InvalidPermissions);
    c := m.Close(OWNER, 2);
    assert c == Fail(InvalidListing) && Reason(c.error) == "Invalid Listing";
    c := m.Close(OWNER, 1);
    assert c == Ok(1);
    assert m.active == Without([1], 1) == [];
    assert m.closed == [1];
    c := m.Close(OWNER, 1);
    assert c == Fail(InvalidListing) && m.active == [] && m.closed == [1];
  }

  method DeletingActive()
  {
    var m, t := Deploy(0);
    var d := m.Delete(OWNER, 1);
    assert d == Fail(InvalidListing);
    var l := m.List(OWNER, 1, STRINGS, INTS);
    assert m.active == [1] && m.closed == [];
    d := m.Delete(BUYER, 1);
    assert d == Fail(InvalidPermissions);
    d := m.Delete(OWNER, 1);
    assert d == Ok(());
    assert m.active == Without([1], 1) == [];
    assert m.Lookup(1).listingID == 0 && m.Lookup(0).listingID == 0;
  }

  method DeletingClosed()
  {
    var m, t := Deploy(0);
    var l := m.List(OWNER, 1, STRINGS, INTS);
    assert l == Ok(1) && m.active == [1] && m.closed == [];
    var c := m.Close(OWNER, 1);
    assert c == Ok(1) && m.closed == [1];
    var d := m.Delete(OWNER, 1);
    assert d == Ok(());
    assert m.closed == Without([1], 1) == [];
    d := m.Delete(OWNER, 1);
    assert d == Fail(InvalidListing);
    l := m.List(OWNER, 1, STRINGS, INTS);
    assert l == Ok(2);
  }

  method BuyingRefusals()
  {
    var m, t := Deploy(0);
    var l := m.List(OWNER, 1, STRINGS, INTS);
    var b := m.Buy(BUYER, 2, 1);
    assert b == Fail(InvalidListing);
    b := m.Buy(BUYER, 1, 0);
    assert b == Fail(InvalidAmount);
    b := m.Buy(BUYER, 1, 1);
    assert Cost(m.listings[1], 1) == 10;
    assert b == Fail(ApproveFailed) && Reason(b.error) == "Approve Failed";
    var c := m.Close(OWNER, 1);
    b := m.Buy(BUYER, 1, 1);
    assert b == Fail(InvalidListing);
  }

  method BuyingTransfers()
  {
    var m, t := Deploy(20);
    var l := m.List(OWNER, 1, STRINGS, INTS);
    assert Cost(m.listings[1], 2) == 20;
    var b := m.Buy(BUYER, 1, 2);
    assert b == Ok(Purchase(BUYER, 2));
    assert t.Balance(BUYER) == 0 && t.Balance(MARKET) == 20;
    assert m.listings[1].currentEntrants == 2 && m.active == [1];
    var e := m.Edit(BUYER, 1, STRINGS, Terms(10, 1, 1));
    assert e == Fail(InvalidPermissions);
    e := m.Edit(OWNER, 1, STRINGS, Terms(10, 1, 1));
    assert e == Fail(InvalidTotalEntrants) && Reason(e.error) == "Invalid Total Entrants";
    var w := m.WithdrawToken(BUYER, 10);
    assert w == Fail(InvalidPermissions);
    w := m.WithdrawToken(OWNER, 30);
    assert w == Fail(InvalidAmount);
    w := m.WithdrawToken(OWNER, 20);
    assert w == Ok(());
    assert t.Balance(MARKET) == 0 && t.Balance(OWNER) == 20;
  }

  method WithdrawingEmpty()
  {
    var m, t := Deploy(0);
    var w := m.WithdrawToken(BUYER, 1);
    assert w == Fail(InvalidPermissions) && Reason(w.error) == "Invalid Permissions";
    w := m.WithdrawToken(OWNER, 10);
    assert w == Fail(InvalidAmount) && Reason(w.error) == "Invalid Amount";
  }

  method TypeZero()
  {
    var m, t := Deploy(20);
    var l := m.List(OWNER, 0, STRINGS, INTS);
    var b := m.Buy(BUYER, 1, 2);
    assert b == Fail(Reverted);
    b := m.Buy(BUYER, 1, 1);
    assert Cost(m.listings[1], 1) == 10;
    assert b.Ok? && t.Balance(BUYER) == 10;
    b := m.Buy(BUYER, 1, 1);
    assert b == Fail(Reverted);
  }

  method LastUnitCloses()
  {
    var m, t := Deploy(10);
    var l := m.List(OWNER, 1, STRINGS, Terms(10, 1, 1));
    assert Cost(m.listings[1], 1) == 10;
    var b := m.Buy(BUYER, 1, 1);
    assert b.Ok?;
    assert m.closed == [1] && m.active == Without([1], 1) == [];
    assert t.Balance(BUYER) == 0 && t.Balance(MARKET) == 10;
  }

  method Administration(other: Token)
  {
    var m, t := Deploy(0);
    var r := m.ChangeToken(BUYER, other);
    assert r == Fail(InvalidPermissions) && m.token == t;
    r := m.AddRole(BUYER, BUYER);
    assert r == Fail(InvalidPermissions);
    r := m.AddRole(OWNER, BUYER);
    assert m.IsAdmin(BUYER);
    var l := m.List(BUYER, 1, STRINGS, INTS);
    assert l == Ok(1);
    r := m.RemoveRole(BUYER, OWNER);
    assert r == Fail(InvalidPermissions);
    r := m.RemoveRole(OWNER, BUYER);
    assert !m.IsAdmin(BUYER);
    r := m.RemoveRole(BUYER, OWNER);
    assert r == Fail(InvalidPermissions);
    r := m.RemoveRole(OWNER, OWNER);
    assert m.IsAdmin(OWNER);
    r := m.ChangeToken(OWNER, other);
    assert r == Ok(()) && m.token == other;
  }
}
