/** The exchange engine: the `Marketplace` contract's state and its public
    calls. Every call takes the address of its sender (`caller`); every call
    either succeeds or reverts, and a reverted call leaves everything as it was. */
module Exchange {
  import opened Types
  import opened IndexStore
  import opened TokenLedger

  /** The lifecycle phase of a listing ID, read off the two indices. */
  datatype Phase = Open | Closed | Gone

  class Marketplace {
    /** The deployer. */
    const owner: Address
    /** The marketplace's own address, which holds the sale proceeds. */
    const self: Address
    /** The token purchases are paid in (`FYTE`). */
    var token: Token
    /** Addresses granted admin rights besides the owner. */
    var roles: set<Address>
    /** The ID the next `List` assigns. */
    var nextID: nat
    /** The live listing records; a deleted ID has no entry. */
    var listings: map<nat, Listing>
    var active: seq<nat>
    var closed: seq<nat>
    /** The (listing, buyer) pairs that have bought a type-0 listing. */
    var redeemed: set<(nat, Address)>
    /** Every ID that `Delete` has removed. */
    ghost var deleted: set<nat>

    ghost predicate Valid()
      reads this
    {
      && owner != self
      && 1 <= nextID
      && Partition(active, closed, listings.Keys)
      && (forall id :: id in listings ==> WellFormed(id, listings[id]) && id < nextID)
      && (forall id :: id in deleted ==> 1 <= id < nextID && id !in listings)
    }

    /** Deployment by `deployer` at address `at`, settling in `fyte`. */
    constructor (deployer: Address, at: Address, fyte: Token)
      requires deployer != at
      ensures Valid()
      ensures owner == deployer && self == at && token == fyte
      ensures roles == {} && nextID == 1 && listings == map[]
      ensures active == [] && closed == [] && redeemed == {} && deleted == {}
    {
      owner := deployer;
      self := at;
      token := fyte;
      roles := {};
      nextID := 1;
      listings := map[];
      active := [];
      closed := [];
      redeemed := {};
      deleted := {};
    }

    /** The owner and the role holders may list and close. */
    predicate IsAdmin(who: Address)
      reads this
    {
      who == owner || who in roles
    }

    /** `getActiveListings`: the active IDs, oldest first. */
    function ActiveListings(): (r: seq<nat>)
      reads this
      requires Valid()
      ensures Distinct(r)
      ensures forall id :: id in r ==> id in listings && id !in closed
    {
      active
    }

    /** `getClosedListings`: the closed IDs, in the order they closed. */
    function ClosedListings(): (r: seq<nat>)
      reads this
      requires Valid()
      ensures Distinct(r)
      ensures forall id :: id in r ==> id in listings && id !in active
    {
      closed
    }

    /** `listings(id)`: the record, or the all-zero record for an ID with none. */
    function Lookup(id: nat): (l: Listing)
      reads this
      requires Valid()
      ensures l.listingID == 0 <==> id !in listings
      ensures id !in listings ==> l == ZEROED
      ensures l.listingID != 0 ==> l.listingID == id && l.currentEntrants <= l.totalEntrants
    {
      if id in listings then listings[id] else ZEROED
    }

    /** A listing is open when its ID is in `active`, closed when it is in
        `closed`, and gone otherwise; no ID is in both. */
    function PhaseOf(id: nat): (p: Phase)
      reads this
      requires Valid()
      ensures p == Open <==> id in active
      ensures p == Closed <==> id in closed
      ensures p == Gone <==> id !in listings
    {
      if id in active then Open else if id in closed then Closed else Gone
    }

    /** `List(type, strings, ints)`: an admin creates a listing under the next
        ID and appends it to `active`; the ID is the `Listed` value. */
    method List(caller: Address, listingType: nat, payload: seq<string>, terms: Terms) returns (r: Result<nat>)
      requires Valid()
      modifies this
      ensures Valid()
      ensures !old(IsAdmin(caller)) ==> r == Fail(InvalidPermissions)
      ensures old(IsAdmin(caller)) && listingType >= LISTING_TYPES ==> r == Fail(InvalidType)
      ensures r.Fail? ==> unchanged(this)
      ensures old(IsAdmin(caller)) && listingType < LISTING_TYPES ==>
        && r == Ok(old(nextID))
        && nextID == old(nextID) + 1
        && listings == old(listings)[r.value := Listing(r.value, listingType, payload, terms.unitPrice, terms.extra, terms.totalEntrants, 0)]
        && active == old(active) + [r.value]
        && closed == old(closed) && roles == old(roles) && token == old(token)
        && redeemed == old(redeemed) && deleted == old(deleted)
      ensures r.Ok? ==> r.value !in old(listings) && r.value !in deleted && r.value < nextID
    {
      if !IsAdmin(caller) {
        return Fail(InvalidPermissions);
      }
      if listingType >= LISTING_TYPES {
        return Fail(InvalidType);
      }
      var id := nextID;
      InsertKeepsPartition(active, closed, listings.Keys, id);
      listings := listings[id := Listing(id, listingType, payload, terms.unitPrice, terms.extra, terms.totalEntrants, 0)];
      active := active + [id];
      nextID := nextID + 1;
      r := Ok(id);
    }

    /** `Close(id)`: an admin moves an active listing to the end of `closed`;
        the ID is the `Closed` value. */
    method Close(caller: Address, id: nat) returns (r: Result<nat>)
      requires Valid()
      modifies this
      ensures Valid()
      ensures !old(IsAdmin(caller)) ==> r == Fail(InvalidPermissions)
      ensures old(IsAdmin(caller)) && id !in old(active) ==> r == Fail(InvalidListing)
      ensures r.Fail? ==> unchanged(this)
      ensures old(IsAdmin(caller)) && id in old(active) ==>
        && r == Ok(id)
        && active == Without(old(active), id)
        && closed == old(closed) + [id]
        && listings == old(listings) && nextID == old(nextID) && roles == old(roles)
        && token == old(token) && redeemed == old(redeemed) && deleted == old(deleted)
    {
      if !IsAdmin(caller) {
        return Fail(InvalidPermissions);
      }
      if id !in active {
        return Fail(InvalidListing);
      }
      MoveKeepsPartition(active, closed, listings.Keys, id);
      active := Remove(active, id);
      closed := closed + [id];
      r := Ok(id);
    }

    /** `Delete(id)`: the owner removes a live listing, active or closed, from
        its index and drops its record. */
    method Delete(caller: Address, id: nat) returns (r: Result<()>)
      requires Valid()
      modifies this
      ensures Valid()
      ensures caller != owner ==> r == Fail(InvalidPermissions)
      ensures caller == owner && id !in old(active) && id !in old(closed) ==> r == Fail(InvalidListing)
      ensures r.Fail? ==> unchanged(this)
      ensures caller == owner && (id in old(active) || id in old(closed)) ==>
        && r == Ok(())
        && active == Without(old(active), id)
        && closed == Without(old(closed), id)
        && listings == old(listings) - {id}
        && deleted == old(deleted) + {id}
        && nextID == old(nextID) && roles == old(roles) && token == old(token) && redeemed == old(redeemed)
      ensures r.Ok? ==> id !in active && id !in closed && Lookup(id) == ZEROED
    {
      if caller != owner {
        return Fail(InvalidPermissions);
      }
      if id !in active && id !in closed {
        return Fail(InvalidListing);
      }
      DropKeepsPartition(active, closed, listings.Keys, id);
      if id in active {
        WithoutAbsent(closed, id);
        active := Remove(active, id);
      } else {
        WithoutAbsent(active, id);
        closed := Remove(closed, id);
      }
      listings := listings - {id};
      deleted := deleted + {id};
      r := Ok(());
    }

    /** `Buy(id, amount)`: any caller buys `amount` units of an active
        listing, paying `unitPrice * amount` from its balance (through its
        allowance to the marketplace) to the marketplace. The units count
        towards the capacity, and the purchase that fills it closes the
        listing. A type-0 listing sells one unit per call and one call per buyer.
        The buyer and the amount are the `Purchase` values. */
    method Buy(caller: Address, id: nat, amount: nat) returns (r: Result<Purchase>)
      requires Valid()
      modifies this, token
      ensures Valid()
      ensures token == old(token)
      ensures Total(token.balances) == old(Total(token.balances))
      ensures id !in old(active) ==> r == Fail(InvalidListing)
      ensures id in old(active) && amount == 0 ==> r == Fail(InvalidAmount)
      ensures id in old(active) && amount > 0 ==>
        var l := old(listings[id]);
        var oversold := l.currentEntrants + amount > l.totalEntrants;
        var once := l.listingType == 0 ==> amount == 1 && (id, caller) !in old(redeemed);
        var funded := Cost(l, amount) <= old(token.Balance(caller)) && Cost(l, amount) <= old(token.Allowance(caller, self));
        && (oversold ==> r == Fail(Reverted))
        && (!oversold && !once ==> r == Fail(Reverted))
        && (!oversold && once && !funded ==> r == Fail(ApproveFailed))
        && (!oversold && once && funded ==> r.Ok?)
      ensures r.Fail? ==> unchanged(this) && unchanged(token)
      ensures r.Ok? ==>
        var l := old(listings[id]);
        var cost := Cost(l, amount);
        var sold := l.currentEntrants + amount;
        && r == Ok(Purchase(caller, amount))
        && cost <= old(token.Balance(caller))
        && token.balances == Move(old(token.balances), caller, self, cost)
        && token.allowances == old(token.allowances)[(caller, self) := old(token.Allowance(caller, self)) - cost]
        && listings == old(listings)[id := l.(currentEntrants := sold)]
        && redeemed == (if l.listingType == 0 then old(redeemed) + {(id, caller)} else old(redeemed))
        && (sold == l.totalEntrants ==> active == Without(old(active), id) && closed == old(closed) + [id])
        && (sold < l.totalEntrants ==> active == old(active) && closed == old(closed))
        && nextID == old(nextID) && roles == old(roles) && deleted == old(deleted)
    {
      if id !in active {
        return Fail(InvalidListing);
      }
      if amount == 0 {
        return Fail(InvalidAmount);
      }
      var l := listings[id];
      if l.currentEntrants + amount > l.totalEntrants {
        return Fail(Reverted);
      }
      if l.listingType == 0 && (amount != 1 || (id, caller) in redeemed) {
        return Fail(Reverted);
      }
      var cost := Cost(l, amount);
      var paid := token.TransferFrom(self, caller, self, cost);
      if !paid {
        return Fail(ApproveFailed);
      }
      Record(caller, id, amount);
      r := Ok(Purchase(caller, amount));
    }

    /** The bookkeeping of a paid purchase: count the units, remember a type-0
        buyer, and close the listing when the units fill its capacity. */
    method Record(caller: Address, id: nat, amount: nat)
      requires Valid()
      requires id in active
      requires listings[id].currentEntrants + amount <= listings[id].totalEntrants
      modifies this
      ensures Valid()
      ensures
        var l := old(listings[id]);
        var sold := l.currentEntrants + amount;
        && listings == old(listings)[id := l.(currentEntrants := sold)]
        && redeemed == (if l.listingType == 0 then old(redeemed) + {(id, caller)} else old(redeemed))
        && (sold == l.totalEntrants ==> active == Without(old(active), id) && closed == old(closed) + [id])
        && (sold < l.totalEntrants ==> active == old(active) && closed == old(closed))
        && nextID == old(nextID) && roles == old(roles) && deleted == old(deleted) && token == old(token)
    {
      var l := listings[id];
      var sold := l.currentEntrants + amount;
      listings := listings[id := l.(currentEntrants := sold)];
      if l.listingType == 0 {
        redeemed := redeemed + {(id, caller)};
      }
      if sold == l.totalEntrants {
        MoveKeepsPartition(active, closed, listings.Keys, id);
        active := Remove(active, id);
        closed := closed + [id];
      }
    }

    /** `Edit(id, strings, ints)`: the owner replaces the metadata, price,
        second number and capacity of a live listing; its ID, type, sold count
        and index are kept, and the capacity may not drop below the sold count. */
    method Edit(caller: Address, id: nat, payload: seq<string>, terms: Terms) returns (r: Result<()>)
      requires Valid()
      modifies this
      ensures Valid()
      ensures caller != owner ==> r == Fail(InvalidPermissions)
      ensures caller == owner && id !in old(listings) ==> r == Fail(InvalidListing)
      ensures caller == owner && id in old(listings) && terms.totalEntrants < old(listings[id]).currentEntrants ==>
        r == Fail(InvalidTotalEntrants)
      ensures r.Fail? ==> unchanged(this)
      ensures caller == owner && id in old(listings) && terms.totalEntrants >= old(listings[id]).currentEntrants ==>
        && r == Ok(())
        && listings == old(listings)[id := old(listings[id]).(payload := payload, unitPrice := terms.unitPrice,
                                                              extra := terms.extra, totalEntrants := terms.totalEntrants)]
        && active == old(active) && closed == old(closed) && nextID == old(nextID) && roles == old(roles)
        && token == old(token) && redeemed == old(redeemed) && deleted == old(deleted)
    {
      if caller != owner {
        return Fail(InvalidPermissions);
      }
      if id !in listings {
        return Fail(InvalidListing);
      }
      var l := listings[id];
      if terms.totalEntrants < l.currentEntrants {
        return Fail(InvalidTotalEntrants);
      }
      listings := listings[id := l.(payload := payload, unitPrice := terms.unitPrice,
                                    extra := terms.extra, totalEntrants := terms.totalEntrants)];
      r := Ok(());
    }

    /** `changeToken(t)`: the owner points future settlement at another token. */
    method ChangeToken(caller: Address, t: Token) returns (r: Result<()>)
      requires Valid()
      modifies this
      ensures Valid()
      ensures caller != owner ==> r == Fail(InvalidPermissions) && unchanged(this)
      ensures caller == owner ==>
        && r == Ok(())
        && token == t
        && roles == old(roles) && nextID == old(nextID) && listings == old(listings) && active == old(active)
        && closed == old(closed) && redeemed == old(redeemed) && deleted == old(deleted)
    {
      if caller != owner {
        return Fail(InvalidPermissions);
      }
      token := t;
      r := Ok(());
    }

    /** `AddRole(who)`: the owner grants admin rights; granting them twice is not an error. */
    method AddRole(caller: Address, who: Address) returns (r: Result<()>)
      requires Valid()
      modifies this
      ensures Valid()
      ensures caller != owner ==> r == Fail(InvalidPermissions) && unchanged(this)
      ensures caller == owner ==>
        && r == Ok(())
        && roles == old(roles) + {who}
        && token == old(token) && nextID == old(nextID) && listings == old(listings) && active == old(active)
        && closed == old(closed) && redeemed == old(redeemed) && deleted == old(deleted)
    {
      if caller != owner {
        return Fail(InvalidPermissions);
      }
      roles := roles + {who};
      r := Ok(());
    }

    /** `RemoveRole(who)`: the owner revokes admin rights; revoking them from a
        non-holder is not an error, and the owner stays an admin regardless. */
    method RemoveRole(caller: Address, who: Address) returns (r: Result<()>)
      requires Valid()
      modifies this
      ensures Valid()
      ensures caller != owner ==> r == Fail(InvalidPermissions) && unchanged(this)
      ensures caller == owner ==>
        && r == Ok(())
        && roles == old(roles) - {who}
        && token == old(token) && nextID == old(nextID) && listings == old(listings) && active == old(active)
        && closed == old(closed) && redeemed == old(redeemed) && deleted == old(deleted)
    {
      if caller != owner {
        return Fail(InvalidPermissions);
      }
      roles := roles - {who};
      r := Ok(());
    }

    /** `withdrawToken(amount)`: the owner takes `amount` of the marketplace's
        token balance, which must cover it. */
    method WithdrawToken(caller: Address, amount: nat) returns (r: Result<()>)
      requires Valid()
      modifies token
      ensures Valid() && unchanged(this)
      ensures Total(token.balances) == old(Total(token.balances))
      ensures caller != owner ==> r == Fail(InvalidPermissions)
      ensures caller == owner && amount > old(token.Balance(self)) ==> r == Fail(InvalidAmount)
      ensures r.Fail? ==> unchanged(token)
      ensures caller == owner && amount <= old(token.Balance(self)) ==>
        && r == Ok(())
        && token.balances == Move(old(token.balances), self, owner, amount)
        && token.allowances == old(token.allowances)
    {
      if caller != owner {
        return Fail(InvalidPermissions);
      }
      if amount > token.Balance(self) {
        return Fail(InvalidAmount);
      }
      var ok := token.Transfer(self, owner, amount);
      r := Ok(());
    }
  }
}
