/** The wallet transfer of a trip payment: the payer's balance goes down by the trip
    cost and the first flatbed account bearing the driver's display name goes up by it. */
module Wallet {
  import opened Types

  predicate IsDriverNamed(u: User, name: string) {
    u.name == name && u.role == Some(FlatbedRole)
  }

  /** `users.findIndex(u => u.name === name && u.role === flatbed)`. */
  function FirstDriver(users: seq<User>, name: string): (r: Option<nat>)
    ensures r.Some? ==> r.value < |users| && IsDriverNamed(users[r.value], name)
                        && forall j :: 0 <= j < r.value ==> !IsDriverNamed(users[j], name)
    ensures r.None? ==> forall j :: 0 <= j < |users| ==> !IsDriverNamed(users[j], name)
    decreases |users|
  {
    if users == [] then None
    else if IsDriverNamed(users[0], name) then Some(0)
    else match FirstDriver(users[1..], name)
         case None => None
         case Some(k) => Some(k + 1)
  }

  /** The payer's record after paying: the on-screen copy with the cost taken off. */
  function PayerAfter(payer: User, cost: int): User {
    payer.(walletBalance := payer.walletBalance - cost)
  }

  /** `allUsers.map(u => u.username === payer.username ? updatedPayer : u)`. */
  function Debited(users: seq<User>, payer: User, cost: int): (r: seq<User>)
    ensures |r| == |users|
    ensures forall j :: 0 <= j < |users| ==>
              r[j] == (if users[j].username == payer.username then PayerAfter(payer, cost) else users[j])
    decreases |users|
  {
    if users == [] then []
    else [if users[0].username == payer.username then PayerAfter(payer, cost) else users[0]]
         + Debited(users[1..], payer, cost)
  }

  /** Where the credit goes: the first flatbed account named like the request's driver, if the request has one. */
  function CreditIndex(debited: seq<User>, driverName: Option<string>): Option<nat> {
    if Truthy(driverName) then FirstDriver(debited, driverName.value) else None
  }

  /** The whole user list after a payment of `cost`. */
  function PaidUsers(users: seq<User>, payer: User, cost: int, driverName: Option<string>): (r: seq<User>)
    ensures |r| == |users|
  {
    var d := Debited(users, payer, cost);
    match CreditIndex(d, driverName)
    case None => d
    case Some(k) => d[k := d[k].(walletBalance := d[k].walletBalance + cost)]
  }

  /** The transfer as `handlePayment` performs it: the debit map, then the driver lookup
      and the credit written at that index. */
  method Transfer(users: seq<User>, payer: User, cost: int, driverName: Option<string>) returns (all: seq<User>)
    ensures all == PaidUsers(users, payer, cost, driverName)
  {
    all := Debited(users, payer, cost);
    if Truthy(driverName) {
      var k := FirstDriver(all, driverName.value);
      if k.Some? {
        var driver := all[k.value];
        all := all[k.value := driver.(walletBalance := driver.walletBalance + cost)];
      }
    }
  }

  function TotalBalance(users: seq<User>): int
    decreases |users|
  {
    if users == [] then 0 else users[0].walletBalance + TotalBalance(users[1..])
  }

  predicate NonNegativeBalances(users: seq<User>) {
    forall j :: 0 <= j < |users| ==> users[j].walletBalance >= 0
  }

  /** Exactly one account carries the payer's username, and it is the payer's on-screen copy. */
  predicate PayerStoredOnceAt(users: seq<User>, payer: User, k: nat) {
    && k < |users|
    && users[k] == payer
    && forall j :: 0 <= j < |users| && j != k ==> users[j].username != payer.username
  }

  lemma {:induction false} TotalAfterUpdate(users: seq<User>, k: nat, u: User)
    requires k < |users|
    ensures TotalBalance(users[k := u]) == TotalBalance(users) - users[k].walletBalance + u.walletBalance
    decreases |users|
  {
    if k > 0 {
      TotalAfterUpdate(users[1..], k - 1, u);
      assert users[k := u][1..] == users[1..][k - 1 := u];
    }
  }

  /** With the payer stored once, the debit is a point update of the payer's entry, and it
      keeps every account's name and role. */
  lemma {:induction false} DebitedIsPointUpdate(users: seq<User>, payer: User, cost: int, k: nat)
    requires PayerStoredOnceAt(users, payer, k)
    ensures Debited(users, payer, cost) == users[k := PayerAfter(payer, cost)]
    ensures forall j :: 0 <= j < |users| ==>
              Debited(users, payer, cost)[j].name == users[j].name && Debited(users, payer, cost)[j].role == users[j].role
  {
    assert Debited(users, payer, cost) == users[k := PayerAfter(payer, cost)];
  }

  /** Every account's new balance: the payer is down by `cost`, the credited driver is up by
      `cost`, and every other account is exactly as it was. */
  lemma {:induction false} PaymentBalances(users: seq<User>, payer: User, cost: int, driverName: Option<string>)
    ensures var r := PaidUsers(users, payer, cost, driverName);
            var k := CreditIndex(Debited(users, payer, cost), driverName);
            forall j :: 0 <= j < |users| ==>
              r[j].walletBalance
                == (if users[j].username == payer.username then payer.walletBalance - cost
                    else users[j].walletBalance)
                   + (if k == Some(j) then cost else 0)
              && (users[j].username != payer.username && k != Some(j) ==> r[j] == users[j])
  {
  }

  /** When the payer's copy is the stored one and a flatbed account with the driver's name
      exists, a payment moves money and creates none: the total balance is unchanged. */
  lemma {:induction false} PaymentConservesTotal(users: seq<User>, payer: User, cost: int, driverName: Option<string>, k: nat, dj: nat)
    requires PayerStoredOnceAt(users, payer, k)
    requires Truthy(driverName) && dj < |users| && IsDriverNamed(users[dj], driverName.value)
    ensures TotalBalance(PaidUsers(users, payer, cost, driverName)) == TotalBalance(users)
  {
    var d := Debited(users, payer, cost);
    DebitedIsPointUpdate(users, payer, cost, k);
    TotalAfterUpdate(users, k, PayerAfter(payer, cost));
    assert IsDriverNamed(d[dj], driverName.value);
    var c := FirstDriver(d, driverName.value);
    assert c.Some?;
    var u := d[c.value].(walletBalance := d[c.value].walletBalance + cost);
    assert PaidUsers(users, payer, cost, driverName) == d[c.value := u];
    TotalAfterUpdate(d, c.value, u);
  }

  /** With no flatbed account of that name the payer is still charged: the total drops by the cost. */
  lemma {:induction false} PaymentWithoutDriverLosesCost(users: seq<User>, payer: User, cost: int, driverName: Option<string>, k: nat)
    requires PayerStoredOnceAt(users, payer, k)
    requires !Truthy(driverName) || forall j :: 0 <= j < |users| ==> !IsDriverNamed(users[j], driverName.value)
    ensures TotalBalance(PaidUsers(users, payer, cost, driverName)) == TotalBalance(users) - cost
  {
    DebitedIsPointUpdate(users, payer, cost, k);
    TotalAfterUpdate(users, k, PayerAfter(payer, cost));
  }

  /** A payment the payer can afford never drives any balance below zero. */
  lemma {:induction false} PaymentKeepsBalancesNonNegative(users: seq<User>, payer: User, cost: int, driverName: Option<string>)
    requires NonNegativeBalances(users)
    requires 0 <= cost <= payer.walletBalance
    ensures NonNegativeBalances(PaidUsers(users, payer, cost, driverName))
  {
    PaymentBalances(users, payer, cost, driverName);
  }
}
