/** Whole-list rewrites of the active-requests store and the invariant every
    handler keeps: each owner has at most one active request, and every stored
    bill total is the total of its lines and labor. */
module Lifecycle {
  import opened Types
  import opened Seqs
  import opened Billing
  import opened Requests

  /** No two active requests belong to the same owner. */
  predicate UniqueOwners(all: seq<Request>) {
    forall i, j :: 0 <= i < j < |all| ==> all[i].username != all[j].username
  }

  predicate BillsConsistent(all: seq<Request>) {
    forall i :: 0 <= i < |all| ==> BillConsistent(all[i])
  }

  predicate WellFormed(all: seq<Request>) {
    UniqueOwners(all) && BillsConsistent(all)
  }

  /** A rewrite by record that keeps each record's owner and a consistent bill consistent
      keeps the store well formed. */
  lemma {:induction false} MapWhereKeepsWellFormed(all: seq<Request>, id: int, f: Request -> Request)
    requires WellFormed(all)
    requires forall r :: f(r).username == r.username
    requires forall r :: BillConsistent(r) ==> BillConsistent(f(r))
    ensures WellFormed(MapWhere(all, id, f))
  {
  }

  /** Dropping records keeps the store well formed. */
  lemma {:induction false} FilterKeepsWellFormed(all: seq<Request>, p: Request -> bool)
    requires WellFormed(all)
    ensures WellFormed(Filter(all, p))
    decreases |all|
  {
    if all != [] {
      var t := Filter(all[1..], p);
      FilterKeepsWellFormed(all[1..], p);
      forall j | 0 <= j < |t| ensures t[j].username != all[0].username {
        FilterMembers(all[1..], p, t[j]);
        var k :| 0 <= k < |all[1..]| && all[1..][k] == t[j];
        assert all[k + 1] == t[j];
      }
    }
  }

  /** Cancelling is the filter on the id. */
  lemma {:induction false} RemoveIdIsFilter(all: seq<Request>, id: int)
    ensures RemoveId(all, id) == Filter(all, (r: Request) => r.id != id)
    decreases |all|
  {
    if all != [] {
      RemoveIdIsFilter(all[1..], id);
    }
  }

  lemma {:induction false} StatusUpdateKeepsWellFormed(all: seq<Request>, id: int, s: Status)
    requires WellFormed(all)
    ensures WellFormed(StatusUpdated(all, id, s))
  {
    if s == Cancelled {
      RemoveIdIsFilter(all, id);
      FilterKeepsWellFormed(all, (r: Request) => r.id != id);
    } else {
      MapWhereKeepsWellFormed(all, id, (r: Request) => r.(status := s));
    }
  }

  /** An arrival confirmation keeps the store well formed: it touches neither owner nor bill. */
  lemma {:induction false} ConfirmationKeepsWellFormed(all: seq<Request>, id: int, isDriver: bool, dist: Distance)
    requires WellFormed(all)
    ensures WellFormed(MapWhere(all, id, (r: Request) => Confirmed(r, isDriver, dist)))
  {
    var f := (r: Request) => Confirmed(r, isDriver, dist);
    forall r ensures f(r).username == r.username && (BillConsistent(r) ==> BillConsistent(f(r))) {
      ConfirmedKeepsOwnerAndBill(r, isDriver, dist);
    }
    MapWhereKeepsWellFormed(all, id, f);
  }

  /** Marking a request paid keeps the store well formed. */
  lemma {:induction false} PaymentKeepsWellFormed(all: seq<Request>, id: int)
    requires WellFormed(all)
    ensures WellFormed(MapWhere(all, id, MarkedPaid))
  {
    forall r ensures MarkedPaid(r).username == r.username && (BillConsistent(r) ==> BillConsistent(MarkedPaid(r))) {
      assert MarkedPaid(r).billItems == r.billItems && MarkedPaid(r).laborCost == r.laborCost;
    }
    MapWhereKeepsWellFormed(all, id, MarkedPaid);
  }

  // ----- creation / refresh -----

  /** Whether the creation effect writes the store: the owner has no request yet, or has one
      still open to changes. */
  predicate SubmitWrites(all: seq<Request>, owner: User) {
    match IndexOfUser(all, owner.username)
    case None => true
    case Some(k) => Refreshable(all[k].status)
  }

  /** The store after the creation effect: a new request appended, or the owner's open one
      refreshed in place, or (past negotiation) nothing changed. */
  function Submitted(all: seq<Request>, owner: User, d: Draft, view: RequestView, now: int): seq<Request> {
    match IndexOfUser(all, owner.username)
    case None => all + [NewRequest(owner, d, now)]
    case Some(k) =>
      if Refreshable(all[k].status) then all[k := Refreshed(all[k], d, view)] else all
  }

  /** The creation effect keeps one request per owner, leaves every other owner's request
      where it was, and afterwards the owner has a request: the new one at the end when there
      was none before. */
  lemma {:induction false} SubmitSpec(all: seq<Request>, owner: User, d: Draft, view: RequestView, now: int)
    requires WellFormed(all)
    ensures var res := Submitted(all, owner, d, view, now);
            WellFormed(res)
            && (exists i :: 0 <= i < |res| && res[i].username == owner.username)
            && (forall i :: 0 <= i < |all| && all[i].username != owner.username ==> i < |res| && res[i] == all[i])
    ensures IndexOfUser(all, owner.username).None? ==>
              Submitted(all, owner, d, view, now) == all + [NewRequest(owner, d, now)]
    ensures !SubmitWrites(all, owner) ==> Submitted(all, owner, d, view, now) == all
  {
    var res := Submitted(all, owner, d, view, now);
    match IndexOfUser(all, owner.username)
    case None =>
      NewRequestIsClean(owner, d, now);
      assert res[|all|].username == owner.username;
    case Some(k) =>
      assert res[k].username == owner.username;
  }

  // ----- workshop timeout -----

  /** `all.filter(r => r.username !== currentUser?.username)`: with nobody signed in nothing is removed. */
  function WithoutOwner(all: seq<Request>, username: Option<string>): seq<Request> {
    Filter(all, (r: Request) => !(username.Some? && r.username == username.value))
  }

  /** A timed-out owner loses exactly their request(s); everyone else keeps theirs. */
  lemma {:induction false} TimeoutRemovesOwner(all: seq<Request>, username: Option<string>)
    requires WellFormed(all)
    ensures WellFormed(WithoutOwner(all, username))
    ensures forall r :: r in WithoutOwner(all, username) <==>
              r in all && (username.None? || r.username != username.value)
  {
    var p := (r: Request) => !(username.Some? && r.username == username.value);
    FilterKeepsWellFormed(all, p);
    forall r ensures r in WithoutOwner(all, username) <==> r in all && (username.None? || r.username != username.value) {
      FilterMembers(all, p, r);
    }
  }

  // ----- payment and archive -----

  /** After a payment the request is found paid and completed, so the driver's poll archives
      it: moving it to history leaves no active record with that id. */
  lemma {:induction false} PaidRequestIsArchivable(all: seq<Request>, id: int)
    requires exists i :: 0 <= i < |all| && all[i].id == id
    ensures var paid := MapWhere(all, id, MarkedPaid);
            FindById(paid, id).Some? && FindById(paid, id).value.isPaid
            && FindById(paid, id).value.status == Completed
            && forall r :: r in RemoveId(paid, id) ==> r.id != id
  {
    FoundIsRewritten(all, id, MarkedPaid);
  }

  /** When `f` keeps ids, looking an id up after the rewrite finds `f` of what it found before. */
  lemma {:induction false} FoundIsRewritten(all: seq<Request>, id: int, f: Request -> Request)
    requires forall r :: f(r).id == r.id
    ensures FindById(MapWhere(all, id, f), id)
            == (match FindById(all, id) case None => None case Some(r) => Some(f(r)))
    decreases |all|
  {
    if all != [] {
      var m := MapWhere(all, id, f);
      assert m[1..] == MapWhere(all[1..], id, f);
      if all[0].id != id {
        FoundIsRewritten(all[1..], id, f);
      }
    }
  }
}
