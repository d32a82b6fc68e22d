/** The two request lists the dashboards poll: the flatbed driver's queue of
    open tows, nearest customer first, and the workshop's inbox of requests
    headed to it, those still awaiting its answer first. */
module Listings {
  import opened Types
  import opened Seqs
  import opened Requests

  /** A queued request with the driver's distances to the customer and to the destination. */
  datatype Listing = Listing(request: Request, distClient: nat, distDest: nat)

  /** A request the driver may take: waiting for a flatbed, the car cannot drive itself,
      and this driver has not turned it down. */
  predicate Open(r: Request, rejected: seq<int>) {
    r.status == Pending && !r.canDrive && r.id !in rejected
  }

  /** The requests that pass the queue's filter, in store order. */
  function OpenRequests(active: seq<Request>, rejected: seq<int>): seq<Request> {
    Filter(active, (r: Request) => Open(r, rejected))
  }

  /** Each request paired with its distances from the driver at (lat, lng). */
  function Annotate(s: seq<Request>, lat: real, lng: real, dist: Distance): (res: seq<Listing>)
    ensures |res| == |s|
    ensures forall i :: 0 <= i < |s| ==>
              res[i] == Listing(s[i], dist(lat, lng, s[i].userLat, s[i].userLng),
                                dist(lat, lng, s[i].destLat, s[i].destLng))
    decreases |s|
  {
    if s == [] then []
    else [Listing(s[0], dist(lat, lng, s[0].userLat, s[0].userLng), dist(lat, lng, s[0].destLat, s[0].destLng))]
         + Annotate(s[1..], lat, lng, dist)
  }

  function DistClientKey(l: Listing): int {
    l.distClient
  }

  /** The queue a driver at (lat, lng) sees. */
  function DriverQueue(active: seq<Request>, rejected: seq<int>, lat: real, lng: real, dist: Distance): seq<Listing> {
    SortBy(Annotate(OpenRequests(active, rejected), lat, lng, dist), DistClientKey)
  }

  /** The queue is ordered by distance to the customer, holds only open requests from the
      store with their true distances, and misses none of them. */
  lemma {:induction false} DriverQueueSpec(active: seq<Request>, rejected: seq<int>, lat: real, lng: real, dist: Distance)
    ensures var q := DriverQueue(active, rejected, lat, lng, dist);
            SortedBy(q, DistClientKey)
            && multiset(q) == multiset(Annotate(OpenRequests(active, rejected), lat, lng, dist))
    ensures var q := DriverQueue(active, rejected, lat, lng, dist);
            forall l :: l in q ==>
              l.request in active && Open(l.request, rejected)
              && l.distClient == dist(lat, lng, l.request.userLat, l.request.userLng)
              && l.distDest == dist(lat, lng, l.request.destLat, l.request.destLng)
    ensures var q := DriverQueue(active, rejected, lat, lng, dist);
            forall r :: r in active && Open(r, rejected) ==> exists l :: l in q && l.request == r
  {
    var open := OpenRequests(active, rejected);
    var a := Annotate(open, lat, lng, dist);
    SortBySortsAndPermutes(a, DistClientKey);
    QueuedAreOpen(active, rejected, lat, lng, dist);
    OpenAreQueued(active, rejected, lat, lng, dist);
  }

  /** Every listing is an open request of the store with its true distances. */
  lemma {:induction false} QueuedAreOpen(active: seq<Request>, rejected: seq<int>, lat: real, lng: real, dist: Distance)
    ensures var q := DriverQueue(active, rejected, lat, lng, dist);
            forall l :: l in q ==>
              l.request in active && Open(l.request, rejected)
              && l.distClient == dist(lat, lng, l.request.userLat, l.request.userLng)
              && l.distDest == dist(lat, lng, l.request.destLat, l.request.destLng)
  {
    var open := OpenRequests(active, rejected);
    var a := Annotate(open, lat, lng, dist);
    var q := SortBy(a, DistClientKey);
    SortBySortsAndPermutes(a, DistClientKey);
    forall l | l in q
      ensures l.request in active && Open(l.request, rejected)
      ensures l.distClient == dist(lat, lng, l.request.userLat, l.request.userLng)
      ensures l.distDest == dist(lat, lng, l.request.destLat, l.request.destLng)
    {
      assert l in multiset(a);
      var k :| 0 <= k < |a| && a[k] == l;
      FilterMembers(active, (r: Request) => Open(r, rejected), open[k]);
    }
  }

  /** Every open request of the store is listed. */
  lemma {:induction false} OpenAreQueued(active: seq<Request>, rejected: seq<int>, lat: real, lng: real, dist: Distance)
    ensures var q := DriverQueue(active, rejected, lat, lng, dist);
            forall r :: r in active && Open(r, rejected) ==> exists l :: l in q && l.request == r
  {
    var open := OpenRequests(active, rejected);
    var a := Annotate(open, lat, lng, dist);
    var q := SortBy(a, DistClientKey);
    SortBySortsAndPermutes(a, DistClientKey);
    forall r | r in active && Open(r, rejected) ensures exists l :: l in q && l.request == r {
      FilterMembers(active, (r: Request) => Open(r, rejected), r);
      var k :| 0 <= k < |open| && open[k] == r;
      assert a[k] in multiset(q);
    }
  }

  /** Turning a request down removes it from that driver's queue for good. */
  lemma {:induction false} RejectedLeavesQueue(active: seq<Request>, rejected: seq<int>, id: int, lat: real, lng: real, dist: Distance)
    ensures forall l :: l in DriverQueue(active, rejected + [id], lat, lng, dist) ==> l.request.id != id
  {
    DriverQueueSpec(active, rejected + [id], lat, lng, dist);
  }

  // ----- workshop inbox -----

  /** A workshop account's own workshop entry: same Arabic or English name, or, when the
      account has a (non-zero) latitude, the same coordinates. */
  predicate OwnsWorkshop(w: Workshop, me: User) {
    || w.nameAr == me.name
    || w.nameEn == me.name
    || (me.workshopLat.Some? && me.workshopLat.value != 0.0
        && w.lat == me.workshopLat && w.lng == me.workshopLng)
  }

  /** `customWorkshops.find(...)`: the first entry the signed-in account owns. */
  function FindMyWorkshop(ws: seq<Workshop>, me: Option<User>): (r: Option<Workshop>)
    ensures r.Some? ==> me.Some? && r.value in ws && OwnsWorkshop(r.value, me.value)
    ensures r.Some? ==> exists i :: 0 <= i < |ws| && ws[i] == r.value
                                    && forall j :: 0 <= j < i ==> !OwnsWorkshop(ws[j], me.value)
    ensures r.None? && me.Some? ==> forall i :: 0 <= i < |ws| ==> !OwnsWorkshop(ws[i], me.value)
    decreases |ws|
  {
    if me.None? || ws == [] then None
    else if OwnsWorkshop(ws[0], me.value) then Some(ws[0])
    else
      var r := FindMyWorkshop(ws[1..], me);
      if r.Some? then
        var i :| 0 <= i < |ws[1..]| && ws[1..][i] == r.value
                 && forall j :: 0 <= j < i ==> !OwnsWorkshop(ws[1..][j], me.value);
        assert ws[i + 1] == r.value;
        assert forall j :: 0 <= j < i + 1 ==> !OwnsWorkshop(ws[j], me.value) by {
          forall j | 0 <= j < i + 1 ensures !OwnsWorkshop(ws[j], me.value) {
            if j > 0 { assert ws[j] == ws[1..][j - 1]; }
          }
        }
        r
      else r
  }

  function Abs(x: real): real {
    if x < 0.0 then -x else x
  }

  /** Whether a request is addressed to this workshop: by the account's name, by its
      workshop entry's names, or by a destination within 0.0001 degrees of that entry. */
  predicate ForWorkshop(r: Request, me: Option<User>, mine: Option<Workshop>) {
    || (me.Some? && r.destName == me.value.name)
    || (mine.Some? &&
        (|| r.destName == mine.value.nameAr
         || r.destName == mine.value.nameEn
         || (Abs(r.destLat - RealOr(mine.value.lat, 0.0)) < 0.0001
             && Abs(r.destLng - RealOr(mine.value.lng, 0.0)) < 0.0001)))
  }

  function Incoming(all: seq<Request>, ws: seq<Workshop>, me: Option<User>): seq<Request> {
    Filter(all, (r: Request) => ForWorkshop(r, me, FindMyWorkshop(ws, me)))
  }

  predicate IsWaiting(r: Request) {
    r.status == WaitingWorkshop
  }

  predicate NotWaiting(r: Request) {
    r.status != WaitingWorkshop
  }

  /** The comparator's order: a request awaiting the workshop ranks before any other;
      two of the same class compare equal. */
  function InboxKey(r: Request): int {
    if IsWaiting(r) then 0 else 1
  }

  /** With this key the stable sort is the stable partition: the requests awaiting the
      workshop in their order, then the others in theirs. */
  lemma {:induction false} InboxSortIsPartition(s: seq<Request>)
    ensures SortBy(s, InboxKey) == Filter(s, IsWaiting) + Filter(s, NotWaiting)
    decreases |s|
  {
    if s != [] {
      var x, a, b := s[0], Filter(s[1..], IsWaiting), Filter(s[1..], NotWaiting);
      InboxSortIsPartition(s[1..]);
      if IsWaiting(x) {
        WaitingGoesFirst(x, a, b);
        assert Filter(s, IsWaiting) == [x] + a && Filter(s, NotWaiting) == b;
      } else {
        OtherGoesAfterWaiting(x, a, b);
        assert Filter(s, IsWaiting) == a && Filter(s, NotWaiting) == [x] + b;
      }
    }
  }

  /** A request awaiting the workshop goes in front of everything. */
  lemma {:induction false} WaitingGoesFirst(x: Request, a: seq<Request>, b: seq<Request>)
    requires IsWaiting(x)
    ensures Insert(x, a + b, InboxKey) == [x] + a + b
  {
    var t := a + b;
    assert t == [] || InboxKey(t[0]) >= 0;
    InsertFirstClass(x, t, InboxKey);
  }

  /** Any other request goes after those awaiting the workshop and before the rest. */
  lemma {:induction false} OtherGoesAfterWaiting(x: Request, a: seq<Request>, b: seq<Request>)
    requires !IsWaiting(x)
    requires forall i :: 0 <= i < |a| ==> IsWaiting(a[i])
    requires forall i :: 0 <= i < |b| ==> NotWaiting(b[i])
    ensures Insert(x, a + b, InboxKey) == a + [x] + b
  {
    assert b == [] || NotWaiting(b[0]);
    RestClassAfterFirst(x, a, b, InboxKey);
  }

  function WorkshopInbox(all: seq<Request>, ws: seq<Workshop>, me: Option<User>): seq<Request> {
    SortBy(Incoming(all, ws, me), InboxKey)
  }

  /** The inbox is the requests addressed to the workshop, those awaiting its answer first,
      each group in store order; and a request is listed exactly when it is addressed to it. */
  lemma {:induction false} WorkshopInboxSpec(all: seq<Request>, ws: seq<Workshop>, me: Option<User>)
    ensures var inc := Incoming(all, ws, me);
            WorkshopInbox(all, ws, me) == Filter(inc, IsWaiting) + Filter(inc, NotWaiting)
    ensures forall r :: r in WorkshopInbox(all, ws, me) <==> r in all && ForWorkshop(r, me, FindMyWorkshop(ws, me))
  {
    var inc := Incoming(all, ws, me);
    InboxSortIsPartition(inc);
    SortBySortsAndPermutes(inc, InboxKey);
    forall r ensures r in WorkshopInbox(all, ws, me) <==> r in all && ForWorkshop(r, me, FindMyWorkshop(ws, me)) {
      FilterMembers(all, (r: Request) => ForWorkshop(r, me, FindMyWorkshop(ws, me)), r);
      assert r in WorkshopInbox(all, ws, me) <==> r in multiset(inc);
    }
  }
}
