/** What each lifecycle handler does to one stored request record, and the
    `all.map(r => r.id === id ? f(r) : r)` rewrite the handlers apply it with. */
module Requests {
  import opened Types
  import opened Text
  import opened Billing

  /** Great-circle distance in hundredths of a kilometre (the source rounds to two
      decimals), from (lat1, lng1) to (lat2, lng2). The trigonometry itself is not modelled. */
  type Distance = (real, real, real, real) -> nat

  /** Rewrites every record with the given id by `f` and leaves the others alone, in place. */
  function MapWhere(all: seq<Request>, id: int, f: Request -> Request): (res: seq<Request>)
    ensures |res| == |all|
    ensures forall i :: 0 <= i < |all| ==> res[i] == (if all[i].id == id then f(all[i]) else all[i])
    decreases |all|
  {
    if all == [] then []
    else [if all[0].id == id then f(all[0]) else all[0]] + MapWhere(all[1..], id, f)
  }

  /** `all.find(r => r.id === id)`. */
  function FindById(all: seq<Request>, id: int): (r: Option<Request>)
    ensures r.Some? ==> r.value in all && r.value.id == id
    ensures r.Some? ==> exists i :: 0 <= i < |all| && all[i] == r.value
                                    && forall j :: 0 <= j < i ==> all[j].id != id
    ensures r.None? ==> forall i :: 0 <= i < |all| ==> all[i].id != id
    decreases |all|
  {
    if all == [] then None
    else if all[0].id == id then Some(all[0])
    else
      var r := FindById(all[1..], id);
      if r.Some? then
        var i :| 0 <= i < |all[1..]| && all[1..][i] == r.value && forall j :: 0 <= j < i ==> all[1..][j].id != id;
        assert all[i + 1] == r.value;
        assert forall j :: 0 <= j < i + 1 ==> all[j].id != id by {
          forall j | 0 <= j < i + 1 ensures all[j].id != id {
            if j > 0 { assert all[j] == all[1..][j - 1]; }
          }
        }
        r
      else r
  }

  /** `all.findIndex(r => r.username === name)`. */
  function IndexOfUser(all: seq<Request>, name: string): (r: Option<nat>)
    ensures r.Some? ==> r.value < |all| && all[r.value].username == name
                        && forall j :: 0 <= j < r.value ==> all[j].username != name
    ensures r.None? ==> forall j :: 0 <= j < |all| ==> all[j].username != name
    decreases |all|
  {
    if all == [] then None
    else if all[0].username == name then Some(0)
    else match IndexOfUser(all[1..], name)
         case None => None
         case Some(k) => Some(k + 1)
  }

  // ----- status update (workshop accept / cancel, owner cancel) -----

  /** `updateRequestStatus`: cancelling removes the records, any other status is written in place. */
  function StatusUpdated(all: seq<Request>, id: int, s: Status): seq<Request> {
    if s == Cancelled then RemoveId(all, id)
    else MapWhere(all, id, (r: Request) => r.(status := s))
  }

  function RemoveId(all: seq<Request>, id: int): (res: seq<Request>)
    ensures |res| <= |all|
    ensures forall i :: 0 <= i < |res| ==> res[i].id != id && res[i] in all
    ensures forall i :: 0 <= i < |all| && all[i].id != id ==> all[i] in res
    decreases |all|
  {
    if all == [] then []
    else if all[0].id != id then [all[0]] + RemoveId(all[1..], id)
    else RemoveId(all[1..], id)
  }

  /** Cancelling leaves no record with that id and keeps every other one; any other
      status rewrites only the matching records' status. */
  lemma {:induction false} StatusUpdateEffect(all: seq<Request>, id: int, s: Status)
    ensures s == Cancelled ==>
              (forall r :: r in StatusUpdated(all, id, s) ==> r.id != id && r in all)
              && (forall r :: r in all && r.id != id ==> r in StatusUpdated(all, id, s))
    ensures s != Cancelled ==>
              |StatusUpdated(all, id, s)| == |all|
              && forall i :: 0 <= i < |all| ==>
                   StatusUpdated(all, id, s)[i] == (if all[i].id == id then all[i].(status := s) else all[i])
  {
  }

  // ----- driver accept -----

  /** The record after a driver accepts it: status, driver identity and position, and a fresh driver flag. */
  function AcceptedBy(r: Request, driver: User, lat: real, lng: real): Request {
    r.(status := Accepted,
       driverName := Some(driver.name),
       driverPlate := Some(StringOr(driver.flatbedPlate, "Unknown")),
       sat7aLat := Some(lat),
       sat7aLng := Some(lng),
       sat7aConfirmed := false)
  }

  /** Accepting changes only status, driver name and plate, driver position and the driver flag. */
  lemma {:induction false} AcceptTouchesOnlyAssignment(r: Request, driver: User, lat: real, lng: real)
    ensures var a := AcceptedBy(r, driver, lat, lng);
            a.status == Accepted && a.driverName == Some(driver.name)
            && a.driverPlate == Some(if Truthy(driver.flatbedPlate) then driver.flatbedPlate.value else "Unknown")
            && a.sat7aLat == Some(lat) && a.sat7aLng == Some(lng) && !a.sat7aConfirmed
            && a == r.(status := a.status, driverName := a.driverName, driverPlate := a.driverPlate,
                       sat7aLat := a.sat7aLat, sat7aLng := a.sat7aLng, sat7aConfirmed := false)
  {
  }

  // ----- two-phase arrival confirmation -----

  /** `Math.ceil(km * 15)` for a distance given in hundredths of a kilometre. */
  function TripCost(hundredths: nat): (c: nat)
    ensures 100 * c >= 15 * hundredths
    ensures 100 * (c - 1) < 15 * hundredths || c == 0
  {
    (15 * hundredths + 99) / 100
  }

  /** Whether the party other than the actor has already confirmed. */
  function OtherConfirmed(r: Request, isDriver: bool): bool {
    if isDriver then r.userConfirmed else r.sat7aConfirmed
  }

  function WithOwnFlag(r: Request, isDriver: bool): Request {
    if isDriver then r.(sat7aConfirmed := true) else r.(userConfirmed := true)
  }

  /** The record after one party confirms arrival (`handleArrivalConfirm`'s map callback). */
  function Confirmed(r: Request, isDriver: bool, dist: Distance): Request {
    var own := WithOwnFlag(r, isDriver);
    if OtherConfirmed(r, isDriver) && r.status == Accepted then
      own.(status := PickedUp, userConfirmed := false, sat7aConfirmed := false)
    else if OtherConfirmed(r, isDriver) && r.status == PickedUp then
      own.(status := ArrivedAtDest,
           tripCost := Some(TripCost(dist(r.userLat, r.userLng, r.destLat, r.destLng))),
           isPaid := false)
    else own
  }

  /** A confirmation the other party has not yet matched sets only the actor's flag. */
  lemma {:induction false} FirstConfirmationSetsOnlyOwnFlag(r: Request, isDriver: bool, dist: Distance)
    requires !OtherConfirmed(r, isDriver)
    ensures Confirmed(r, isDriver, dist).status == r.status
    ensures Confirmed(r, isDriver, dist)
            == (if isDriver then r.(sat7aConfirmed := true) else r.(userConfirmed := true))
  {
  }

  /** The second pickup confirmation moves to picked_up and clears both flags. */
  lemma {:induction false} PickupHandshake(r: Request, isDriver: bool, dist: Distance)
    requires OtherConfirmed(r, isDriver) && r.status == Accepted
    ensures Confirmed(r, isDriver, dist)
            == r.(status := PickedUp, userConfirmed := false, sat7aConfirmed := false)
  {
  }

  /** The second destination confirmation moves to arrived_at_dest, prices the trip
      and marks it unpaid; both flags stay set. */
  lemma {:induction false} ArrivalHandshake(r: Request, isDriver: bool, dist: Distance)
    requires OtherConfirmed(r, isDriver) && r.status == PickedUp
    ensures var c := Confirmed(r, isDriver, dist);
            var h := dist(r.userLat, r.userLng, r.destLat, r.destLng);
            c == r.(status := ArrivedAtDest, tripCost := Some(TripCost(h)), isPaid := false,
                    userConfirmed := true, sat7aConfirmed := true)
            && 100 * c.tripCost.value >= 15 * h
  {
  }

  /** In any other status a confirmation only sets the actor's flag, whoever confirmed before. */
  lemma {:induction false} ConfirmationOutsideTripLegs(r: Request, isDriver: bool, dist: Distance)
    requires r.status != Accepted && r.status != PickedUp
    ensures Confirmed(r, isDriver, dist) == WithOwnFlag(r, isDriver)
  {
  }

  /** A confirmation changes neither the owner nor the bill. */
  lemma {:induction false} ConfirmedKeepsOwnerAndBill(r: Request, isDriver: bool, dist: Distance)
    ensures var c := Confirmed(r, isDriver, dist);
            c.username == r.username && c.billItems == r.billItems
            && c.laborCost == r.laborCost && c.billTotal == r.billTotal
  {
    var own := WithOwnFlag(r, isDriver);
    assert own.username == r.username && own.billItems == r.billItems
           && own.laborCost == r.laborCost && own.billTotal == r.billTotal;
  }

  /** The whole trip: from an accepted request with no flags, owner and driver each
      confirm pickup, then each confirm arrival; the request ends at arrived_at_dest,
      priced, with both flags set. Either party may confirm first on each leg. */
  lemma {:induction false} TripHandshakes(r: Request, ownerFirstAtPickup: bool, ownerFirstAtArrival: bool, dist: Distance)
    requires r.status == Accepted && !r.userConfirmed && !r.sat7aConfirmed
    ensures var first, second := !ownerFirstAtPickup, !ownerFirstAtArrival;
            var p1 := Confirmed(r, first, dist);
            var p2 := Confirmed(p1, !first, dist);
            var d1 := Confirmed(p2, second, dist);
            var d2 := Confirmed(d1, !second, dist);
            p1.status == Accepted && p2.status == PickedUp && !p2.userConfirmed && !p2.sat7aConfirmed
            && d1.status == PickedUp && d2.status == ArrivedAtDest
            && d2.tripCost == Some(TripCost(dist(r.userLat, r.userLng, r.destLat, r.destLng)))
            && !d2.isPaid && d2.userConfirmed && d2.sat7aConfirmed
  {
    var first, second := !ownerFirstAtPickup, !ownerFirstAtArrival;
    FirstConfirmationSetsOnlyOwnFlag(r, first, dist);
    var p1 := Confirmed(r, first, dist);
    PickupHandshake(p1, !first, dist);
    var p2 := Confirmed(p1, !first, dist);
    FirstConfirmationSetsOnlyOwnFlag(p2, second, dist);
    var d1 := Confirmed(p2, second, dist);
    ArrivalHandshake(d1, !second, dist);
  }

  // ----- bill -----

  /** `handleUpdateBill`'s record rewrite: new lines and labor, and the total recomputed. */
  function WithBill(r: Request, items: seq<BillItem>, labor: int): Request {
    r.(billItems := items, laborCost := labor, billTotal := BillTotal(items, labor))
  }

  /** The stored total is a cache of the lines and labor. */
  predicate BillConsistent(r: Request) {
    r.billTotal == BillTotal(r.billItems, r.laborCost)
  }

  /** After a bill update the stored total is the sum of price times quantity plus labor,
      and the bill screen shows that same figure for the stored record. */
  lemma {:induction false} UpdatedBillIsConsistent(r: Request, items: seq<BillItem>, labor: int)
    ensures BillConsistent(WithBill(r, items, labor))
    ensures WithBill(r, items, labor).billTotal == Sigma(items) + labor
    ensures DisplayedTotal(Some(WithBill(r, items, labor))) == WithBill(r, items, labor).billTotal
  {
    BillTotalIsSum(items, labor);
  }

  function Finalized(r: Request): Request {
    r.(isBillFinalized := true)
  }

  /** Finishing the bill sets only the finalized flag and locks the finalized record against
      edits; that the lock lasts is `FinalizedIsPermanent`. */
  lemma {:induction false} FinishLocksBill(r: Request)
    ensures Finalized(r).isBillFinalized && Finalized(r) == r.(isBillFinalized := true)
    ensures EditLocked(Some(Finalized(r)))
    ensures BillConsistent(r) ==> BillConsistent(Finalized(r))
  {
  }

  /** The system message recording the agreement: "<owner> agreed with <destination> on <total>". */
  function AgreementMessage(m: Request, id: int, time: string): ChatMessage {
    ChatMessage(id, FromSystem, m.name + " agreed with " + m.destName + " on " + IntToString(m.billTotal), time, None)
  }

  /** The owner's agreement: status from the screen's own can-drive choice, plus the system message. */
  function Agreed(r: Request, msg: ChatMessage, canDrive: bool): Request {
    r.(status := if canDrive then Completed else Pending,
       negotiationChatMessages := r.negotiationChatMessages + [msg])
  }

  /** Agreement appends exactly the one system message and sets completed or pending, nothing else. */
  lemma {:induction false} AgreementEffect(r: Request, m: Request, id: int, time: string, canDrive: bool)
    ensures var a := Agreed(r, AgreementMessage(m, id, time), canDrive);
            |a.negotiationChatMessages| == |r.negotiationChatMessages| + 1
            && a.negotiationChatMessages[..|r.negotiationChatMessages|] == r.negotiationChatMessages
            && a.negotiationChatMessages[|r.negotiationChatMessages|] == AgreementMessage(m, id, time)
            && a.negotiationChatMessages[|r.negotiationChatMessages|].sender == FromSystem
            && (a.status == Completed <==> canDrive) && (a.status == Pending <==> !canDrive)
            && a == r.(status := a.status, negotiationChatMessages := a.negotiationChatMessages)
  {
  }

  /** Once the owner agrees the bill is locked as well, whichever status the choice gave. */
  lemma {:induction false} AgreementLocksBill(r: Request, msg: ChatMessage, canDrive: bool)
    ensures EditLocked(Some(Agreed(r, msg, canDrive)))
    ensures Agreed(r, msg, canDrive).billTotal == r.billTotal
  {
  }

  /** The workshop flow end to end: one oil filter at 50 plus 100 labor is stored as a total
      of 150; the bill is finished; the owner, whose car cannot drive, agrees. The request then
      waits for a flatbed with the agreement message "<owner> agreed with <workshop> on 150"
      as the last negotiation message. */
  lemma {:induction false} WorkshopBillScenario(r: Request, id: int, msgId: int, time: string)
    ensures var billed := WithBill(r, [BillItem(id, "Oil Filter", 50, 1)], 100);
            var done := Finalized(billed);
            var agreed := Agreed(done, AgreementMessage(done, msgId, time), false);
            billed.billTotal == 150 && BillConsistent(billed)
            && EditLocked(Some(done))
            && agreed.status == Pending
            && agreed.negotiationChatMessages == r.negotiationChatMessages
                 + [ChatMessage(msgId, FromSystem, r.name + " agreed with " + r.destName + " on 150", time, None)]
  {
    var items := [BillItem(id, "Oil Filter", 50, 1)];
    assert Reduce(0, items) == Reduce(50, items[1..]);
    assert BillTotal(items, 100) == 150;
    assert NatToString(1) == "1";
    assert NatToString(15) == NatToString(1) + [DigitChar(5)];
    assert NatToString(150) == NatToString(15) + [DigitChar(0)];
    assert IntToString(150) == "150";
    var billed := WithBill(r, items, 100);
    var done := Finalized(billed);
    var msg := AgreementMessage(done, msgId, time);
    assert done.billTotal == 150 && done.name == r.name && done.destName == r.destName;
    assert msg == ChatMessage(msgId, FromSystem, r.name + " agreed with " + r.destName + " on 150", time, None);
  }

  // ----- payment -----

  function MarkedPaid(r: Request): Request {
    r.(isPaid := true, status := Completed)
  }

  // ----- chat -----

  /** The sender tag the current role writes. */
  function SenderFor(role: Option<Role>): Sender {
    if role == Some(FlatbedRole) then FromDriver
    else if role == Some(WorkshopRole) then FromWorkshop
    else FromUser
  }

  function WithMessage(r: Request, msg: ChatMessage, negotiation: bool): Request {
    if negotiation then r.(negotiationChatMessages := r.negotiationChatMessages + [msg])
    else r.(chatMessages := r.chatMessages + [msg])
  }

  /** Sending appends exactly `msg` to exactly one of the two lists; the other list and every
      other field are untouched. */
  lemma {:induction false} MessageGoesToOneList(r: Request, msg: ChatMessage, negotiation: bool)
    ensures var w := WithMessage(r, msg, negotiation);
            (negotiation ==> w.negotiationChatMessages == r.negotiationChatMessages + [msg]
                             && w.chatMessages == r.chatMessages)
            && (!negotiation ==> w.chatMessages == r.chatMessages + [msg]
                                 && w.negotiationChatMessages == r.negotiationChatMessages)
            && w == r.(chatMessages := w.chatMessages, negotiationChatMessages := w.negotiationChatMessages)
  {
  }

  /** The guard of `handleSendMessage`: something to send, a request on screen, and that
      request not completed or cancelled. */
  predicate MessageAccepted(matched: Option<Request>, input: string, image: Option<string>) {
    && (Trim(input) != [] || Truthy(image))
    && matched.Some?
    && !IsReadOnly(matched.value.status)
  }

  /** A message is refused when it is blank with no image, or when its request is finished. */
  lemma {:induction false} MessageRefusals(matched: Option<Request>, input: string, image: Option<string>)
    ensures AllWhitespace(input) && !Truthy(image) ==> !MessageAccepted(matched, input, image)
    ensures matched.Some? && (matched.value.status == Completed || matched.value.status == Cancelled)
            ==> !MessageAccepted(matched, input, image)
    ensures matched.Some? && !AllWhitespace(input) && !IsReadOnly(matched.value.status)
            ==> MessageAccepted(matched, input, image)
  {
    TrimEmptyIffBlank(input);
  }

  // ----- creation and refresh -----

  datatype Lang = Ar | En

  /** The screen the creation effect runs on. */
  datatype RequestView = PageW | PageWaitingWorkshop | OtherView

  /** The owner's inputs at creation time. */
  datatype Draft = Draft(
    car: string,
    year: Option<int>,
    userLat: real,
    userLng: real,
    workshop: Option<Workshop>,
    mapDestination: Option<(real, real)>,
    lang: Lang,
    customDestLabel: string,
    problem: Problem,
    canDrive: bool)

  const DefaultLat: real := 24.7136
  const DefaultLng: real := 46.6753

  /** Destination coordinates and label: the chosen workshop (its coordinates, else a
      position derived from its id), else the point picked on the map, else the city default. */
  function Destination(d: Draft): (real, real, string) {
    if d.workshop.Some? then
      var ws := d.workshop.value;
      (RealOr(ws.lat, DefaultLat + ws.id as real * 0.01),
       RealOr(ws.lng, DefaultLng + ws.id as real * 0.01),
       if d.lang == Ar then ws.nameAr else ws.nameEn)
    else if d.mapDestination.Some? then
      (d.mapDestination.value.0, d.mapDestination.value.1, d.customDestLabel)
    else (DefaultLat, DefaultLng, d.customDestLabel)
  }

  /** A request waits for a workshop exactly when one was chosen; otherwise it goes straight to the driver queue. */
  function InitialStatus(d: Draft): Status {
    if d.workshop.Some? then WaitingWorkshop else Pending
  }

  function YearOr(o: Option<int>, d: int): int {
    if o.Some? && o.value != 0 then o.value else d
  }

  /** The new record: id and timestamp from the clock, empty chats and bill. */
  function NewRequest(owner: User, d: Draft, now: int): Request {
    var dest := Destination(d);
    Request(now, owner.username, owner.name, d.car, YearOr(d.year, 2024),
            d.userLat, d.userLng, dest.0, dest.1, dest.2, now,
            InitialStatus(d), None, None, None, None, false, false, [], [],
            d.problem, d.canDrive, [], 0, 0, false, None, false)
  }

  /** Statuses in which the owner may still re-submit the request's details. */
  predicate Refreshable(s: Status) {
    s == Pending || s == WaitingWorkshop || s == Negotiation
  }

  /** The record after the owner re-enters a request screen: location, destination, car and
      problem are rewritten; a negotiation seen from the flatbed-search screen becomes pending. */
  function Refreshed(r: Request, d: Draft, view: RequestView): Request {
    var dest := Destination(d);
    r.(userLat := d.userLat, userLng := d.userLng,
       destLat := dest.0, destLng := dest.1, destName := dest.2,
       car := d.car, year := YearOr(d.year, r.year),
       status := if view == PageW && r.status == Negotiation then Pending else r.status,
       problem := d.problem, canDrive := d.canDrive)
  }

  /** A new request starts clean: right initial state, no driver, no flags, empty chats, a zero bill. */
  lemma {:induction false} NewRequestIsClean(owner: User, d: Draft, now: int)
    ensures var r := NewRequest(owner, d, now);
            r.id == now && r.username == owner.username
            && (r.status == WaitingWorkshop <==> d.workshop.Some?)
            && (r.status == Pending <==> d.workshop.None?)
            && r.driverName.None? && !r.userConfirmed && !r.sat7aConfirmed
            && r.chatMessages == [] && r.negotiationChatMessages == []
            && r.billItems == [] && BillConsistent(r) && r.billTotal == 0
            && !r.isBillFinalized && r.tripCost.None? && !r.isPaid
            && r.year == (if d.year.Some? && d.year.value != 0 then d.year.value else 2024)
  {
  }

  /** A refresh keeps the record's identity, chats, bill and driver, and only ever turns
      negotiation into pending. */
  lemma {:induction false} RefreshKeepsIdentityAndBill(r: Request, d: Draft, view: RequestView)
    requires Refreshable(r.status)
    ensures var n := Refreshed(r, d, view);
            n.id == r.id && n.username == r.username && n.timestamp == r.timestamp
            && n.chatMessages == r.chatMessages && n.negotiationChatMessages == r.negotiationChatMessages
            && n.billItems == r.billItems && n.billTotal == r.billTotal && n.laborCost == r.laborCost
            && n.driverName == r.driverName
            && n.year == (if d.year.Some? && d.year.value != 0 then d.year.value else r.year)
            && (n.status != r.status ==> r.status == Negotiation && n.status == Pending && view == PageW)
            && Refreshable(n.status)
  {
  }

  /** Once the bill is finalized it stays so: no handler's rewrite of a record clears the flag,
      so the bill screen refuses edits on every later copy of the record. */
  lemma {:induction false} FinalizedIsPermanent(r: Request, s: Status, driver: User, lat: real, lng: real,
                                                isDriver: bool, dist: Distance, items: seq<BillItem>, labor: int,
                                                msg: ChatMessage, canDrive: bool, negotiation: bool,
                                                d: Draft, view: RequestView)
    requires r.isBillFinalized
    ensures r.(status := s).isBillFinalized
    ensures AcceptedBy(r, driver, lat, lng).isBillFinalized
    ensures Confirmed(r, isDriver, dist).isBillFinalized
    ensures WithBill(r, items, labor).isBillFinalized
    ensures Finalized(r).isBillFinalized
    ensures Agreed(r, msg, canDrive).isBillFinalized
    ensures MarkedPaid(r).isBillFinalized
    ensures WithMessage(r, msg, negotiation).isBillFinalized
    ensures Refreshed(r, d, view).isBillFinalized
  {
  }
}
