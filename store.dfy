/** The browser store behind the app, as one object: the active requests, the order
    history, the registered users, this driver's rejected request ids, and the workshop
    countdown. Each handler of the request lifecycle is one method. What the screen holds
    (the request and user on display, the owner's can-drive choice) is passed in, because
    the handlers read those copies and not the stored ones. */
module CarvaStore {
  import opened Types
  import opened Text
  import opened Billing
  import opened Requests
  import opened Wallet
  import opened Lifecycle
  import Countdown

  class Store {
    var active: seq<Request>
    /** Whether the active-requests key has ever been written; handlers that read it back
        do nothing while it is absent. */
    var activeSaved: bool
    var history: seq<Request>
    var users: seq<User>
    var rejected: seq<int>
    var workshopTimer: int
    var timerRunning: bool

    ghost predicate Valid()
      reads this
    {
      && WellFormed(active)
      && BillsConsistent(history)
      && (!activeSaved ==> active == [])
      && workshopTimer >= 0
    }

    /** A fresh store holding the registered accounts. */
    constructor (accounts: seq<User>)
      ensures Valid()
      ensures active == [] && !activeSaved && history == [] && users == accounts && rejected == []
      ensures workshopTimer == Countdown.WindowSeconds && !timerRunning
    {
      active := [];
      activeSaved := false;
      history := [];
      users := accounts;
      rejected := [];
      workshopTimer := Countdown.WindowSeconds;
      timerRunning := false;
    }

    /** The request creation / re-entry effect on the flatbed-search or waiting-for-workshop
        screen; it runs only with a signed-in owner and a chosen car. */
    method Submit(current: Option<User>, d: Draft, view: RequestView, now: int)
      requires Valid()
      modifies this
      ensures Valid()
      ensures if view != OtherView && current.Some? && d.car != "" then
                active == Submitted(old(active), current.value, d, view, now)
                && activeSaved == (old(activeSaved) || SubmitWrites(old(active), current.value))
              else active == old(active) && activeSaved == old(activeSaved)
      ensures history == old(history) && users == old(users) && rejected == old(rejected)
      ensures workshopTimer == old(workshopTimer) && timerRunning == old(timerRunning)
    {
      if view != OtherView && current.Some? && d.car != "" {
        SubmitSpec(active, current.value, d, view, now);
        var writes := SubmitWrites(active, current.value);
        active := Submitted(active, current.value, d, view, now);
        activeSaved := activeSaved || writes;
      }
    }

    /** `updateRequestStatus`: reports whether the store was there to update. */
    method UpdateStatus(id: int, s: Status) returns (ok: bool)
      requires Valid()
      modifies this
      ensures Valid()
      ensures ok == old(activeSaved)
      ensures active == (if ok then StatusUpdated(old(active), id, s) else old(active))
      ensures activeSaved == old(activeSaved) && history == old(history) && users == old(users)
      ensures rejected == old(rejected) && workshopTimer == old(workshopTimer) && timerRunning == old(timerRunning)
    {
      ok := activeSaved;
      if ok {
        StatusUpdateKeepsWellFormed(active, id, s);
        active := StatusUpdated(active, id, s);
      }
    }

    /** `handleAcceptRequest`: the signed-in driver at (lat, lng) takes request `id`. */
    method AcceptRequest(id: int, driver: Option<User>, lat: real, lng: real)
      requires Valid()
      modifies this
      ensures Valid()
      ensures active == (if old(activeSaved) && driver.Some?
                         then MapWhere(old(active), id, (r: Request) => AcceptedBy(r, driver.value, lat, lng))
                         else old(active))
      ensures activeSaved == old(activeSaved) && history == old(history) && users == old(users)
      ensures rejected == old(rejected) && workshopTimer == old(workshopTimer) && timerRunning == old(timerRunning)
    {
      if activeSaved && driver.Some? {
        MapWhereKeepsWellFormed(active, id, (r: Request) => AcceptedBy(r, driver.value, lat, lng));
        active := MapWhere(active, id, (r: Request) => AcceptedBy(r, driver.value, lat, lng));
      }
    }

    /** `handleRejectRequest`: the id joins this driver's rejected list. */
    method RejectRequest(id: int)
      requires Valid()
      modifies this
      ensures Valid()
      ensures rejected == old(rejected) + [id]
      ensures active == old(active) && activeSaved == old(activeSaved) && history == old(history)
      ensures users == old(users) && workshopTimer == old(workshopTimer) && timerRunning == old(timerRunning)
    {
      rejected := rejected + [id];
    }

    /** `handleSendMessage`: reports whether the message was stored. */
    method SendMessage(matched: Option<Request>, input: string, image: Option<string>, negotiation: bool,
                       role: Option<Role>, msgId: int, time: string) returns (sent: bool)
      requires Valid()
      modifies this
      ensures Valid()
      ensures sent <==> MessageAccepted(matched, input, image) && old(activeSaved)
      ensures active == (if sent
                         then MapWhere(old(active), matched.value.id, (r: Request) =>
                                WithMessage(r, ChatMessage(msgId, SenderFor(role), input, time, image), negotiation))
                         else old(active))
      ensures activeSaved == old(activeSaved) && history == old(history) && users == old(users)
      ensures rejected == old(rejected) && workshopTimer == old(workshopTimer) && timerRunning == old(timerRunning)
    {
      sent := false;
      if !MessageAccepted(matched, input, image) || !activeSaved {
        return;
      }
      var msg := ChatMessage(msgId, SenderFor(role), input, time, image);
      MapWhereKeepsWellFormed(active, matched.value.id, (r: Request) => WithMessage(r, msg, negotiation));
      active := MapWhere(active, matched.value.id, (r: Request) => WithMessage(r, msg, negotiation));
      sent := true;
    }

    /** `handleArrivalConfirm`: the signed-in party confirms pickup or arrival; the driver role
        confirms for the flatbed, any other role for the owner. */
    method ConfirmArrival(matched: Option<Request>, role: Option<Role>, dist: Distance)
      requires Valid()
      modifies this
      ensures Valid()
      ensures active == (if old(activeSaved) && matched.Some?
                         then MapWhere(old(active), matched.value.id, (r: Request) =>
                                Confirmed(r, role == Some(FlatbedRole), dist))
                         else old(active))
      ensures activeSaved == old(activeSaved) && history == old(history) && users == old(users)
      ensures rejected == old(rejected) && workshopTimer == old(workshopTimer) && timerRunning == old(timerRunning)
    {
      if activeSaved && matched.Some? {
        var isDriver := role == Some(FlatbedRole);
        ConfirmationKeepsWellFormed(active, matched.value.id, isDriver, dist);
        active := MapWhere(active, matched.value.id, (r: Request) => Confirmed(r, isDriver, dist));
      }
    }

    /** `handlePayment`: the payer is charged the trip cost and the driver credited; then,
        if the store is there, the request is marked paid and completed. Refused (returning
        false) without a request on screen, with a missing or zero cost, without a payer, or
        when the payer's balance is below the cost. */
    method Pay(matched: Option<Request>, payer: Option<User>) returns (paid: bool)
      requires Valid()
      modifies this
      ensures Valid()
      ensures paid <==> matched.Some? && matched.value.tripCost.Some? && matched.value.tripCost.value != 0
                        && payer.Some? && payer.value.walletBalance >= matched.value.tripCost.value
      ensures users == (if paid
                        then PaidUsers(old(users), payer.value, matched.value.tripCost.value, matched.value.driverName)
                        else old(users))
      ensures active == (if paid && old(activeSaved) then MapWhere(old(active), matched.value.id, MarkedPaid)
                         else old(active))
      ensures NonNegativeBalances(old(users)) ==> NonNegativeBalances(users)
      ensures activeSaved == old(activeSaved) && history == old(history)
      ensures rejected == old(rejected) && workshopTimer == old(workshopTimer) && timerRunning == old(timerRunning)
    {
      paid := false;
      if matched.None? || matched.value.tripCost.None? || matched.value.tripCost.value == 0 || payer.None? {
        return;
      }
      var cost := matched.value.tripCost.value;
      var balance := payer.value.walletBalance;
      if balance < cost {
        return;
      }
      if NonNegativeBalances(users) {
        PaymentKeepsBalancesNonNegative(users, payer.value, cost, matched.value.driverName);
      }
      users := Transfer(users, payer.value, cost, matched.value.driverName);
      if activeSaved {
        PaymentKeepsWellFormed(active, matched.value.id);
        active := MapWhere(active, matched.value.id, MarkedPaid);
      }
      paid := true;
    }

    /** `handleUpdateBill`: the workshop stores new lines and labor with the total recomputed. */
    method UpdateBill(matched: Option<Request>, items: seq<BillItem>, labor: int)
      requires Valid()
      modifies this
      ensures Valid()
      ensures active == (if old(activeSaved) && matched.Some?
                         then MapWhere(old(active), matched.value.id, (r: Request) => WithBill(r, items, labor))
                         else old(active))
      ensures activeSaved == old(activeSaved) && history == old(history) && users == old(users)
      ensures rejected == old(rejected) && workshopTimer == old(workshopTimer) && timerRunning == old(timerRunning)
    {
      if activeSaved && matched.Some? {
        forall r: Request ensures BillConsistent(WithBill(r, items, labor)) {
          UpdatedBillIsConsistent(r, items, labor);
        }
        MapWhereKeepsWellFormed(active, matched.value.id, (r: Request) => WithBill(r, items, labor));
        active := MapWhere(active, matched.value.id, (r: Request) => WithBill(r, items, labor));
      }
    }

    /** `handleFinishBill`: the workshop closes the bill for the owner's decision. */
    method FinishBill(matched: Option<Request>)
      requires Valid()
      modifies this
      ensures Valid()
      ensures active == (if old(activeSaved) && matched.Some?
                         then MapWhere(old(active), matched.value.id, Finalized)
                         else old(active))
      ensures activeSaved == old(activeSaved) && history == old(history) && users == old(users)
      ensures rejected == old(rejected) && workshopTimer == old(workshopTimer) && timerRunning == old(timerRunning)
    {
      if activeSaved && matched.Some? {
        MapWhereKeepsWellFormed(active, matched.value.id, Finalized);
        active := MapWhere(active, matched.value.id, Finalized);
      }
    }

    /** `handleUserAgree`: once the shown bill is finalized, the owner's agreement is recorded
        with a system message; the status follows the screen's can-drive choice. */
    method UserAgree(matched: Option<Request>, canDrive: bool, msgId: int, time: string)
      requires Valid()
      modifies this
      ensures Valid()
      ensures active == (if old(activeSaved) && matched.Some? && matched.value.isBillFinalized
                         then MapWhere(old(active), matched.value.id, (r: Request) =>
                                Agreed(r, AgreementMessage(matched.value, msgId, time), canDrive))
                         else old(active))
      ensures activeSaved == old(activeSaved) && history == old(history) && users == old(users)
      ensures rejected == old(rejected) && workshopTimer == old(workshopTimer) && timerRunning == old(timerRunning)
    {
      if matched.Some? && matched.value.isBillFinalized && activeSaved {
        var msg := AgreementMessage(matched.value, msgId, time);
        MapWhereKeepsWellFormed(active, matched.value.id, (r: Request) => Agreed(r, msg, canDrive));
        active := MapWhere(active, matched.value.id, (r: Request) => Agreed(r, msg, canDrive));
      }
    }

    /** The driver's payment poll: a request found paid moves from the active list to the
        history. Reports whether it moved. */
    method ArchivePaid(id: int) returns (archived: bool)
      requires Valid()
      modifies this
      ensures Valid()
      ensures archived <==> old(activeSaved) && FindById(old(active), id).Some? && FindById(old(active), id).value.isPaid
      ensures archived ==> history == old(history) + [FindById(old(active), id).value]
                           && active == RemoveId(old(active), id)
      ensures !archived ==> history == old(history) && active == old(active)
      ensures activeSaved == old(activeSaved) && users == old(users)
      ensures rejected == old(rejected) && workshopTimer == old(workshopTimer) && timerRunning == old(timerRunning)
    {
      archived := false;
      if !activeSaved {
        return;
      }
      var found := FindById(active, id);
      if found.None? || !found.value.isPaid {
        return;
      }
      history := history + [found.value];
      StatusUpdateKeepsWellFormed(active, id, Cancelled);
      active := RemoveId(active, id);
      archived := true;
    }

    /** Entering the waiting-for-workshop screen starts the five-minute countdown. */
    method StartWorkshopTimer()
      requires Valid()
      modifies this
      ensures Valid()
      ensures workshopTimer == Countdown.WindowSeconds && timerRunning
      ensures active == old(active) && activeSaved == old(activeSaved) && history == old(history)
      ensures users == old(users) && rejected == old(rejected)
    {
      workshopTimer := Countdown.WindowSeconds;
      timerRunning := true;
    }

    /** Leaving the screen clears the interval. */
    method StopWorkshopTimer()
      requires Valid()
      modifies this
      ensures Valid()
      ensures !timerRunning && workshopTimer == old(workshopTimer)
      ensures active == old(active) && activeSaved == old(activeSaved) && history == old(history)
      ensures users == old(users) && rejected == old(rejected)
    {
      timerRunning := false;
    }

    /** One second of the countdown. On expiry the interval stops and the signed-in owner's
        requests are withdrawn from the store. Reports whether the window closed. */
    method WorkshopTimerTick(owner: Option<User>) returns (expired: bool)
      requires Valid()
      modifies this
      ensures Valid()
      ensures expired <==> old(timerRunning) && old(workshopTimer) <= 1
      ensures old(timerRunning) ==> workshopTimer == Countdown.Tick(old(workshopTimer)).timer
      ensures !old(timerRunning) ==> workshopTimer == old(workshopTimer)
      ensures timerRunning == (old(timerRunning) && !expired)
      ensures active == (if expired && old(activeSaved)
                         then WithoutOwner(old(active), if owner.Some? then Some(owner.value.username) else None)
                         else old(active))
      ensures activeSaved == old(activeSaved) && history == old(history)
      ensures users == old(users) && rejected == old(rejected)
    {
      expired := false;
      if !timerRunning {
        return;
      }
      var t := Countdown.Tick(workshopTimer);
      workshopTimer := t.timer;
      if t.expired {
        timerRunning := false;
        var username := if owner.Some? then Some(owner.value.username) else None;
        if activeSaved {
          TimeoutRemovesOwner(active, username);
          active := WithoutOwner(active, username);
        }
        expired := true;
      }
    }
  }
}
