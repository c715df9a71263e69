/** The trip offer manager: one pending offer per sender, each with a
  * ten-minute response window. */
module Trips {
  import opened Wrappers
  import opened Domain
  import opened Collaborators
  import opened TripRules

  /** An offered trip and the time it was offered. */
  datatype Assignment = Assignment(trip: Trip, assignedAt: int)

  /** The message `assignTrip` returns: the trip to describe and the button ids. */
  datatype OfferMessage = OfferMessage(trip: Trip, buttons: seq<string>)

  /** The response window, in milliseconds. */
  const ResponseWindowMillis: nat := 10 * 60 * 1000

  class TripManager {
    /** The trip offered to each sender. */
    var assignments: map<Sender, Assignment>
    /** The handle of each sender's response-window timer. */
    var timeoutIds: map<Sender, TimerId>
    /** The timers armed and neither fired nor cleared, with the sender each
      * one calls `handleTimeout` for. */
    var pendingTimers: map<TimerId, Sender>
    var nextTimerId: TimerId

    const outbox: Outbox
    const sheets: Sheets
    const distance: Distance

    /** A sender has a timer handle only while an offer is assigned, and every
      * handle names an armed timer that fires for that sender. */
    predicate Valid()
      reads this
    {
      && timeoutIds.Keys <= assignments.Keys
      && (forall s :: s in timeoutIds ==> timeoutIds[s] in pendingTimers && pendingTimers[timeoutIds[s]] == s)
      && (forall id :: id in pendingTimers ==> id < nextTimerId)
    }

    constructor (outbox: Outbox, sheets: Sheets, distance: Distance)
      ensures Valid()
      ensures assignments == map[] && timeoutIds == map[] && pendingTimers == map[]
      ensures this.outbox == outbox && this.sheets == sheets && this.distance == distance
    {
      assignments := map[];
      timeoutIds := map[];
      pendingTimers := map[];
      nextTimerId := 0;
      this.outbox := outbox;
      this.sheets := sheets;
      this.distance := distance;
    }

    /** The trip `findAvailableTrip` finds for a vehicle: none when the
      * catalog cannot be read. */
    function Offerable(v: Transport, nowIso: string): Option<Trip> {
      if sheets.reachable && CatalogSheet in sheets.contents
      then SelectTrip(sheets.contents[CatalogSheet], v, nowIso, distance)
      else None
    }

    /** `setTimeout`: arms a fresh timer that will act for `to`. */
    method ArmTimer(to: Sender) returns (id: TimerId)
      requires Valid()
      modifies this
      ensures Valid()
      ensures id == old(nextTimerId) && id !in old(pendingTimers)
      ensures pendingTimers == old(pendingTimers)[id := to] && nextTimerId == old(nextTimerId) + 1
      ensures assignments == old(assignments) && timeoutIds == old(timeoutIds)
    {
      id := nextTimerId;
      pendingTimers := pendingTimers[id := to];
      nextTimerId := nextTimerId + 1;
    }

    /** Reads the catalog and selects the first matching trip; a failed read
      * is caught and reads as no trip. */
    method FindAvailableTrip(v: Transport, nowIso: string) returns (r: Option<Trip>)
      ensures r == Offerable(v, nowIso)
      ensures !sheets.reachable ==> r.None?
    {
      var rows := sheets.Fetch(CatalogSheet);
      if rows.Err? {
        r := None;
      } else {
        r := SelectTrip(rows.value, v, nowIso, distance);
      }
    }

    /** `assignTrip`: when no trip matches, says so and records nothing; when one
      * does, records exactly one offer and one fresh timer for the sender and
      * returns the offer with the two buttons `accept` and `reject`. */
    method AssignTrip(to: Sender, v: Transport, env: Env) returns (r: Option<OfferMessage>)
      requires Valid()
      modifies this, outbox
      ensures Valid()
      ensures Offerable(v, env.iso).None? ==>
        && r.None?
        && assignments == old(assignments) && timeoutIds == old(timeoutIds)
        && pendingTimers == old(pendingTimers) && nextTimerId == old(nextTimerId)
        && outbox.log == old(outbox.log) + [Text(to, NoTripsAvailable)]
      ensures Offerable(v, env.iso).Some? ==>
        var t := Offerable(v, env.iso).value;
        && r == Some(OfferMessage(t, OfferButtons))
        && assignments == old(assignments)[to := Assignment(t, env.millis)]
        && timeoutIds == old(timeoutIds)[to := old(nextTimerId)]
        && pendingTimers == old(pendingTimers)[old(nextTimerId) := to]
        && nextTimerId == old(nextTimerId) + 1
        && outbox.log == old(outbox.log)
    {
      var found := FindAvailableTrip(v, env.iso);
      if found.None? {
        outbox.SendText(to, NoTripsAvailable);
        r := None;
        return;
      }
      assignments := assignments[to := Assignment(found.value, env.millis)];
      var id := ArmTimer(to);
      timeoutIds := timeoutIds[to := id];
      r := Some(OfferMessage(found.value, OfferButtons));
    }

    /** `handleTripResponse`. Without an offer it says so and changes nothing.
      * With an offer whose timer handle is gone, the window has closed: the
      * offer is dropped and the answer is `false`. Otherwise the timer is
      * cleared and its handle removed before the response is read: `aceptar`
      * confirms (three sends, then one accepted-trip row; either may throw,
      * leaving the offer in place), `rechazar` drops the offer, and anything
      * else, the button ids `accept` and `reject` included, keeps the offer
      * without a timer and answers `false`. */
    method HandleTripResponse(to: Sender, response: string, env: Env) returns (r: Result<bool>)
      requires Valid()
      modifies this, outbox, sheets
      ensures Valid()
      ensures nextTimerId == old(nextTimerId)
      ensures assignments.Keys <= old(assignments).Keys
      ensures to !in old(assignments) ==>
        && r == Ok(false)
        && assignments == old(assignments) && timeoutIds == old(timeoutIds) && pendingTimers == old(pendingTimers)
        && outbox.log == old(outbox.log) + [Text(to, NoTripAssigned)] && sheets.appended == old(sheets.appended)
      ensures to in old(assignments) && to !in old(timeoutIds) ==>
        && r == Ok(false)
        && assignments == old(assignments) - {to} && timeoutIds == old(timeoutIds) && pendingTimers == old(pendingTimers)
        && outbox.log == old(outbox.log) + [Text(to, ResponseWindowClosed)] && sheets.appended == old(sheets.appended)
      ensures to in old(assignments) && to in old(timeoutIds) ==>
        && timeoutIds == old(timeoutIds) - {to}
        && pendingTimers == old(pendingTimers) - {old(timeoutIds)[to]}
      ensures to in old(assignments) && to in old(timeoutIds) && response == "aceptar" ==>
        var trip := old(assignments)[to].trip;
        var told := [Text(to, TripAccepted(env.confirmationCode, trip.origin, trip.destination, trip.flete)),
                     Text(to, ContactDispatcher)];
        && (outbox.contactCardFails ==>
              && r == Err(TypeError) && assignments == old(assignments)
              && outbox.log == old(outbox.log) + told && sheets.appended == old(sheets.appended))
        && (!outbox.contactCardFails && !sheets.reachable ==>
              && r == Err(StorageError) && assignments == old(assignments)
              && outbox.log == old(outbox.log) + told + [ContactCard(to)]
              && sheets.appended == old(sheets.appended))
        && (!outbox.contactCardFails && sheets.reachable ==>
              && r == Ok(true) && assignments == old(assignments) - {to}
              && outbox.log == old(outbox.log) + told + [ContactCard(to)]
              && sheets.appended == old(sheets.appended)
                   + [Append(AcceptedSheet, AcceptedRow(to, trip, env.confirmationCode, env.iso))])
      ensures to in old(assignments) && to in old(timeoutIds) && response == "rechazar" ==>
        && r == Ok(true) && assignments == old(assignments) - {to}
        && outbox.log == old(outbox.log) + [Text(to, TripRejected)] && sheets.appended == old(sheets.appended)
      ensures to in old(assignments) && to in old(timeoutIds) && response != "aceptar" && response != "rechazar" ==>
        && r == Ok(false) && assignments == old(assignments)
        && outbox.log == old(outbox.log) + [Text(to, InvalidResponse)] && sheets.appended == old(sheets.appended)
    {
      if to !in assignments {
        outbox.SendText(to, NoTripAssigned);
        return Ok(false);
      }
      var assignment := assignments[to];
      if to in timeoutIds {
        pendingTimers := pendingTimers - {timeoutIds[to]};
        timeoutIds := timeoutIds - {to};
      } else {
        outbox.SendText(to, ResponseWindowClosed);
        assignments := assignments - {to};
        return Ok(false);
      }
      if response == "aceptar" {
        var code := env.confirmationCode;
        var trip := assignment.trip;
        outbox.SendText(to, TripAccepted(code, trip.origin, trip.destination, trip.flete));
        outbox.SendText(to, ContactDispatcher);
        var sent := outbox.SendSupportContact(to);
        if sent.Fail? {
          return Err(sent.error);
        }
        var appended := sheets.AppendRow(AcceptedRow(to, trip, code, env.iso), AcceptedSheet);
        if appended.Fail? {
          return Err(appended.error);
        }
        assignments := assignments - {to};
        r := Ok(true);
      } else if response == "rechazar" {
        outbox.SendText(to, TripRejected);
        assignments := assignments - {to};
        r := Ok(true);
      } else {
        outbox.SendText(to, InvalidResponse);
        r := Ok(false);
      }
    }

    /** `handleTimeout`: when the offer is still assigned, announces the
      * reassignment and drops the offer and its handle; otherwise does nothing. */
    method HandleTimeout(to: Sender)
      requires Valid()
      modifies this, outbox
      ensures Valid()
      ensures pendingTimers == old(pendingTimers) && nextTimerId == old(nextTimerId)
      ensures to in old(assignments) ==>
        && assignments == old(assignments) - {to} && timeoutIds == old(timeoutIds) - {to}
        && outbox.log == old(outbox.log) + [Text(to, TripReassigned)]
      ensures to !in old(assignments) ==>
        && assignments == old(assignments) && timeoutIds == old(timeoutIds) && outbox.log == old(outbox.log)
    {
      if to in assignments {
        outbox.SendText(to, TripReassigned);
        assignments := assignments - {to};
        timeoutIds := timeoutIds - {to};
      }
    }

    /** The runtime delivering an armed response-window timer: the timer is no
      * longer pending and `handleTimeout` runs for its sender. */
    method FireOfferTimer(id: TimerId)
      requires Valid() && id in pendingTimers
      modifies this, outbox
      ensures Valid()
      ensures pendingTimers == old(pendingTimers) - {id} && nextTimerId == old(nextTimerId)
      ensures var to := old(pendingTimers)[id];
        && (to in old(assignments) ==>
              && assignments == old(assignments) - {to} && timeoutIds == old(timeoutIds) - {to}
              && outbox.log == old(outbox.log) + [Text(to, TripReassigned)])
        && (to !in old(assignments) ==>
              && assignments == old(assignments) && timeoutIds == old(timeoutIds) && outbox.log == old(outbox.log))
    {
      var to := pendingTimers[id];
      HandleTimeout(to);
      pendingTimers := pendingTimers - {id};
    }

    /** The offer buttons never complete an offer: answering with the `accept`
      * button id is an invalid response that removes the timer handle, and the
      * next answer, whatever it is, finds the window closed and drops the offer. */
    method ButtonIdsNeverComplete(to: Sender, second: string, env: Env) returns (r1: Result<bool>, r2: Result<bool>)
      requires Valid() && to in assignments && to in timeoutIds
      modifies this, outbox, sheets
      ensures Valid()
      ensures r1 == Ok(false) && r2 == Ok(false)
      ensures to !in assignments && to !in timeoutIds
      ensures outbox.log == old(outbox.log) + [Text(to, InvalidResponse), Text(to, ResponseWindowClosed)]
      ensures sheets.appended == old(sheets.appended)
    {
      r1 := HandleTripResponse(to, OfferButtons[0], env);
      r2 := HandleTripResponse(to, second, env);
    }
  }
}
