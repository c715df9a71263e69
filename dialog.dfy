/** The dialog engine: one dialog per sender, started from the menu, stepped
  * by each text, closed by the exit keyword, by its completion or by a
  * ten-minute inactivity timer. */
module Dialog {
  import opened Wrappers
  import opened JsText
  import opened Domain
  import opened Collaborators
  import opened DialogRules
  import opened TripRules
  import opened Trips

  /** The inactivity window of a dialog, in milliseconds. */
  const InactivityMillis: nat := 600_000

  /** The exit keyword. */
  const ExitKeyword := "salir"

  /** Every dialog of the map is well formed. */
  predicate AllWellFormed(m: map<Sender, Dialog>) {
    forall s :: s in m ==> WellFormed(m[s])
  }

  lemma AllWellFormedUpdate(m: map<Sender, Dialog>, to: Sender, d: Dialog)
    requires AllWellFormed(m) && WellFormed(d)
    ensures AllWellFormed(m[to := d])
  {
  }

  lemma AllWellFormedRemove(m: map<Sender, Dialog>, to: Sender)
    requires AllWellFormed(m)
    ensures AllWellFormed(m - {to})
  {
  }

  class ConversationFlow {
    /** The dialog of each sender. */
    var state: map<Sender, Dialog>
    /** The inactivity timers armed and neither fired nor cleared, with the
      * sender each one resets. */
    var pendingTimers: map<TimerId, Sender>
    var nextTimerId: TimerId

    const outbox: Outbox
    const sheets: Sheets
    const trips: TripManager

    /** Every dialog is well formed, every timer handle a dialog holds names an
      * armed timer for that sender, and the trip manager shares the channel
      * and the store. */
    predicate Valid()
      reads this, trips
    {
      && trips.Valid()
      && trips.outbox == outbox && trips.sheets == sheets
      && AllWellFormed(state)
      && (forall s :: s in state && state[s].timeoutId.Some? ==>
            state[s].timeoutId.value in pendingTimers && pendingTimers[state[s].timeoutId.value] == s)
      && (forall id :: id in pendingTimers ==> id < nextTimerId)
    }

    constructor (outbox: Outbox, sheets: Sheets, trips: TripManager)
      requires trips.Valid() && trips.outbox == outbox && trips.sheets == sheets
      ensures Valid()
      ensures state == map[] && pendingTimers == map[]
      ensures this.outbox == outbox && this.sheets == sheets && this.trips == trips
    {
      state := map[];
      pendingTimers := map[];
      nextTimerId := 0;
      this.outbox := outbox;
      this.sheets := sheets;
      this.trips := trips;
    }

    /** The armed timers once `to`'s dialog is reset: its own timer is cleared. */
    function PendingAfterReset(to: Sender): map<TimerId, Sender>
      reads this
    {
      if to in state && state[to].timeoutId.Some? then pendingTimers - {state[to].timeoutId.value}
      else pendingTimers
    }

    /** What `getBalance` reads for an id: the ledger entries, or the error of
      * a failed read. */
    function LedgerEntries(id: string): Result<seq<Balance>> {
      if sheets.reachable && LedgerSheet in sheets.contents
      then Ok(BalanceEntries(sheets.contents[LedgerSheet], id))
      else Err(StorageError)
    }

    /** The vehicle `completeAvailability` registers from a dialog. */
    function TransportOf(to: Sender, d: Dialog, env: Env): Transport
      requires d.location.Some?
    {
      Transport(to, d.vehicleType, d.placa, d.modelo, d.capacity, d.volume, d.location.value, env.iso)
    }

    /** `resetState`: clears the sender's timer, if its dialog holds one, and
      * removes the dialog. A sender without a dialog is left as is. */
    method ResetState(to: Sender)
      requires Valid()
      modifies this
      ensures Valid()
      ensures state == old(state) - {to}
      ensures pendingTimers == old(PendingAfterReset(to)) && nextTimerId == old(nextTimerId)
    {
      if to in state && state[to].timeoutId.Some? {
        pendingTimers := pendingTimers - {state[to].timeoutId.value};
      }
      state := state - {to};
    }

    /** `startAvailabilityFlow`: a fresh dialog at the vehicle-type step with a
      * fresh inactivity timer. The timer of a dialog it replaces is not
      * cleared: the test at conversationFlow.js:196 reads the object just
      * created, which has no handle, so that timer stays armed. */
    method StartAvailabilityFlow(to: Sender)
      requires Valid()
      modifies this
      ensures Valid()
      ensures state == old(state)[to := Fresh(VehicleType).(timeoutId := Some(old(nextTimerId)))]
      ensures old(nextTimerId) !in old(pendingTimers)
      ensures pendingTimers == old(pendingTimers)[old(nextTimerId) := to]
      ensures nextTimerId == old(nextTimerId) + 1
    {
      var id := nextTimerId;
      var d := Fresh(VehicleType).(timeoutId := Some(id));
      assert WellFormed(d);
      AllWellFormedUpdate(state, to, d);
      pendingTimers := pendingTimers[id := to];
      nextTimerId := nextTimerId + 1;
      state := state[to := d];
    }

    /** `startBalanceFlow`: installs a dialog at the balance step, then throws a
      * `ReferenceError` at conversationFlow.js:206 (`timeoutId` is an
      * undeclared identifier), so no timer is armed. */
    method StartBalanceFlow(to: Sender) returns (r: Outcome)
      requires Valid()
      modifies this
      ensures Valid()
      ensures r == Fail(ReferenceError)
      ensures state == old(state)[to := Fresh(BalanceId)]
      ensures pendingTimers == old(pendingTimers) && nextTimerId == old(nextTimerId)
    {
      AllWellFormedUpdate(state, to, Fresh(BalanceId));
      state := state[to := Fresh(BalanceId)];
      r := Fail(ReferenceError);
    }

    /** `handleAvailabilityFlow`: one text at an availability step, through
      * the step transition; without a dialog it throws. */
    method HandleAvailabilityFlow(to: Sender, message: string, currentYear: int) returns (r: Outcome)
      requires Valid()
      modifies this, outbox
      ensures Valid()
      ensures pendingTimers == old(pendingTimers) && nextTimerId == old(nextTimerId)
      ensures to !in old(state) ==> r == Fail(TypeError) && state == old(state) && outbox.log == old(outbox.log)
      ensures to in old(state) ==>
        var step := AvailabilityInput(old(state)[to], message, currentYear);
        && r == Pass
        && state == old(state)[to := step.dialog]
        && outbox.log == old(outbox.log) + (if step.reply.Some? then [Text(to, step.reply.value)] else [])
    {
      if to !in state {
        return Fail(TypeError);
      }
      var d := state[to];
      var step := AvailabilityInput(d, message, currentYear);
      AvailabilityInputPreservesWellFormed(d, message, currentYear);
      ApplyStep(to, step);
      r := Pass;
    }

    /** Stores the dialog a step produced and sends its reply, if any. */
    method ApplyStep(to: Sender, step: StepResult)
      requires Valid() && to in state && WellFormed(step.dialog) && step.dialog.timeoutId == state[to].timeoutId
      modifies this, outbox
      ensures Valid()
      ensures state == old(state)[to := step.dialog]
      ensures pendingTimers == old(pendingTimers) && nextTimerId == old(nextTimerId)
      ensures outbox.log == old(outbox.log) + (if step.reply.Some? then [Text(to, step.reply.value)] else [])
    {
      AllWellFormedUpdate(state, to, step.dialog);
      state := state[to := step.dialog];
      if step.reply.Some? {
        outbox.SendText(to, step.reply.value);
      }
    }

    /** `getBalance`: the ledger entries for an id, or the read's error. */
    method GetBalance(id: string) returns (r: Result<seq<Balance>>)
      ensures r == LedgerEntries(id)
      ensures !sheets.reachable ==> r == Err(StorageError)
    {
      var rows := sheets.Fetch(LedgerSheet);
      if rows.Err? {
        return Err(rows.error);
      }
      r := Ok(BalanceEntries(rows.value, id));
    }

    /** `handleBalanceFlow`: replies with the totals and details for the id,
      * or that nothing was found, and removes the dialog; a failed ledger read
      * throws before anything is sent or removed. */
    method HandleBalanceFlow(to: Sender, message: string) returns (r: Outcome)
      requires Valid()
      modifies this, outbox
      ensures Valid()
      ensures nextTimerId == old(nextTimerId)
      ensures LedgerEntries(message).Err? ==>
        && r == Fail(StorageError)
        && state == old(state) && pendingTimers == old(pendingTimers) && outbox.log == old(outbox.log)
      ensures LedgerEntries(message).Ok? ==>
        && r == Pass
        && state == old(state) - {to} && pendingTimers == old(PendingAfterReset(to))
        && outbox.log == old(outbox.log) + [Text(to, BalanceReply(message, LedgerEntries(message).value))]
    {
      var balances := GetBalance(message);
      if balances.Err? {
        return Fail(balances.error);
      }
      outbox.SendText(to, BalanceReply(message, balances.value));
      ResetState(to);
      r := Pass;
    }

    /** The offer manager is left as it was: no offer, no timer, no timer id used. */
    twostate predicate TripsKept()
      reads this, trips
    {
      && trips.assignments == old(trips.assignments) && trips.timeoutIds == old(trips.timeoutIds)
      && trips.pendingTimers == old(trips.pendingTimers) && trips.nextTimerId == old(trips.nextTimerId)
    }

    /** The offer manager records the offer of `t` to `to`, made at `millis`,
      * with one fresh offer timer, as `assignTrip` does. */
    twostate predicate OfferRecorded(to: Sender, t: Trip, millis: int)
      reads this, trips
    {
      && trips.assignments == old(trips.assignments)[to := Assignment(t, millis)]
      && trips.timeoutIds == old(trips.timeoutIds)[to := old(trips.nextTimerId)]
      && trips.pendingTimers == old(trips.pendingTimers)[old(trips.nextTimerId) := to]
      && trips.nextTimerId == old(trips.nextTimerId) + 1
    }

    /** `completeAvailability`: appends the availability row, says a trip is
      * being searched, asks the trip manager for an offer, sends it if there is
      * one, and removes the dialog whether or not a trip matched. Without a
      * dialog or a location it throws before any effect; a failed append
      * throws and leaves the dialog in place. */
    method CompleteAvailability(to: Sender, env: Env) returns (r: Outcome)
      requires Valid()
      modifies this, outbox, sheets, trips
      ensures Valid()
      ensures nextTimerId == old(nextTimerId)
      ensures to !in old(state) || old(state)[to].location.None? ==>
        && r == Fail(TypeError)
        && state == old(state) && pendingTimers == old(pendingTimers)
        && outbox.log == old(outbox.log) && sheets.appended == old(sheets.appended)
        && TripsKept()
      ensures to in old(state) && old(state)[to].location.Some? && !sheets.reachable ==>
        && r == Fail(StorageError)
        && state == old(state) && pendingTimers == old(pendingTimers)
        && outbox.log == old(outbox.log) && sheets.appended == old(sheets.appended)
        && TripsKept()
      ensures to in old(state) && old(state)[to].location.Some? && sheets.reachable ==>
        var v := TransportOf(to, old(state)[to], env);
        var offer := trips.Offerable(v, env.iso);
        && r == Pass
        && state == old(state) - {to} && pendingTimers == old(PendingAfterReset(to))
        && sheets.appended == old(sheets.appended) + [Append(AvailabilitySheet, AvailabilityRow(v))]
        && (offer.None? ==>
              && outbox.log == old(outbox.log) + [Text(to, SearchingTrip), Text(to, NoTripsAvailable)]
              && TripsKept())
        && (offer.Some? ==>
              && outbox.log == old(outbox.log) + [Text(to, SearchingTrip), Buttons(to, TripOffer(offer.value), OfferButtons)]
              && OfferRecorded(to, offer.value, env.millis))
    {
      if to !in state || state[to].location.None? {
        return Fail(TypeError);
      }
      var v := TransportOf(to, state[to], env);
      var appended := sheets.AppendRow(AvailabilityRow(v), AvailabilitySheet);
      if appended.Fail? {
        return Fail(appended.error);
      }
      SearchAndClose(to, v, env);
      r := Pass;
    }

    /** The part of `completeAvailability` after the append: the searching
      * notice, the offer if any, and the removal of the dialog. */
    method SearchAndClose(to: Sender, v: Transport, env: Env)
      requires Valid()
      modifies this, outbox, trips
      ensures Valid()
      ensures state == old(state) - {to} && pendingTimers == old(PendingAfterReset(to)) && nextTimerId == old(nextTimerId)
      ensures trips.Offerable(v, env.iso).None? ==>
        && outbox.log == old(outbox.log) + [Text(to, SearchingTrip), Text(to, NoTripsAvailable)]
        && TripsKept()
      ensures trips.Offerable(v, env.iso).Some? ==>
        && outbox.log == old(outbox.log) + [Text(to, SearchingTrip), Buttons(to, TripOffer(trips.Offerable(v, env.iso).value), OfferButtons)]
        && OfferRecorded(to, trips.Offerable(v, env.iso).value, env.millis)
    {
      outbox.SendText(to, SearchingTrip);
      OfferTrip(to, v, env);
      ResetState(to);
    }

    /** The offer step of `completeAvailability`: asks the trip manager for an
      * offer and sends it with its buttons when there is one. */
    method OfferTrip(to: Sender, v: Transport, env: Env)
      requires Valid()
      modifies outbox, trips
      ensures Valid()
      ensures trips.Offerable(v, env.iso).None? ==>
        && outbox.log == old(outbox.log) + [Text(to, NoTripsAvailable)]
        && TripsKept()
      ensures trips.Offerable(v, env.iso).Some? ==>
        && outbox.log == old(outbox.log) + [Buttons(to, TripOffer(trips.Offerable(v, env.iso).value), OfferButtons)]
        && OfferRecorded(to, trips.Offerable(v, env.iso).value, env.millis)
    {
      var tripMessage := trips.AssignTrip(to, v, env);
      if tripMessage.Some? {
        outbox.SendButtons(to, TripOffer(tripMessage.value.trip), tripMessage.value.buttons);
      }
    }

    /** What `handleLocation` does with a shared location: at the location
      * step it stores the location and completes the dialog as
      * `completeAvailability` does (the row appended, the search notice, the
      * offer if any, the dialog removed), or throws with the location stored
      * when the append fails; at any other step, or without a dialog, nothing. */
    twostate predicate LocationHandled(to: Sender, location: Coordinates, env: Env, r: Outcome)
      reads this, outbox, sheets, trips
    {
      && nextTimerId == old(nextTimerId)
      && (to !in old(state) || old(state)[to].step != Location ==>
            && r == Pass
            && state == old(state) && pendingTimers == old(pendingTimers)
            && outbox.log == old(outbox.log) && sheets.appended == old(sheets.appended)
            && TripsKept())
      && (to in old(state) && old(state)[to].step == Location && !sheets.reachable ==>
            && r == Fail(StorageError)
            && state == old(state)[to := old(state)[to].(location := Some(location))]
            && pendingTimers == old(pendingTimers)
            && outbox.log == old(outbox.log) && sheets.appended == old(sheets.appended)
            && TripsKept())
      && (to in old(state) && old(state)[to].step == Location && sheets.reachable ==>
            var v := TransportOf(to, old(state)[to].(location := Some(location)), env);
            var offer := trips.Offerable(v, env.iso);
            && r == Pass
            && state == old(state) - {to} && pendingTimers == old(PendingAfterReset(to))
            && sheets.appended == old(sheets.appended) + [Append(AvailabilitySheet, AvailabilityRow(v))]
            && (offer.None? ==>
                  && outbox.log == old(outbox.log) + [Text(to, SearchingTrip), Text(to, NoTripsAvailable)]
                  && TripsKept())
            && (offer.Some? ==>
                  && outbox.log == old(outbox.log) + [Text(to, SearchingTrip), Buttons(to, TripOffer(offer.value), OfferButtons)]
                  && OfferRecorded(to, offer.value, env.millis)))
    }

    /** `handleLocation`: only a sender at the location step is affected; an
      * offer can appear only for that sender. */
    method HandleLocation(to: Sender, location: Coordinates, env: Env) returns (r: Outcome)
      requires Valid()
      modifies this, outbox, sheets, trips
      ensures Valid()
      ensures LocationHandled(to, location, env, r)
      ensures state.Keys <= old(state).Keys
      ensures to !in state ==> trips.assignments.Keys <= old(trips.assignments.Keys) + {to}
      ensures to in state ==> trips.assignments == old(trips.assignments)
    {
      if to in state && state[to].step == Location {
        state := state[to := state[to].(location := Some(location))];
        assert PendingAfterReset(to) == old(PendingAfterReset(to));
        r := CompleteAvailability(to, env);
      } else {
        r := Pass;
      }
    }

    /** What `handleFlow` does with a text: without a dialog, nothing. The
      * exit keyword removes the dialog at any step, without validation. A text
      * at the location step only reminds the sender to share a location. Any
      * other text goes to the balance lookup or the availability step; an
      * error there is caught, the sender is told, and the dialog is removed. */
    twostate predicate FlowHandled(to: Sender, message: string, env: Env)
      reads this, outbox
    {
      && nextTimerId == old(nextTimerId)
      && (to !in old(state) ==>
            state == old(state) && pendingTimers == old(pendingTimers) && outbox.log == old(outbox.log))
      && (to in old(state) && message == ExitKeyword ==>
            && state == old(state) - {to} && pendingTimers == old(PendingAfterReset(to))
            && outbox.log == old(outbox.log) + [Text(to, ExitConfirmed)])
      && (to in old(state) && message != ExitKeyword && old(state)[to].step == Location ==>
            && state == old(state) && pendingTimers == old(pendingTimers)
            && outbox.log == old(outbox.log) + [Text(to, LocationReminder)])
      && (to in old(state) && message != ExitKeyword && old(state)[to].step == BalanceId ==>
            && state == old(state) - {to} && pendingTimers == old(PendingAfterReset(to))
            && outbox.log == old(outbox.log) + [Text(to, match LedgerEntries(message)
                                                      case Ok(bs) => BalanceReply(message, bs)
                                                      case Err(_) => FlowFailed)])
      && (to in old(state) && message != ExitKeyword && old(state)[to].step != Location && old(state)[to].step != BalanceId ==>
            var step := AvailabilityInput(old(state)[to], message, env.year);
            && state == old(state)[to := step.dialog] && pendingTimers == old(pendingTimers)
            && step.reply.Some? && outbox.log == old(outbox.log) + [Text(to, step.reply.value)])
    }

    /** `handleFlow`: no step adds a dialog. */
    method HandleFlow(to: Sender, message: string, env: Env)
      requires Valid()
      modifies this, outbox
      ensures Valid()
      ensures FlowHandled(to, message, env)
      ensures state.Keys <= old(state).Keys
    {
      if to !in state {
        return;
      }
      if message == ExitKeyword {
        ResetState(to);
        outbox.SendText(to, ExitConfirmed);
        return;
      }
      var step := state[to].step;
      if step == Location {
        outbox.SendText(to, LocationReminder);
        return;
      }
      var r;
      if step == BalanceId {
        r := HandleBalanceFlow(to, message);
      } else {
        r := HandleAvailabilityFlow(to, message, env.year);
      }
      if r.Fail? {
        outbox.SendText(to, FlowFailed);
        ResetState(to);
      }
    }

    /** The runtime delivering an armed inactivity timer: the timer is no
      * longer pending, the sender's dialog (whichever it now is) is reset and
      * the session-closed notice is sent, even when no dialog is left. */
    method FireInactivityTimer(id: TimerId)
      requires Valid() && id in pendingTimers
      modifies this, outbox
      ensures Valid()
      ensures var to := old(pendingTimers)[id];
        && state == old(state) - {to}
        && pendingTimers == old(PendingAfterReset(to)) - {id}
        && outbox.log == old(outbox.log) + [Text(to, SessionClosed)]
    {
      var to := pendingTimers[id];
      ResetState(to);
      pendingTimers := pendingTimers - {id};
      outbox.SendText(to, SessionClosed);
    }

    /** A dialog restarted before its timer fires ends early: the first
      * dialog's timer stays armed, and when it fires it removes the second
      * dialog and clears the second dialog's timer too. */
    method RestartedDialogEndsEarly(to: Sender)
      requires Valid() && to !in state
      modifies this, outbox
      ensures Valid()
      ensures to !in state
      ensures pendingTimers == old(pendingTimers)
      ensures outbox.log == old(outbox.log) + [Text(to, SessionClosed)]
    {
      StartAvailabilityFlow(to);
      var first := nextTimerId - 1;
      StartAvailabilityFlow(to);
      var second := nextTimerId - 1;
      assert first in pendingTimers && pendingTimers[first] == to;
      FireInactivityTimer(first);
      assert second !in pendingTimers;
    }
  }
}
