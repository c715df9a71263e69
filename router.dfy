/** The router: receives each chat event, drops duplicates of a sender whose
  * previous event is still being handled, and hands the event to the dialog
  * engine, the trip offer manager, the assistant session or the menu. */
module Router {
  import opened Wrappers
  import opened JsText
  import opened Domain
  import opened Collaborators
  import opened DialogRules
  import opened TripRules
  import opened Trips
  import opened Dialog

  // ---------------------------------------------------------------------
  // Events
  // ---------------------------------------------------------------------

  /** The content of an incoming chat event, by its `type`. */
  datatype Payload =
    | TextMsg(body: string)
    | LocationMsg(location: Coordinates)
    | Interactive(buttonReplyId: Option<string>)   // `None`: no `button_reply` in the event
    | OtherType

  /** An incoming chat event; `from` and `id` may be absent. */
  datatype Event = Event(from: Option<string>, id: Option<string>, payload: Payload)

  /** The profile the channel sends with an event. */
  datatype SenderInfo = SenderInfo(profileName: Option<string>, waId: Option<string>)

  /** The handler an event reaches. */
  datatype Route = ToDialog | ToOffer | ToAssistant | ToWelcome | ToLocation | ToMenu | Malformed | Unhandled

  /** The ids of the main menu buttons. */
  const MenuButtons: seq<string> := ["option_1", "option_2", "option_3"]

  /** The ids of the agent confirmation buttons. */
  const AgentButtons: seq<string> := ["yes_agent", "no_agent"]

  /** The dispatch precedence of `handleIncomingMessage`, given whether the
    * sender has a dialog, an offer and an assistant session. */
  function ExpectedRoute(p: Payload, inDialog: bool, inOffer: bool, inAssistant: bool): (r: Route)
    ensures r == ToDialog ==> inDialog
    ensures r == ToOffer ==> inOffer && !(p.TextMsg? && inDialog)
    ensures r == ToAssistant ==> inAssistant && !inDialog && !inOffer
    ensures r == ToWelcome ==> !inDialog && !inOffer && !inAssistant
    ensures r == ToMenu ==> !inOffer
    ensures p.Interactive? && p.buttonReplyId.Some? && inOffer ==> r == ToOffer
  {
    match p
    case TextMsg(_) =>
      if inDialog then ToDialog
      else if inOffer then ToOffer
      else if inAssistant then ToAssistant
      else ToWelcome
    case LocationMsg(_) => ToLocation
    case Interactive(id) =>
      if id.None? then Malformed
      else if inOffer then ToOffer
      else ToMenu
    case OtherType => Unhandled
  }

  /** The text a handler receives from an event: the normalised body of a
    * text, or the normalised id of a button reply. */
  function Answer(p: Payload): string {
    match p
    case TextMsg(body) => Normalize(body)
    case Interactive(id) => if id.Some? then Normalize(id.value) else ""
    case _ => ""
  }

  // ---------------------------------------------------------------------
  // Pure helpers
  // ---------------------------------------------------------------------

  /** The greetings and keywords that open a conversation. */
  const Starters: seq<string> := [
    "hola", "hello", "hi", "buenos d\U{ED}as", "buenas tardes", "buenas noches", "tardes", "d\U{ED}as", "saludos",
    "ayuda", "soporte", "men\U{FA}", "menu", "inicio", "empezar", "start", "hablemos",
    "qu\U{E9}", "c\U{F3}mo", "cu\U{E1}ndo", "d\U{F3}nde", "qui\U{E9}n", "cu\U{E1}nto", "por qu\U{E9}", "puedes", "necesito",
    "hey", "oye", "alo", "listo", "ok", "s\U{ED}", "claro", "quiero",
    "viaje", "viajes", "carga", "transporte", "saldo", "factura", "disponibilidad"]

  /** The test `some` applies to one starter. */
  predicate OpensWith(message: string, starter: string) {
    StartsWith(message, starter) || Includes(message, " " + starter + " ") || message == starter
  }

  /** `starters.some(...)`. */
  function SomeStarter(message: string, starters: seq<string>): (r: bool)
    ensures r <==> exists k :: 0 <= k < |starters| && OpensWith(message, starters[k])
    decreases |starters|
  {
    if |starters| == 0 then false
    else if OpensWith(message, starters[0]) then
      assert OpensWith(message, starters[0]);
      true
    else
      var rest := SomeStarter(message, starters[1..]);
      assert forall k :: 1 <= k < |starters| ==> starters[k] == starters[1..][k - 1];
      rest
  }

  /** `isConversationStarter`: always true for a sender without state;
    * otherwise true exactly when some starter opens the text. */
  function IsConversationStarter(message: string, hasPreviousState: bool): (r: bool)
    ensures !hasPreviousState ==> r
    ensures hasPreviousState ==> (r <==> exists k :: 0 <= k < |Starters| && OpensWith(message, Starters[k]))
  {
    !hasPreviousState || SomeStarter(message, Starters)
  }

  /** The starter test read through the definition of `includes`: the text
    * starts with the starter or holds it between two spaces (equality is the
    * special case of starting with it). */
  lemma OpensWithIff(message: string, starter: string)
    ensures OpensWith(message, starter) <==>
            (StartsWith(message, starter) || exists i :: OccursAt(message, " " + starter + " ", i))
  {
    IncludesIff(message, " " + starter + " ");
    if message == starter {
      assert message[..|starter|] == starter;
    }
  }

  /** The characters the name pattern keeps: ASCII letters, the Spanish
    * accented vowels and eñe, the range from `'` to `.`, and the space. */
  predicate IsNameChar(c: char) {
    || IsAsciiUpper(c) || IsAsciiLower(c)
    || c in "\U{C1}\U{C9}\U{CD}\U{D3}\U{DA}\U{E1}\U{E9}\U{ED}\U{F3}\U{FA}\U{D1}\U{F1}"
    || ('\'' <= c <= '.') || c == ' '
  }

  /** The matches of the name pattern joined: the name characters, in order. */
  function KeepNameChars(s: string): (r: string)
    ensures |r| <= |s|
    ensures forall k :: 0 <= k < |r| ==> IsNameChar(r[k])
    ensures (forall k :: 0 <= k < |s| ==> IsNameChar(s[k])) ==> r == s
    ensures r == [] <==> forall k :: 0 <= k < |s| ==> !IsNameChar(s[k])
    decreases |s|
  {
    if |s| == 0 then []
    else
      var rest := KeepNameChars(s[1..]);
      assert forall k :: 1 <= k < |s| ==> s[k] == s[1..][k - 1];
      if IsNameChar(s[0]) then [s[0]] + rest else rest
  }

  const DefaultName := "transportista"

  /** The profile name, else the phone id, else the default (empty strings are falsy). */
  function RawName(info: Option<SenderInfo>): (r: string)
    ensures |r| > 0
  {
    if info.Some? && Truthy(info.value.profileName) then info.value.profileName.value
    else if info.Some? && Truthy(info.value.waId) then info.value.waId.value
    else DefaultName
  }

  /** The default name is made of name characters and is already trimmed. */
  lemma DefaultNameIsTrimmedName()
    ensures forall k :: 0 <= k < |DefaultName| ==> IsNameChar(DefaultName[k])
    ensures Trim(DefaultName) == DefaultName
  {
    TrimOfTrimmed(DefaultName);
  }

  /** `getSenderName`: the name characters of the raw name, trimmed; the
    * default when the raw name has none. */
  function GetSenderName(info: Option<SenderInfo>): (r: string)
    ensures forall k :: 0 <= k < |r| ==> IsNameChar(r[k])
    ensures |r| > 0 ==> !IsJsWhitespace(r[0]) && !IsJsWhitespace(r[|r| - 1])
    ensures (forall k :: 0 <= k < |RawName(info)| ==> !IsNameChar(RawName(info)[k])) ==> r == DefaultName
  {
    var cleaned := KeepNameChars(RawName(info));
    DefaultNameIsTrimmedName();
    var name := if cleaned == [] then DefaultName else cleaned;
    TrimKeepsCharClass(name, IsNameChar);
    Trim(name)
  }

  // ---------------------------------------------------------------------
  // Properties of dispatch
  // ---------------------------------------------------------------------

  /** While an offer exists, a button reply goes to the offer and never to the menu. */
  lemma OfferCapturesButtons(id: string, inDialog: bool, inAssistant: bool)
    ensures ExpectedRoute(Interactive(Some(id)), inDialog, true, inAssistant) == ToOffer
    ensures forall p: Payload :: p.Interactive? && p.buttonReplyId.Some? ==> ExpectedRoute(p, inDialog, true, inAssistant) != ToMenu
  {
  }

  /** A text reaches the greeting only when the sender has no dialog, no
    * offer and no assistant session; the starter test then always passes, so
    * the "not understood" branch of messageHandler.js:35-43 is never reached. */
  lemma WelcomeNeedsNoState(body: string, inDialog: bool, inOffer: bool, inAssistant: bool)
    requires ExpectedRoute(TextMsg(body), inDialog, inOffer, inAssistant) == ToWelcome
    ensures !inDialog && !inOffer && !inAssistant
    ensures IsConversationStarter(Normalize(body), inDialog || inOffer || inAssistant)
  {
  }

  /** A sender with state is greeted only for a starter: "hola" and "quiero un
    * viaje" open a conversation. */
  lemma StarterExamples()
    ensures IsConversationStarter("hola", true)
    ensures IsConversationStarter("quiero un viaje", true)
  {
    assert OpensWith("hola", Starters[0]);
    assert StartsWith("quiero un viaje", "quiero");
    assert OpensWith("quiero un viaje", Starters[33]);
  }

  /** The name filter works character by character: the filter of a
    * concatenation is the concatenation of the filters, and one character is
    * kept exactly when it is a name character. With the first property this
    * fixes the filter to the name characters of the text, in their order. */
  lemma {:induction false} KeepNameCharsConcat(a: string, b: string)
    ensures KeepNameChars(a + b) == KeepNameChars(a) + KeepNameChars(b)
    ensures |a| == 1 ==> KeepNameChars(a) == (if IsNameChar(a[0]) then a else [])
    decreases |a|
  {
    if |a| == 0 {
      assert a + b == b;
    } else {
      assert (a + b)[0] == a[0] && (a + b)[1..] == a[1..] + b;
      KeepNameCharsConcat(a[1..], b);
      if |a| == 1 {
        assert a[1..] == [] && a == [a[0]];
      }
    }
  }

  /** A non-empty profile name made of name characters, with no whitespace
    * at either end, is the sender's name as it is, whatever the phone id. */
  lemma ProfileNameIsKept(name: string, waId: Option<string>)
    requires |name| > 0 && forall k :: 0 <= k < |name| ==> IsNameChar(name[k])
    requires !IsJsWhitespace(name[0]) && !IsJsWhitespace(name[|name| - 1])
    ensures GetSenderName(Some(SenderInfo(Some(name), waId))) == name
  {
    assert RawName(Some(SenderInfo(Some(name), waId))) == name;
    TrimOfTrimmed(name);
  }

  /** Without a profile name (or with an empty one) the phone id is used; a
    * phone id of digits has no name characters, so the name is the default. */
  lemma PhoneIdFallsBackToDefault(profileName: Option<string>, waId: string)
    requires profileName.None? || profileName.value == ""
    requires |waId| > 0 && AllDigits(waId)
    ensures GetSenderName(Some(SenderInfo(profileName, Some(waId)))) == DefaultName
  {
    assert RawName(Some(SenderInfo(profileName, Some(waId)))) == waId;
    assert forall k :: 0 <= k < |waId| ==> !IsNameChar(waId[k]);
  }

  // ---------------------------------------------------------------------
  // The router
  // ---------------------------------------------------------------------

  class MessageHandler {
    /** The senders in an assistant session. */
    var assistantState: set<Sender>
    /** The senders already shown the main menu. */
    var menuSent: set<Sender>
    /** The senders whose previous event is still being handled. */
    var processing: set<Sender>

    const flow: ConversationFlow
    const trips: TripManager
    const outbox: Outbox
    const sheets: Sheets

    /** The components are consistent and share the channel and the store. */
    predicate Valid()
      reads this, flow, trips
    {
      && flow.trips == trips && flow.outbox == outbox && flow.sheets == sheets
      && flow.Valid()
    }

    /** No sender has both a dialog and an offer. */
    predicate Disjoint()
      reads this, flow, trips
    {
      flow.state.Keys !! trips.assignments.Keys
    }

    constructor (flow: ConversationFlow)
      requires flow.Valid()
      ensures Valid() && Disjoint() == (flow.state.Keys !! flow.trips.assignments.Keys)
      ensures this.flow == flow && this.trips == flow.trips && this.outbox == flow.outbox && this.sheets == flow.sheets
      ensures assistantState == {} && menuSent == {} && processing == {}
    {
      assistantState := {};
      menuSent := {};
      processing := {};
      this.flow := flow;
      this.trips := flow.trips;
      this.outbox := flow.outbox;
      this.sheets := flow.sheets;
    }

    /** Whether `handleIncomingMessage` drops an event: no sender, no id (an
      * empty string is falsy), or the sender is still being handled. */
    predicate Dropped(e: Event)
      reads this
    {
      e.from.None? || e.from.value == "" || e.id.None? || e.id.value == "" || e.from.value in processing
    }

    method SendMainMenu(to: Sender)
      modifies outbox
      ensures outbox.log == old(outbox.log) + [Buttons(to, MainMenu, MenuButtons)]
    {
      outbox.SendButtons(to, MainMenu, MenuButtons);
    }

    /** `sendMainMenuIfNotSent`: the menu goes out only when it has not been
      * sent to the sender yet, and is then marked as sent. */
    method SendMainMenuIfNotSent(to: Sender)
      modifies this, outbox
      ensures menuSent == old(menuSent) + {to}
      ensures outbox.log == old(outbox.log) + (if to in old(menuSent) then [] else [Buttons(to, MainMenu, MenuButtons)])
      ensures assistantState == old(assistantState) && processing == old(processing)
    {
      if to !in menuSent {
        SendMainMenu(to);
        menuSent := menuSent + {to};
      }
    }

    /** Asking twice sends the menu at most once. */
    method MenuSentAtMostOnce(to: Sender)
      modifies this, outbox
      ensures to in menuSent
      ensures outbox.log == old(outbox.log) + (if to in old(menuSent) then [] else [Buttons(to, MainMenu, MenuButtons)])
    {
      SendMainMenuIfNotSent(to);
      SendMainMenuIfNotSent(to);
    }

    /** The part of `completeFlow` that reaches into the offer manager: the
      * offer goes, and its timer is cleared when it has one. */
    method ForgetOffer(to: Sender)
      requires trips.Valid()
      modifies trips
      ensures trips.Valid()
      ensures trips.assignments == old(trips.assignments) - {to} && trips.timeoutIds == old(trips.timeoutIds) - {to}
      ensures trips.pendingTimers == if to in old(trips.timeoutIds) then old(trips.pendingTimers) - {old(trips.timeoutIds)[to]}
                                     else old(trips.pendingTimers)
      ensures trips.nextTimerId == old(trips.nextTimerId)
    {
      trips.assignments := trips.assignments - {to};
      if to in trips.timeoutIds {
        trips.pendingTimers := trips.pendingTimers - {trips.timeoutIds[to]};
        trips.timeoutIds := trips.timeoutIds - {to};
      }
    }

    /** The sender's dialog (its timer cleared), offer, offer timer, assistant
      * session and menu flag are gone, as `completeFlow` leaves them; every
      * other sender keeps its own. */
    twostate predicate Cleared(to: Sender)
      reads this, flow, trips
    {
      && flow.state == old(flow.state) - {to} && flow.pendingTimers == old(flow.PendingAfterReset(to))
      && trips.assignments == old(trips.assignments) - {to} && trips.timeoutIds == old(trips.timeoutIds) - {to}
      && trips.pendingTimers == (if to in old(trips.timeoutIds) then old(trips.pendingTimers) - {old(trips.timeoutIds)[to]}
                                 else old(trips.pendingTimers))
      && assistantState == old(assistantState) - {to} && menuSent == old(menuSent) - {to}
      && processing == old(processing)
    }

    /** No dialog, timer, offer, assistant session or menu flag has changed. */
    twostate predicate Kept()
      reads this, flow, trips
    {
      && flow.state == old(flow.state) && flow.pendingTimers == old(flow.pendingTimers)
      && trips.assignments == old(trips.assignments) && trips.timeoutIds == old(trips.timeoutIds)
      && trips.pendingTimers == old(trips.pendingTimers)
      && assistantState == old(assistantState) && menuSent == old(menuSent) && processing == old(processing)
    }

    /** The sender's offer stays, but its response-window timer is cleared
      * and its handle gone; nothing else has changed. */
    twostate predicate TimerDropped(to: Sender)
      requires old(to in trips.timeoutIds)
      reads this, flow, trips
    {
      && flow.state == old(flow.state) && flow.pendingTimers == old(flow.pendingTimers)
      && trips.assignments == old(trips.assignments) && trips.timeoutIds == old(trips.timeoutIds) - {to}
      && trips.pendingTimers == old(trips.pendingTimers) - {old(trips.timeoutIds)[to]}
      && assistantState == old(assistantState) && menuSent == old(menuSent) && processing == old(processing)
    }

    /** What the router does with an answer to an offer: the offer manager's
      * outcome, followed by `completeFlow` when the offer was accepted or
      * rejected. Without an offer, and with a closed window, the answer only
      * tells the sender so (the closed window also drops the offer). With the
      * window open, the timer goes first; then `rechazar` completes the flow,
      * `aceptar` confirms and records the trip before completing it, or throws
      * with the offer kept when the contact card or the record fails, and any
      * other answer keeps the offer and says it is invalid. */
    twostate predicate OfferAnswered(from: Sender, response: string, env: Env, r: Outcome)
      reads this, flow, trips, outbox, sheets
    {
      && (from !in old(trips.assignments) ==>
            && r == Pass && Kept() && sheets.appended == old(sheets.appended)
            && outbox.log == old(outbox.log) + [Text(from, NoTripAssigned)])
      && (from in old(trips.assignments) && from !in old(trips.timeoutIds) ==>
            && r == Pass && sheets.appended == old(sheets.appended)
            && flow.state == old(flow.state) && flow.pendingTimers == old(flow.pendingTimers)
            && trips.assignments == old(trips.assignments) - {from} && trips.timeoutIds == old(trips.timeoutIds)
            && trips.pendingTimers == old(trips.pendingTimers)
            && assistantState == old(assistantState) && menuSent == old(menuSent) && processing == old(processing)
            && outbox.log == old(outbox.log) + [Text(from, ResponseWindowClosed)])
      && (from in old(trips.assignments) && from in old(trips.timeoutIds) ==>
            var trip := old(trips.assignments)[from].trip;
            var told := [Text(from, TripAccepted(env.confirmationCode, trip.origin, trip.destination, trip.flete)),
                         Text(from, ContactDispatcher)];
            && (response == "rechazar" ==>
                  && r == Pass && Cleared(from) && sheets.appended == old(sheets.appended)
                  && outbox.log == old(outbox.log) + [Text(from, TripRejected), Buttons(from, MainMenu, MenuButtons)])
            && (response == "aceptar" && outbox.contactCardFails ==>
                  && r == Fail(TypeError) && TimerDropped(from) && sheets.appended == old(sheets.appended)
                  && outbox.log == old(outbox.log) + told)
            && (response == "aceptar" && !outbox.contactCardFails && !sheets.reachable ==>
                  && r == Fail(StorageError) && TimerDropped(from) && sheets.appended == old(sheets.appended)
                  && outbox.log == old(outbox.log) + told + [ContactCard(from)])
            && (response == "aceptar" && !outbox.contactCardFails && sheets.reachable ==>
                  && r == Pass && Cleared(from)
                  && sheets.appended == old(sheets.appended)
                       + [Append(AcceptedSheet, AcceptedRow(from, trip, env.confirmationCode, env.iso))]
                  && outbox.log == old(outbox.log) + told + [ContactCard(from), Buttons(from, MainMenu, MenuButtons)])
            && (response != "aceptar" && response != "rechazar" ==>
                  && r == Pass && TimerDropped(from) && sheets.appended == old(sheets.appended)
                  && outbox.log == old(outbox.log) + [Text(from, InvalidResponse)]))
    }

    /** What the assistant session does with a text: `salir` or `volver`
      * complete the flow and show the menu; a text naming an agent or a human
      * asks for confirmation; anything else gets the assistant's reply. */
    twostate predicate AssistantAnswered(to: Sender, message: string, env: Env)
      reads this, flow, trips, outbox, sheets
    {
      && sheets.appended == old(sheets.appended)
      && (message == "salir" || message == "volver" ==>
            Cleared(to) && outbox.log == old(outbox.log) + [Buttons(to, MainMenu, MenuButtons)])
      && (message != "salir" && message != "volver" ==>
            && Kept()
            && outbox.log == old(outbox.log) + [if Includes(message, "agente") || Includes(message, "humano")
                                                then Buttons(to, AgentConfirm, AgentButtons)
                                                else Text(to, AssistantAnswer(env.aiReply))])
    }

    /** What a menu option does. `option_1` and `option_2` end the assistant
      * session and start the matching dialog; `option_2` then throws, so its
      * prompt is never sent. `option_3` opens the assistant session.
      * `yes_agent` ends it and sends the agent's contact, which throws when the
      * contact card cannot be sent. `no_agent` stays in the session or shows
      * the menu. Offers, menu flags and the store are never touched. */
    twostate predicate MenuOptionHandled(to: Sender, option: string, r: Outcome)
      reads this, flow, trips, outbox, sheets
    {
      && menuSent == old(menuSent) && processing == old(processing)
      && trips.assignments == old(trips.assignments) && trips.timeoutIds == old(trips.timeoutIds)
      && trips.pendingTimers == old(trips.pendingTimers) && sheets.appended == old(sheets.appended)
      && (option == "option_1" ==>
            && r == Pass && assistantState == old(assistantState) - {to}
            && flow.state == old(flow.state)[to := Fresh(VehicleType).(timeoutId := Some(old(flow.nextTimerId)))]
            && flow.pendingTimers == old(flow.pendingTimers)[old(flow.nextTimerId) := to]
            && outbox.log == old(outbox.log) + [Text(to, AskVehicleType)])
      && (option == "option_2" ==>
            && r == Fail(ReferenceError) && assistantState == old(assistantState) - {to}
            && flow.state == old(flow.state)[to := Fresh(BalanceId)] && flow.pendingTimers == old(flow.pendingTimers)
            && outbox.log == old(outbox.log))
      && (option == "option_3" ==>
            && r == Pass && assistantState == old(assistantState) + {to}
            && flow.state == old(flow.state) && flow.pendingTimers == old(flow.pendingTimers)
            && outbox.log == old(outbox.log) + [Text(to, AssistantIntro)])
      && (option == "yes_agent" ==>
            && assistantState == old(assistantState) - {to}
            && flow.state == old(flow.state) && flow.pendingTimers == old(flow.pendingTimers)
            && (outbox.contactCardFails ==> r == Fail(TypeError) && outbox.log == old(outbox.log) + [Text(to, AgentContact)])
            && (!outbox.contactCardFails ==>
                  r == Pass && outbox.log == old(outbox.log) + [Text(to, AgentContact), ContactCard(to), Buttons(to, MainMenu, MenuButtons)]))
      && (option == "no_agent" ==>
            && r == Pass && assistantState == old(assistantState)
            && flow.state == old(flow.state) && flow.pendingTimers == old(flow.pendingTimers)
            && outbox.log == old(outbox.log) + (if to in old(assistantState) then [Text(to, AssistantStillHere)]
                                                else [Buttons(to, MainMenu, MenuButtons)]))
      && (option !in {"option_1", "option_2", "option_3", "yes_agent", "no_agent"} ==>
            && r == Pass && assistantState == old(assistantState)
            && flow.state == old(flow.state) && flow.pendingTimers == old(flow.pendingTimers)
            && outbox.log == old(outbox.log) + [Text(to, InvalidOption)])
    }

    /** The dialog engine's handling of the text, and nothing else changed. */
    twostate predicate DialogContinued(from: Sender, text: string, env: Env)
      reads this, flow, flow.outbox, trips, sheets
    {
      && flow.FlowHandled(from, text, env)
      && trips.assignments == old(trips.assignments) && trips.timeoutIds == old(trips.timeoutIds)
      && trips.pendingTimers == old(trips.pendingTimers) && sheets.appended == old(sheets.appended)
      && assistantState == old(assistantState) && menuSent == old(menuSent) && processing == old(processing)
    }

    /** The dialog engine's handling of the location; the assistant sessions
      * and menu flags are not touched. */
    twostate predicate Located(from: Sender, location: Coordinates, env: Env, r: Outcome)
      reads this, flow, flow.outbox, flow.sheets, flow.trips
    {
      && flow.LocationHandled(from, location, env, r)
      && assistantState == old(assistantState) && menuSent == old(menuSent) && processing == old(processing)
    }

    /** The welcome by name, then the menu unless it was already sent. */
    twostate predicate Greeted(from: Sender, info: Option<SenderInfo>)
      reads this, flow, trips, outbox, sheets
    {
      && outbox.log == old(outbox.log) + [Text(from, Welcome(GetSenderName(info)))]
                       + (if from in old(menuSent) then [] else [Buttons(from, MainMenu, MenuButtons)])
      && menuSent == old(menuSent) + {from} && sheets.appended == old(sheets.appended)
      && flow.state == old(flow.state) && flow.pendingTimers == old(flow.pendingTimers)
      && trips.assignments == old(trips.assignments) && trips.timeoutIds == old(trips.timeoutIds)
      && trips.pendingTimers == old(trips.pendingTimers)
      && assistantState == old(assistantState) && processing == old(processing)
    }

    /** `completeFlow`: removes the sender's dialog (clearing its timer), offer,
      * offer timer, assistant session and menu flag, then sends the menu. */
    method CompleteFlow(to: Sender)
      requires Valid()
      modifies this, flow, trips, outbox
      ensures Valid()
      ensures Cleared(to)
      ensures flow.nextTimerId == old(flow.nextTimerId) && trips.nextTimerId == old(trips.nextTimerId)
      ensures outbox.log == old(outbox.log) + [Buttons(to, MainMenu, MenuButtons)]
    {
      flow.ResetState(to);
      ForgetOffer(to);
      assistantState := assistantState - {to};
      menuSent := menuSent - {to};
      SendMainMenu(to);
    }

    /** `handleMenuOption`; its effect is `MenuOptionHandled`. */
    method HandleMenuOption(to: Sender, option: string) returns (r: Outcome)
      requires Valid()
      modifies this, flow, outbox
      ensures Valid()
      ensures flow.state.Keys <= old(flow.state).Keys + {to}
      ensures MenuOptionHandled(to, option, r)
    {
      r := Pass;
      if option == "option_1" {
        assistantState := assistantState - {to};
        flow.StartAvailabilityFlow(to);
        outbox.SendText(to, AskVehicleType);
      } else if option == "option_2" {
        assistantState := assistantState - {to};
        r := flow.StartBalanceFlow(to);
        // the prompt for the manifest id (messageHandler.js:131) comes after the throw
      } else if option == "option_3" {
        assistantState := assistantState + {to};
        outbox.SendText(to, AssistantIntro);
      } else if option == "yes_agent" {
        assistantState := assistantState - {to};
        outbox.SendText(to, AgentContact);
        var sent := outbox.SendSupportContact(to);
        if sent.Fail? {
          return sent;
        }
        SendMainMenu(to);
      } else if option == "no_agent" {
        if to in assistantState {
          outbox.SendText(to, AssistantStillHere);
        } else {
          SendMainMenu(to);
        }
      } else {
        outbox.SendText(to, InvalidOption);
      }
    }

    /** `handleAIAssistantFlow`; its effect is `AssistantAnswered`. */
    method HandleAIAssistantFlow(to: Sender, message: string, env: Env)
      requires Valid()
      modifies this, flow, trips, outbox
      ensures Valid()
      ensures flow.state.Keys <= old(flow.state).Keys && trips.assignments.Keys <= old(trips.assignments).Keys
      ensures AssistantAnswered(to, message, env)
    {
      if message == "salir" || message == "volver" {
        CompleteFlow(to);
        return;
      }
      if Includes(message, "agente") || Includes(message, "humano") {
        outbox.SendButtons(to, AgentConfirm, AgentButtons);
        return;
      }
      outbox.SendText(to, AssistantAnswer(env.aiReply));
    }

    /** An offer response from the router: the offer manager's answer, and
      * `completeFlow` when it is `true`; its effect is `OfferAnswered`. */
    method RespondToOffer(from: Sender, response: string, env: Env) returns (r: Outcome)
      requires Valid()
      modifies this, flow, trips, outbox, sheets
      ensures Valid()
      ensures flow.state.Keys <= old(flow.state).Keys && trips.assignments.Keys <= old(trips.assignments).Keys
      ensures OfferAnswered(from, response, env, r)
    {
      var completed := trips.HandleTripResponse(from, response, env);
      if completed.Err? {
        return Fail(completed.error);
      }
      if completed.value {
        CompleteFlow(from);
      }
      r := Pass;
    }

    /** A text from a sender with a dialog goes to the dialog engine, which
      * never opens a dialog nor touches offers or assistant sessions. */
    method ContinueDialog(from: Sender, text: string, env: Env)
      requires Valid() && Disjoint() && from in flow.state
      modifies flow, outbox
      ensures Valid() && Disjoint()
      ensures flow.state.Keys <= old(flow.state).Keys
      ensures DialogContinued(from, text, env)
    {
      flow.HandleFlow(from, text, env);
    }

    /** The last text branch, for a sender with no dialog, offer or assistant
      * session: every text is then a conversation starter, answered with the
      * welcome by name and the menu unless it was already sent. The branch
      * for a text that is not a starter (messageHandler.js:35-43) cannot be
      * reached from here: it is an `assert false`. */
    method Greet(from: Sender, text: string, info: Option<SenderInfo>)
      requires from !in flow.state && from !in trips.assignments && from !in assistantState
      modifies this, outbox
      ensures Greeted(from, info)
    {
      var hasPreviousState := from in flow.state || from in trips.assignments || from in assistantState;
      if IsConversationStarter(text, hasPreviousState) {
        outbox.SendText(from, Welcome(GetSenderName(info)));
        SendMainMenuIfNotSent(from);
      } else {
        assert false;
      }
    }

    /** A text event: it goes to the sender's dialog, offer or assistant
      * session, in that order, as the normalised text; without any of them the
      * text is a conversation starter, answered with the welcome and the menu. */
    method DispatchText(from: Sender, body: string, info: Option<SenderInfo>, env: Env) returns (r: Outcome, ghost route: Route)
      requires Valid() && Disjoint()
      modifies this, flow, trips, outbox, sheets
      ensures Valid() && Disjoint()
      ensures route == ExpectedRoute(TextMsg(body), from in old(flow.state), from in old(trips.assignments), from in old(assistantState))
      ensures route == ToDialog ==> r == Pass && DialogContinued(from, Normalize(body), env)
      ensures route == ToOffer ==> OfferAnswered(from, Normalize(body), env, r)
      ensures route == ToAssistant ==> r == Pass && AssistantAnswered(from, Normalize(body), env)
      ensures route == ToWelcome ==> r == Pass && Greeted(from, info)
    {
      ghost var expected := ExpectedRoute(TextMsg(body), from in flow.state, from in trips.assignments, from in assistantState);
      var text := Normalize(body);
      if from in flow.state {
        assert expected == ToDialog;
        route := ToDialog;
        ContinueDialog(from, text, env);
        r := Pass;
      } else if from in trips.assignments {
        assert expected == ToOffer;
        route := ToOffer;
        r := RespondToOffer(from, text, env);
      } else if from in assistantState {
        assert expected == ToAssistant;
        route := ToAssistant;
        HandleAIAssistantFlow(from, text, env);
        r := Pass;
      } else {
        assert expected == ToWelcome;
        route := ToWelcome;
        Greet(from, text, info);
        r := Pass;
      }
    }

    /** A button event: without a `button_reply` it throws; otherwise the
      * normalised button id answers the sender's offer or picks a menu option. */
    method DispatchInteractive(from: Sender, buttonReplyId: Option<string>, env: Env) returns (r: Outcome, ghost route: Route)
      requires Valid() && Disjoint()
      modifies this, flow, trips, outbox, sheets
      ensures Valid() && Disjoint()
      ensures route == ExpectedRoute(Interactive(buttonReplyId), from in old(flow.state), from in old(trips.assignments), from in old(assistantState))
      ensures old(from in trips.assignments) && buttonReplyId.Some? ==>
        route == ToOffer && OfferAnswered(from, Normalize(buttonReplyId.value), env, r)
      ensures route == ToMenu ==> buttonReplyId.Some? && MenuOptionHandled(from, Normalize(buttonReplyId.value), r)
      ensures route == Malformed ==> r == Fail(TypeError) && Kept() && outbox.log == old(outbox.log) && sheets.appended == old(sheets.appended)
    {
      ghost var expected := ExpectedRoute(Interactive(buttonReplyId), from in flow.state, from in trips.assignments, from in assistantState);
      if buttonReplyId.None? {
        return Fail(TypeError), Malformed;
      }
      var option := Normalize(buttonReplyId.value);
      if from in trips.assignments {
        assert expected == ToOffer;
        route := ToOffer;
        r := RespondToOffer(from, option, env);
      } else {
        assert expected == ToMenu;
        route := ToMenu;
        r := HandleMenuOption(from, option);
      }
    }

    /** The body of the `try` in `handleIncomingMessage`: the handler chosen
      * by the dispatch precedence, for a sender already checked, given the
      * normalised text or button id the event carries. */
    method Dispatch(from: Sender, payload: Payload, info: Option<SenderInfo>, env: Env) returns (r: Outcome, ghost route: Route)
      requires Valid() && Disjoint()
      modifies this, flow, trips, outbox, sheets
      ensures Valid() && Disjoint()
      ensures route == ExpectedRoute(payload, from in old(flow.state), from in old(trips.assignments), from in old(assistantState))
      ensures route == ToDialog ==> r == Pass && DialogContinued(from, Answer(payload), env)
      ensures route == ToOffer ==> OfferAnswered(from, Answer(payload), env, r)
      ensures route == ToAssistant ==> r == Pass && AssistantAnswered(from, Answer(payload), env)
      ensures route == ToWelcome ==> r == Pass && Greeted(from, info)
      ensures route == ToLocation ==> payload.LocationMsg? && Located(from, payload.location, env, r)
      ensures route == ToMenu ==> MenuOptionHandled(from, Answer(payload), r)
      ensures route == Malformed ==> r == Fail(TypeError) && Kept() && outbox.log == old(outbox.log) && sheets.appended == old(sheets.appended)
      ensures route == Unhandled ==> r == Pass && Kept() && outbox.log == old(outbox.log) && sheets.appended == old(sheets.appended)
      ensures processing == old(processing)
      ensures r.Fail? ==> route in {ToOffer, ToMenu, ToLocation, Malformed}
    {
      ghost var expected := ExpectedRoute(payload, from in flow.state, from in trips.assignments, from in assistantState);
      match payload
      case TextMsg(body) =>
        r, route := DispatchText(from, body, info, env);
      case LocationMsg(location) =>
        assert expected == ToLocation;
        route := ToLocation;
        r := flow.HandleLocation(from, location, env);
      case Interactive(buttonReplyId) =>
        r, route := DispatchInteractive(from, buttonReplyId, env);
      case OtherType =>
        assert expected == Unhandled;
        route := Unhandled;
        r := Pass;
    }

    /** The `try` and `catch` of `handleIncomingMessage`: the event goes to
      * its handler; the event then ends with a read receipt or, exactly when
      * the handler threw, with an error notice instead. Only an offer answer,
      * a menu option, a location or a malformed button event can throw. */
    method TryDispatch(from: Sender, id: string, payload: Payload, info: Option<SenderInfo>, env: Env)
      returns (ghost route: Route, ghost outcome: Outcome)
      requires Valid() && Disjoint()
      modifies this, flow, trips, outbox, sheets
      ensures Valid() && Disjoint()
      ensures processing == old(processing)
      ensures route == ExpectedRoute(payload, from in old(flow.state), from in old(trips.assignments), from in old(assistantState))
      ensures |outbox.log| > 0
      ensures outcome.Pass? ==> outbox.log[|outbox.log| - 1] == ReadReceipt(id)
      ensures outcome.Fail? ==> outbox.log[|outbox.log| - 1] == Text(from, HandlerFailed)
      ensures outcome.Fail? ==> route in {ToOffer, ToMenu, ToLocation, Malformed}
    {
      var r;
      r, route := Dispatch(from, payload, info, env);
      outcome := r;
      if r.Fail? {
        outbox.SendText(from, HandlerFailed);
      } else {
        outbox.MarkAsRead(id);
      }
    }

    /** `handleIncomingMessage`. A dropped event changes nothing. Any other
      * event marks its sender as being handled, goes through `TryDispatch`,
      * and leaves `processing` as it found it. */
    method HandleIncomingMessage(e: Event, info: Option<SenderInfo>, env: Env) returns (ghost route: Route, ghost outcome: Outcome)
      requires Valid() && Disjoint()
      modifies this, flow, trips, outbox, sheets
      ensures Valid() && Disjoint()
      ensures processing == old(processing)
      ensures old(Dropped(e)) ==> Kept() && outbox.log == old(outbox.log) && sheets.appended == old(sheets.appended)
      ensures !old(Dropped(e)) ==>
        && route == ExpectedRoute(e.payload, e.from.value in old(flow.state), e.from.value in old(trips.assignments),
                                  e.from.value in old(assistantState))
        && |outbox.log| > 0
        && (outcome.Pass? ==> outbox.log[|outbox.log| - 1] == ReadReceipt(e.id.value))
        && (outcome.Fail? ==> outbox.log[|outbox.log| - 1] == Text(e.from.value, HandlerFailed))
        && (outcome.Fail? ==> route in {ToOffer, ToMenu, ToLocation, Malformed})
    {
      route, outcome := Unhandled, Pass;
      if Dropped(e) {
        return;
      }
      var from := e.from.value;
      processing := processing + {from};
      route, outcome := TryDispatch(from, e.id.value, e.payload, info, env);
      processing := processing - {from};
    }

    /** An inactivity timer firing between events keeps the router consistent. */
    method FireInactivityTimer(id: TimerId)
      requires Valid() && Disjoint() && id in flow.pendingTimers
      modifies flow, outbox
      ensures Valid() && Disjoint()
      ensures flow.state == old(flow.state) - {old(flow.pendingTimers)[id]}
      ensures trips.assignments == old(trips.assignments)
    {
      flow.FireInactivityTimer(id);
    }

    /** A response-window timer firing between events keeps the router consistent. */
    method FireOfferTimer(id: TimerId)
      requires Valid() && Disjoint() && id in trips.pendingTimers
      modifies trips, outbox
      ensures Valid() && Disjoint()
      ensures trips.assignments == old(trips.assignments) - {old(trips.pendingTimers)[id]}
      ensures flow.state == old(flow.state)
    {
      trips.FireOfferTimer(id);
    }
  }
}
