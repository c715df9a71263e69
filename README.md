# Transporte CargaLibre chat bot: dialog engine, trip offers and router

This project models the core of a WhatsApp bot for truck drivers: the router that receives every chat event, the
dialog engine that registers a vehicle's availability or looks up a balance, and the trip offer manager. The offer
manager proposes the first catalog trip that fits the vehicle and gives the driver ten minutes to accept or reject it.

The model keeps the source's form:

- `ConversationFlow`, `TripManager` and `MessageHandler` are classes. Their fields are the source's per-sender
  dictionaries (`state`, `assignments`, `timeoutIds`, `assistantState`, `menuSent`, `processing`), held as maps and
  sets that the methods reassign.
- The pure parts are functions with lemmas: the validators, the step transition, the row layouts, the catalog
  search, the balance totals, the starter test and the sender name.
- The messaging channel (`Outbox`) and the spreadsheet store (`Sheets`) are classes that record every call.
  - The store's `reachable` flag decides whether reads and appends throw.
  - The channel's `contactCardFails` flag decides whether sending the support contact throws. The flag is true for
    the repository as shipped: `src/services/messageSender.js:35` calls `sendContactMessage`, but the service
    defines `SendContactMessage` (`src/services/whatsappService.js:109`).
- A thrown exception is an `Outcome` (`Pass` or `Fail(error)`) or a `Result`. The catch blocks are modelled
  branch by branch.
- A `setTimeout` callback is a pending timer token in the owning object, with the sender it acts for. The runtime
  delivering it is a `Fire…` method, and `clearTimeout` removes the token.
- The clock, the current year, the confirmation code and the assistant's reply are the fields of an `Env` value
  passed in. The great-circle distance is a parameter of the offer manager.

JavaScript semantics are written out where the source relies on them:

- `toLowerCase` and `toUpperCase` on ASCII and Latin-1 letters;
- `trim` with the ECMAScript whitespace set;
- `parseFloat` as a prefix reader whose failure is NaN, and NaN making every comparison false;
- `||` on falsy strings and numbers;
- a missing spreadsheet cell reading as `undefined`.

The model reproduces these behaviours of the code as written:

- **Vehicle type.** `handleAvailabilityFlow` checks the normalised vehicle type but stores the raw message.
- **Balance dialog.** `startBalanceFlow` installs its dialog and then throws a `ReferenceError`. No timer is
  armed, and the prompt after it is never sent.
- **Restarted dialog.** `startAvailabilityFlow` never clears the timer of a dialog it replaces.
- **Offer buttons.** The offer buttons' ids (`accept` and `reject`) are not the words the offer manager accepts
  (`aceptar` and `rechazar`). A button press answers "invalid response" and clears the timer, and the next answer
  finds the response window closed.
- **Non-starter texts.** The router's branch for texts that are not conversation starters can never be reached.

## Model

| member | source | states |
|---|---|---|
| Collaborators.Outbox.SendText | src/services/messageSender.js:10-12 | a text is appended to the channel log and never throws |
| Collaborators.Outbox.SendButtons | src/services/messageSender.js:20-22 | a button message is appended to the channel log and never throws |
| Collaborators.Outbox.SendSupportContact | src/services/messageSender.js:28-36 | throws a `TypeError` without sending when the contact method is missing, else sends the contact card |
| Collaborators.Outbox.MarkAsRead | src/services/messageSender.js:42-44 | the read receipt is appended to the channel log |
| Collaborators.Sheets.AppendRow | src/services/googleSheetsService.js:92-110 | the row is appended to the named sheet, or the call throws and nothing is appended |
| Collaborators.Sheets.Fetch | src/services/googleSheetsService.js:112-123 | returns the rows of the sheet, or throws when the store or the sheet cannot be read |
| JsText.Trim | src/services/messageHandler.js:19 | the trimmed text is the slice between the leading and the trailing whitespace, keeps every non-blank character, and neither starts nor ends with whitespace |
| JsText.NormalizeIdempotent | src/services/conversationFlow.js:65 | lower-casing and trimming twice is doing it once, so re-normalising a routed text changes nothing |
| JsText.IncludesIff | src/services/messageHandler.js:76 | `includes` holds exactly when the substring occurs at some index |
| JsText.TrimOfTrimmed | src/services/messageHandler.js:83 | trimming a text without outer whitespace returns it unchanged |
| JsText.NatToStringRoundTrip | src/services/conversationFlow.js:17 | the decimal rendering of a number is all digits, has no leading zero, and reads back as the number |
| JsText.DigitsRoundTrip | src/services/conversationFlow.js:17 | a digit string without a leading zero is the rendering of its value |
| JsText.ParseFloatOfNat | src/services/conversationFlow.js:18 | `parseFloat` of a rendered natural number is that number |
| JsText.ParseFloatReadsPrefix | src/services/conversationFlow.js:18 | a rendered natural number followed by text that does not continue the literal (no digit, point or exponent) reads as that number, whatever the text |
| JsText.ParseFloatOfDigitsThen | src/services/conversationFlow.js:18 | any run of digits followed by such text reads as the run's decimal value |
| JsText.ParseFloatOfNonNumbers | src/services/conversationFlow.js:18 | `parseFloat` is NaN exactly when, after the leading whitespace, the text does not start with an optional sign and then a digit or a point followed by a digit |
| Domain.Cell | src/services/tripManager.js:104-114 | a cell is present exactly when its index is inside the row; otherwise it reads as `undefined` |
| DialogRules.NextStep | src/services/conversationFlow.js:61-120 | each availability step is followed by the step one rank further on; the location and balance steps stay where they are |
| DialogRules.AvailabilityInput | src/services/conversationFlow.js:61-120 | a rejected input leaves the dialog as it was; an accepted one advances exactly one step and stores the input; every availability step replies; the inactivity timer is never touched |
| DialogRules.ValidatePlaca | src/services/conversationFlow.js:16 | an accepted plate has 5 to 7 characters, and its fourth and fifth are digits |
| DialogRules.ValidateYear | src/services/conversationFlow.js:17 | an accepted year is all digits and is the rendering of its own value: no sign, no leading zero, no spaces |
| DialogRules.ValidateNumber | src/services/conversationFlow.js:18 | only a text with a numeric prefix is accepted |
| DialogRules.PlatePatternSplits | src/services/conversationFlow.js:16 | every string of the plate pattern is three letters, two or three digits and at most one letter |
| DialogRules.PlatePartsMatch | src/services/conversationFlow.js:16 | every such string is of the plate pattern |
| DialogRules.PlacaIff | src/services/conversationFlow.js:16 | a plate is valid exactly when its upper-case form splits into those three parts |
| DialogRules.PlacaExamples | src/services/conversationFlow.js:16 | ABC12, ABC123, ABC123A and abc123 are valid; AB123, ABC1234 and ABCD12 are not |
| DialogRules.YearIsRenderedYear | src/services/conversationFlow.js:17 | the rendering of a four-digit year is accepted exactly when the year lies between 1900 and the current year |
| DialogRules.FourDigitRendering | src/services/conversationFlow.js:17 | the years 1000 to 9999 render with four digits |
| DialogRules.YearExamples | src/services/conversationFlow.js:17 | 2020 is accepted, 1899 and next year are not |
| DialogRules.NumberOfNat | src/services/conversationFlow.js:18 | a rendered natural number followed by text that does not continue it is accepted exactly when it is positive, so `12abc` passes and `0` does not |
| DialogRules.AvailabilityInputPreservesWellFormed | src/services/conversationFlow.js:61-120 | a dialog holds exactly the fields of the steps it has passed, after every text |
| DialogRules.RunAdvancesOneStepPerText | src/services/conversationFlow.js:61-120 | each text moves the availability dialog forward at most one step and never back or into the balance step |
| DialogRules.RejectedTextChangesNothing | src/services/conversationFlow.js:83-117 | a rejected text in a run leaves no trace in the dialog that results |
| DialogRules.PlacaAccepted | src/services/conversationFlow.js:86-89 | `abc123` is accepted, stored as `ABC123`, and the dialog moves to the model step |
| DialogRules.HappyPath | src/services/conversationFlow.js:61-120 | turbo, abc123, 2020 and any two positive whole numbers bring a fresh dialog to the location step with turbo, ABC123, 2020 and the two numbers stored as volume and capacity |
| DialogRules.VehicleTypeStoresRawMessage | src/services/conversationFlow.js:65-78 | the type is checked in normal form and stored raw; through the router the two agree |
| DialogRules.AvailabilityRowRoundTrip | src/services/conversationFlow.js:142-147 | the availability row has 8 columns and every registered field reads back from it |
| DialogRules.NumberOrZero | src/services/conversationFlow.js:188-189 | a missing cell, or one without a numeric prefix, reads as 0 |
| DialogRules.BalanceOf | src/services/conversationFlow.js:187-191 | the next payment is never empty (`N/A` stands in), and an amount that does not parse reads as 0 |
| DialogRules.MatchingBalances | src/services/conversationFlow.js:186 | at most one entry per row, and none exactly when no row belongs to the id |
| DialogRules.BalanceReply | src/services/conversationFlow.js:162-177 | "not found" exactly when there are no entries; otherwise the totals of the entries and one line per entry, numbered from 1 in order, with its pending amount and next payment |
| DialogRules.MatchingBalancesAppend | src/services/conversationFlow.js:186 | a further ledger row adds its entry at the end exactly when its first column is the id |
| DialogRules.HeaderIsSkipped | src/services/conversationFlow.js:185-186 | the first row never contributes, whatever it holds |
| DialogRules.TotalsOfAppend | src/services/conversationFlow.js:165-166 | a further entry adds its available and pending amounts to the totals |
| DialogRules.TotalsOfConcat | src/services/conversationFlow.js:165-166 | the totals of two lists of entries together are the sums of their totals |
| DialogRules.TwoEntryTotals | src/services/conversationFlow.js:165-169 | two entries total the sums of their amounts and are listed as payments 1 and 2, in order |
| DialogRules.LedgerRowsOfExample | src/services/conversationFlow.js:187-191 | a ledger row maps to its amounts, with `N/A` when the next payment is missing |
| DialogRules.TotalsExample | src/services/conversationFlow.js:165-169 | entries with pending 10 and 20 total 30 pending and the sum of their available amounts, listed as payments 1 and 2 |
| DialogRules.BalanceExample | src/services/conversationFlow.js:158-192 | the reply for an id sums and lists only that id's rows, after the header |
| DialogRules.LookupIdIsLowerCase | src/services/conversationFlow.js:186 | the id looked up is the normalised text, so a ledger id with upper-case letters never matches |
| TripRules.TripDefaults | src/services/tripManager.js:112-113 | a missing or empty pickup cell gives the current time and any other is kept; a missing freight or one without a numeric prefix gives 0, and any other its parsed value |
| TripRules.UnparsedNeverMatches | src/services/tripManager.js:127-139 | a trip with an unparsable weight, volume or origin coordinate never matches |
| TripRules.FirstMatch | src/services/tripManager.js:127-139 | the index found matches and no earlier trip does; none means no trip matches |
| TripRules.CatalogTrips | src/services/tripManager.js:104 | one trip per data row, in row order, the header excluded |
| TripRules.SelectTrip | src/services/tripManager.js:96-142 | no trip without data rows; a trip found is the first matching data row; none means no data row matches |
| TripRules.SecondOfTwoSelected | src/services/tripManager.js:127-139 | with two data rows of which only the second matches, the second is the trip found |
| TripRules.NearerTripIsOffered | src/services/tripManager.js:127-139 | a trip 60 km away is skipped and the next trip, 40 km away, is offered |
| TripRules.AcceptedRowLayout | src/services/tripManager.js:70-74 | the accepted-trip row has 10 columns in the order the source writes them |
| Trips.TripManager.constructor | src/services/tripManager.js:5-8 | no offers and no timers |
| Trips.TripManager.ArmTimer | src/services/tripManager.js:36 | a fresh timer is armed for the sender |
| Trips.TripManager.FindAvailableTrip | src/services/tripManager.js:96-147 | the trip selected from the catalog; none when the catalog cannot be read |
| Trips.TripManager.AssignTrip | src/services/tripManager.js:10-38 | without a match, says so and records nothing; with one, records exactly one offer and one fresh timer and returns the two buttons |
| Trips.TripManager.HandleTripResponse | src/services/tripManager.js:40-86 | each branch in full: no offer, window closed, accept with each of its failures, reject, invalid response; no sender gains an offer |
| Trips.TripManager.HandleTimeout | src/services/tripManager.js:88-94 | a pending offer is dropped with its handle and the driver told; otherwise nothing changes |
| Trips.TripManager.FireOfferTimer | src/services/tripManager.js:36 | the fired timer is no longer pending and `handleTimeout` runs for its sender |
| Trips.TripManager.ButtonIdsNeverComplete | src/services/tripManager.js:31-86 | answering with the offer's own button id is invalid and clears the timer, and the next answer finds the window closed |
| Dialog.ConversationFlow.constructor | src/services/conversationFlow.js:24-26 | no dialogs and no timers |
| Dialog.ConversationFlow.ResetState | src/services/conversationFlow.js:212-217 | the dialog is removed and its own timer cleared |
| Dialog.ConversationFlow.StartAvailabilityFlow | src/services/conversationFlow.js:194-202 | a fresh dialog at the vehicle step with a fresh timer; a replaced dialog's timer stays armed |
| Dialog.ConversationFlow.StartBalanceFlow | src/services/conversationFlow.js:204-211 | the balance dialog is installed and the call throws a `ReferenceError` before any timer is armed |
| Dialog.ConversationFlow.HandleAvailabilityFlow | src/services/conversationFlow.js:61-120 | the dialog becomes the step's result and its reply is sent; without a dialog it throws |
| Dialog.ConversationFlow.GetBalance | src/services/conversationFlow.js:183-192 | the ledger entries for the id, or the read's error |
| Dialog.ConversationFlow.HandleBalanceFlow | src/services/conversationFlow.js:158-181 | replies with the balance report and removes the dialog; a failed read throws before any effect |
| Dialog.ConversationFlow.CompleteAvailability | src/services/conversationFlow.js:130-156 | throws without a location or when the append fails, with nothing changed, the offer manager's offers and timers included; otherwise appends the row, sends the search notice and the offer if any, and removes the dialog; without an offer the offer manager is untouched, with one it records the offer and exactly one fresh offer timer |
| Dialog.ConversationFlow.SearchAndClose | src/services/conversationFlow.js:150-155 | the search notice, the offer if any, then the dialog removed; the offer manager is untouched without an offer and gains exactly that offer and one fresh timer with one |
| Dialog.ConversationFlow.OfferTrip | src/services/conversationFlow.js:151-154 | the offer is recorded with one fresh timer and sent with its buttons, or the driver is told there is none and no offer, timer or timer id is used |
| Dialog.ConversationFlow.HandleLocation | src/services/conversationFlow.js:122-128 | `LocationHandled`: only at the location step, the location is stored and the registration completed in full (row appended, notices sent, offer recorded with one fresh timer, or the offer manager untouched); a failed append throws with the location stored; any other case changes nothing, the offer manager's timers included |
| Dialog.ConversationFlow.HandleFlow | src/services/conversationFlow.js:28-56 | `FlowHandled`: without a dialog nothing; exit resets; a text at the location step is reminded; the balance step replies or fails and resets; the other steps take the step transition and send its reply |
| Dialog.ConversationFlow.FireInactivityTimer | src/services/conversationFlow.js:197-200 | the sender's current dialog is reset and the session-closed notice sent |
| Dialog.ConversationFlow.RestartedDialogEndsEarly | src/services/conversationFlow.js:194-200 | after a restart the first timer still fires, removing the second dialog and clearing its timer |
| Router.ExpectedRoute | src/services/messageHandler.js:18-56 | a route needs its handler's state and loses to every earlier one: dialog, offer, assistant, greeting for texts; while an offer is pending a button reply always goes to it |
| Router.SomeStarter | src/services/messageHandler.js:75-77 | true exactly when some starter in the list opens the text |
| Router.IsConversationStarter | src/services/messageHandler.js:66-78 | true without previous state; otherwise true exactly when some starter opens the text |
| Router.OpensWithIff | src/services/messageHandler.js:75-77 | a starter opens a text exactly when the text starts with it or holds it between two spaces |
| Router.StarterExamples | src/services/messageHandler.js:66-78 | "hola" and "quiero un viaje" are starters for a sender with state |
| Router.KeepNameChars | src/services/messageHandler.js:82 | keeps only name characters, all of them when every character is one, and none exactly when none is |
| Router.KeepNameCharsConcat | src/services/messageHandler.js:82 | the filter distributes over concatenation and keeps one character exactly when it is a name character, so it yields the name characters of the text in their order |
| Router.GetSenderName | src/services/messageHandler.js:80-84 | the name holds only name characters and no outer whitespace, and is the default when the raw name has no name characters |
| JsText.TrimKeepsCharClass | src/services/messageHandler.js:82-83 | trimming only removes characters: a property of every character of a text holds of every character of the trimmed text |
| Router.RawName | src/services/messageHandler.js:81 | the raw name is never empty: empty profile names and phone ids fall through |
| Router.DefaultNameIsTrimmedName | src/services/messageHandler.js:81-82 | the default name is made of name characters and already trimmed |
| Router.ProfileNameIsKept | src/services/messageHandler.js:80-84 | any non-empty profile name made of name characters, without outer whitespace, is the sender's name as it is, whatever the phone id |
| Router.PhoneIdFallsBackToDefault | src/services/messageHandler.js:81-82 | without a profile name, or with an empty one, a phone id of digits gives the default name |
| Router.OfferCapturesButtons | src/services/messageHandler.js:47-55 | while an offer is pending, every button press goes to the offer and never to the menu |
| Router.WelcomeNeedsNoState | src/services/messageHandler.js:20-44 | the greeting route is taken only without dialog, offer and assistant session, and then the starter test passes |
| Router.MessageHandler.constructor | src/services/messageHandler.js:7-11 | no assistant sessions, no menu sent, nothing in processing |
| Router.MessageHandler.SendMainMenu | src/services/messageHandler.js:92-100 | the three menu buttons are sent |
| Router.MessageHandler.SendMainMenuIfNotSent | src/services/messageHandler.js:102-107 | the menu goes out only if not yet sent, and is then marked as sent |
| Router.MessageHandler.MenuSentAtMostOnce | src/services/messageHandler.js:102-107 | two requests send the menu at most once |
| Router.MessageHandler.ForgetOffer | src/services/messageHandler.js:111-115 | the offer is deleted and its response-window timer cleared when it has one; the offer manager stays consistent |
| Router.MessageHandler.CompleteFlow | src/services/messageHandler.js:109-119 | `Cleared`: that sender's dialog and its timer, offer and its timer, assistant session and menu flag are removed, every other sender's kept; then the menu is sent |
| Router.MessageHandler.HandleMenuOption | src/services/messageHandler.js:121-154 | `MenuOptionHandled`: each option's effect in full, including the balance option's throw and the support contact's failure; offers, menu flags and the store untouched |
| Router.MessageHandler.HandleAIAssistantFlow | src/services/messageHandler.js:156-174 | `AssistantAnswered`: exit words clear the sender as `completeFlow` does and send the menu; agent or human asks for confirmation; anything else gets the assistant's answer and changes nothing else |
| Router.MessageHandler.RespondToOffer | src/services/messageHandler.js:28-29 | `OfferAnswered`: every branch of the offer manager followed by `completeFlow` in full: no offer, window closed, rejection, acceptance recorded, acceptance failing on the contact card or the store with the offer kept, invalid answer keeping the offer without its timer |
| Router.MessageHandler.ContinueDialog | src/services/messageHandler.js:25-26 | `DialogContinued`: the dialog engine's `handleFlow` effect on the text, with offers, sessions, menu flags and the store untouched |
| Router.MessageHandler.Greet | src/services/messageHandler.js:32-44 | `Greeted`: a sender with no state always gets the welcome by name, then the menu only when not sent before; nothing else changes, and the fallback branch is an `assert false` |
| Router.MessageHandler.DispatchText | src/services/messageHandler.js:18-44 | a text goes, normalised, to the dialog, else the offer, else the assistant, else the greeting, and each route has exactly that handler's effect |
| Router.MessageHandler.DispatchInteractive | src/services/messageHandler.js:47-55 | a button without a reply throws a `TypeError` with nothing changed; with an offer pending the normalised id answers it (`OfferAnswered`), else it picks a menu option (`MenuOptionHandled`) |
| Router.MessageHandler.Dispatch | src/services/messageHandler.js:17-56 | the route follows the precedence and each route has its handler's full effect (dialog, offer, assistant, greeting, location, menu, malformed, unhandled); only an offer answer, a menu option, a location or a malformed button can throw; dialogs and offers stay disjoint |
| Router.MessageHandler.TryDispatch | src/services/messageHandler.js:17-60 | the event ends with a read receipt when the handler passed and with the error notice exactly when it threw |
| Router.MessageHandler.HandleIncomingMessage | src/services/messageHandler.js:13-64 | a dropped event changes nothing; any other takes the route of the precedence and ends with the read receipt or, exactly when the handler threw, the error notice; `processing` is left as it was |
| Router.MessageHandler.FireInactivityTimer | src/services/conversationFlow.js:197-200 | an inactivity timer between events removes only that dialog and keeps the router consistent |
| Router.MessageHandler.FireOfferTimer | src/services/tripManager.js:36 | a response-window timer between events removes only that offer and keeps the router consistent |

## Left out

- The great-circle distance (`calculateDistance`, src/services/tripManager.js:116-125) is a parameter, because the model has no trigonometry. The 50 km bound is kept.
- Floating-point rounding is not modelled: numbers are exact reals. `parseFloat` reads decimal prefixes with an exponent but not `Infinity`.
- Case mapping covers ASCII and Latin-1 only. Full Unicode mapping (ß, ı, ſ, µ and the other scripts) is not modelled.
- The regular expressions are written as predicates over the characters they accept, not run by a regular-expression engine.
- Concurrency is not modelled. Each event is handled to completion, and `processing` only drops an event from a sender already being handled. Interleavings of concurrent asynchronous handlers are not modelled.
- Message wording is left out. Each reply is a tag carrying the values it interpolates (name, code, origin, destination, freight, totals).
- The reply-context message id passed to `sendText` is not used by the channel either (src/services/whatsappService.js:19-21), so it is not kept.
- Console logging is left out.
- The Google Sheets, WhatsApp and OpenRouter clients are abstract collaborators.
  - A sheet read returns whole rows, so the column range (`A:D`, `A:I`) is not applied.
  - The AI reply never throws, because the service catches its own errors (src/services/openRouterService.js:31-34). It is an input.
- The random confirmation code (src/services/tripManager.js:58) is an input of the clock-and-environment value, not derived from `Math.random`.
- The starter test's "not understood" branch (src/services/messageHandler.js:35-43), with its assistant call, is not modelled: it is the `assert false` in `Router.MessageHandler.Greet`, which verifies because a sender reaching the greeting has no state and the starter test then always passes.
- src/app.js (the HTTP webhook) and src/config/env.js (configuration) are not part of this model.
- Router.MessageHandler.HandleIncomingMessage: states the route, the last log entry and what can throw, not the handler's full effect, because `processing` changes before the handler runs; that effect is stated by `Router.MessageHandler.Dispatch`.
