/** Value types shared by the dialog engine, the trip offer manager and the
  * router: spreadsheet rows, trips, the registered vehicle, balances, the
  * inputs read from the environment and the messages sent to users. */
module Domain {
  import opened Wrappers

  /** A chat participant's phone number. */
  type Sender = string

  /** The handle `setTimeout` returns. */
  type TimerId = nat

  /** A row read from a spreadsheet. Reading `row[k]` past its end gives `undefined`. */
  type Row = seq<string>

  function Cell(row: Row, k: nat): (r: Option<string>)
    ensures r.Some? <==> k < |row|
  {
    if k < |row| then Some(row[k]) else None
  }

  /** JavaScript truthiness of a string that may be `undefined`. */
  predicate Truthy(cell: Option<string>) {
    cell.Some? && cell.value != ""
  }

  /** A location shared with the chat's location control. */
  datatype Coordinates = Coordinates(latitude: real, longitude: real)

  /** A value written to a spreadsheet cell. `LatLon` is the text `"lat,lon"`. */
  datatype Value = Str(s: string) | Num(n: real) | NaN | LatLon(lat: real, lon: real) | Undefined

  function StrOrUndefined(o: Option<string>): Value {
    if o.Some? then Str(o.value) else Undefined
  }

  function NumOrUndefined(o: Option<real>): Value {
    if o.Some? then Num(o.value) else Undefined
  }

  /** A number that may be `NaN`. */
  function NumOrNaN(o: Option<real>): Value {
    if o.Some? then Num(o.value) else NaN
  }

  /** Reads a cell written as text or as a number back. */
  function StrOf(v: Value): Option<string> {
    match v
    case Str(s) => Some(s)
    case _ => None
  }

  function NumOf(v: Value): Option<real> {
    match v
    case Num(n) => Some(n)
    case _ => None
  }

  /** An open trip as the catalog mapping builds it: `None` is `undefined` for a
    * text column and `NaN` for a numeric one. */
  datatype Trip = Trip(
    cargoType: Option<string>,
    weight: Option<real>,
    volume: Option<real>,
    origin: Option<string>,
    originLat: Option<real>,
    originLon: Option<real>,
    destination: Option<string>,
    pickupTime: string,
    flete: real)

  /** The vehicle the availability dialog registers (`transportData`). */
  datatype Transport = Transport(
    phone: Sender,
    vehicleType: Option<string>,
    placa: Option<string>,
    modelo: Option<string>,
    capacity: Option<real>,
    volume: Option<real>,
    location: Coordinates,
    timestamp: string)

  /** One ledger entry of a balance lookup. */
  datatype Balance = Balance(available: real, pending: real, nextPayment: string)

  /** One line `Pago n: $pending (Próximo pago: nextPayment)` of a balance report. */
  datatype PendingLine = PendingLine(number: nat, pending: real, nextPayment: string)

  /** What the source reads from the clock (`Date.now()`, `toISOString()`,
    * `getFullYear()`), from `Math.random` (the confirmation code) and from the
    * assistant service (its answer) while one event is handled. */
  datatype Env = Env(millis: int, iso: string, year: int, confirmationCode: string, aiReply: string)

  /** The kind of a text message sent to a user; wording is not modelled. */
  datatype Reply =
    // dialog engine
    | ExitConfirmed | LocationReminder | FlowFailed
    | VehicleTypeRejected | AskPlaca | PlacaRejected | AskModelo | YearRejected
    | AskVolume | VolumeRejected | AskCapacity | CapacityRejected | AskLocation
    | SearchingTrip | SessionClosed
    | BalanceNotFound(id: string)
    | BalanceReport(id: string, totalAvailable: real, totalPending: real, details: seq<PendingLine>)
    // trip offer manager
    | NoTripsAvailable | NoTripAssigned | ResponseWindowClosed
    | TripAccepted(code: string, origin: Option<string>, destination: Option<string>, flete: real)
    | ContactDispatcher | TripRejected | InvalidResponse | TripReassigned
    // router
    | Welcome(name: string) | AskVehicleType | AskManifestId | AssistantIntro
    | AgentContact | AssistantStillHere | InvalidOption | AssistantAnswer(answer: string)
    | HandlerFailed

  /** The kind of a message with reply buttons. */
  datatype Menu = TripOffer(trip: Trip) | MainMenu | AgentConfirm

  /** One call to the messaging service. */
  datatype Outbound =
    | Text(to: Sender, reply: Reply)
    | Buttons(to: Sender, menu: Menu, ids: seq<string>)
    | ContactCard(to: Sender)
    | ReadReceipt(messageId: string)
}
