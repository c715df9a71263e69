/** The rule-bearing values of the dialog engine: the dialog record, the step
  * validators, the step transition of the availability dialog, the
  * availability row and the balance aggregation. */
module DialogRules {
  import opened Wrappers
  import opened JsText
  import opened Domain

  /** The `step` tag of a dialog. */
  datatype Step = VehicleType | Placa | Modelo | Volume | Capacity | Location | BalanceId

  /** The state object one sender's dialog keeps: the step, the fields
    * collected so far (`None` until set) and the inactivity timer handle. */
  datatype Dialog = Dialog(
    step: Step,
    vehicleType: Option<string>,
    placa: Option<string>,
    modelo: Option<string>,
    volume: Option<real>,
    capacity: Option<real>,
    location: Option<Coordinates>,
    timeoutId: Option<TimerId>)

  /** The object `{ step: s }` a dialog starts from. */
  function Fresh(step: Step): Dialog {
    Dialog(step, None, None, None, None, None, None, None)
  }

  /** The vehicle vocabulary, in lower case. */
  const VehicleTypes: seq<string> := ["turbo", "sencillo", "dobletroque", "mula", "volqueta", "furg\U{F3}n"]

  // ---------------------------------------------------------------------
  // Validators
  // ---------------------------------------------------------------------

  /** The regular expression `^[A-Z]{3}\d{2,3}[A-Z]?$`. */
  predicate MatchesPlatePattern(u: string) {
    && 5 <= |u| <= 7
    && IsAsciiUpper(u[0]) && IsAsciiUpper(u[1]) && IsAsciiUpper(u[2])
    && IsDigit(u[3]) && IsDigit(u[4])
    && (|u| == 6 ==> IsDigit(u[5]) || IsAsciiUpper(u[5]))
    && (|u| == 7 ==> IsDigit(u[5]) && IsAsciiUpper(u[6]))
  }

  predicate AllUpper(s: string) {
    forall k :: 0 <= k < |s| ==> IsAsciiUpper(s[k])
  }

  /** `validatePlaca`: the pattern, tested on the upper-cased input. */
  predicate ValidatePlaca(placa: string): (r: bool)
    ensures r ==> 5 <= |placa| <= 7 && IsDigit(placa[3]) && IsDigit(placa[4])
  {
    var u := Upper(placa);
    assert |u| >= 5 ==> u[3] == ToUpperChar(placa[3]) && u[4] == ToUpperChar(placa[4]);
    MatchesPlatePattern(u)
  }

  /** `validateYear`: four digits whose value lies in [1900, currentYear]. */
  predicate ValidateYear(year: string, currentYear: int): (r: bool)
    ensures r ==> AllDigits(year) && year == NatToString(DigitsValue(year))
  {
    if |year| == 4 && AllDigits(year) && 1900 <= DigitsValue(year) <= currentYear then
      FirstDigitOfFourDigitValue(year);
      DigitsRoundTrip(year);
      true
    else
      false
  }

  /** `validateNumber`: `parseFloat` gives a number greater than zero. */
  predicate ValidateNumber(num: string): (r: bool)
    ensures r ==> HasNumericPrefix(num)
  {
    var v := ParseFloat(num);
    ParseFloatOfNonNumbers(num);
    v.Some? && v.value > 0.0
  }

  // ---------------------------------------------------------------------
  // The availability dialog's step transition
  // ---------------------------------------------------------------------

  /** The position of a step in the availability dialog. */
  function Rank(step: Step): nat {
    match step
    case VehicleType => 0
    case Placa => 1
    case Modelo => 2
    case Volume => 3
    case Capacity => 4
    case Location => 5
    case BalanceId => 0
  }

  /** The step after an availability step; each step advances the rank by one. */
  function NextStep(step: Step): (r: Step)
    ensures step != Location && step != BalanceId ==> Rank(r) == Rank(step) + 1
    ensures step == Location || step == BalanceId ==> r == step
  {
    match step
    case VehicleType => Placa
    case Placa => Modelo
    case Modelo => Volume
    case Volume => Capacity
    case Capacity => Location
    case Location => Location
    case BalanceId => BalanceId
  }

  /** Whether the validator of `step` accepts `message`. The location step
    * accepts no text and the balance step is not an availability step. */
  predicate StepAccepts(step: Step, message: string, currentYear: int) {
    match step
    case VehicleType => Normalize(message) in VehicleTypes
    case Placa => ValidatePlaca(message)
    case Modelo => ValidateYear(message, currentYear)
    case Volume => ValidateNumber(message)
    case Capacity => ValidateNumber(message)
    case Location => false
    case BalanceId => false
  }

  /** The new dialog after one text, and the reply sent (if any). */
  datatype StepResult = StepResult(dialog: Dialog, reply: Option<Reply>)

  /** The fields stored by an accepted input are the input itself (vehicle
    * type), the input upper-cased (plate), the input (model year) and the
    * parsed number (volume and capacity). */
  predicate StoresInput(d: Dialog, d': Dialog, message: string) {
    match d.step
    case VehicleType => d' == d.(step := Placa, vehicleType := Some(message))
    case Placa => d' == d.(step := Modelo, placa := Some(Upper(message)))
    case Modelo => d' == d.(step := Volume, modelo := Some(message))
    case Volume => ParseFloat(message).Some? && d' == d.(step := Capacity, volume := ParseFloat(message))
    case Capacity => ParseFloat(message).Some? && d' == d.(step := Location, capacity := ParseFloat(message))
    case Location => d' == d
    case BalanceId => d' == d
  }

  /** `handleAvailabilityFlow` on a dialog value: an input the step's
    * validator rejects leaves the dialog unchanged and re-prompts; an accepted
    * input stores its field and moves to the next step. */
  function AvailabilityInput(d: Dialog, message: string, currentYear: int): (r: StepResult)
    ensures !StepAccepts(d.step, message, currentYear) ==> r.dialog == d
    ensures StepAccepts(d.step, message, currentYear) ==>
      && r.dialog.step == NextStep(d.step)
      && StoresInput(d, r.dialog, message)
    ensures r.reply.None? <==> d.step == Location || d.step == BalanceId
    ensures r.dialog.timeoutId == d.timeoutId
  {
    match d.step
    case VehicleType =>
      var userInput := Normalize(message);
      if userInput !in VehicleTypes then StepResult(d, Some(VehicleTypeRejected))
      else
        var d1 := d.(vehicleType := Some(userInput));
        var d2 := d1.(vehicleType := Some(message));   // the raw message overwrites the normalised one
        StepResult(d2.(step := Placa), Some(AskPlaca))
    case Placa =>
      if !ValidatePlaca(message) then StepResult(d, Some(PlacaRejected))
      else StepResult(d.(placa := Some(Upper(message)), step := Modelo), Some(AskModelo))
    case Modelo =>
      if !ValidateYear(message, currentYear) then StepResult(d, Some(YearRejected))
      else StepResult(d.(modelo := Some(message), step := Volume), Some(AskVolume))
    case Volume =>
      if !ValidateNumber(message) then StepResult(d, Some(VolumeRejected))
      else StepResult(d.(volume := ParseFloat(message), step := Capacity), Some(AskCapacity))
    case Capacity =>
      if !ValidateNumber(message) then StepResult(d, Some(CapacityRejected))
      else StepResult(d.(capacity := ParseFloat(message), step := Location), Some(AskLocation))
    case Location => StepResult(d, None)
    case BalanceId => StepResult(d, None)
  }

  /** A dialog whose collected fields are exactly those of the steps already
    * passed, each holding a value its validator accepted. */
  predicate WellFormed(d: Dialog) {
    if d.step == BalanceId then
      d.vehicleType.None? && d.placa.None? && d.modelo.None? && d.volume.None? &&
      d.capacity.None? && d.location.None?
    else
      && (d.vehicleType.Some? <==> Rank(d.step) > 0)
      && (d.placa.Some? <==> Rank(d.step) > 1)
      && (d.modelo.Some? <==> Rank(d.step) > 2)
      && (d.volume.Some? <==> Rank(d.step) > 3)
      && (d.capacity.Some? <==> Rank(d.step) > 4)
      && (d.location.Some? ==> d.step == Location)
      && (d.vehicleType.Some? ==> Normalize(d.vehicleType.value) in VehicleTypes)
      && (d.placa.Some? ==> MatchesPlatePattern(d.placa.value))
      && (d.modelo.Some? ==> |d.modelo.value| == 4 && AllDigits(d.modelo.value) && DigitsValue(d.modelo.value) >= 1900)
      && (d.volume.Some? ==> d.volume.value > 0.0)
      && (d.capacity.Some? ==> d.capacity.value > 0.0)
  }

  /** The availability dialog applied to a sequence of texts. */
  function Run(d: Dialog, messages: seq<string>, currentYear: int): Dialog
    decreases |messages|
  {
    if |messages| == 0 then d
    else Run(AvailabilityInput(d, messages[0], currentYear).dialog, messages[1..], currentYear)
  }

  // ---------------------------------------------------------------------
  // The availability row
  // ---------------------------------------------------------------------

  /** The 8 columns appended to the availability sheet, in their fixed order. */
  function AvailabilityRow(t: Transport): seq<Value> {
    [ Str(t.phone), StrOrUndefined(t.vehicleType), StrOrUndefined(t.placa), StrOrUndefined(t.modelo),
      NumOrUndefined(t.capacity), NumOrUndefined(t.volume),
      LatLon(t.location.latitude, t.location.longitude), Str(t.timestamp) ]
  }

  /** Reads a registered vehicle back from an availability row. */
  function TransportOfRow(row: seq<Value>): Option<Transport> {
    if |row| != 8 || !row[0].Str? || !row[6].LatLon? || !row[7].Str? then None
    else Some(Transport(row[0].s, StrOf(row[1]), StrOf(row[2]), StrOf(row[3]), NumOf(row[4]), NumOf(row[5]),
                        Coordinates(row[6].lat, row[6].lon), row[7].s))
  }

  // ---------------------------------------------------------------------
  // Balance lookup
  // ---------------------------------------------------------------------

  /** `parseFloat(cell) || 0`. */
  function NumberOrZero(cell: Option<string>): (r: real)
    ensures cell.None? || !HasNumericPrefix(cell.value) ==> r == 0.0
  {
    if cell.Some? then
      ParseFloatOfNonNumbers(cell.value);
      ParseFloat(cell.value).GetOr(0.0)
    else 0.0
  }

  /** One ledger row as `getBalance` maps it, with defaults 0, 0 and "N/A". */
  function BalanceOf(row: Row): (r: Balance)
    ensures r.nextPayment != ""
    ensures |row| <= 1 || !HasNumericPrefix(row[1]) ==> r.available == 0.0
    ensures |row| <= 2 || !HasNumericPrefix(row[2]) ==> r.pending == 0.0
  {
    Balance(NumberOrZero(Cell(row, 1)), NumberOrZero(Cell(row, 2)),
            if Truthy(Cell(row, 3)) then Cell(row, 3).value else "N/A")
  }

  predicate IsLedgerRowOf(row: Row, id: string) {
    Cell(row, 0) == Some(id)
  }

  /** No row of `dataRows` belongs to `id`. */
  predicate NoLedgerRowOf(dataRows: seq<Row>, id: string) {
    forall k :: 0 <= k < |dataRows| ==> !IsLedgerRowOf(dataRows[k], id)
  }

  /** The entries of the data rows whose first column equals `id`, in row order. */
  function MatchingBalances(dataRows: seq<Row>, id: string): (r: seq<Balance>)
    ensures |r| <= |dataRows|
    ensures r == [] <==> NoLedgerRowOf(dataRows, id)
    decreases |dataRows|
  {
    if |dataRows| == 0 then []
    else
      var rest := MatchingBalances(dataRows[1..], id);
      assert forall k :: 1 <= k < |dataRows| ==> dataRows[k] == dataRows[1..][k - 1];
      (if IsLedgerRowOf(dataRows[0], id) then [BalanceOf(dataRows[0])] else []) + rest
  }

  /** `getBalance` on the rows read: the header row is skipped. */
  function BalanceEntries(rows: seq<Row>, id: string): seq<Balance> {
    if |rows| <= 1 then [] else MatchingBalances(rows[1..], id)
  }

  function TotalAvailable(bs: seq<Balance>): real
    decreases |bs|
  {
    if |bs| == 0 then 0.0 else TotalAvailable(bs[..|bs| - 1]) + bs[|bs| - 1].available
  }

  function TotalPending(bs: seq<Balance>): real
    decreases |bs|
  {
    if |bs| == 0 then 0.0 else TotalPending(bs[..|bs| - 1]) + bs[|bs| - 1].pending
  }

  function PendingDetails(bs: seq<Balance>): seq<PendingLine> {
    seq(|bs|, i requires 0 <= i < |bs| => PendingLine(i + 1, bs[i].pending, bs[i].nextPayment))
  }

  /** The reply of `handleBalanceFlow` for the entries found. */
  function BalanceReply(id: string, bs: seq<Balance>): (r: Reply)
    ensures r.BalanceNotFound? <==> |bs| == 0
    ensures r.BalanceReport? ==>
      && r.totalAvailable == TotalAvailable(bs) && r.totalPending == TotalPending(bs) && |r.details| == |bs|
      && forall i :: 0 <= i < |bs| ==>
           && r.details[i].number == i + 1
           && r.details[i].pending == bs[i].pending
           && r.details[i].nextPayment == bs[i].nextPayment
  {
    if |bs| == 0 then BalanceNotFound(id)
    else BalanceReport(id, TotalAvailable(bs), TotalPending(bs), PendingDetails(bs))
  }

  // ---------------------------------------------------------------------
  // Properties
  // ---------------------------------------------------------------------

  /** The regular expression's reading of a plate: three letters, then two
    * or three digits, then at most one letter. */
  predicate PlateParts(u: string, a: string, d: string, z: string) {
    u == a + d + z && |a| == 3 && AllUpper(a) && 2 <= |d| <= 3 && AllDigits(d) && |z| <= 1 && AllUpper(z)
  }

  /** Every string of the plate pattern splits into its three parts ... */
  lemma PlatePatternSplits(u: string)
    requires MatchesPlatePattern(u)
    ensures exists a, d, z :: PlateParts(u, a, d, z)
  {
    var n := if |u| == 7 || (|u| == 6 && IsDigit(u[5])) then 3 else 2;
    var a, d, z := u[..3], u[3..3 + n], u[3 + n..];
    assert u == a + d + z;
    assert PlateParts(u, a, d, z);
  }

  /** ... and every string made of the three parts is of the plate pattern. */
  lemma PlatePartsMatch(u: string, a: string, d: string, z: string)
    requires PlateParts(u, a, d, z)
    ensures MatchesPlatePattern(u)
  {
    assert forall k :: 0 <= k < 3 ==> u[k] == a[k];
    assert forall k :: 0 <= k < |d| ==> u[3 + k] == d[k];
    assert forall k :: 0 <= k < |z| ==> u[3 + |d| + k] == z[k];
  }

  /** `validatePlaca` accepts exactly the strings whose upper-case form is
    * three letters, then two or three digits, then at most one letter. */
  lemma PlacaIff(placa: string)
    ensures ValidatePlaca(placa) <==> exists a, d, z :: PlateParts(Upper(placa), a, d, z)
  {
    if ValidatePlaca(placa) {
      PlatePatternSplits(Upper(placa));
    }
    if exists a, d, z :: PlateParts(Upper(placa), a, d, z) {
      var a, d, z :| PlateParts(Upper(placa), a, d, z);
      PlatePartsMatch(Upper(placa), a, d, z);
    }
  }

  /** The examples the plate format is documented with. */
  lemma PlacaExamples()
    ensures ValidatePlaca("ABC12") && ValidatePlaca("ABC123") && ValidatePlaca("ABC123A")
    ensures ValidatePlaca("abc123")
    ensures !ValidatePlaca("AB123") && !ValidatePlaca("ABC1234") && !ValidatePlaca("ABCD12")
  {
  }

  /** The rendering of a four-digit year is accepted exactly when the year
    * lies between 1900 and the current year. With the contract of
    * `ValidateYear` (an accepted text is a rendering), the accepted strings
    * are exactly these renderings. */
  lemma YearIsRenderedYear(y: nat, currentYear: int)
    ensures 1000 <= y <= 9999 ==> (ValidateYear(NatToString(y), currentYear) <==> 1900 <= y <= currentYear)
  {
    if 1000 <= y <= 9999 {
      NatToStringRoundTrip(y);
      FourDigitRendering(y);
    }
  }

  lemma FourDigitRendering(y: nat)
    requires 1000 <= y <= 9999
    ensures |NatToString(y)| == 4
  {
    assert NatToString(y) == NatToString(y / 10) + [DigitChar(y % 10)];
    assert NatToString(y / 10) == NatToString(y / 100) + [DigitChar((y / 10) % 10)];
    assert NatToString(y / 100) == NatToString(y / 1000) + [DigitChar((y / 100) % 10)];
    assert |NatToString(y / 1000)| == 1;
  }

  lemma FirstDigitOfFourDigitValue(s: string)
    requires |s| == 4 && AllDigits(s) && DigitsValue(s) >= 1000
    ensures s[0] != '0'
  {
    assert s[..3][..2][..1] == s[..1] && s[..3][..2] == s[..2] && s[..1][..0] == [];
    var v1 := DigitsValue(s[..1]);
    assert DigitsValue(s[..1][..0]) == 0;
    assert v1 == DigitValue(s[..1][0]);
    var v2 := DigitsValue(s[..2]);
    assert v2 == v1 * 10 + DigitValue(s[1]);
    var v3 := DigitsValue(s[..3]);
    assert v3 == v2 * 10 + DigitValue(s[2]);
    assert DigitsValue(s) == v3 * 10 + DigitValue(s[3]);
    assert DigitsValue(s) <= v1 * 1000 + 999;
  }

  /** The documented year examples. */
  lemma YearExamples(currentYear: int)
    requires currentYear >= 2020
    ensures ValidateYear("2020", currentYear)
    ensures !ValidateYear("1899", currentYear)
    ensures !ValidateYear(NatToString(currentYear + 1), currentYear)
  {
    assert "2020"[..3] == "202" && "202"[..2] == "20" && "20"[..1] == "2" && "2"[..0] == "";
    assert DigitsValue("2020") == 2020;
    assert "1899"[..3] == "189" && "189"[..2] == "18" && "18"[..1] == "1" && "1"[..0] == "";
    assert DigitsValue("1899") == 1899;
    if currentYear + 1 <= 9999 {
      YearIsRenderedYear(currentYear + 1, currentYear);
    } else {
      NatToStringRoundTrip(currentYear + 1);
    }
  }

  /** `validateNumber` reads a prefix: a rendered number followed by text that
    * does not continue it passes exactly when it is positive. (A text without
    * a numeric prefix never passes: see the contract of `ValidateNumber`.) */
  lemma NumberOfNat(n: nat, t: string)
    requires |t| == 0 || (!IsDigit(t[0]) && t[0] != '.' && t[0] != 'e' && t[0] != 'E')
    ensures ValidateNumber(NatToString(n) + t) <==> n > 0
  {
    ParseFloatReadsPrefix(n, t);
  }

  /** An accepted answer keeps the dialog well formed. */
  lemma AvailabilityInputPreservesWellFormed(d: Dialog, message: string, currentYear: int)
    requires WellFormed(d)
    ensures WellFormed(AvailabilityInput(d, message, currentYear).dialog)
  {
    var r := AvailabilityInput(d, message, currentYear);
    if StepAccepts(d.step, message, currentYear) && d.step == Modelo {
      assert r.dialog.modelo == Some(message);
    }
  }

  /** Each text moves the dialog forward by at most one step, never back: a
    * fresh dialog reaches the location step only after five accepted texts. */
  lemma {:induction false} RunAdvancesOneStepPerText(d: Dialog, messages: seq<string>, currentYear: int)
    requires d.step != BalanceId
    ensures Run(d, messages, currentYear).step != BalanceId
    ensures Rank(d.step) <= Rank(Run(d, messages, currentYear).step) <= Rank(d.step) + |messages|
    decreases |messages|
  {
    if |messages| > 0 {
      var d1 := AvailabilityInput(d, messages[0], currentYear).dialog;
      assert d1.step != BalanceId && Rank(d.step) <= Rank(d1.step) <= Rank(d.step) + 1;
      RunAdvancesOneStepPerText(d1, messages[1..], currentYear);
    }
  }

  /** A rejected text at the head of a run leaves no trace: the run ends in
    * the same dialog as the run without it. */
  lemma RejectedTextChangesNothing(d: Dialog, message: string, rest: seq<string>, currentYear: int)
    requires !StepAccepts(d.step, message, currentYear)
    ensures Run(d, [message] + rest, currentYear) == Run(d, rest, currentYear)
  {
    assert ([message] + rest)[1..] == rest;
  }

  lemma TurboAccepted(d: Dialog, currentYear: int)
    requires d.step == VehicleType
    ensures AvailabilityInput(d, "turbo", currentYear).dialog == d.(step := Placa, vehicleType := Some("turbo"))
  {
    assert Normalize("turbo") == "turbo" by {
      assert Lower("turbo") == "turbo";
      TrimOfTrimmed("turbo");
    }
  }

  lemma PlacaAccepted(d: Dialog, currentYear: int)
    requires d.step == Placa
    ensures AvailabilityInput(d, "abc123", currentYear).dialog == d.(step := Modelo, placa := Some("ABC123"))
  {
    assert Upper("abc123") == "ABC123";
    PlacaExamples();
  }

  lemma ModeloAccepted(d: Dialog, currentYear: int)
    requires d.step == Modelo && currentYear >= 2020
    ensures AvailabilityInput(d, "2020", currentYear).dialog == d.(step := Volume, modelo := Some("2020"))
  {
    YearExamples(currentYear);
  }

  lemma NumberAccepted(d: Dialog, n: nat, currentYear: int)
    requires (d.step == Volume || d.step == Capacity) && n > 0
    ensures d.step == Volume ==> AvailabilityInput(d, NatToString(n), currentYear).dialog == d.(step := Capacity, volume := Some(n as real))
    ensures d.step == Capacity ==> AvailabilityInput(d, NatToString(n), currentYear).dialog == d.(step := Location, capacity := Some(n as real))
  {
    ParseFloatOfNat(n);
  }

  /** The documented happy path registers the normalised answers, for any
    * positive whole volume and capacity. */
  lemma HappyPath(volume: nat, capacity: nat, currentYear: int)
    requires currentYear >= 2020 && volume > 0 && capacity > 0
    ensures Run(Fresh(VehicleType), ["turbo", "abc123", "2020", NatToString(volume), NatToString(capacity)], currentYear)
         == Dialog(Location, Some("turbo"), Some("ABC123"), Some("2020"), Some(volume as real), Some(capacity as real), None, None)
  {
    var ms := ["turbo", "abc123", "2020", NatToString(volume), NatToString(capacity)];
    var d0 := Fresh(VehicleType);
    var d1 := d0.(step := Placa, vehicleType := Some("turbo"));
    var d2 := d1.(step := Modelo, placa := Some("ABC123"));
    var d3 := d2.(step := Volume, modelo := Some("2020"));
    var d4 := d3.(step := Capacity, volume := Some(volume as real));
    var d5 := d4.(step := Location, capacity := Some(capacity as real));
    TurboAccepted(d0, currentYear);
    PlacaAccepted(d1, currentYear);
    ModeloAccepted(d2, currentYear);
    NumberAccepted(d3, volume, currentYear);
    NumberAccepted(d4, capacity, currentYear);
    var m1 := ms[1..];
    var m2 := m1[1..];
    var m3 := m2[1..];
    var m4 := m3[1..];
    var m5 := m4[1..];
    assert ms[0] == "turbo" && m1[0] == "abc123" && m2[0] == "2020" && m3[0] == NatToString(volume) && m4[0] == NatToString(capacity) && |m5| == 0;
    assert Run(d0, ms, currentYear) == Run(d1, m1, currentYear);
    assert Run(d1, m1, currentYear) == Run(d2, m2, currentYear);
    assert Run(d2, m2, currentYear) == Run(d3, m3, currentYear);
    assert Run(d3, m3, currentYear) == Run(d4, m4, currentYear);
    assert Run(d4, m4, currentYear) == Run(d5, m5, currentYear);
  }

  /** `handleAvailabilityFlow` stores the raw message as the vehicle type, not
    * the normalised word it checked. Called directly with `"Turbo"`, it stores
    * `"Turbo"`; the router normalises every text first, and then the stored
    * value is the normalised word. */
  lemma VehicleTypeStoresRawMessage(d: Dialog, body: string, currentYear: int)
    requires d.step == VehicleType
    ensures Normalize("Turbo") == "turbo"
    ensures AvailabilityInput(d, "Turbo", currentYear).dialog.vehicleType == Some("Turbo")
    ensures var m := Normalize(body);
      StepAccepts(d.step, m, currentYear) ==>
        AvailabilityInput(d, m, currentYear).dialog.vehicleType == Some(Normalize(m))
  {
    assert Lower("Turbo") == "turbo";
    TrimOfTrimmed("turbo");
    NormalizeIdempotent(body);
  }

  /** The availability row is lossless: every collected field is read back
    * from its own column. */
  lemma AvailabilityRowRoundTrip(t: Transport)
    ensures |AvailabilityRow(t)| == 8
    ensures TransportOfRow(AvailabilityRow(t)) == Some(t)
  {
  }

  /** The entries of rows `[r] + rest`: `r`'s own, then those of `rest`. */
  lemma MatchingBalancesCons(r: Row, rest: seq<Row>, id: string)
    ensures MatchingBalances([r] + rest, id)
         == (if IsLedgerRowOf(r, id) then [BalanceOf(r)] else []) + MatchingBalances(rest, id)
  {
    assert ([r] + rest)[0] == r && ([r] + rest)[1..] == rest;
  }

  /** Appending a ledger row adds its entry at the end exactly when its first
    * column is the id: entries come one per matching row, in row order. */
  lemma {:induction false} MatchingBalancesAppend(dataRows: seq<Row>, row: Row, id: string)
    ensures MatchingBalances(dataRows + [row], id)
         == MatchingBalances(dataRows, id) + (if IsLedgerRowOf(row, id) then [BalanceOf(row)] else [])
    decreases |dataRows|
  {
    if |dataRows| == 0 {
      MatchingBalancesCons(row, [], id);
      assert dataRows + [row] == [row] + [];
    } else {
      MatchingBalancesAppend(dataRows[1..], row, id);
      MatchingBalancesAppendStep(dataRows, row, id);
    }
  }

  /** The inductive step of `MatchingBalancesAppend`: the claim for the rows
    * after the first gives it for all of them. */
  lemma MatchingBalancesAppendStep(dataRows: seq<Row>, row: Row, id: string)
    requires |dataRows| > 0
    requires MatchingBalances(dataRows[1..] + [row], id)
          == MatchingBalances(dataRows[1..], id) + (if IsLedgerRowOf(row, id) then [BalanceOf(row)] else [])
    ensures MatchingBalances(dataRows + [row], id)
         == MatchingBalances(dataRows, id) + (if IsLedgerRowOf(row, id) then [BalanceOf(row)] else [])
  {
    var own := if IsLedgerRowOf(dataRows[0], id) then [BalanceOf(dataRows[0])] else [];
    var last := if IsLedgerRowOf(row, id) then [BalanceOf(row)] else [];
    var tail := MatchingBalances(dataRows[1..], id);
    SnocSplit(dataRows, row);
    assert MatchingBalances(dataRows, id) == own + tail;
    assert MatchingBalances(dataRows + [row], id) == own + (tail + last);
    ConcatAssoc(own, tail, last);
  }

  /** Appending to a non-empty sequence keeps its head and appends to its tail. */
  lemma SnocSplit<T>(s: seq<T>, x: T)
    requires |s| > 0
    ensures (s + [x])[0] == s[0] && (s + [x])[1..] == s[1..] + [x]
  {
  }

  /** Concatenation is associative. */
  lemma ConcatAssoc<T>(a: seq<T>, b: seq<T>, c: seq<T>)
    ensures a + (b + c) == (a + b) + c
  {
  }

  /** The header row never contributes, whatever its first column holds. */
  lemma HeaderIsSkipped(header: Row, dataRows: seq<Row>, id: string)
    ensures BalanceEntries([header] + dataRows, id) == MatchingBalances(dataRows, id)
  {
    assert ([header] + dataRows)[1..] == dataRows;
  }

  /** The reported totals are sums: a further entry adds its amounts. */
  lemma TotalsOfAppend(bs: seq<Balance>, b: Balance)
    ensures TotalAvailable(bs + [b]) == TotalAvailable(bs) + b.available
    ensures TotalPending(bs + [b]) == TotalPending(bs) + b.pending
  {
    assert (bs + [b])[..|bs|] == bs;
  }

  /** Totals of a concatenation are the sums of the totals. */
  lemma {:induction false} TotalsOfConcat(a: seq<Balance>, b: seq<Balance>)
    ensures TotalAvailable(a + b) == TotalAvailable(a) + TotalAvailable(b)
    ensures TotalPending(a + b) == TotalPending(a) + TotalPending(b)
    decreases |b|
  {
    if |b| == 0 {
      assert a + b == a;
    } else {
      var b', x := b[..|b| - 1], b[|b| - 1];
      assert b == b' + [x];
      assert a + b == (a + b') + [x];
      TotalsOfAppend(a + b', x);
      TotalsOfAppend(b', x);
      TotalsOfConcat(a, b');
    }
  }

  lemma LedgerRowsOfExample()
    ensures BalanceOf(["X", "5", "4", "lunes"]) == Balance(5.0, 4.0, "lunes")
    ensures BalanceOf(["X", "0", "3"]) == Balance(0.0, 3.0, "N/A")
  {
    ParseFloatOfNat(5);
    ParseFloatOfNat(0);
    ParseFloatOfNat(4);
    ParseFloatOfNat(3);
  }

  lemma MatchingTailExample(tail: seq<Row>)
    requires |tail| == 2 && tail[0] == ["Y", "1", "1"] && tail[1] == ["X", "0", "3"]
    ensures MatchingBalances(tail, "X") == [Balance(0.0, 3.0, "N/A")]
  {
    LedgerRowsOfExample();
    var t := tail[1..];
    assert t[0] == tail[1] && |t[1..]| == 0;
    assert !IsLedgerRowOf(tail[0], "X") && IsLedgerRowOf(t[0], "X");
    assert MatchingBalances(t, "X") == [BalanceOf(t[0])];
  }

  lemma MatchingExample(dataRows: seq<Row>)
    requires |dataRows| == 3
    requires dataRows[0] == ["X", "5", "4", "lunes"] && dataRows[1] == ["Y", "1", "1"] && dataRows[2] == ["X", "0", "3"]
    ensures MatchingBalances(dataRows, "X") == [Balance(5.0, 4.0, "lunes"), Balance(0.0, 3.0, "N/A")]
  {
    LedgerRowsOfExample();
    var t1 := dataRows[1..];
    assert t1[0] == dataRows[1] && t1[1] == dataRows[2];
    MatchingTailExample(t1);
    assert IsLedgerRowOf(dataRows[0], "X");
  }

  /** The totals and detail lines of two entries: the sums of their amounts,
    * and one numbered line per entry, in order. */
  lemma TwoEntryTotals(b1: Balance, b2: Balance)
    ensures TotalAvailable([b1, b2]) == b1.available + b2.available
    ensures TotalPending([b1, b2]) == b1.pending + b2.pending
    ensures PendingDetails([b1, b2])
         == [PendingLine(1, b1.pending, b1.nextPayment), PendingLine(2, b2.pending, b2.nextPayment)]
  {
    var bs := [b1, b2];
    assert bs[..1] == [b1] && [b1][..0] == [];
    assert TotalAvailable([b1]) == b1.available && TotalPending([b1]) == b1.pending;
  }

  /** Two entries with pending 10 and 20 report a pending total of 30 and two
    * detail lines, whatever their available amounts and next payments. */
  lemma TotalsExample(a1: real, a2: real, n1: string, n2: string)
    ensures var bs := [Balance(a1, 10.0, n1), Balance(a2, 20.0, n2)];
      && TotalPending(bs) == 30.0 && TotalAvailable(bs) == a1 + a2
      && PendingDetails(bs) == [PendingLine(1, 10.0, n1), PendingLine(2, 20.0, n2)]
  {
    TwoEntryTotals(Balance(a1, 10.0, n1), Balance(a2, 20.0, n2));
  }

  /** Two ledger rows for one id with pending 4 and 3 report a pending total
    * of 7 and two detail lines; a missing next-payment column reads "N/A". */
  lemma BalanceExample()
    ensures var rows := [["id", "disponible", "pendiente", "proximo"], ["X", "5", "4", "lunes"], ["Y", "1", "1"], ["X", "0", "3"]];
      BalanceReply("X", BalanceEntries(rows, "X"))
        == BalanceReport("X", 5.0, 7.0, [PendingLine(1, 4.0, "lunes"), PendingLine(2, 3.0, "N/A")])
  {
    var rows := [["id", "disponible", "pendiente", "proximo"], ["X", "5", "4", "lunes"], ["Y", "1", "1"], ["X", "0", "3"]];
    MatchingExample(rows[1..]);
    TwoEntryTotals(Balance(5.0, 4.0, "lunes"), Balance(0.0, 3.0, "N/A"));
  }

  /** The router lower-cases every text first, so the id a balance lookup
    * compares with the ledger's first column never holds an upper-case ASCII
    * letter: a ledger row keyed `"AB12"` is never found. */
  lemma LookupIdIsLowerCase(body: string)
    ensures forall k :: 0 <= k < |Normalize(body)| ==> !IsAsciiUpper(Normalize(body)[k])
    ensures !IsLedgerRowOf(["AB12"], Normalize(body))
  {
    var l := Lower(body);
    var i := TrimStart(l);
    var t := Normalize(body);
    assert forall k :: 0 <= k < |t| ==> t[k] == l[i + k];
    if IsLedgerRowOf(["AB12"], t) {
      assert t[0] == 'A';
    }
  }
}
