/** The services the core calls: the messaging channel and the spreadsheet
  * store. Each call is recorded in a log; the calls that can throw say so. */
module Collaborators {
  import opened Wrappers
  import opened Domain

  /** The messaging channel. Text, buttons and read receipts never throw: the
    * service catches and logs its own HTTP errors. The contact card is sent
    * through a method the channel may not have: `contactCardFails` is true for
    * the service as the repository ships it, where the call names a method
    * spelled differently (messageSender.js:35, whatsappService.js:109). */
  class Outbox {
    var log: seq<Outbound>
    const contactCardFails: bool

    constructor (contactCardFails: bool)
      ensures log == [] && this.contactCardFails == contactCardFails
    {
      log := [];
      this.contactCardFails := contactCardFails;
    }

    method SendText(to: Sender, reply: Reply)
      modifies this
      ensures log == old(log) + [Text(to, reply)]
    {
      log := log + [Text(to, reply)];
    }

    method SendButtons(to: Sender, menu: Menu, ids: seq<string>)
      modifies this
      ensures log == old(log) + [Buttons(to, menu, ids)]
    {
      log := log + [Buttons(to, menu, ids)];
    }

    method SendSupportContact(to: Sender) returns (r: Outcome)
      modifies this
      ensures contactCardFails ==> r == Fail(TypeError) && log == old(log)
      ensures !contactCardFails ==> r == Pass && log == old(log) + [ContactCard(to)]
    {
      if contactCardFails {
        r := Fail(TypeError);
      } else {
        log := log + [ContactCard(to)];
        r := Pass;
      }
    }

    method MarkAsRead(messageId: string)
      modifies this
      ensures log == old(log) + [ReadReceipt(messageId)]
    {
      log := log + [ReadReceipt(messageId)];
    }
  }

  /** One row appended to a named sheet. */
  datatype Append = Append(sheet: string, row: seq<Value>)

  const AvailabilitySheet := "Disponibilidad"
  const CatalogSheet := "ViajesDisponibles"
  const LedgerSheet := "Saldos"
  const AcceptedSheet := "ViajesAceptados"

  /** The spreadsheet store. `contents` is what reads return; every append is
    * recorded in `appended`. When the service is not `reachable` every read
    * and every append throws. */
  class Sheets {
    const contents: map<string, seq<Row>>
    const reachable: bool
    var appended: seq<Append>

    constructor (contents: map<string, seq<Row>>, reachable: bool)
      ensures this.contents == contents && this.reachable == reachable && appended == []
    {
      this.contents := contents;
      this.reachable := reachable;
      appended := [];
    }

    method AppendRow(row: seq<Value>, sheet: string) returns (r: Outcome)
      modifies this
      ensures reachable ==> r == Pass && appended == old(appended) + [Append(sheet, row)]
      ensures !reachable ==> r == Fail(StorageError) && appended == old(appended)
    {
      if reachable {
        appended := appended + [Append(sheet, row)];
        r := Pass;
      } else {
        r := Fail(StorageError);
      }
    }

    /** Reads every row of a sheet; a sheet the store does not have is an error. */
    method Fetch(sheet: string) returns (r: Result<seq<Row>>)
      ensures reachable && sheet in contents ==> r == Ok(contents[sheet])
      ensures !reachable || sheet !in contents ==> r == Err(StorageError)
    {
      if reachable && sheet in contents {
        r := Ok(contents[sheet]);
      } else {
        r := Err(StorageError);
      }
    }
  }
}
