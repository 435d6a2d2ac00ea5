/** The server's store: the client table of the JSON data file, read whole and
    written whole by every operation. */
module ServerDb {
  import opened Records
  import opened Table
  import opened Decimal

  /** The fields `createClient` receives; the password is already hashed. */
  datatype NewClient = NewClient(name: string, email: string, passHash: string, business: string, status: string)

  /** The record `createClient` builds: the given fields and hash, a random
      8-digit business number, no documents, no tickets, and exactly one
      payment, the formation fee. */
  function ServerRecord(f: NewClient, id: string, payId: string, now: string, draw: nat): (c: Client)
    requires draw < BusinessNumberRange
    ensures c.id == id && c.cred == f.passHash && c.status == f.status
    ensures c.name == f.name && c.email == f.email && c.business == f.business
    ensures |c.businessId| == 8 && AllDigits(c.businessId)
    ensures c.docs == [] && c.tickets == []
    ensures c.payments == [Payment(payId, now, "Company formation fee", 399, "Paid")]
  {
    Client(id, f.name, f.email, f.passHash, f.business, f.status, BusinessNumber(draw), [], [FormationFee(payId, now)], [])
  }

  class Db {
    /** `data.clients`. */
    var clients: seq<Client>

    constructor (stored: seq<Client>)
      ensures clients == stored
    {
      clients := stored;
    }

    /** `createClient`: appends the new record and returns it. */
    method CreateClient(f: NewClient, id: string, payId: string, now: string, draw: nat) returns (c: Client)
      requires draw < BusinessNumberRange
      modifies this
      ensures c == ServerRecord(f, id, payId, now, draw)
      ensures clients == old(clients) + [c]
    {
      c := ServerRecord(f, id, payId, now, draw);
      clients := clients + [c];
    }

    /** `updateClient`: null for an unknown id, with nothing written;
        otherwise the merged record, which replaces the first record with the id. */
    method UpdateClient(id: string, p: Patch) returns (r: Option<Client>)
      modifies this
      ensures clients == UpdateAt(old(clients), id, p)
      ensures r.None? <==> Fresh(old(clients), id)
      ensures r.Some? ==> IndexOf(old(clients), id).Some?
                          && r.value == Merge(old(clients)[IndexOf(old(clients), id).value], p)
    {
      var idx := IndexOf(clients, id);
      if idx.None? {
        return None;
      }
      var i := idx.value;
      clients := clients[i := Merge(clients[i], p)];
      r := Some(clients[i]);
    }

    /** `removeClient`: `data.clients = data.clients.filter(c => c.id !== id)`. */
    method RemoveClient(id: string)
      modifies this
      ensures clients == Without(old(clients), id)
    {
      clients := Without(clients, id);
    }

    /** Unshifts an entry onto a list of the first record with the id. */
    method Unshift(clientId: string, e: Entry) returns (found: bool)
      modifies this
      ensures clients == AddToClient(old(clients), clientId, e)
      ensures found <==> IndexOf(old(clients), clientId).Some?
    {
      var idx := IndexOf(clients, clientId);
      if idx.None? {
        return false;
      }
      var i := idx.value;
      clients := clients[i := AddEntry(clients[i], e)];
      found := true;
    }

    /** `addDoc`: null for an unknown client; otherwise the document goes to
        the front of the client's list and is returned as given. */
    method AddDoc(clientId: string, doc: Doc) returns (r: Option<Doc>)
      modifies this
      ensures clients == AddToClient(old(clients), clientId, DocEntry(doc))
      ensures r.Some? <==> IndexOf(old(clients), clientId).Some?
      ensures r.Some? ==> r.value == doc
    {
      var found := Unshift(clientId, DocEntry(doc));
      r := if found then Some(doc) else None;
    }

    /** `addTicket`: null for an unknown client; otherwise the ticket goes to
        the front of the client's list and is returned as given. */
    method AddTicket(clientId: string, ticket: Ticket) returns (r: Option<Ticket>)
      modifies this
      ensures clients == AddToClient(old(clients), clientId, TicketEntry(ticket))
      ensures r.Some? <==> IndexOf(old(clients), clientId).Some?
      ensures r.Some? ==> r.value == ticket
    {
      var found := Unshift(clientId, TicketEntry(ticket));
      r := if found then Some(ticket) else None;
    }
  }
}
