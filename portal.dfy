/** The browser-only store: the client table kept in local storage, its
    operations, and the data rules of the admin and client pages. */
module Portal {
  import opened Records
  import opened Table
  import opened Decimal

  /** The fields the create form collects. */
  datatype NewClient = NewClient(name: string, email: string, pass: string, business: string, status: string)

  /** A file picked in the browser: its name and its bytes read as a data URL. */
  datatype LocalFile = LocalFile(name: string, dataUrl: string)

  /** The caller's fields of a payment; the store adds the id and the date. */
  datatype PaymentFields = PaymentFields(description: string, amount: int, status: string)

  /** The fee the admin page adds to every new client. */
  const FeeFields: PaymentFields := PaymentFields(FeeDescription, FeeAmount, FeeStatus)

  /** The record `create` builds: the form's fields, a random 8-digit business
      number and three empty lists. */
  function LocalRecord(f: NewClient, id: string, draw: nat): (c: Client)
    requires draw < BusinessNumberRange
    ensures c.id == id && c.cred == f.pass && c.status == f.status
    ensures c.name == f.name && c.email == f.email && c.business == f.business
    ensures |c.businessId| == 8 && AllDigits(c.businessId)
    ensures c.docs == [] && c.payments == [] && c.tickets == []
  {
    Client(id, f.name, f.email, f.pass, f.business, f.status, BusinessNumber(draw), [], [], [])
  }

  /** The document `addDoc` builds: without a file its name is its type and its
      data URL is null; a file is named by its own name, or by the type when
      that name is empty (`file?.name || type`). */
  function LocalDoc(docId: string, kind: string, file: Option<LocalFile>, now: string): (d: Doc)
    ensures d.id == docId && d.kind == kind && d.dateISO == now
    ensures file.None? ==> d.name == kind && d.content == Inline(None)
    ensures file.Some? ==> d.content == Inline(Some(file.value.dataUrl))
    ensures file.Some? ==> d.name == (if file.value.name != "" then file.value.name else kind)
  {
    match file
    case None => Doc(docId, kind, kind, now, Inline(None))
    case Some(f) => Doc(docId, kind, if f.name != "" then f.name else kind, now, Inline(Some(f.dataUrl)))
  }

  /** The payment `addPayment` builds: a fresh id and the current date, then
      the caller's description, amount and status. */
  function LocalPayment(payId: string, now: string, p: PaymentFields): (r: Payment)
    ensures r.id == payId && r.dateISO == now
    ensures r.description == p.description && r.amount == p.amount && r.status == p.status
  {
    Payment(payId, now, p.description, p.amount, p.status)
  }

  /** The browser seeds a new client with the same fee payment as the server. */
  lemma SameFormationFee(payId: string, now: string)
    ensures LocalPayment(payId, now, FeeFields) == FormationFee(payId, now)
  {
  }

  /** A new ticket is always open. */
  function LocalTicket(ticketId: string, subject: string, body: string, now: string): (t: Ticket)
    ensures t.status == "Open" && t.subject == subject && t.body == body
  {
    Ticket(ticketId, subject, body, now, "Open")
  }

  /** The status toggle: `Active` becomes `On Hold`, anything else `Active`. */
  function NextStatus(s: string): (t: string)
    ensures t != s
    ensures t == "Active" || t == "On Hold"
    ensures t == "On Hold" <==> s == "Active"
  {
    if s == "Active" then "On Hold" else "Active"
  }

  /** Toggling twice restores the two statuses the admin page offers, and only those. */
  lemma ToggleTwice(s: string)
    ensures NextStatus(NextStatus(s)) == s <==> s == "Active" || s == "On Hold"
  {
  }

  /** The table as held in local storage; every operation reads it whole and
      writes it whole. */
  class LocalStore {
    var clients: seq<Client>

    constructor (stored: seq<Client>)
      ensures clients == stored
    {
      clients := stored;
    }

    /** `create`: appends one new record at the end and returns it. */
    method Create(f: NewClient, id: string, draw: nat) returns (c: Client)
      requires draw < BusinessNumberRange
      modifies this
      ensures c == LocalRecord(f, id, draw)
      ensures clients == old(clients) + [c]
    {
      c := LocalRecord(f, id, draw);
      clients := clients + [c];
    }

    /** `update`: merges the patch into the first record with the id and
      returns the merged record; nothing happens for an unknown id. */
    method Update(id: string, p: Patch) returns (r: Option<Client>)
      modifies this
      ensures clients == UpdateAt(old(clients), id, p)
      ensures r.None? <==> Fresh(old(clients), id)
      ensures r.Some? ==> IndexOf(old(clients), id).Some?
                          && r.value == Merge(old(clients)[IndexOf(old(clients), id).value], p)
    {
      var idx := IndexOf(clients, id);
      if idx.None? {
        return None;
      }
      var i := idx.value;
      clients := clients[i := Merge(clients[i], p)];
      r := Some(clients[i]);
    }

    /** `remove`: keeps every record whose id differs. */
    method Remove(id: string)
      modifies this
      ensures clients == Without(old(clients), id)
    {
      clients := Without(clients, id);
    }

    /** Unshifts an entry onto the list of the record found by id and writes
      the list back with `update`. */
    method AddEntryVia(clientId: string, e: Entry) returns (found: bool)
      modifies this
      ensures clients == AddToClient(old(clients), clientId, e)
      ensures found <==> IndexOf(old(clients), clientId).Some?
    {
      var c := FindById(clients, clientId);
      if c.None? {
        return false;
      }
      MergeEntryPatch(c.value, e);
      var merged := Update(clientId, EntryPatch(c.value, e));
      found := true;
    }

    /** `addDoc`: the new document goes to the front of the client's list and
      is returned; an unknown client gets nothing. */
    method AddDoc(clientId: string, kind: string, file: Option<LocalFile>, docId: string, now: string)
      returns (r: Option<Doc>)
      modifies this
      ensures clients == AddToClient(old(clients), clientId, DocEntry(LocalDoc(docId, kind, file, now)))
      ensures r.Some? <==> IndexOf(old(clients), clientId).Some?
      ensures r.Some? ==> r.value == LocalDoc(docId, kind, file, now)
    {
      var d := LocalDoc(docId, kind, file, now);
      var found := AddEntryVia(clientId, DocEntry(d));
      r := if found then Some(d) else None;
    }

    /** `addPayment`: the new payment goes to the front of the client's list. */
    method AddPayment(clientId: string, p: PaymentFields, payId: string, now: string)
      modifies this
      ensures clients == AddToClient(old(clients), clientId, PaymentEntry(LocalPayment(payId, now, p)))
    {
      var found := AddEntryVia(clientId, PaymentEntry(LocalPayment(payId, now, p)));
    }

    /** `addTicket`: the new, open ticket goes to the front of the client's list. */
    method AddTicket(clientId: string, subject: string, body: string, ticketId: string, now: string)
      modifies this
      ensures clients == AddToClient(old(clients), clientId, TicketEntry(LocalTicket(ticketId, subject, body, now)))
    {
      var found := AddEntryVia(clientId, TicketEntry(LocalTicket(ticketId, subject, body, now)));
    }
  }

  /** The create form requires a name, an email, a password and a business. */
  predicate CreateFormComplete(d: NewClient): (ok: bool)
    ensures ok <==> "" !in [d.name, d.email, d.pass, d.business]
  {
    d.name != "" && d.email != "" && d.pass != "" && d.business != ""
  }

  /** The admin's create: nothing happens for an incomplete form; otherwise
      the record is appended and the formation fee is added to it. */
  method AdminCreate(store: LocalStore, d: NewClient, id: string, draw: nat, payId: string, now: string)
    returns (accepted: bool)
    requires draw < BusinessNumberRange
    modifies store
    ensures accepted == CreateFormComplete(d)
    ensures !accepted ==> store.clients == old(store.clients)
    ensures accepted ==> store.clients == AddToClient(old(store.clients) + [LocalRecord(d, id, draw)], id,
                                                      PaymentEntry(LocalPayment(payId, now, FeeFields)))
  {
    if !CreateFormComplete(d) {
      return false;
    }
    var c := store.Create(d, id, draw);
    store.AddPayment(c.id, FeeFields, payId, now);
    accepted := true;
  }

  /** With a fresh id the new client ends up last, with exactly one payment:
      the formation fee of 399, paid. */
  lemma AdminCreateSeedsFee(cs: seq<Client>, d: NewClient, id: string, draw: nat, payId: string, now: string)
    requires draw < BusinessNumberRange
    requires Fresh(cs, id)
    ensures var after := AddToClient(cs + [LocalRecord(d, id, draw)], id, PaymentEntry(LocalPayment(payId, now, FeeFields)));
            |after| == |cs| + 1 && after[..|cs|] == cs
            && after[|cs|].payments == [Payment(payId, now, "Company formation fee", 399, "Paid")]
            && after[|cs|].docs == [] && after[|cs|].tickets == []
  {
    var t := cs + [LocalRecord(d, id, draw)];
    assert t[|cs|].id == id;
    assert forall j :: 0 <= j < |cs| ==> t[j] == cs[j];
    assert IndexOf(t, id) == Some(|cs|);
  }

  /** The status toggle on a record the admin table lists: only `status`
      changes, to `NextStatus` of its old value. The record must exist, since
      the page reads its status before updating. */
  method AdminToggleStatus(store: LocalStore, id: string)
    requires IndexOf(store.clients, id).Some?
    modifies store
    ensures var i := IndexOf(old(store.clients), id).value;
            store.clients == old(store.clients)[i := old(store.clients)[i].(status := NextStatus(old(store.clients)[i].status))]
  {
    var c := FindById(store.clients, id);
    var next := NextStatus(c.value.status);
    var i := IndexOf(store.clients, id).value;
    assert Merge(store.clients[i], NoPatch.(status := Some(next))) == store.clients[i].(status := next);
    var updated := store.Update(id, NoPatch.(status := Some(next)));
  }

  /** The admin's password reset: an empty or cancelled prompt changes nothing. */
  method AdminResetPassword(store: LocalStore, id: string, pass: Option<string>)
    modifies store
    ensures pass.None? || pass.value == "" ==> store.clients == old(store.clients)
    ensures pass.Some? && pass.value != "" ==> store.clients == UpdateAt(old(store.clients), id, NoPatch.(cred := pass))
  {
    if pass.Some? && pass.value != "" {
      var updated := store.Update(id, NoPatch.(cred := pass));
    }
  }

  /** The client's profile form: name, email and password are patched together. */
  method ClientSaveProfile(store: LocalStore, id: string, name: string, email: string, pass: string)
    modifies store
    ensures store.clients == UpdateAt(old(store.clients), id, NoPatch.(name := Some(name), email := Some(email), cred := Some(pass)))
  {
    var updated := store.Update(id, NoPatch.(name := Some(name), email := Some(email), cred := Some(pass)));
  }

  /** The client's ticket form: a ticket needs a subject and a body. */
  method ClientSubmitTicket(store: LocalStore, id: string, subject: string, body: string, ticketId: string, now: string)
    returns (submitted: bool)
    modifies store
    ensures submitted <==> subject != "" && body != ""
    ensures !submitted ==> store.clients == old(store.clients)
    ensures submitted ==> store.clients == AddToClient(old(store.clients), id, TicketEntry(LocalTicket(ticketId, subject, body, now)))
  {
    if subject == "" || body == "" {
      return false;
    }
    store.AddTicket(id, subject, body, ticketId, now);
    submitted := true;
  }
}
