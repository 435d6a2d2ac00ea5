/** The shape of one client record, shared by the browser store and the
    server's JSON file, and the object-spread merge that both stores use to
    apply a partial update. */
module Records {

  datatype Option<T> = None | Some(value: T)

  /** Where a document's bytes live: inline as a data URL in the browser
      (null when no file was chosen), or on disk behind a URL on the server. */
  datatype DocContent =
    | Inline(dataUrl: Option<string>)
    | Stored(path: string, url: string)

  /** A document; `kind` is the record's `type` key. */
  datatype Doc = Doc(id: string, kind: string, name: string, dateISO: string, content: DocContent)

  datatype Payment = Payment(id: string, dateISO: string, description: string, amount: int, status: string)

  const FeeDescription: string := "Company formation fee"
  const FeeAmount: int := 399
  const FeeStatus: string := "Paid"

  /** The payment every new client starts with, in both stores: the company
      formation fee of 399, already paid. */
  function FormationFee(payId: string, now: string): (p: Payment)
    ensures p.id == payId && p.dateISO == now
    ensures p.description == "Company formation fee" && p.amount == 399 && p.status == "Paid"
  {
    Payment(payId, now, FeeDescription, FeeAmount, FeeStatus)
  }

  datatype Ticket = Ticket(id: string, subject: string, body: string, dateISO: string, status: string)

  /** A client record. `cred` is the `pass` key in the browser store and the
      `passwordHash` key on the server; the three child lists are newest first. */
  datatype Client = Client(
    id: string,
    name: string,
    email: string,
    cred: string,
    business: string,
    status: string,
    businessId: string,
    docs: seq<Doc>,
    payments: seq<Payment>,
    tickets: seq<Ticket>)

  /** The keys of a client record, and the values they hold. */
  datatype Field = Id | Name | Email | Cred | Business | Status | BusinessId | Docs | Payments | Tickets

  datatype Value =
    | Text(text: string)
    | DocList(docs: seq<Doc>)
    | PaymentList(payments: seq<Payment>)
    | TicketList(tickets: seq<Ticket>)

  /** Property lookup `c[f]`. */
  function Get(c: Client, f: Field): Value {
    match f
    case Id => Text(c.id)
    case Name => Text(c.name)
    case Email => Text(c.email)
    case Cred => Text(c.cred)
    case Business => Text(c.business)
    case Status => Text(c.status)
    case BusinessId => Text(c.businessId)
    case Docs => DocList(c.docs)
    case Payments => PaymentList(c.payments)
    case Tickets => TicketList(c.tickets)
  }

  /** Two records that agree on every key are the same record. */
  lemma GetDetermines(a: Client, b: Client)
    requires forall f :: Get(a, f) == Get(b, f)
    ensures a == b
  {
    assert Get(a, Id) == Get(b, Id) && Get(a, Name) == Get(b, Name);
    assert Get(a, Email) == Get(b, Email) && Get(a, Cred) == Get(b, Cred);
    assert Get(a, Business) == Get(b, Business) && Get(a, Status) == Get(b, Status);
    assert Get(a, BusinessId) == Get(b, BusinessId) && Get(a, Docs) == Get(b, Docs);
    assert Get(a, Payments) == Get(b, Payments) && Get(a, Tickets) == Get(b, Tickets);
  }

  /** A partial record: `Some` for each key the patch object carries. */
  datatype Patch = Patch(
    id: Option<string>,
    name: Option<string>,
    email: Option<string>,
    cred: Option<string>,
    business: Option<string>,
    status: Option<string>,
    businessId: Option<string>,
    docs: Option<seq<Doc>>,
    payments: Option<seq<Payment>>,
    tickets: Option<seq<Ticket>>)

  /** The empty patch `{}`. */
  const NoPatch: Patch := Patch(None, None, None, None, None, None, None, None, None, None)

  /** Property lookup on a patch: `None` when the key is absent. */
  function Lookup(p: Patch, f: Field): Option<Value> {
    match f
    case Id => if p.id.Some? then Some(Text(p.id.value)) else None
    case Name => if p.name.Some? then Some(Text(p.name.value)) else None
    case Email => if p.email.Some? then Some(Text(p.email.value)) else None
    case Cred => if p.cred.Some? then Some(Text(p.cred.value)) else None
    case Business => if p.business.Some? then Some(Text(p.business.value)) else None
    case Status => if p.status.Some? then Some(Text(p.status.value)) else None
    case BusinessId => if p.businessId.Some? then Some(Text(p.businessId.value)) else None
    case Docs => if p.docs.Some? then Some(DocList(p.docs.value)) else None
    case Payments => if p.payments.Some? then Some(PaymentList(p.payments.value)) else None
    case Tickets => if p.tickets.Some? then Some(TicketList(p.tickets.value)) else None
  }

  function Override<T>(o: Option<T>, old_: T): T {
    if o.Some? then o.value else old_
  }

  /** `{ ...c, ...p }`: every key the patch carries takes the patch's value,
      every other key keeps the record's value. */
  function Merge(c: Client, p: Patch): (r: Client)
    ensures forall f :: Get(r, f) == (if Lookup(p, f).Some? then Lookup(p, f).value else Get(c, f))
  {
    Client(
      Override(p.id, c.id),
      Override(p.name, c.name),
      Override(p.email, c.email),
      Override(p.cred, c.cred),
      Override(p.business, c.business),
      Override(p.status, c.status),
      Override(p.businessId, c.businessId),
      Override(p.docs, c.docs),
      Override(p.payments, c.payments),
      Override(p.tickets, c.tickets))
  }

  /** `{ ...p, ...q }`: applying `p` and then `q`. */
  function Then(p: Patch, q: Patch): Patch {
    Patch(
      if q.id.Some? then q.id else p.id,
      if q.name.Some? then q.name else p.name,
      if q.email.Some? then q.email else p.email,
      if q.cred.Some? then q.cred else p.cred,
      if q.business.Some? then q.business else p.business,
      if q.status.Some? then q.status else p.status,
      if q.businessId.Some? then q.businessId else p.businessId,
      if q.docs.Some? then q.docs else p.docs,
      if q.payments.Some? then q.payments else p.payments,
      if q.tickets.Some? then q.tickets else p.tickets)
  }

  /** A key of the combined patch comes from `q` when `q` carries it, else from `p`. */
  lemma LookupThen(p: Patch, q: Patch, f: Field)
    ensures Lookup(Then(p, q), f) == (if Lookup(q, f).Some? then Lookup(q, f) else Lookup(p, f))
  {
    match f
    case Id =>
    case Name =>
    case Email =>
    case Cred =>
    case Business =>
    case Status =>
    case BusinessId =>
    case Docs =>
    case Payments =>
    case Tickets =>
  }

  /** The patch that carries every key of `t`. */
  function Whole(t: Client): (p: Patch)
    ensures forall f :: Lookup(p, f) == Some(Get(t, f))
  {
    Patch(Some(t.id), Some(t.name), Some(t.email), Some(t.cred), Some(t.business), Some(t.status),
          Some(t.businessId), Some(t.docs), Some(t.payments), Some(t.tickets))
  }

  /** Merging the empty patch changes nothing. */
  lemma MergeNoPatch(c: Client)
    ensures Merge(c, NoPatch) == c
  {
    GetDetermines(Merge(c, NoPatch), c);
  }

  /** Merging the same patch twice is merging it once. */
  lemma MergeIdempotent(c: Client, p: Patch)
    ensures Merge(Merge(c, p), p) == Merge(c, p)
  {
    GetDetermines(Merge(Merge(c, p), p), Merge(c, p));
  }

  /** Two successive merges are one merge of the combined patch. */
  lemma MergeThen(c: Client, p: Patch, q: Patch)
    ensures Merge(Merge(c, p), q) == Merge(c, Then(p, q))
  {
    forall f ensures Get(Merge(Merge(c, p), q), f) == Get(Merge(c, Then(p, q)), f) {
      LookupThen(p, q, f);
    }
    GetDetermines(Merge(Merge(c, p), q), Merge(c, Then(p, q)));
  }

  /** A patch carrying every key replaces the record outright. */
  lemma MergeWhole(c: Client, t: Client)
    ensures Merge(c, Whole(t)) == t
  {
    GetDetermines(Merge(c, Whole(t)), t);
  }

  /** A new child entry for one of the three lists. */
  datatype Entry =
    | DocEntry(doc: Doc)
    | PaymentEntry(payment: Payment)
    | TicketEntry(ticket: Ticket)

  /** The key of the list an entry goes to. */
  function ListField(e: Entry): Field {
    match e
    case DocEntry(_) => Docs
    case PaymentEntry(_) => Payments
    case TicketEntry(_) => Tickets
  }

  /** `c.<list>.unshift(entry)`: the entry goes to the front of its list, the
      older entries follow it unchanged, and no other key changes. */
  function AddEntry(c: Client, e: Entry): (r: Client)
    ensures forall f :: f != ListField(e) ==> Get(r, f) == Get(c, f)
    ensures e.DocEntry? ==> |r.docs| == |c.docs| + 1 && r.docs[0] == e.doc && r.docs[1..] == c.docs
    ensures e.PaymentEntry? ==> |r.payments| == |c.payments| + 1 && r.payments[0] == e.payment && r.payments[1..] == c.payments
    ensures e.TicketEntry? ==> |r.tickets| == |c.tickets| + 1 && r.tickets[0] == e.ticket && r.tickets[1..] == c.tickets
  {
    match e
    case DocEntry(d) => c.(docs := [d] + c.docs)
    case PaymentEntry(p) => c.(payments := [p] + c.payments)
    case TicketEntry(t) => c.(tickets := [t] + c.tickets)
  }

  /** The one-key patch `{ <list>: [entry, ...old list] }` that the browser
      store writes back after an unshift. */
  function EntryPatch(c: Client, e: Entry): (p: Patch)
    ensures forall f :: Lookup(p, f).Some? <==> f == ListField(e)
    ensures Lookup(p, ListField(e)) == Some(Get(AddEntry(c, e), ListField(e)))
  {
    match e
    case DocEntry(d) => NoPatch.(docs := Some([d] + c.docs))
    case PaymentEntry(p) => NoPatch.(payments := Some([p] + c.payments))
    case TicketEntry(t) => NoPatch.(tickets := Some([t] + c.tickets))
  }

  /** Writing the prepended list back through a merge (the browser store) has
      the same effect as unshifting in place (the server store). */
  lemma MergeEntryPatch(c: Client, e: Entry)
    ensures Merge(c, EntryPatch(c, e)) == AddEntry(c, e)
  {
    GetDetermines(Merge(c, EntryPatch(c, e)), AddEntry(c, e));
  }
}
