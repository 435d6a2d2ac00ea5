/** The server's request handlers: what each endpoint checks, what it asks of
    the store, and which status code it answers with. Hashing, token signing
    and verification, generated ids and the clock are parameters. */
module Api {
  import opened Records
  import opened Table
  import opened Decimal
  import opened Filenames
  import opened ServerDb

  datatype Payload =
    | ClientBody(client: Client)
    | ClientsBody(clients: seq<Client>)
    | DocBody(doc: Doc)
    | TicketBody(ticket: Ticket)
    | TokenBody(token: string)
    | OkBody
    | ErrorBody(error: string)

  datatype Response = Response(status: int, payload: Payload)

  const Unauthorized: Response := Response(401, ErrorBody("Unauthorized"))

  /** A string-valued request field is truthy when present and non-empty. */
  predicate Truthy(v: Option<string>) {
    v.Some? && v.value != ""
  }

  const BearerPrefix: string := "Bearer "

  /** `h.startsWith('Bearer ') ? h.slice(7) : null` with `h` the
      Authorization header or `''`. */
  function BearerToken(header: Option<string>): (t: Option<string>)
    ensures forall x :: t == Some(x) <==> header == Some(BearerPrefix + x)
  {
    var h := if header.Some? then header.value else "";
    if |h| >= 7 && h[..7] == BearerPrefix then
      assert h == BearerPrefix + h[7..];
      Some(h[7..])
    else
      assert forall x :: (BearerPrefix + x)[..7] == BearerPrefix;
      None
  }

  /** The `auth` middleware lets a request through exactly when the header is
      `Bearer ` followed by a non-empty token that verifies. */
  function Authorized(header: Option<string>, verify: string -> bool): (ok: bool)
    ensures ok <==> exists x :: header == Some(BearerPrefix + x) && x != "" && verify(x)
  {
    var t := BearerToken(header);
    if t.Some? && t.value != "" && verify(t.value) then
      assert header == Some(BearerPrefix + t.value);
      true
    else
      false
  }

  /** No header, and a header that is only `Bearer ` with nothing after it,
      both give 401: the empty token is falsy. */
  lemma MissingTokenRejected(verify: string -> bool)
    ensures !Authorized(None, verify)
    ensures !Authorized(Some(BearerPrefix), verify)
  {
    assert forall x :: |BearerPrefix + x| == 7 + |x|;
  }

  const AdminEmail: string := "admin@incorpx.local"
  const AdminPassword: string := "admin"

  /** `POST /api/admin/login`: a token only for the fixed demo pair. */
  function AdminLogin(email: Option<string>, password: Option<string>, token: string): (r: Response)
    ensures r.status == 200 <==> email == Some(AdminEmail) && password == Some(AdminPassword)
    ensures r.status == 200 ==> r.payload == TokenBody(token)
    ensures r.status != 200 ==> r == Response(401, ErrorBody("Invalid credentials"))
  {
    if email == Some(AdminEmail) && password == Some(AdminPassword) then Response(200, TokenBody(token))
    else Response(401, ErrorBody("Invalid credentials"))
  }

  /** `GET /api/admin/clients`: the whole table. */
  method HandleListClients(db: Db, header: Option<string>, verify: string -> bool) returns (r: Response)
    ensures !Authorized(header, verify) ==> r == Unauthorized
    ensures Authorized(header, verify) ==> r == Response(200, ClientsBody(db.clients))
  {
    if !Authorized(header, verify) {
      return Unauthorized;
    }
    r := Response(200, ClientsBody(db.clients));
  }

  /** The body of `POST /api/admin/clients`; `None` for an absent key. */
  datatype CreateBody = CreateBody(
    name: Option<string>, email: Option<string>, password: Option<string>,
    business: Option<string>, status: Option<string>)

  /** The create check: all four required fields must be truthy; the status
      defaults to `Active` only when absent; only the hash of the password is
      passed on. */
  function CheckCreate(b: CreateBody, hash: string -> string): (r: Option<NewClient>)
    ensures r.None? <==> !(Truthy(b.name) && Truthy(b.email) && Truthy(b.password) && Truthy(b.business))
    ensures r.Some? ==> r.value.name == b.name.value && r.value.email == b.email.value
                        && r.value.business == b.business.value
                        && r.value.passHash == hash(b.password.value)
    ensures r.Some? ==> r.value.status == (if b.status.None? then "Active" else b.status.value)
  {
    if Truthy(b.name) && Truthy(b.email) && Truthy(b.password) && Truthy(b.business) then
      var status := if b.status.None? then "Active" else b.status.value;
      Some(NewClient(b.name.value, b.email.value, hash(b.password.value), b.business.value, status))
    else
      None
  }

  /** `POST /api/admin/clients`. */
  method HandleCreateClient(db: Db, header: Option<string>, verify: string -> bool, b: CreateBody,
                            hash: string -> string, id: string, payId: string, now: string, draw: nat)
    returns (r: Response)
    requires draw < BusinessNumberRange
    modifies db
    ensures !Authorized(header, verify) ==> r == Unauthorized && db.clients == old(db.clients)
    ensures Authorized(header, verify) && CheckCreate(b, hash).None? ==>
              r == Response(400, ErrorBody("Missing fields")) && db.clients == old(db.clients)
    ensures Authorized(header, verify) && CheckCreate(b, hash).Some? ==>
              var c := ServerRecord(CheckCreate(b, hash).value, id, payId, now, draw);
              r == Response(201, ClientBody(c)) && db.clients == old(db.clients) + [c]
  {
    if !Authorized(header, verify) {
      return Unauthorized;
    }
    var fields := CheckCreate(b, hash);
    if fields.None? {
      return Response(400, ErrorBody("Missing fields"));
    }
    var c := db.CreateClient(fields.value, id, payId, now, draw);
    r := Response(201, ClientBody(c));
  }

  /** The body of `PATCH /api/admin/clients/:id`: record keys, plus a plain
      `password` that never reaches the store. */
  datatype PatchBody = PatchBody(fields: Patch, password: Option<string>)

  /** A truthy `password` is replaced by its hash under `passwordHash`; every
      other key passes through unchanged. */
  function RewritePassword(b: PatchBody, hash: string -> string): (p: Patch)
    ensures Truthy(b.password) ==> p.cred == Some(hash(b.password.value))
    ensures !Truthy(b.password) ==> p.cred == b.fields.cred
    ensures p.(cred := b.fields.cred) == b.fields
  {
    if Truthy(b.password) then b.fields.(cred := Some(hash(b.password.value))) else b.fields
  }

  /** `PATCH /api/admin/clients/:id`. */
  method HandlePatchClient(db: Db, header: Option<string>, verify: string -> bool, id: string,
                           b: PatchBody, hash: string -> string)
    returns (r: Response)
    modifies db
    ensures !Authorized(header, verify) ==> r == Unauthorized && db.clients == old(db.clients)
    ensures Authorized(header, verify) ==> db.clients == UpdateAt(old(db.clients), id, RewritePassword(b, hash))
    ensures Authorized(header, verify) && Fresh(old(db.clients), id) ==> r == Response(404, ErrorBody("Not found"))
    ensures Authorized(header, verify) && !Fresh(old(db.clients), id) ==>
              var i := IndexOf(old(db.clients), id).value;
              r == Response(200, ClientBody(Merge(old(db.clients)[i], RewritePassword(b, hash))))
  {
    if !Authorized(header, verify) {
      return Unauthorized;
    }
    var c := db.UpdateClient(id, RewritePassword(b, hash));
    if c.None? {
      return Response(404, ErrorBody("Not found"));
    }
    r := Response(200, ClientBody(c.value));
  }

  /** `DELETE /api/admin/clients/:id`: always `{ ok: true }` once authorised. */
  method HandleDeleteClient(db: Db, header: Option<string>, verify: string -> bool, id: string)
    returns (r: Response)
    modifies db
    ensures !Authorized(header, verify) ==> r == Unauthorized && db.clients == old(db.clients)
    ensures Authorized(header, verify) ==> r == Response(200, OkBody) && db.clients == Without(old(db.clients), id)
  {
    if !Authorized(header, verify) {
      return Unauthorized;
    }
    db.RemoveClient(id);
    r := Response(200, OkBody);
  }

  /** The file multer received: its original name. */
  datatype UploadedFile = UploadedFile(originalName: string)

  const FilesRoute: string := "/files/"

  /** The document record of an upload: the type defaults to `Document`, the
      name is the original file name, the path is the stored filename and the
      URL serves it under `/files/`. */
  function UploadedDoc(kind: Option<string>, file: UploadedFile, fileId: string, docId: string, now: string): (d: Doc)
    ensures d.id == docId && d.dateISO == now && d.name == file.originalName
    ensures d.kind == (if Truthy(kind) then kind.value else "Document")
    ensures d.content.Stored? && d.content.url == FilesRoute + d.content.path
    ensures d.content.path == StoredFilename(fileId, file.originalName)
    ensures |d.content.path| > |fileId| && d.content.path[..|fileId| + 1] == fileId + "-"
    ensures NoSpace(d.content.path[|fileId| + 1..])
  {
    var filename := StoredFilename(fileId, file.originalName);
    Doc(docId, if Truthy(kind) then kind.value else "Document", file.originalName, now,
        Stored(filename, FilesRoute + filename))
  }

  /** `POST /api/admin/clients/:id/docs`: 400 without a file; otherwise 201
      with the document, whether or not the client exists. */
  method HandleUploadDoc(db: Db, header: Option<string>, verify: string -> bool, id: string,
                         kind: Option<string>, file: Option<UploadedFile>,
                         fileId: string, docId: string, now: string)
    returns (r: Response)
    modifies db
    ensures !Authorized(header, verify) ==> r == Unauthorized && db.clients == old(db.clients)
    ensures Authorized(header, verify) && file.None? ==>
              r == Response(400, ErrorBody("No file")) && db.clients == old(db.clients)
    ensures Authorized(header, verify) && file.Some? ==>
              var d := UploadedDoc(kind, file.value, fileId, docId, now);
              r == Response(201, DocBody(d)) && db.clients == AddToClient(old(db.clients), id, DocEntry(d))
  {
    if !Authorized(header, verify) {
      return Unauthorized;
    }
    if file.None? {
      return Response(400, ErrorBody("No file"));
    }
    var d := UploadedDoc(kind, file.value, fileId, docId, now);
    var stored := db.AddDoc(id, d);
    r := Response(201, DocBody(d));
  }

  /** The first-match rule of `POST /api/client/login`: the first record
      whose email equals the input and whose stored hash the password matches. */
  function ClientLoginMatch(cs: seq<Client>, email: string, password: string,
                            compare: (string, string) -> bool): (r: Option<Client>)
    ensures r.None? <==> forall j :: 0 <= j < |cs| ==> !(cs[j].email == email && compare(password, cs[j].cred))
    ensures r.Some? ==> exists i :: 0 <= i < |cs| && cs[i] == r.value
                                    && r.value.email == email && compare(password, r.value.cred)
                                    && forall j :: 0 <= j < i ==> !(cs[j].email == email && compare(password, cs[j].cred))
  {
    match FirstIndex(cs, (c: Client) => c.email == email && compare(password, c.cred))
    case None => None
    case Some(i) => Some(cs[i])
  }

  /** `GET /api/client/portal?id=`: 404 unless a record has the id. */
  method HandlePortal(db: Db, id: Option<string>) returns (r: Response)
    ensures r.status == 404 <==> id.None? || Fresh(db.clients, id.value)
    ensures r.status == 404 ==> r == Response(404, ErrorBody("Not found"))
    ensures r.status != 404 ==> r.status == 200 && r.payload.ClientBody?
                                && r.payload.client.id == id.value && r.payload.client in db.clients
    ensures r.status == 200 ==> id.Some? && r.payload.ClientBody?
                                && Some(r.payload.client) == FindById(db.clients, id.value)
  {
    if id.None? {
      return Response(404, ErrorBody("Not found"));
    }
    var c := FindById(db.clients, id.value);
    if c.None? {
      return Response(404, ErrorBody("Not found"));
    }
    r := Response(200, ClientBody(c.value));
  }

  /** The body of `POST /api/client/:id/tickets`. */
  datatype TicketRequest = TicketRequest(subject: Option<string>, body: Option<string>)

  /** `POST /api/client/:id/tickets`: 400 without a subject or a body;
      otherwise an open ticket, answered with 201 whether or not the client exists. */
  method HandleCreateTicket(db: Db, id: string, req: TicketRequest, ticketId: string, now: string)
    returns (r: Response)
    modifies db
    ensures !(Truthy(req.subject) && Truthy(req.body)) ==>
              r == Response(400, ErrorBody("Missing")) && db.clients == old(db.clients)
    ensures Truthy(req.subject) && Truthy(req.body) ==>
              var t := Ticket(ticketId, req.subject.value, req.body.value, now, "Open");
              r == Response(201, TicketBody(t)) && db.clients == AddToClient(old(db.clients), id, TicketEntry(t))
  {
    if !(Truthy(req.subject) && Truthy(req.body)) {
      return Response(400, ErrorBody("Missing"));
    }
    var t := Ticket(ticketId, req.subject.value, req.body.value, now, "Open");
    var stored := db.AddTicket(id, t);
    r := Response(201, TicketBody(t));
  }
}
