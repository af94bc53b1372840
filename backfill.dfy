/** The one-off migration that creates clients from invoices that have none and fills missing
    client contact fields from invoice data (prisma/scripts/create-clients-from-invoices.ts).
    The database becomes a store object; the ids it assigns to new clients are a parameter. */
module Backfill {
  import opened Results

  /** The client snapshot an unlinked invoice carries. */
  datatype Invoice = Invoice(id: string, clientName: string, clientEmail: Option<string>,
                             clientPhone: Option<string>, clientAddress: Option<string>)

  datatype ClientRow = ClientRow(id: string, name: string, email: string, phone: Option<string>, address: Option<string>)

  /** A JavaScript truthiness test on a nullable string: present and non-empty. */
  predicate Truthy(s: Option<string>) {
    s.Some? && s.value != ""
  }

  // ---------------------------------------------------------------------------------------
  // Part 1: one client per distinct invoice email.

  /** `clientsByEmail`, with its keys in insertion order (the order a `Map` iterates in). */
  datatype Grouping = Grouping(emails: seq<string>, byEmail: map<string, Invoice>)

  /** One pass of the grouping loop: an invoice with an email not seen yet claims it. */
  function GroupStep(g: Grouping, invoice: Invoice): Grouping {
    if Truthy(invoice.clientEmail) && invoice.clientEmail.value !in g.byEmail then
      Grouping(g.emails + [invoice.clientEmail.value], g.byEmail[invoice.clientEmail.value := invoice])
    else g
  }

  /** The grouping after the first `n` invoices. */
  function Group(invoices: seq<Invoice>, n: nat): Grouping
    requires n <= |invoices|
  {
    if n == 0 then Grouping([], map[]) else GroupStep(Group(invoices, n - 1), invoices[n - 1])
  }

  /** Invoice `k` carries email `e`. */
  predicate HasEmail(invoices: seq<Invoice>, k: int, e: string)
    requires 0 <= k < |invoices|
  {
    invoices[k].clientEmail == Some(e) && e != ""
  }

  /** `k` is the first of the first `n` invoices with email `e`. */
  predicate FirstWith(invoices: seq<Invoice>, n: nat, k: int, e: string)
    requires n <= |invoices|
  {
    0 <= k < n && HasEmail(invoices, k, e) && forall j :: 0 <= j < k ==> invoices[j].clientEmail != Some(e)
  }

  /** Some of the first `n` invoices carries email `e`. */
  predicate Carried(invoices: seq<Invoice>, n: nat, e: string)
    requires n <= |invoices|
  {
    exists k :: 0 <= k < n && HasEmail(invoices, k, e)
  }

  /** The keys listed in order are exactly the keys of the map. */
  ghost predicate Listed(g: Grouping) {
    forall e :: e in g.emails <==> e in g.byEmail
  }

  lemma CarriedStep(invoices: seq<Invoice>, n: nat, e: string)
    requires 0 < n <= |invoices|
    ensures Carried(invoices, n, e) <==> Carried(invoices, n - 1, e) || HasEmail(invoices, n - 1, e)
  {
    if Carried(invoices, n, e) {
      var k :| 0 <= k < n && HasEmail(invoices, k, e);
      if k < n - 1 {
        assert Carried(invoices, n - 1, e);
      }
    }
    if Carried(invoices, n - 1, e) {
      var k :| 0 <= k < n - 1 && HasEmail(invoices, k, e);
      assert HasEmail(invoices, k, e);
    }
  }

  /** The grouping has one key per distinct non-empty email, and lists exactly its keys. */
  lemma {:induction false} GroupKeys(invoices: seq<Invoice>, n: nat)
    requires n <= |invoices|
    ensures forall e :: e in Group(invoices, n).byEmail <==> Carried(invoices, n, e)
    ensures Listed(Group(invoices, n))
  {
    if n > 0 {
      GroupKeys(invoices, n - 1);
      forall e ensures e in Group(invoices, n).byEmail <==> Carried(invoices, n, e) {
        CarriedStep(invoices, n, e);
      }
    }
  }

  /** No element occurs twice. */
  predicate Distinct(s: seq<string>) {
    forall i, j :: 0 <= i < j < |s| ==> s[i] != s[j]
  }

  /** The insertion order lists no email twice. */
  lemma {:induction false} GroupDistinct(invoices: seq<Invoice>, n: nat)
    requires n <= |invoices|
    ensures Distinct(Group(invoices, n).emails)
  {
    if n > 0 {
      GroupDistinct(invoices, n - 1);
      GroupKeys(invoices, n - 1);
      var g0 := Group(invoices, n - 1);
      var invoice := invoices[n - 1];
      if Truthy(invoice.clientEmail) && invoice.clientEmail.value !in g0.byEmail {
        var e := invoice.clientEmail.value;
        var emails := Group(invoices, n).emails;
        assert emails == g0.emails + [e];
        forall i, j | 0 <= i < j < |emails| ensures emails[i] != emails[j] {
          if j == |emails| - 1 {
            assert emails[i] == g0.emails[i] && g0.emails[i] in g0.emails;
          } else {
            assert emails[i] == g0.emails[i] && emails[j] == g0.emails[j];
          }
        }
      }
    }
  }

  /** `byEmail[e]` is the first invoice carrying `e`. */
  ghost predicate MapsToFirst(invoices: seq<Invoice>, n: nat, byEmail: map<string, Invoice>, e: string)
    requires n <= |invoices| && e in byEmail
  {
    exists k :: FirstWith(invoices, n, k, e) && byEmail[e] == invoices[k]
  }

  /** Each email is mapped to the first invoice carrying it. */
  lemma {:induction false} GroupFirst(invoices: seq<Invoice>, n: nat)
    requires n <= |invoices|
    ensures forall e :: e in Group(invoices, n).byEmail ==> MapsToFirst(invoices, n, Group(invoices, n).byEmail, e)
  {
    if n > 0 {
      GroupFirst(invoices, n - 1);
      GroupKeys(invoices, n - 1);
      var byEmail0 := Group(invoices, n - 1).byEmail;
      var byEmail := Group(invoices, n).byEmail;
      forall e | e in byEmail ensures MapsToFirst(invoices, n, byEmail, e) {
        GroupFirstAt(invoices, n, e);
      }
    }
  }

  /** One step of `GroupFirst`, for one email. */
  lemma GroupFirstAt(invoices: seq<Invoice>, n: nat, e: string)
    requires 0 < n <= |invoices|
    requires e in Group(invoices, n).byEmail
    requires e in Group(invoices, n - 1).byEmail <==> Carried(invoices, n - 1, e)
    requires e in Group(invoices, n - 1).byEmail ==>
      MapsToFirst(invoices, n - 1, Group(invoices, n - 1).byEmail, e)
    ensures MapsToFirst(invoices, n, Group(invoices, n).byEmail, e)
  {
    var g0 := Group(invoices, n - 1);
    var invoice := invoices[n - 1];
    assert Group(invoices, n) == GroupStep(g0, invoice);
    var byEmail := Group(invoices, n).byEmail;
    if e in g0.byEmail {
      var k :| FirstWith(invoices, n - 1, k, e) && g0.byEmail[e] == invoices[k];
      FirstKept(invoices, n, k, e);
      assert byEmail[e] == g0.byEmail[e];
      assert FirstWith(invoices, n, k, e) && byEmail[e] == invoices[k];
    } else {
      assert invoice.clientEmail == Some(e) && e != "" && byEmail[e] == invoice;
      FirstNew(invoices, n, e);
      assert FirstWith(invoices, n, n - 1, e) && byEmail[e] == invoices[n - 1];
    }
  }

  /** The first carrier among fewer invoices stays the first among more. */
  lemma FirstKept(invoices: seq<Invoice>, n: nat, k: int, e: string)
    requires 0 < n <= |invoices| && FirstWith(invoices, n - 1, k, e)
    ensures FirstWith(invoices, n, k, e)
  {
  }

  /** An email that none of the first `n - 1` invoices carries, but invoice `n - 1` does, is
      first carried there. */
  lemma FirstNew(invoices: seq<Invoice>, n: nat, e: string)
    requires 0 < n <= |invoices|
    requires !Carried(invoices, n - 1, e) && HasEmail(invoices, n - 1, e)
    ensures FirstWith(invoices, n, n - 1, e)
  {
    forall j | 0 <= j < n - 1 ensures invoices[j].clientEmail != Some(e) {
      assert !HasEmail(invoices, j, e);
    }
  }

  /** The grouping loop. */
  method GroupByEmail(invoices: seq<Invoice>) returns (emails: seq<string>, byEmail: map<string, Invoice>)
    ensures Grouping(emails, byEmail) == Group(invoices, |invoices|)
  {
    emails := [];
    byEmail := map[];
    var i := 0;
    while i < |invoices|
      invariant 0 <= i <= |invoices|
      invariant Grouping(emails, byEmail) == Group(invoices, i)
    {
      var invoice := invoices[i];
      if invoice.clientEmail.Some? && invoice.clientEmail.value != "" && invoice.clientEmail.value !in byEmail {
        emails := emails + [invoice.clientEmail.value];
        byEmail := byEmail[invoice.clientEmail.value := invoice];
      }
      i := i + 1;
    }
  }

  /** The clients table together with `emailToClientId`. */
  datatype Upserted = Upserted(clients: map<string, ClientRow>, toId: map<string, string>)

  /** One `upsert` by email: an existing client is kept as it is (`update: {}`), otherwise a
      client is created from the invoice's snapshot with the id `newId(email)`. */
  function UpsertStep(u: Upserted, email: string, data: Invoice, newId: string -> string): Upserted {
    if email in u.clients then Upserted(u.clients, u.toId[email := u.clients[email].id])
    else
      var row := ClientRow(newId(email), data.clientName, email, data.clientPhone, data.clientAddress);
      Upserted(u.clients[email := row], u.toId[email := row.id])
  }

  /** The upsert loop over the first `n` grouped emails. */
  function UpsertAll(clients: map<string, ClientRow>, g: Grouping, newId: string -> string, n: nat): Upserted
    requires n <= |g.emails| && Listed(g)
  {
    if n == 0 then Upserted(clients, map[])
    else UpsertStep(UpsertAll(clients, g, newId, n - 1), g.emails[n - 1], g.byEmail[g.emails[n - 1]], newId)
  }

  /** A client created for `e` from the grouped invoice. */
  predicate CreatedFrom(row: ClientRow, e: string, data: Invoice, newId: string -> string) {
    row == ClientRow(newId(e), data.clientName, e, data.clientPhone, data.clientAddress)
  }

  /** After the upserts the map from emails to ids holds exactly the grouped emails. */
  lemma {:induction false} UpsertIdKeys(clients: map<string, ClientRow>, g: Grouping, newId: string -> string, n: nat)
    requires n <= |g.emails| && Listed(g)
    ensures forall e :: e in UpsertAll(clients, g, newId, n).toId <==> e in g.emails[..n]
  {
    if n > 0 {
      UpsertIdKeys(clients, g, newId, n - 1);
      var email := g.emails[n - 1];
      var u0 := UpsertAll(clients, g, newId, n - 1);
      assert UpsertAll(clients, g, newId, n) == UpsertStep(u0, email, g.byEmail[email], newId);
      assert UpsertAll(clients, g, newId, n).toId.Keys == u0.toId.Keys + {email};
      assert g.emails[..n] == g.emails[..n - 1] + [email];
    }
  }

  /** The clients table gained exactly the grouped emails. */
  lemma {:induction false} UpsertClientKeys(clients: map<string, ClientRow>, g: Grouping, newId: string -> string, n: nat)
    requires n <= |g.emails| && Listed(g)
    ensures forall e :: e in UpsertAll(clients, g, newId, n).clients <==> e in clients || e in g.emails[..n]
  {
    if n > 0 {
      UpsertClientKeys(clients, g, newId, n - 1);
      assert g.emails[..n] == g.emails[..n - 1] + [g.emails[n - 1]];
    }
  }

  /** Every client of `before` is in `after`, unchanged. */
  predicate Keeps(before: map<string, ClientRow>, after: map<string, ClientRow>) {
    forall e :: e in before ==> e in after && after[e] == before[e]
  }

  /** Each email with an id has a client carrying that id. */
  predicate IdsMatch(u: Upserted) {
    forall e :: e in u.toId ==> e in u.clients && u.toId[e] == u.clients[e].id
  }

  /** Clients that existed are untouched and each email maps to the id of its client. */
  lemma {:induction false} UpsertKeeps(clients: map<string, ClientRow>, g: Grouping, newId: string -> string, n: nat)
    requires n <= |g.emails| && Listed(g)
    ensures Keeps(clients, UpsertAll(clients, g, newId, n).clients)
    ensures IdsMatch(UpsertAll(clients, g, newId, n))
  {
    if n > 0 {
      UpsertKeeps(clients, g, newId, n - 1);
      var u0 := UpsertAll(clients, g, newId, n - 1);
      var email := g.emails[n - 1];
      if email !in u0.clients {
        var u := UpsertAll(clients, g, newId, n);
        forall e | e in u.toId ensures e in u.clients && u.toId[e] == u.clients[e].id {
          if e != email {
            assert e in u0.toId;
          }
        }
      }
    }
  }

  /** A client that did not exist before was created from the grouped invoice for its email. */
  lemma {:induction false} UpsertNew(clients: map<string, ClientRow>, g: Grouping, newId: string -> string, n: nat)
    requires n <= |g.emails| && Listed(g)
    ensures var u := UpsertAll(clients, g, newId, n);
      forall e :: e in u.clients && e !in clients && e in g.byEmail ==> CreatedFrom(u.clients[e], e, g.byEmail[e], newId)
  {
    if n > 0 {
      UpsertNew(clients, g, newId, n - 1);
    }
  }

  /** The clients after the upserts and the email-to-id map, for the given unlinked invoices. */
  function Created(clients: map<string, ClientRow>, unlinked: seq<Invoice>, newId: string -> string): Upserted {
    GroupKeys(unlinked, |unlinked|);
    UpsertAll(clients, Group(unlinked, |unlinked|), newId, |Group(unlinked, |unlinked|).emails|)
  }

  /** The invoice-to-client links together with the `linked` counter. */
  datatype Linking = Linking(links: map<string, string>, linked: nat)

  /** One pass of the linking loop: an invoice whose email maps to a (non-empty) client id is
      pointed at that client and counted. */
  function LinkStep(l: Linking, toId: map<string, string>, invoice: Invoice): Linking {
    if Truthy(invoice.clientEmail) && invoice.clientEmail.value in toId && toId[invoice.clientEmail.value] != "" then
      Linking(l.links[invoice.id := toId[invoice.clientEmail.value]], l.linked + 1)
    else l
  }

  function LinkAll(links: map<string, string>, toId: map<string, string>, invoices: seq<Invoice>, n: nat): Linking
    requires n <= |invoices|
  {
    if n == 0 then Linking(links, 0) else LinkStep(LinkAll(links, toId, invoices, n - 1), toId, invoices[n - 1])
  }

  /** The number of the first `n` invoices that carry a non-empty email. */
  function CountWithEmail(invoices: seq<Invoice>, n: nat): nat
    requires n <= |invoices|
  {
    if n == 0 then 0 else CountWithEmail(invoices, n - 1) + (if Truthy(invoices[n - 1].clientEmail) then 1 else 0)
  }

  /** When every email an invoice carries has a non-empty client id, `linked` counts exactly
      the invoices that carry an email, an invoice without one is never linked, and an invoice
      with one ends up pointing at its email's client (invoice ids being distinct). */
  lemma {:induction false} LinkFacts(links: map<string, string>, toId: map<string, string>, invoices: seq<Invoice>, n: nat)
    requires n <= |invoices|
    requires forall k :: 0 <= k < |invoices| && Truthy(invoices[k].clientEmail) ==>
      invoices[k].clientEmail.value in toId && toId[invoices[k].clientEmail.value] != ""
    requires forall i, j :: 0 <= i < j < |invoices| ==> invoices[i].id != invoices[j].id
    ensures var l := LinkAll(links, toId, invoices, n);
      && l.linked == CountWithEmail(invoices, n)
      && (forall k :: 0 <= k < n && Truthy(invoices[k].clientEmail) ==>
            invoices[k].id in l.links && l.links[invoices[k].id] == toId[invoices[k].clientEmail.value])
      && (forall id :: id in l.links && (id !in links || l.links[id] != links[id]) ==>
            exists k :: 0 <= k < n && invoices[k].id == id && Truthy(invoices[k].clientEmail))
  {
    if n > 0 {
      LinkFacts(links, toId, invoices, n - 1);
    }
  }

  /** Part 1's clients: one per distinct invoice email; an existing client is kept as it is,
      and a new one takes the snapshot of the first invoice with its email. */
  lemma CreatedClients(clients: map<string, ClientRow>, unlinked: seq<Invoice>, newId: string -> string)
    ensures var cs := Created(clients, unlinked, newId).clients;
      && (forall e :: e in cs <==> e in clients || Carried(unlinked, |unlinked|, e))
      && (forall e :: e in clients ==> cs[e] == clients[e])
      && (forall e :: e in cs && e !in clients ==>
            exists k :: FirstWith(unlinked, |unlinked|, k, e) && CreatedFrom(cs[e], e, unlinked[k], newId))
  {
    var g := Group(unlinked, |unlinked|);
    GroupKeys(unlinked, |unlinked|);
    GroupFirst(unlinked, |unlinked|);
    UpsertIdKeys(clients, g, newId, |g.emails|);
    UpsertClientKeys(clients, g, newId, |g.emails|);
    UpsertKeeps(clients, g, newId, |g.emails|);
    UpsertNew(clients, g, newId, |g.emails|);
    assert g.emails[..|g.emails|] == g.emails;
    var cs := Created(clients, unlinked, newId).clients;
    forall e | e in cs && e !in clients
      ensures exists k :: FirstWith(unlinked, |unlinked|, k, e) && CreatedFrom(cs[e], e, unlinked[k], newId)
    {
      assert MapsToFirst(unlinked, |unlinked|, g.byEmail, e);
    }
  }

  /** Part 1's links: with non-empty client ids and distinct invoice ids, every invoice with an
      email points at its email's client, and `linked` counts those invoices. */
  lemma CreatedLinks(clients: map<string, ClientRow>, unlinked: seq<Invoice>, links: map<string, string>,
                     newId: string -> string)
    requires forall e :: newId(e) != ""
    requires forall e :: e in clients ==> clients[e].id != ""
    requires forall i, j :: 0 <= i < j < |unlinked| ==> unlinked[i].id != unlinked[j].id
    ensures var u := Created(clients, unlinked, newId);
      var l := LinkAll(links, u.toId, unlinked, |unlinked|);
      && l.linked == CountWithEmail(unlinked, |unlinked|)
      && (forall k :: 0 <= k < |unlinked| && Truthy(unlinked[k].clientEmail) ==>
            var e := unlinked[k].clientEmail.value;
            e in u.clients && unlinked[k].id in l.links && l.links[unlinked[k].id] == u.clients[e].id)
  {
    var g := Group(unlinked, |unlinked|);
    GroupKeys(unlinked, |unlinked|);
    UpsertIdKeys(clients, g, newId, |g.emails|);
    UpsertClientKeys(clients, g, newId, |g.emails|);
    UpsertKeeps(clients, g, newId, |g.emails|);
    UpsertNew(clients, g, newId, |g.emails|);
    assert g.emails[..|g.emails|] == g.emails;
    var u := Created(clients, unlinked, newId);
    forall k | 0 <= k < |unlinked| && Truthy(unlinked[k].clientEmail)
      ensures unlinked[k].clientEmail.value in u.toId && u.toId[unlinked[k].clientEmail.value] != ""
    {
      assert HasEmail(unlinked, k, unlinked[k].clientEmail.value);
      assert Carried(unlinked, |unlinked|, unlinked[k].clientEmail.value);
    }
    LinkFacts(links, u.toId, unlinked, |unlinked|);
  }

  // ---------------------------------------------------------------------------------------
  // Part 2: filling missing phone and address values.

  /** The snapshot fields of an invoice linked to a client. */
  datatype InvoiceContact = InvoiceContact(clientPhone: Option<string>, clientAddress: Option<string>)

  /** A client with a missing field, as the query returns it, with its invoices in order. */
  datatype ClientWithInvoices = ClientWithInvoices(client: ClientRow, invoices: seq<InvoiceContact>)

  /** The `where` clause that selects the clients to look at. */
  predicate MissingData(c: ClientRow) {
    c.phone.None? || c.address.None?
  }

  /** `if (!value && candidate) value = candidate`. */
  function Fill(value: Option<string>, candidate: Option<string>): (r: Option<string>)
    ensures Truthy(value) ==> r == value
  {
    if !Truthy(value) && Truthy(candidate) then candidate else value
  }

  function FillPhone(phone: Option<string>, invoices: seq<InvoiceContact>, n: nat): Option<string>
    requires n <= |invoices|
  {
    if n == 0 then phone else Fill(FillPhone(phone, invoices, n - 1), invoices[n - 1].clientPhone)
  }

  function FillAddress(address: Option<string>, invoices: seq<InvoiceContact>, n: nat): Option<string>
    requires n <= |invoices|
  {
    if n == 0 then address else Fill(FillAddress(address, invoices, n - 1), invoices[n - 1].clientAddress)
  }

  /** The first non-empty value among the first `n`, if any. */
  function FirstTruthy(values: seq<Option<string>>, n: nat): (r: Option<string>)
    requires n <= |values|
    ensures r.Some? ==> Truthy(r)
    ensures r.Some? <==> exists k :: 0 <= k < n && Truthy(values[k])
    ensures r.Some? ==> exists k :: 0 <= k < n && values[k] == r && forall j :: 0 <= j < k ==> !Truthy(values[j])
  {
    if n == 0 then None
    else
      var earlier := FirstTruthy(values, n - 1);
      if earlier.Some? then earlier
      else if Truthy(values[n - 1]) then values[n - 1]
      else None
  }

  function Phones(invoices: seq<InvoiceContact>): seq<Option<string>> {
    seq(|invoices|, k requires 0 <= k < |invoices| => invoices[k].clientPhone)
  }

  function Addresses(invoices: seq<InvoiceContact>): seq<Option<string>> {
    seq(|invoices|, k requires 0 <= k < |invoices| => invoices[k].clientAddress)
  }

  /** A non-empty value is never overwritten; an empty or missing one takes the first non-empty
      invoice value, in invoice order, and stays as it was when there is none. */
  lemma {:induction false} FillPhoneFacts(phone: Option<string>, invoices: seq<InvoiceContact>, n: nat)
    requires n <= |invoices|
    ensures Truthy(phone) ==> FillPhone(phone, invoices, n) == phone
    ensures !Truthy(phone) ==>
      FillPhone(phone, invoices, n) == (var first := FirstTruthy(Phones(invoices), n); if first.Some? then first else phone)
  {
    if n > 0 {
      FillPhoneFacts(phone, invoices, n - 1);
    }
  }

  lemma {:induction false} FillAddressFacts(address: Option<string>, invoices: seq<InvoiceContact>, n: nat)
    requires n <= |invoices|
    ensures Truthy(address) ==> FillAddress(address, invoices, n) == address
    ensures !Truthy(address) ==>
      FillAddress(address, invoices, n) == (var first := FirstTruthy(Addresses(invoices), n); if first.Some? then first else address)
  {
    if n > 0 {
      FillAddressFacts(address, invoices, n - 1);
    }
  }

  /** The update a client receives: `(id, phone, address)`, or none. */
  datatype Update = Update(id: string, phone: Option<string>, address: Option<string>)

  function UpdateFor(c: ClientWithInvoices): (r: Option<Update>)
    ensures |c.invoices| == 0 ==> r.None?
    ensures r.Some? ==> r.value.id == c.client.id
    ensures r.Some? ==> r.value.phone != c.client.phone || r.value.address != c.client.address
  {
    if |c.invoices| == 0 then None
    else
      var phone := FillPhone(c.client.phone, c.invoices, |c.invoices|);
      var address := FillAddress(c.client.address, c.invoices, |c.invoices|);
      if phone != c.client.phone || address != c.client.address then Some(Update(c.client.id, phone, address))
      else None
  }

  /** One pass of the outer loop: a found update is written and counted. */
  function UpdateStep(updates: seq<Update>, c: ClientWithInvoices): seq<Update> {
    match UpdateFor(c)
    case Some(u) => updates + [u]
    case None => updates
  }

  function Updates(clients: seq<ClientWithInvoices>, n: nat): seq<Update>
    requires n <= |clients|
  {
    if n == 0 then [] else UpdateStep(Updates(clients, n - 1), clients[n - 1])
  }

  /** A client is updated exactly when it has invoices and one of its fields was filled; a
      client without invoices is skipped; the update keeps non-empty values and fills the rest
      from the first non-empty invoice value. */
  lemma UpdateForFacts(c: ClientWithInvoices)
    ensures |c.invoices| == 0 ==> UpdateFor(c).None?
    ensures UpdateFor(c).Some? ==> var u := UpdateFor(c).value;
      && u.id == c.client.id
      && (Truthy(c.client.phone) ==> u.phone == c.client.phone)
      && (Truthy(c.client.address) ==> u.address == c.client.address)
      && (!Truthy(c.client.phone) && (exists k :: 0 <= k < |c.invoices| && Truthy(c.invoices[k].clientPhone)) ==>
            u.phone == FirstTruthy(Phones(c.invoices), |c.invoices|))
      && (!Truthy(c.client.address) && (exists k :: 0 <= k < |c.invoices| && Truthy(c.invoices[k].clientAddress)) ==>
            u.address == FirstTruthy(Addresses(c.invoices), |c.invoices|))
    ensures UpdateFor(c).None? && |c.invoices| > 0 ==>
      (Truthy(c.client.phone) || !exists k :: 0 <= k < |c.invoices| && Truthy(c.invoices[k].clientPhone)) &&
      (Truthy(c.client.address) || !exists k :: 0 <= k < |c.invoices| && Truthy(c.invoices[k].clientAddress))
  {
    var n := |c.invoices|;
    FillPhoneFacts(c.client.phone, c.invoices, n);
    FillAddressFacts(c.client.address, c.invoices, n);
    assert forall k :: 0 <= k < n ==> Phones(c.invoices)[k] == c.invoices[k].clientPhone;
    assert forall k :: 0 <= k < n ==> Addresses(c.invoices)[k] == c.invoices[k].clientAddress;
  }

  /** `prisma.client.update({ where: { id }, data: { phone, address } })` on the table keyed by
      email: the row with that id takes the phone and address, every other row is unchanged. */
  function ApplyUpdate(clients: map<string, ClientRow>, u: Update): (r: map<string, ClientRow>)
    ensures r.Keys == clients.Keys
    ensures forall e :: e in clients && clients[e].id == u.id ==>
      r[e] == clients[e].(phone := u.phone, address := u.address)
    ensures forall e :: e in clients && clients[e].id != u.id ==> r[e] == clients[e]
  {
    map e | e in clients :: if clients[e].id == u.id then clients[e].(phone := u.phone, address := u.address) else clients[e]
  }

  /** The table after the updates have been written in order. */
  function ApplyAll(clients: map<string, ClientRow>, updates: seq<Update>): map<string, ClientRow>
    decreases |updates|
  {
    if updates == [] then clients
    else ApplyUpdate(ApplyAll(clients, updates[..|updates| - 1]), updates[|updates| - 1])
  }

  /** The query loses nothing the loop would fill, except empty strings: a client that the
      `where` clause leaves out and that the loop would still update has a phone or an address
      stored as "". */
  lemma QuerySkipsOnlyEmptyStrings(c: ClientWithInvoices)
    requires !MissingData(c.client)
    ensures UpdateFor(c).Some? ==> c.client.phone == Some("") || c.client.address == Some("")
  {
    UpdateForFacts(c);
  }

  /** Writing one more update applies it to the table the earlier updates left. */
  lemma ApplyAllSnoc(clients: map<string, ClientRow>, updates: seq<Update>, u: Update)
    ensures ApplyAll(clients, updates + [u]) == ApplyUpdate(ApplyAll(clients, updates), u)
  {
    assert (updates + [u])[..|updates|] == updates;
  }

  /** Part 2 neither creates nor deletes a client, keeps each client's id, name and email, and
      changes a client only when some update carries its id. */
  lemma {:induction false} ApplyAllFacts(clients: map<string, ClientRow>, updates: seq<Update>)
    ensures ApplyAll(clients, updates).Keys == clients.Keys
    ensures forall e :: e in clients ==>
      && ApplyAll(clients, updates)[e].id == clients[e].id
      && ApplyAll(clients, updates)[e].name == clients[e].name
      && ApplyAll(clients, updates)[e].email == clients[e].email
    ensures forall e :: e in clients && (forall k :: 0 <= k < |updates| ==> updates[k].id != clients[e].id) ==>
      ApplyAll(clients, updates)[e] == clients[e]
    decreases |updates|
  {
    if updates != [] {
      var prefix := updates[..|updates| - 1];
      ApplyAllFacts(clients, prefix);
      forall e | e in clients && (forall k :: 0 <= k < |updates| ==> updates[k].id != clients[e].id)
        ensures forall k :: 0 <= k < |prefix| ==> prefix[k].id != clients[e].id
      {
        forall k | 0 <= k < |prefix| ensures prefix[k].id != clients[e].id {
          assert prefix[k] == updates[k];
        }
      }
    }
  }

  /** The last update for a client decides its phone and address. */
  lemma LastUpdateWins(clients: map<string, ClientRow>, updates: seq<Update>, u: Update, e: string)
    requires e in clients && u.id == clients[e].id
    ensures e in ApplyAll(clients, updates + [u])
    ensures ApplyAll(clients, updates + [u])[e].phone == u.phone
    ensures ApplyAll(clients, updates + [u])[e].address == u.address
  {
    assert (updates + [u])[..|updates|] == updates;
    ApplyAllFacts(clients, updates);
  }

  /** `updated` is the number of updates written, at most one per client, in client order. */
  lemma {:induction false} UpdatesFacts(clients: seq<ClientWithInvoices>, n: nat)
    requires n <= |clients|
    ensures |Updates(clients, n)| <= n
    ensures forall u :: u in Updates(clients, n) <==> exists k :: 0 <= k < n && UpdateFor(clients[k]) == Some(u)
  {
    if n > 0 {
      UpdatesFacts(clients, n - 1);
    }
  }

  /** The database as the migration sees it. */
  class Store {
    /** Clients by email (the column is unique). */
    var clients: map<string, ClientRow>
    /** The client each invoice has been linked to. */
    var invoiceClient: map<string, string>
    /** The contact updates written to clients, in order. */
    var written: seq<Update>

    constructor (clients: map<string, ClientRow>, invoiceClient: map<string, string>)
      ensures this.clients == clients && this.invoiceClient == invoiceClient && written == []
    {
      this.clients := clients;
      this.invoiceClient := invoiceClient;
      written := [];
    }

    /** `prisma.client.upsert({ where: { email }, create: ..., update: {} })`. */
    method Upsert(email: string, data: Invoice, newId: string -> string) returns (id: string)
      modifies this
      ensures email in old(clients) ==> clients == old(clients) && id == old(clients)[email].id
      ensures email !in old(clients) ==>
        clients == old(clients)[email := ClientRow(newId(email), data.clientName, email, data.clientPhone, data.clientAddress)]
        && id == newId(email)
      ensures invoiceClient == old(invoiceClient) && written == old(written)
    {
      if email in clients {
        id := clients[email].id;
      } else {
        id := newId(email);
        clients := clients[email := ClientRow(id, data.clientName, email, data.clientPhone, data.clientAddress)];
      }
    }

    /** Part 1: group the unlinked invoices by email, upsert one client per email, then link
        every invoice whose email got a client id. Returns `linked`. */
    method CreateClientsFromInvoices(unlinked: seq<Invoice>, newId: string -> string) returns (linked: nat)
      modifies this
      ensures clients == Created(old(clients), unlinked, newId).clients
      ensures invoiceClient == LinkAll(old(invoiceClient), Created(old(clients), unlinked, newId).toId, unlinked, |unlinked|).links
      ensures linked == LinkAll(old(invoiceClient), Created(old(clients), unlinked, newId).toId, unlinked, |unlinked|).linked
      ensures written == old(written)
    {
      if |unlinked| == 0 {
        return 0;
      }
      var emails, byEmail := GroupByEmail(unlinked);
      GroupKeys(unlinked, |unlinked|);
      var emailToClientId := UpsertGrouped(emails, byEmail, newId);
      linked := LinkInvoices(unlinked, emailToClientId);
    }

    /** The upsert loop of part 1; returns `emailToClientId`. */
    method UpsertGrouped(emails: seq<string>, byEmail: map<string, Invoice>, newId: string -> string)
      returns (emailToClientId: map<string, string>)
      requires Listed(Grouping(emails, byEmail))
      modifies this
      ensures Upserted(clients, emailToClientId) == UpsertAll(old(clients), Grouping(emails, byEmail), newId, |emails|)
      ensures invoiceClient == old(invoiceClient) && written == old(written)
    {
      emailToClientId := map[];
      var i := 0;
      while i < |emails|
        invariant 0 <= i <= |emails|
        invariant Upserted(clients, emailToClientId) == UpsertAll(old(clients), Grouping(emails, byEmail), newId, i)
        invariant invoiceClient == old(invoiceClient) && written == old(written)
      {
        var email := emails[i];
        var id := Upsert(email, byEmail[email], newId);
        emailToClientId := emailToClientId[email := id];
        i := i + 1;
      }
    }

    /** The linking loop of part 1; returns `linked`. */
    method LinkInvoices(unlinked: seq<Invoice>, emailToClientId: map<string, string>) returns (linked: nat)
      modifies this
      ensures Linking(invoiceClient, linked) == LinkAll(old(invoiceClient), emailToClientId, unlinked, |unlinked|)
      ensures clients == old(clients) && written == old(written)
    {
      linked := 0;
      var j := 0;
      while j < |unlinked|
        invariant 0 <= j <= |unlinked|
        invariant Linking(invoiceClient, linked) == LinkAll(old(invoiceClient), emailToClientId, unlinked, j)
        invariant clients == old(clients) && written == old(written)
      {
        var invoice := unlinked[j];
        if invoice.clientEmail.Some? && invoice.clientEmail.value != "" {
          if invoice.clientEmail.value in emailToClientId && emailToClientId[invoice.clientEmail.value] != "" {
            invoiceClient := invoiceClient[invoice.id := emailToClientId[invoice.clientEmail.value]];
            linked := linked + 1;
          }
        }
        j := j + 1;
      }
    }

    /** Part 2: for each selected client that has invoices, fill the missing fields and write
        the client back when something changed. Returns `updated`. */
    method FillMissingData(selected: seq<ClientWithInvoices>) returns (updated: nat)
      modifies this
      ensures written == old(written) + Updates(selected, |selected|)
      ensures updated == |Updates(selected, |selected|)|
      ensures clients == ApplyAll(old(clients), Updates(selected, |selected|))
      ensures invoiceClient == old(invoiceClient)
    {
      updated := 0;
      ghost var written0 := written;
      var i := 0;
      while i < |selected|
        invariant 0 <= i <= |selected|
        invariant written == written0 + Updates(selected, i)
        invariant updated == |Updates(selected, i)|
        invariant clients == ApplyAll(old(clients), Updates(selected, i))
        invariant invoiceClient == old(invoiceClient)
      {
        var c := selected[i];
        ghost var before := Updates(selected, i);
        assert Updates(selected, i + 1) == UpdateStep(before, c);
        if |c.invoices| == 0 {
          assert Updates(selected, i + 1) == before;
          i := i + 1;
          continue;
        }
        var phone, address := FillFromInvoices(c.client.phone, c.client.address, c.invoices);
        var hasUpdates := phone != c.client.phone || address != c.client.address;
        if hasUpdates {
          var u := Update(c.client.id, phone, address);
          assert UpdateFor(c) == Some(u);
          assert Updates(selected, i + 1) == before + [u];
          ApplyAllSnoc(old(clients), before, u);
          clients := ApplyUpdate(clients, u);
          written := written + [u];
          updated := updated + 1;
        } else {
          assert UpdateFor(c).None?;
          assert Updates(selected, i + 1) == before;
        }
        i := i + 1;
      }
    }
  }

  /** The inner loop of part 2: scans the invoices, filling each missing field once. */
  method FillFromInvoices(phone0: Option<string>, address0: Option<string>, invoices: seq<InvoiceContact>)
    returns (phone: Option<string>, address: Option<string>)
    ensures phone == FillPhone(phone0, invoices, |invoices|)
    ensures address == FillAddress(address0, invoices, |invoices|)
  {
    phone := phone0;
    address := address0;
    var k := 0;
    while k < |invoices|
      invariant 0 <= k <= |invoices|
      invariant phone == FillPhone(phone0, invoices, k)
      invariant address == FillAddress(address0, invoices, k)
    {
      var inv := invoices[k];
      if !(phone.Some? && phone.value != "") && inv.clientPhone.Some? && inv.clientPhone.value != "" {
        phone := inv.clientPhone;
      }
      if !(address.Some? && address.value != "") && inv.clientAddress.Some? && inv.clientAddress.value != "" {
        address := inv.clientAddress;
      }
      k := k + 1;
    }
  }
}
