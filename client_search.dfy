/** The search box of the client list (src/app/clients/page.tsx, lines 65-72): a client is kept
    when the lower-cased query occurs in its lower-cased name, email or company name. */
module ClientSearch {
  import opened Results
  import opened Text

  /** The fields of a listed client the search looks at. */
  datatype Client = Client(id: string, name: string, email: string, companyName: Option<string>)

  /** A client field contains the query, ignoring case. */
  predicate FieldMatches(field: string, query: string) {
    Includes(Lower(field), Lower(query))
  }

  /** The filter's test; a missing company name never matches. */
  function Matches(client: Client, query: string): (r: bool)
    ensures query == [] ==> r
  {
    assert query == [] ==> OccursAt(Lower(client.name), Lower(query), 0);
    || FieldMatches(client.name, query)
    || FieldMatches(client.email, query)
    || (match client.companyName case Some(company) => FieldMatches(company, query) case None => false)
  }

  /** `filteredClients`. */
  function FilterClients(clients: seq<Client>, query: string): (r: seq<Client>)
    ensures |r| <= |clients|
    ensures forall c :: c in r <==> c in clients && Matches(c, query)
  {
    if clients == [] then []
    else (if Matches(clients[0], query) then [clients[0]] else []) + FilterClients(clients[1..], query)
  }

  /** The filter distributes over concatenation: kept clients stay in their original order. */
  lemma {:induction false} FilterAppend(a: seq<Client>, b: seq<Client>, query: string)
    ensures FilterClients(a + b, query) == FilterClients(a, query) + FilterClients(b, query)
  {
    if a == [] {
      assert a + b == b;
    } else {
      assert (a + b)[1..] == a[1..] + b;
      FilterAppend(a[1..], b, query);
    }
  }

  /** The empty query occurs in every string, so it keeps every client. */
  lemma {:induction false} EmptyQueryKeepsAll(clients: seq<Client>)
    ensures FilterClients(clients, "") == clients
  {
    if clients != [] {
      assert OccursAt(Lower(clients[0].name), Lower(""), 0);
      EmptyQueryKeepsAll(clients[1..]);
    }
  }

  /** Only the lower-cased query matters: queries that differ in case select the same clients. */
  lemma CaseInsensitive(client: Client, q1: string, q2: string)
    requires Lower(q1) == Lower(q2)
    ensures Matches(client, q1) == Matches(client, q2)
  {
  }

  /** Lower-casing the query first changes nothing. */
  lemma LowerQuery(clients: seq<Client>, query: string)
    ensures FilterClients(clients, Lower(query)) == FilterClients(clients, query)
  {
    LowerIdempotent(query);
    forall c ensures Matches(c, Lower(query)) == Matches(c, query) {
      CaseInsensitive(c, Lower(query), query);
    }
    FilterSameTest(clients, Lower(query), query);
  }

  /** Two queries that select the same clients filter any list alike. */
  lemma {:induction false} FilterSameTest(clients: seq<Client>, q1: string, q2: string)
    requires forall c :: Matches(c, q1) == Matches(c, q2)
    ensures FilterClients(clients, q1) == FilterClients(clients, q2)
  {
    if clients != [] {
      FilterSameTest(clients[1..], q1, q2);
    }
  }

  /** A client without a company name is found by its name or email only. */
  lemma NoCompanyNoMatch(client: Client, query: string)
    requires client.companyName.None?
    ensures Matches(client, query) <==> FieldMatches(client.name, query) || FieldMatches(client.email, query)
  {
  }
}
