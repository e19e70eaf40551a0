/**
 * The mock clients table (components/manage-clients.tsx): a fixed list of
 * clients, searched by name and e-mail.
 */
module ManageClients {
  import opened Js
  import opened Lists

  datatype MockClient = MockClient(id: int, name: string, email: string, carsCount: int)

  predicate ClientMatches(c: MockClient, searchTerm: string) {
    var t := Lower(searchTerm);
    Includes(Lower(c.name), t) || Includes(Lower(c.email), t)
  }

  /** `filteredClients` (lines 24-28) */
  function FilteredClients(clients: seq<MockClient>, searchTerm: string): (r: seq<MockClient>)
    ensures Sublist(r, clients)
    ensures forall x :: x in r <==> x in clients && ClientMatches(x, searchTerm)
  {
    Filter(clients, x => ClientMatches(x, searchTerm))
  }

  /** An empty term shows every client. */
  lemma EmptyTermShowsAll(clients: seq<MockClient>)
    ensures FilteredClients(clients, "") == clients
  {
    forall i | 0 <= i < |clients| ensures ClientMatches(clients[i], "") {
      IncludesTrivial(Lower(clients[i].name));
    }
    FilterAll(clients, x => ClientMatches(x, ""));
  }

  /** Search ignores letter case: a term and its lowercase form find the same clients. */
  lemma SearchIgnoresCase(clients: seq<MockClient>, searchTerm: string)
    ensures FilteredClients(clients, Lower(searchTerm)) == FilteredClients(clients, searchTerm)
  {
    LowerIdempotent(searchTerm);
    FilterSameTest(clients, x => ClientMatches(x, Lower(searchTerm)), x => ClientMatches(x, searchTerm));
  }
}
