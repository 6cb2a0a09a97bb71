/**
 * The search box of the client list page: which clients `filteredClients` keeps, and what the
 * table body shows. Fetching the list is not modelled.
 */
module ClientList {
  import opened Text
  import Seqs

  datatype Client = Client(id: string, slug: string, name: string, isActive: bool, timezone: string,
                           createdAt: string)

  /** A client matches when its lower-cased name or slug contains the lower-cased search text. */
  predicate Matches(c: Client, search: string) {
    Includes(ToLower(c.name), ToLower(search)) || Includes(ToLower(c.slug), ToLower(search))
  }

  /** `filteredClients`. */
  function FilteredClients(clients: seq<Client>, search: string): (r: seq<Client>)
    ensures forall c :: c in r <==> c in clients && Matches(c, search)
    ensures Seqs.Subsequence(r, clients)
    ensures forall c :: c in clients ==> multiset(r)[c] == (if Matches(c, search) then multiset(clients)[c] else 0)
  {
    Seqs.FilterSubsequence(clients, c => Matches(c, search));
    Seqs.Filter(clients, c => Matches(c, search))
  }

  /** An empty search keeps every client, in its order. */
  lemma EmptySearchKeepsAll(clients: seq<Client>)
    ensures FilteredClients(clients, "") == clients
  {
    forall i | 0 <= i < |clients| ensures Matches(clients[i], "") {
      IncludesEmpty(ToLower(clients[i].name));
    }
    Seqs.FilterAll(clients, c => Matches(c, ""));
  }

  /** The search ignores the case of ASCII letters on both sides. */
  lemma SearchIgnoresCase(clients: seq<Client>, search: string)
    ensures FilteredClients(clients, ToLower(search)) == FilteredClients(clients, search)
  {
    LowerIdempotent(search);
    Seqs.FilterCongruent(clients, c => Matches(c, ToLower(search)), c => Matches(c, search));
  }

  lemma LowerIdempotent(s: string)
    ensures ToLower(ToLower(s)) == ToLower(s)
  {
  }

  /** What the table body shows. */
  datatype Body = Loading | NoClientsFound | Rows(clients: seq<Client>)

  function TableBody(loading: bool, clients: seq<Client>, search: string): (b: Body)
    ensures loading <==> b == Loading
    ensures !loading ==> (b == NoClientsFound <==> forall c :: c in clients ==> !Matches(c, search))
    ensures b.Rows? ==> b.clients == FilteredClients(clients, search)
  {
    var shown := FilteredClients(clients, search);
    if loading then Loading
    else if |shown| == 0 then NoClientsFound
    else
      assert shown[0] in shown;
      Rows(shown)
  }
}
