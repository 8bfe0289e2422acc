/**
 * The client table of the Python command-line generator
 * (src/sbp_generator/client_manager.py): a dictionary from client key to
 * client record, kept in insertion order, with add, get, list, update,
 * delete, add-project and search. Loading from and saving to the clients
 * file are not part of this model: the table starts empty, as it does when
 * no clients file exists.
 */
module PyClientManager {
  import opened Wrappers
  import opened Text
  import opened PyModels

  /** The keys of `s` other than `x`, in order. */
  function Remove(s: seq<string>, x: string): (r: seq<string>)
    ensures |r| <= |s|
  {
    if s == [] then []
    else Remove(s[..|s| - 1], x) + (if s[|s| - 1] == x then [] else [s[|s| - 1]])
  }

  lemma {:induction false} RemoveMembers(s: seq<string>, x: string)
    ensures forall y :: y in Remove(s, x) <==> y in s && y != x
  {
    if s != [] {
      RemoveMembers(s[..|s| - 1], x);
      assert s == s[..|s| - 1] + [s[|s| - 1]];
    }
  }

  /** Removing a key keeps the remaining keys distinct. */
  lemma {:induction false} RemoveDistinct(s: seq<string>, x: string)
    requires Distinct(s)
    ensures Distinct(Remove(s, x))
  {
    if s != [] {
      var init := s[..|s| - 1];
      RemoveDistinct(init, x);
      RemoveMembers(init, x);
      assert s[|s| - 1] !in init;
    }
  }

  /** The keys whose lower-cased text contains the lower-cased query, in table order. */
  function Matching(keys: seq<string>, query: string): seq<string> {
    if keys == [] then []
    else
      var k := keys[|keys| - 1];
      Matching(keys[..|keys| - 1], query) + (if Contains(Lower(k), Lower(query)) then [k] else [])
  }

  lemma {:induction false} MatchingMembers(keys: seq<string>, query: string)
    ensures forall k :: k in Matching(keys, query) <==> k in keys && Contains(Lower(k), Lower(query))
    ensures |Matching(keys, query)| <= |keys|
  {
    if keys != [] {
      MatchingMembers(keys[..|keys| - 1], query);
      assert keys == keys[..|keys| - 1] + [keys[|keys| - 1]];
    }
  }

  /** A search keeps the table's order: matches appear in the same relative order as their keys. */
  lemma {:induction false} MatchingInOrder(keys: seq<string>, query: string, i: nat, j: nat)
    requires Distinct(keys)
    requires i < j < |Matching(keys, query)|
    ensures exists a, b :: 0 <= a < b < |keys| && keys[a] == Matching(keys, query)[i] && keys[b] == Matching(keys, query)[j]
  {
    var n := |keys| - 1;
    var init := keys[..n];
    var m := Matching(keys, query);
    MatchingMembers(init, query);
    if j < |Matching(init, query)| {
      MatchingInOrder(init, query, i, j);
      var a, b :| 0 <= a < b < |init| && init[a] == Matching(init, query)[i] && init[b] == Matching(init, query)[j];
      assert keys[a] == m[i] && keys[b] == m[j];
    } else {
      assert m[j] == keys[n];
      assert m[i] in init;
      var a :| 0 <= a < n && init[a] == m[i];
      assert keys[a] == m[i];
    }
  }

  /** A client record update: each field present in the update replaces the stored one. */
  datatype ClientUpdate = ClientUpdate(
    name: Option<string>,
    createdDate: Option<string>,
    projects: Option<seq<string>>,
    notes: Option<Option<string>>)

  /** The stored record with the update's fields merged in, validated again like a new record. */
  function Merge(c: Client, u: ClientUpdate): (r: Result<Client, string>)
    ensures r.Err? <==> AllWhitespace(u.name.GetOr(c.name))
    ensures r.Ok? ==> r.value.projects == u.projects.GetOr(c.projects) && r.value.notes == u.notes.GetOr(c.notes)
  {
    match StripRequired(u.name.GetOr(c.name), ClientNameError)
    case Err(e) => Err(e)
    case Ok(name) => Ok(Client.Client(name, u.createdDate.GetOr(c.createdDate), u.projects.GetOr(c.projects), u.notes.GetOr(c.notes)))
  }

  class ClientManager {
    /** The keys in insertion order. */
    var order: seq<string>
    /** The records by key. */
    var clients: map<string, Client>

    ghost predicate Valid()
      reads this
    {
      Distinct(order) && (forall k :: k in order <==> k in clients)
    }

    constructor()
      ensures Valid() && order == [] && clients == map[]
    {
      order := [];
      clients := map[];
    }

    /**
     * add_client: an existing key is refused; a blank name is refused by the
     * record's own validator; otherwise exactly one record is added, under
     * the key as given, holding the stripped name.
     */
    method AddClient(name: string, notes: Option<string>, createdDate: string) returns (r: Result<Client, string>)
      requires Valid()
      modifies this
      ensures Valid()
      ensures name in old(clients) ==> r == Err("Client '" + name + "' already exists")
      ensures name !in old(clients) && AllWhitespace(name) ==> r == Err(ClientNameError)
      ensures r.Err? ==> order == old(order) && clients == old(clients)
      ensures r.Ok? <==> name !in old(clients) && !AllWhitespace(name)
      ensures r.Ok? ==> (r.value == Client.Client(Trim(name), createdDate, [], notes)
        && clients == old(clients)[name := r.value] && order == old(order) + [name])
    {
      if name in clients {
        return Err("Client '" + name + "' already exists");
      }
      var validated := StripRequired(name, ClientNameError);
      if validated.Err? {
        return Err(validated.error);
      }
      var client := Client.Client(validated.value, createdDate, [], notes);
      clients := clients[name := client];
      order := order + [name];
      r := Ok(client);
    }

    /** get_client: the record under the key, or None. */
    method GetClient(name: string) returns (r: Option<Client>)
      ensures r.Some? <==> name in clients
      ensures r.Some? ==> r.value == clients[name]
    {
      if name in clients {
        r := Some(clients[name]);
      } else {
        r := None;
      }
    }

    /** list_clients: every key once, in insertion order. */
    method ListClients() returns (r: seq<string>)
      requires Valid()
      ensures Distinct(r) && forall k :: k in r <==> k in clients
      ensures r == order
    {
      r := order;
    }

    /**
     * update_client: None for an unknown key; otherwise the record is
     * replaced by the merged one and no other record changes. A merged
     * name that is blank fails validation and nothing changes.
     */
    method UpdateClient(name: string, updates: ClientUpdate) returns (r: Result<Option<Client>, string>)
      requires Valid()
      modifies this
      ensures Valid() && order == old(order)
      ensures name !in old(clients) ==> r == Ok(None) && clients == old(clients)
      ensures name in old(clients) ==> match Merge(old(clients)[name], updates)
        case Err(e) => r == Err(e) && clients == old(clients)
        case Ok(c) => r == Ok(Some(c)) && clients == old(clients)[name := c]
    {
      if name !in clients {
        return Ok(None);
      }
      var merged := Merge(clients[name], updates);
      if merged.Err? {
        return Err(merged.error);
      }
      clients := clients[name := merged.value];
      r := Ok(Some(merged.value));
    }

    /** delete_client: false and no change for an unknown key; otherwise exactly that key is removed. */
    method DeleteClient(name: string) returns (deleted: bool)
      requires Valid()
      modifies this
      ensures Valid()
      ensures deleted <==> name in old(clients)
      ensures !deleted ==> clients == old(clients) && order == old(order)
      ensures deleted ==> clients == old(clients) - {name} && order == Remove(old(order), name)
    {
      if name !in clients {
        return false;
      }
      RemoveMembers(order, name);
      RemoveDistinct(order, name);
      clients := clients - {name};
      order := Remove(order, name);
      deleted := true;
    }

    /**
     * add_project_to_client: false for an unknown client; otherwise the
     * project is appended unless already listed, so a list without
     * duplicates stays without duplicates.
     */
    method AddProjectToClient(clientName: string, projectName: string) returns (added: bool)
      requires Valid()
      modifies this
      ensures Valid() && order == old(order)
      ensures added <==> clientName in old(clients)
      ensures !added ==> clients == old(clients)
      ensures added ==> var c := old(clients)[clientName];
        clients == old(clients)[clientName := c.(projects := if projectName in c.projects then c.projects else c.projects + [projectName])]
      ensures added ==> projectName in clients[clientName].projects
      ensures added && Distinct(old(clients)[clientName].projects) ==> Distinct(clients[clientName].projects)
    {
      var client := GetClient(clientName);
      if client.None? {
        return false;
      }
      var c := client.value;
      if projectName !in c.projects {
        clients := clients[clientName := c.(projects := c.projects + [projectName])];
      }
      added := true;
    }

    /** search_clients: the keys containing the query case-insensitively, in table order. */
    method SearchClients(query: string) returns (r: seq<string>)
      requires Valid()
      ensures r == Matching(order, query)
      ensures forall k :: k in r <==> k in clients && Contains(Lower(k), Lower(query))
    {
      var queryLower := Lower(query);
      r := [];
      for i := 0 to |order|
        invariant r == Matching(order[..i], query)
      {
        assert order[..i + 1][..i] == order[..i];
        if Contains(Lower(order[i]), queryLower) {
          r := r + [order[i]];
        }
      }
      assert order[..|order|] == order;
      MatchingMembers(order, query);
    }
  }
}
