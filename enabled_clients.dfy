/**
 * The ordered list of client IDs that a connection enables, and the two
 * scans the connection-client handlers run over it: the membership scan of
 * the read handler and the filter of the delete handler.
 */
module EnabledClients {

  /** The list with every occurrence of `clientId` dropped, the other entries in order. */
  function Without(clients: seq<string>, clientId: string): (kept: seq<string>)
    ensures clientId !in kept
    ensures |kept| <= |clients|
  {
    if clients == [] then []
    else if clients[0] == clientId then Without(clients[1..], clientId)
    else [clients[0]] + Without(clients[1..], clientId)
  }

  /** The membership scan: `found` is set as soon as some entry equals `clientId`, and the scan runs to the end. */
  method ContainsClient(clients: seq<string>, clientId: string) returns (found: bool)
    ensures found <==> clientId in clients
  {
    found := false;
    for i := 0 to |clients|
      invariant found <==> clientId in clients[..i]
    {
      assert clients[..i + 1] == clients[..i] + [clients[i]];
      if clients[i] == clientId {
        found := true;
      }
    }
    assert clients[..|clients|] == clients;
  }

  /** The delete filter: skips every entry equal to `clientId` and appends the rest. */
  method RemoveClient(clients: seq<string>, clientId: string) returns (kept: seq<string>)
    ensures kept == Without(clients, clientId)
  {
    kept := [];
    for i := 0 to |clients|
      invariant kept == Without(clients[..i], clientId)
    {
      assert clients[..i + 1] == clients[..i] + [clients[i]];
      WithoutConcat(clients[..i], [clients[i]], clientId);
      if clients[i] == clientId {
        continue;
      }
      kept := kept + [clients[i]];
    }
    assert clients[..|clients|] == clients;
  }

  /** Filtering distributes over concatenation: survivors keep their relative order. */
  lemma {:induction false} WithoutConcat(a: seq<string>, b: seq<string>, clientId: string)
    ensures Without(a + b, clientId) == Without(a, clientId) + Without(b, clientId)
  {
    if a != [] {
      assert (a + b)[1..] == a[1..] + b;
      WithoutConcat(a[1..], b, clientId);
    } else {
      assert a + b == b;
    }
  }

  /** Every other client survives the filter exactly when it was present. */
  lemma {:induction false} WithoutKeepsOthers(clients: seq<string>, clientId: string, other: string)
    requires other != clientId
    ensures other in Without(clients, clientId) <==> other in clients
  {
    if clients != [] {
      WithoutKeepsOthers(clients[1..], clientId, other);
      assert clients == [clients[0]] + clients[1..];
    }
  }

  /** The filter removes all copies of `clientId` and keeps the multiplicity of every other entry. */
  lemma {:induction false} WithoutMultiset(clients: seq<string>, clientId: string)
    ensures multiset(Without(clients, clientId)) == multiset(clients)[clientId := 0]
  {
    if clients != [] {
      WithoutMultiset(clients[1..], clientId);
      assert clients == [clients[0]] + clients[1..];
    }
  }

  /** A list without `clientId` passes the filter unchanged. */
  lemma {:induction false} WithoutAbsent(clients: seq<string>, clientId: string)
    requires clientId !in clients
    ensures Without(clients, clientId) == clients
  {
    if clients != [] {
      assert clients[0] != clientId;
      WithoutAbsent(clients[1..], clientId);
      assert clients == [clients[0]] + clients[1..];
    }
  }

  /** Filtering twice is filtering once, so a second delete writes the same list. */
  lemma {:induction false} WithoutIdempotent(clients: seq<string>, clientId: string)
    ensures Without(Without(clients, clientId), clientId) == Without(clients, clientId)
  {
    WithoutAbsent(Without(clients, clientId), clientId);
  }

  /**
   * Delete after create: filtering the appended list is filtering the original,
   * which is the original list itself when `clientId` was not in it before.
   */
  lemma DeleteAfterCreate(clients: seq<string>, clientId: string)
    ensures Without(clients + [clientId], clientId) == Without(clients, clientId)
    ensures clientId !in clients ==> Without(clients + [clientId], clientId) == clients
  {
    WithoutConcat(clients, [clientId], clientId);
    assert Without([clientId], clientId) == [];
    if clientId !in clients {
      WithoutAbsent(clients, clientId);
    }
  }
}
