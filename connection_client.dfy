/**
 * The `auth0_connection_client` resource: one client enabled on one
 * connection. The tenant only accepts a whole replacement of a connection's
 * enabled-clients list, so create and delete read the list, change it
 * locally and write it back. Each handler runs as one atomic step: create
 * and delete because they hold the per-connection lock, read because it
 * makes a single API call.
 */
module ConnectionClient {
  import opened Wrappers
  import opened EnabledClients

  /** An HTTP status other than 404 (0 when there was no response). */
  type Status = s: int | s != 404

  /** A failed management-API call: a 404 response, or any other failure. */
  datatype ApiError = NotFound | Failed(status: Status)

  /** What the tenant stores for one connection, as far as these handlers read or write it. */
  datatype Connection = Connection(name: string, strategy: string, enabledClients: seq<string>)

  /** The failure injected into the k-th API call from now, if any. */
  function FaultAt(faults: seq<Option<ApiError>>, k: nat): Option<ApiError> {
    if k < |faults| then faults[k] else None
  }

  /** The injected failures left once k calls have been made. */
  function After(faults: seq<Option<ApiError>>, k: nat): seq<Option<ApiError>> {
    if k <= |faults| then faults[k..] else []
  }

  /** Consuming j and then k fault entries is consuming j + k of them. */
  lemma AfterAfter(faults: seq<Option<ApiError>>, j: nat, k: nat)
    ensures After(After(faults, j), k) == After(faults, j + k)
    ensures FaultAt(After(faults, j), k) == FaultAt(faults, j + k)
  {
  }

  /** What `api.Connection.Read(id)` returns when the call meets `fault`. */
  function ReadOutcome(connections: map<string, Connection>, id: string, fault: Option<ApiError>): Result<Connection, ApiError> {
    if fault.Some? then Failure(fault.value)
    else if id in connections then Success(connections[id])
    else Failure(NotFound)
  }

  /** What `api.Connection.Update(id, …)` returns when the call meets `fault`. */
  function UpdateOutcome(connections: map<string, Connection>, id: string, fault: Option<ApiError>): Option<ApiError> {
    if fault.Some? then fault
    else if id in connections then None
    else Some(NotFound)
  }

  /**
   * The management API's view of the tenant's connections. `faults` scripts
   * what the transport does to the coming calls (one entry per call, `None`
   * for a call that reaches the tenant): it stands for network and
   * authorization failures, and for a NotFound from a connection deleted
   * between calls. A fault only makes a call fail; it never changes
   * `connections`.
   */
  class Management {
    var connections: map<string, Connection>
    var faults: seq<Option<ApiError>>

    constructor (connections: map<string, Connection>, faults: seq<Option<ApiError>>)
      ensures this.connections == connections && this.faults == faults
    {
      this.connections := connections;
      this.faults := faults;
    }

    method ReadConnection(id: string) returns (r: Result<Connection, ApiError>)
      modifies this`faults
      ensures faults == After(old(faults), 1)
      ensures r == ReadOutcome(connections, id, FaultAt(old(faults), 0))
    {
      r := ReadOutcome(connections, id, FaultAt(faults, 0));
      faults := After(faults, 1);
    }

    /** A partial update that replaces the connection's enabled clients and nothing else. */
    method UpdateEnabledClients(id: string, clients: seq<string>) returns (err: Option<ApiError>)
      modifies this
      ensures faults == After(old(faults), 1)
      ensures err == UpdateOutcome(old(connections), id, FaultAt(old(faults), 0))
      ensures err.None? ==> (id in old(connections) &&
        connections == old(connections)[id := old(connections)[id].(enabledClients := clients)])
      ensures err.Some? ==> connections == old(connections)
    {
      err := UpdateOutcome(connections, id, FaultAt(faults, 0));
      if err.None? {
        connections := connections[id := connections[id].(enabledClients := clients)];
      }
      faults := After(faults, 1);
    }
  }

  /** The resource data of one `auth0_connection_client`; an empty `id` means the resource is gone. */
  class ClientResource {
    const connectionId: string
    const clientId: string
    var id: string
    var name: string
    var strategy: string

    constructor (connectionId: string, clientId: string, id: string)
      ensures this.connectionId == connectionId && this.clientId == clientId && this.id == id
      ensures name == "" && strategy == ""
    {
      this.connectionId := connectionId;
      this.clientId := clientId;
      this.id := id;
      name, strategy := "", "";
    }

    /**
     * The state the read handler leaves when the connection read yielded `r`,
     * starting from ID `id0`, name `name0` and strategy `strategy0`.
     */
    ghost predicate ReadLeaves(r: Result<Connection, ApiError>, diags: Option<ApiError>, id0: string, name0: string, strategy0: string)
      reads this
    {
      match r
      case Failure(NotFound) => diags == None && id == "" && name == name0 && strategy == strategy0
      case Failure(e) => diags == Some(e) && id == id0 && name == name0 && strategy == strategy0
      case Success(c) =>
        if clientId in c.enabledClients then
          diags == None && id == id0 && name == c.name && strategy == c.strategy
        else
          diags == None && id == "" && name == name0 && strategy == strategy0
    }

    /**
     * Read: a missing connection, or a connection that no longer enables the
     * client, clears the ID without an error; any other read failure is
     * returned; otherwise the ID is kept and name and strategy are refreshed.
     */
    method Read(api: Management) returns (diags: Option<ApiError>)
      modifies this`id, this`name, this`strategy, api`faults
      ensures api.connections == old(api.connections)
      ensures api.faults == After(old(api.faults), 1)
      ensures ReadLeaves(ReadOutcome(old(api.connections), connectionId, FaultAt(old(api.faults), 0)),
                         diags, old(id), old(name), old(strategy))
      ensures FaultAt(old(api.faults), 0).None? && connectionId in old(api.connections) ==>
        diags.None? && (id == "" <==> old(id) == "" || clientId !in old(api.connections)[connectionId].enabledClients)
    {
      var read := api.ReadConnection(connectionId);
      if read.Failure? {
        if read.error == NotFound {
          id := "";
          return None;
        }
        return Some(read.error);
      }
      var found := ContainsClient(read.value.enabledClients, clientId);
      if !found {
        id := "";
        return None;
      }
      name := read.value.name;
      strategy := read.value.strategy;
      return None;
    }

    /**
     * Create: appends the client to the connection's list (without checking
     * whether it is already there), writes the list back, sets the new ID and
     * ends with the read handler. A failed read or update is returned and
     * leaves the ID as it was.
     */
    method Create(api: Management, uniqueId: string) returns (diags: Option<ApiError>)
      requires uniqueId != ""
      modifies this`id, this`name, this`strategy, api
      ensures var first := ReadOutcome(old(api.connections), connectionId, FaultAt(old(api.faults), 0));
        first.Failure? ==>
          diags == Some(first.error) && id == old(id) && name == old(name) && strategy == old(strategy) &&
          api.connections == old(api.connections) && api.faults == After(old(api.faults), 1)
      ensures var first := ReadOutcome(old(api.connections), connectionId, FaultAt(old(api.faults), 0));
        first.Success? && FaultAt(old(api.faults), 1).Some? ==>
          diags == FaultAt(old(api.faults), 1) && id == old(id) && name == old(name) && strategy == old(strategy) &&
          api.connections == old(api.connections) && api.faults == After(old(api.faults), 2)
      ensures var first := ReadOutcome(old(api.connections), connectionId, FaultAt(old(api.faults), 0));
        first.Success? && FaultAt(old(api.faults), 1).None? ==>
          api.connections == old(api.connections)[connectionId := first.value.(enabledClients := first.value.enabledClients + [clientId])] &&
          api.faults == After(old(api.faults), 3) &&
          ReadLeaves(ReadOutcome(api.connections, connectionId, FaultAt(old(api.faults), 2)), diags, uniqueId, old(name), old(strategy))
      ensures diags.None? ==> connectionId in api.connections && clientId in api.connections[connectionId].enabledClients
      ensures (connectionId in old(api.connections) &&
        FaultAt(old(api.faults), 0).None? && FaultAt(old(api.faults), 1).None? && FaultAt(old(api.faults), 2).None?) ==>
          diags.None? && id == uniqueId
    {
      var read := api.ReadConnection(connectionId);
      if read.Failure? {
        return Some(read.error);
      }
      var enabledClients := read.value.enabledClients + [clientId];
      var err := api.UpdateEnabledClients(connectionId, enabledClients);
      AfterAfter(old(api.faults), 1, 0);
      if err.Some? {
        AfterAfter(old(api.faults), 1, 1);
        return err;
      }
      id := uniqueId;
      AfterAfter(old(api.faults), 1, 1);
      AfterAfter(old(api.faults), 2, 0);
      diags := Read(api);
      AfterAfter(old(api.faults), 2, 1);
    }

    /**
     * Delete: writes back the list without any copy of the client. A missing
     * connection, on the read or on the write, counts as already deleted;
     * every success clears the ID.
     */
    method Delete(api: Management) returns (diags: Option<ApiError>)
      modifies this`id, api
      ensures var first := ReadOutcome(old(api.connections), connectionId, FaultAt(old(api.faults), 0));
        first.Failure? ==>
          api.connections == old(api.connections) && api.faults == After(old(api.faults), 1) &&
          (first.error == NotFound ==> diags == None && id == "") &&
          (first.error != NotFound ==> diags == Some(first.error) && id == old(id))
      ensures var first := ReadOutcome(old(api.connections), connectionId, FaultAt(old(api.faults), 0));
        var second := FaultAt(old(api.faults), 1);
        first.Success? ==>
          api.faults == After(old(api.faults), 2) &&
          (second.None? ==> (diags == None && id == "" &&
             api.connections == old(api.connections)[connectionId := first.value.(enabledClients := Without(first.value.enabledClients, clientId))])) &&
          (second == Some(NotFound) ==> diags == None && id == "" && api.connections == old(api.connections)) &&
          (second.Some? && second != Some(NotFound) ==> diags == second && id == old(id) && api.connections == old(api.connections))
      ensures diags.None? ==> id == ""
    {
      var read := api.ReadConnection(connectionId);
      if read.Failure? {
        if read.error == NotFound {
          id := "";
          return None;
        }
        return Some(read.error);
      }
      var enabledClients := RemoveClient(read.value.enabledClients, clientId);
      var err := api.UpdateEnabledClients(connectionId, enabledClients);
      AfterAfter(old(api.faults), 1, 0);
      AfterAfter(old(api.faults), 1, 1);
      if err.Some? {
        if err.value == NotFound {
          id := "";
          return None;
        }
        return err;
      }
      id := "";
      return None;
    }
  }

  /**
   * Two creates on one connection, one after the other as the lock orders
   * them, with no failures: neither update is lost.
   */
  method CreateBoth(api: Management, a: ClientResource, b: ClientResource, idA: string, idB: string)
    returns (diagsA: Option<ApiError>, diagsB: Option<ApiError>)
    requires a != b && a.connectionId == b.connectionId && a.connectionId in api.connections
    requires idA != "" && idB != "" && api.faults == []
    modifies a`id, a`name, a`strategy, b`id, b`name, b`strategy, api
    ensures diagsA == None && diagsB == None && a.id == idA && b.id == idB
    ensures a.connectionId in api.connections
    ensures api.connections[a.connectionId].enabledClients ==
      old(api.connections[a.connectionId].enabledClients) + [a.clientId, b.clientId]
  {
    diagsA := a.Create(api, idA);
    diagsB := b.Create(api, idB);
  }

  /**
   * A create followed by a delete of the same resource, with no failures,
   * leaves the list with no copy of the client: exactly the original list
   * when the client was not in it before.
   */
  method CreateThenDelete(api: Management, r: ClientResource, uniqueId: string)
    returns (diagsCreate: Option<ApiError>, diagsDelete: Option<ApiError>)
    requires r.connectionId in api.connections && uniqueId != "" && api.faults == []
    modifies r`id, r`name, r`strategy, api
    ensures diagsCreate == None && diagsDelete == None && r.id == ""
    ensures r.connectionId in api.connections
    ensures api.connections[r.connectionId].enabledClients ==
      Without(old(api.connections[r.connectionId].enabledClients), r.clientId)
    ensures r.clientId !in old(api.connections[r.connectionId].enabledClients) ==>
      api.connections == old(api.connections)
  {
    diagsCreate := r.Create(api, uniqueId);
    diagsDelete := r.Delete(api);
    DeleteAfterCreate(old(api.connections[r.connectionId].enabledClients), r.clientId);
  }
}
