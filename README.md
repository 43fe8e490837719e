# Auth0 connection: enabled clients and state upgrades

A Dafny model of two pieces of the Terraform provider for Auth0, both in its
`connection` package.

1. **The `auth0_connection_client` resource** says that one client is enabled on
   one connection. The management API only takes the connection's
   enabled-clients list as a whole. So the create handler reads the list, appends
   the client ID (with no de-duplication) and writes the list back. The delete
   handler reads the list, drops every copy of the client ID (the survivors keep
   their order) and writes it back. The read handler scans the list for the
   client ID. A missing connection (HTTP 404) or a missing client clears the
   resource ID. Delete also treats a 404 on either call as success.
   - `ClientResource` (module `ConnectionClient`) is the resource data, a class
     with the fields the handlers read and set (`id`, `name`, `strategy`).
   - `Management` is the API. It holds the tenant's connections, keyed by
     connection ID, and a script of injected failures (`faults`). Each API call
     consumes one script entry.
   - The membership scan and the filter are loops in their own methods,
     `ContainsClient` and `RemoveClient` (module `EnabledClients`).
     `ContainsClient` is proved to report membership (`clientId in clients`),
     and `RemoveClient` is proved to build the list function `Without`.
2. **State upgrades of the `auth0_connection` resource** (module
   `ConnectionSchema`).
   - `UpgradeV0` rewrites `options[0].strategy_version` from a string to the
     integer that Go's `strconv.Atoi` parses from it, or to 0 if parsing fails.
   - `UpgradeV1` wraps `options[0].validation` as `[{ "username": [v] }]`.
   - A state is a `map<string, Value>` over a small JSON-like `Value` type.
   - `strconv.Atoi` on a 64-bit platform is the function `Strconv.Atoi`, with
     `FormatInt` (decimal rendering) as a partner: Atoi undoes FormatInt on
     the 64-bit range. Atoi also accepts renderings FormatInt never produces,
     such as `"007"`, `"+7"` and `"-0"`.
   - The two version builders, `SchemaV0` and `SchemaV1`, copy a base schema and
     override one key.

Each handler is one atomic step. Create and delete hold the provider's
per-connection lock; read takes no lock, but it makes a single API call.

Two behaviours of the code are worth noting:

- What create's confirmation read does when it fails.
  - If it fails with 404, create ends with no error and an empty ID.
  - If it fails in any other way, create returns that error, and the new ID has
    already been set.
- The upgraders panic when `options` is a non-empty list whose first element is not a map
  (an unchecked type assertion). The model has an explicit `Panic` outcome for
  that case.
- `connectionSchemaV0` and `connectionSchemaV1` add `strategy_version` and
  `validation` as top-level attributes. The current resource schema declares both
  inside the `options` block, and that is where the upgraders read them. The
  builders are modelled as written.

## Model

| member | source | states |
|---|---|---|
| `EnabledClients.Without` | internal/auth0/connection/resource_client.go:139-145 | the filtered list holds no copy of the client ID and is never longer than the input |
| `EnabledClients.ContainsClient` | internal/auth0/connection/resource_client.go:102-107 | the found flag is true iff the client ID occurs in the list |
| `EnabledClients.RemoveClient` | internal/auth0/connection/resource_client.go:139-145 | the skip-and-append loop builds exactly `Without(list, clientID)` |
| `EnabledClients.WithoutConcat` | internal/auth0/connection/resource_client.go:139-145 | filtering distributes over concatenation, so survivors keep their relative order |
| `EnabledClients.WithoutKeepsOthers` | internal/auth0/connection/resource_client.go:139-145 | any other client survives the filter iff it was in the list |
| `EnabledClients.WithoutMultiset` | internal/auth0/connection/resource_client.go:139-145 | the filter removes every copy of the client ID and keeps the multiplicity of every other entry |
| `EnabledClients.WithoutAbsent` | internal/auth0/connection/resource_client.go:139-145 | a list without the client ID is written back unchanged |
| `EnabledClients.WithoutIdempotent` | internal/auth0/connection/resource_client.go:139-145 | filtering twice equals filtering once, so a second delete writes the same list |
| `EnabledClients.DeleteAfterCreate` | internal/auth0/connection/resource_client.go:73-145 | filtering the appended list equals filtering the original list; when the client was absent before, it gives back the original list |
| `ConnectionClient.Management.ReadConnection` | internal/auth0/connection/resource_client.go:67-70 | a read returns the injected failure if one is pending, else the stored connection, else NotFound; the tenant is unchanged |
| `ConnectionClient.Management.UpdateEnabledClients` | internal/auth0/connection/resource_client.go:75-80 | an update replaces only the connection's enabled clients; a pending failure or a missing connection returns an error and changes nothing |
| `ConnectionClient.ClientResource.Read` | internal/auth0/connection/resource_client.go:87-119 | NotFound clears the ID with no error; any other failure is returned and the ID is kept; on a successful read the ID is kept iff the client is in the list, and name and strategy are refreshed then |
| `ConnectionClient.ClientResource.Create` | internal/auth0/connection/resource_client.go:59-85 | a failed read or update returns its error and leaves the ID; otherwise the written list is the old list followed by the client ID (a duplicate when already present), and the confirmation read runs with the new ID; with no failures create succeeds and keeps the new ID |
| `ConnectionClient.ClientResource.Delete` | internal/auth0/connection/resource_client.go:121-160 | the written list is `Without(old list, clientID)`; NotFound on the read or the update counts as success; other failures are returned with the ID kept; every success clears the ID |
| `ConnectionClient.CreateBoth` | internal/auth0/connection/resource_client.go:59-85 | two creates on one connection, run one after the other, leave both client IDs appended in order (no lost update) |
| `ConnectionClient.CreateThenDelete` | internal/auth0/connection/resource_client.go:121-160 | a create and then a delete, with no failures, leave the list without the client, and leave the tenant unchanged when the client was absent before |
| `Strconv.Atoi` | internal/auth0/connection/schema.go:822 | the empty string is an error, and every parsed value lies in the 64-bit int range |
| `Strconv.AtoiFormatInt` | internal/auth0/connection/schema.go:822 | Atoi parses the decimal rendering of every in-range integer back to that integer |
| `Strconv.AtoiPlusSign` | internal/auth0/connection/schema.go:822 | a leading `+` before digits is accepted and changes nothing |
| `Strconv.AtoiRejectsNonDigit` | internal/auth0/connection/schema.go:822 | any character other than a digit after the optional sign (or first, when there is no sign) is an error: a syntax error, or a range error when the digits before it already overflow |
| `Strconv.AtoiLoneSign` | internal/auth0/connection/schema.go:822 | a lone `+` or `-` is a syntax error |
| `Strconv.AtoiOutOfRange` | internal/auth0/connection/schema.go:822 | the decimal rendering of every integer outside the 64-bit range is a range error |
| `Strconv.AtoiLeadingZero` | internal/auth0/connection/schema.go:822 | leading zeros are accepted and change nothing, with or without a `-` sign, and `"-0"` parses to 0 |
| `ConnectionSchema.MigratedStrategyVersion` | internal/auth0/connection/schema.go:822-827 | the migrated strategy version always fits the 64-bit int range, whether Atoi succeeds or the value falls back to 0 |
| `ConnectionSchema.StrategyVersionRoundTrip` | internal/auth0/connection/schema.go:822-827 | a strategy version string that renders an in-range integer migrates to exactly that integer |
| `ConnectionSchema.UpgradeV0` | internal/auth0/connection/schema.go:798-835 | panics iff `options[0]` exists and is not a map; never returns an error; returns the state unchanged unless `options[0].strategy_version` is a string; when it is a string, `options` becomes a one-element list holding that map with the key rewritten to the migrated integer and every other key kept; afterwards no string strategy version is left |
| `ConnectionSchema.UnwrapValidation` | internal/auth0/connection/schema.go:856-860 | recovers `v` from `[{ "username": [v] }]` for every `v` |
| `ConnectionSchema.UpgradeV1` | internal/auth0/connection/schema.go:837-868 | panics iff `options[0]` exists and is not a map; never returns an error; returns the state unchanged unless `options[0]` has `validation`; when it has, `options` becomes a one-element list holding that map with `validation` wrapped as `[{ "username": [v] }]` and every other key kept, and the old value can be recovered from the wrapped one |
| `ConnectionSchema.WrapValidationNotIdempotent` | internal/auth0/connection/schema.go:856-862 | wrapping an already wrapped value nests it again, so the version-1 upgrade must run only once |
| `ConnectionSchema.SchemaV0` | internal/auth0/connection/schema.go:778-786 | the result is the base schema plus an optional, computed string `strategy_version`, and differs from the base in that key only |
| `ConnectionSchema.SchemaV1` | internal/auth0/connection/schema.go:788-796 | the result is the base schema plus an optional `validation` map of strings, and differs from the base in that key only |

## Left out

- The per-connection lock (`mutex.Global`). Each handler is one atomic step. `CreateBoth` shows what that buys. The lock package is not part of this model.
- The HTTP transport and the management SDK. `Management` stands in for them, and its `faults` script stands for failed calls: network and authorization errors, and a NotFound from a connection that was deleted between two calls.
- ConnectionClient.ClientResource.Create, ConnectionClient.ClientResource.Delete: a fault can only make a call fail. The model cannot express another party changing the enabled-clients list between a handler's read and its update; the lock rules this out for other create and delete handlers, but not for changes made outside the provider.
- `importConnectionClient` and its `<connectionID>:<clientID>` ID-format errors. The function that implements them is not part of this model.
- `resource.UniqueId()`. It is a parameter of `Create`, required to be non-empty.
- `data.Set` on `name` and `strategy`. It is modelled as never failing, because string values go into string attributes.
- ClientResource.Delete: when no entry survives the filter, Go sends a pointer to a nil slice, which is JSON `null`. The model writes the empty list.
- The `resourceSchema` literal, its descriptions and its validators. `SchemaV0` and `SchemaV1` take the base schema as a parameter, and `Schema` records only the attributes the builders set (type, element type, optional, computed).
- UpgradeV0, UpgradeV1: the Go functions change the caller's maps in place, including the first map of the old `options` list. The model returns the new state as a value, so this aliasing is not captured.
- UpgradeV1: Go stores the wrapped value as a `[]map[string][]interface{}`, not as a generic list of maps. `Value` does not distinguish the two.
- Strconv.Atoi: the model assumes a 64-bit `int`. On a 32-bit platform the range would be narrower.
- The `log.Printf` debug output of the upgraders.
- The action trigger-binding resource, the connection sweeper, the global client data source and the acceptance tests. They are thin wrappers over remote calls, or tests against a live tenant.
