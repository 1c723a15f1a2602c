# Tablet manager action agent, modelled in Dafny

This project models the bookkeeping core of the Vitess tablet manager's
`ActionAgent` (`go/vt/tabletmanager/agent.go`): the agent's cached tablet
record, control record and health fields with their accessors; the record
update that `Start` registers in the topology server (hostname, IP address,
port map); the MySQL port drift check; the `refreshTablet`, `updateState`,
`Start`, `verifyTopology`, `verifyServingAddrs` and `Stop` sequences; and the
non-blocking health stream broadcast.

Layout:

- `wrappers.dfy` (`Wrappers`): Go errors, `Option` for nil-able values,
  `Result` for `(value, error)` pairs, and a key picker for map iteration.
- `topo.dfy` (`Topo`): the tablet record (`Tablet`, a value), `TabletInfo`
  (a class: the record held by reference, as Go's `*topo.TabletInfo` is), and
  `TopoServer`, an abstract topology server. The server is a map from alias to
  stored record; each call's transient failure is a parameter. A missing
  record reads as `ErrNoNode`.
- `registration.dfy` (`Registration`): the closure `f` of `Start`.
- `port_drift.dfy` (`PortDrift`): the drift check's decision and its port
  assignment. This file holds the finding below.
- `health_stream.dfy` (`HealthStream`): health replies and bounded channels.
  `TrySend` is the `select`/`default` non-blocking send.
- `agent.dfy` (`TabletManager`): the `Agent` class. Its fields are the
  agent's fields, and its methods update them. A ghost `events` log records
  every `changeCallback` call with its old and new record, and the shutdown
  calls of `Stop`, in order. Each callback entry also records the reason
  `updateState` was given; the callback itself receives only the two records
  (agent.go:221), and the reason only reaches `updateState`'s log line.
- `scenarios.dfy` (`Scenarios`): four end-to-end scenarios checked from the
  contracts alone. The first registers with a hostname override. The second
  is a refresh whose reread finds no record. The third is a refresh whose
  port write-back fails. The fourth delivers two broadcasts, in order, to a
  channel with room.

Modelling choices:

- A Go nil port map is `portmap == None`. Reading it gives an empty map, so
  the "mysql" entry reads as 0. Assigning into it panics.
- Aliasing is kept. `readTablet` caches the very `TabletInfo` object that
  `refreshTablet` then hands to `checkTabletMysqlPort`. That method changes
  the object in place (line 443) before writing it back. So after a refresh
  the cached record carries the daemon's port even when the write-back
  failed. Only the topology server keeps the old port.
- External answers are method parameters (`StartEnv`, `RefreshEnv`): the
  `-tablet_hostname` flag, the fully qualified hostname, the address lookup,
  the daemon's port, each topology call's failure, `topo.Validate`, and the
  callback's error. `topo.IsRunningQueryService` and `Tablet.EndPoint()` are
  not part of this model; they are functions given to the agent's
  constructor.
- The closure `f` changes a record that only the topology server's
  read-modify-write can see. It is therefore the function
  `Registration.Register`, which `TopoServer.UpdateTabletFields` applies to
  the stored record.

- A failed port write-back does not restore the cached port: the cached
  object was already changed in place (agent.go:230, 302, 443-446).
- `Start` returns the error of a failed serving-address check
  (agent.go:403-405).

## Model

| member | source | states |
|---|---|---|
| `Registration.Register` | go/vt/tabletmanager/agent.go:371-389 | hostname and IP become the inputs; the port map exists afterwards; "vt" is `vtPort`; "mysql" is `mysqlPort` when non-zero and otherwise keeps its old value or absence; "vts" is `vtsPort` when non-zero and otherwise absent; every other port and every other record field is unchanged |
| `Registration.RegisterIdempotent` | go/vt/tabletmanager/agent.go:371-389 | applying the registration update twice gives the same record as applying it once |
| `Registration.RegisterPorts` | go/vt/tabletmanager/agent.go:374-387 | the key set of the new port map is the old key set without "vts", plus "mysql" if known, plus "vt", plus "vts" if non-zero |
| `Registration.RegisterRecordsKnownMysqlPort` | go/vt/tabletmanager/agent.go:377-381 | after registering a known MySQL port, the record's "mysql" port (as the drift check reads it) is that port |
| `Topo.StoreOutcome` | go/vt/tabletmanager/agent.go:225-228 | a topology read or write fails exactly when the call fails or the alias has no record |
| `Topo.TopoServer.GetTablet` | go/vt/tabletmanager/agent.go:225 | a successful read returns a fresh object holding the stored record |
| `Topo.TopoServer.UpdateTabletFields` | go/vt/tabletmanager/agent.go:390 | on success the stored record becomes `f` of the old one and nothing else changes; on failure nothing is written |
| `Topo.TopoServer.UpdateTablet` | go/vt/tabletmanager/agent.go:444 | on success the record is stored under its own alias; on failure nothing is written |
| `Topo.TopoServer.UpdateTabletEndpoint` | go/vt/tabletmanager/agent.go:345 | on success the address is published under its cell, keyspace, shard and type, replacing the one with the same uid |
| `PortDrift.DriftedPort` | go/vt/tabletmanager/agent.go:432-440 | the check does nothing exactly when the daemon query fails or reports the stored "mysql" port (a missing entry reads as 0); otherwise it writes the daemon's port |
| `PortDrift.AssignMysqlPortAsWritten` | go/vt/tabletmanager/agent.go:443 | the assignment as written panics exactly on a nil port map; otherwise only the "mysql" entry changes |
| `PortDrift.DriftOnNilPortmapPanics` | go/vt/tabletmanager/agent.go:438-443 | for a record with a nil port map and any non-zero daemon port, the guard lets the record through and the assignment panics |
| `PortDrift.DriftOnNilPortmapExample` | go/vt/tabletmanager/agent.go:438-443 | the concrete case: an empty record and daemon port 3306 |
| `PortDrift.SetMysqlPort` | go/vt/tabletmanager/agent.go:443 | the intended assignment: the record's MySQL port becomes the daemon port, a nil port map is created, and all other ports and fields are unchanged |
| `PortDrift.SetMysqlPortAgreesWhenNoPanic` | go/vt/tabletmanager/agent.go:443 | wherever the code as written does not panic, the intended assignment gives the same record |
| `PortDrift.DriftCheckConverges` | go/vt/tabletmanager/agent.go:438-443 | after the drifted port is written, a second check against the same daemon answer does nothing |
| `HealthStream.HealthChannel.TrySend` | go/vt/tabletmanager/agent.go:458-462 | the non-blocking send enqueues exactly when the buffer has room; a full channel is unchanged |
| `Topo.MysqlPort` | go/vt/tabletmanager/agent.go:438 | the record's "mysql" port, read as 0 when the port map is nil or has no "mysql" entry |
| `TabletManager.Hostname` | go/vt/tabletmanager/agent.go:357-363 | a non-empty `-tablet_hostname` flag is the hostname; an empty one falls back to the fully qualified name, including its error |
| `TabletManager.RereadError` | go/vt/tabletmanager/agent.go:305 | the error of a failed reread is "Failed rereading tablet after ", then the reason, then ": " and the cause's message (prefix, length and the trailing ": " + cause) |
| `TabletManager.RereadErrorMentionsReason` | go/vt/tabletmanager/agent.go:303-306 | the error returned by a failed reread contains the refresh reason |
| `TabletManager.Agent.constructor` | go/vt/tabletmanager/agent.go:137-152 | a new agent has no cached tablet, no control record, an empty health stream registry, and a non-nil health error ("healthcheck not run yet") |
| `TabletManager.Agent.UpdateState` | go/vt/tabletmanager/agent.go:216-222 | the callback is called once, with the given old record and the record cached at that moment; its error is returned |
| `TabletManager.Agent.ReadTablet` | go/vt/tabletmanager/agent.go:224-233 | on success the cache holds the very object returned, a fresh copy of the stored record; on failure the cache is unchanged |
| `TabletManager.Agent.SetTablet` | go/vt/tabletmanager/agent.go:235-239 | the cached tablet is replaced |
| `TabletManager.Agent.Tablet` | go/vt/tabletmanager/agent.go:241-247 | returns the cached object itself |
| `TabletManager.Agent.Healthy` | go/vt/tabletmanager/agent.go:249-254 | returns the replication delay and the health error |
| `TabletManager.Agent.BlacklistedTables` | go/vt/tabletmanager/agent.go:256-266 | empty without a control record, otherwise that record's list |
| `TabletManager.Agent.DisableQueryService` | go/vt/tabletmanager/agent.go:268-278 | false without a control record, otherwise that record's flag |
| `TabletManager.Agent.SetTabletControl` | go/vt/tabletmanager/agent.go:280-284 | the control record is replaced as a whole |
| `TabletManager.Agent.CheckTabletMysqlPort` | go/vt/tabletmanager/agent.go:429-450 | no drift: nothing changes and nil is returned; drift: the given object carries the new port in place, and is returned and stored when the write-back succeeds; on failure nil is returned and the store is unchanged |
| `TabletManager.Agent.RefreshTablet` | go/vt/tabletmanager/agent.go:286-319 | a failed reread returns an error built from the reason; the cache, store and callback log are then unchanged. Otherwise the cache is the reread record with any drifted port applied, even if the write-back failed. The callback runs exactly once with the record cached before and the one cached after, and its error is returned |
| `TabletManager.Agent.VerifyTopology` | go/vt/tabletmanager/agent.go:321-333 | fails exactly when no tablet is cached; the validation result never fails it |
| `TabletManager.Agent.VerifyServingAddrs` | go/vt/tabletmanager/agent.go:335-346 | does nothing for a tablet not running the query service; otherwise returns the end point's error or publishes the address and returns the write's error |
| `TabletManager.Agent.Start` | go/vt/tabletmanager/agent.go:348-412 | returns the error of the first read, hostname resolution, lookup, registration write (keyed by the cached record's alias), reread or serving-address check, and leaves later steps undone. On a successful write the store holds `Register` of the old record. Validation and the callback never fail it. On success the cache is the reread record and the callback runs once with an empty old record |
| `TabletManager.Agent.Stop` | go/vt/tabletmanager/agent.go:414-422 | stops the binlog players, then closes mysqld, each only when present |
| `TabletManager.Agent.BroadcastHealthStreamReply` | go/vt/tabletmanager/agent.go:452-464 | every registered channel with room gets exactly one more message, `hsr`; full channels are unchanged; the registry (so its size) is unchanged |
| `TabletManager.Agent.HealthStreamMapSize` | go/vt/tabletmanager/agent.go:466-472 | returns the number of registered channels |

## Left out

- Mutexes (`actionMutex`, `mutex`, `healthStreamMutex`) and concurrency. Each accessor is one atomic step, and lock ordering is not modelled.
- `loadSchemaOverrides`: it only reads a JSON file and logs.
- `NewActionAgent` and `NewTestActionAgent`, beyond their initial field values (the constructor). Also left out: `InitTablet`, the MySQL port discovery in `NewActionAgent`, `registerQueryService`, `initHeathCheck`, the binlog player map, stats and `History`. None of that code is part of this model.
- `hookExtraEnv`: it only formats the alias with `TabletAlias.String()`, which is not part of this model.
- DNS, `FullyQualifiedHostname`, the topology server, `GetMysqlPort`, `Mysqld.Close` and the binlog players. Their answers are parameters, and `Stop`'s calls are log entries.
- A successful `net.LookupHost` always has at least one address, so `Lookup` cannot express the `ipAddrs[0]` panic on an empty list.
- `changeCallback`: it is defined elsewhere. Only its arguments and its error are modelled.
- The version check of `topo.UpdateTablet` and the retries inside `UpdateTabletFields`: a conflicting writer is one form of the fault parameter.
- Subscribing and unsubscribing: they are not in this file. The registry is only read, and handle uniqueness is not modelled.
- An unbuffered channel with a receiver waiting would accept a send. The model treats a channel of capacity 0 as always full.
- Setting `_healthy` and `_replicationDelay`: the health check does that in another file. `_waitingForMysql` is not used in this file.
- Logging, tracing spans, contexts and durations: durations are plain integers.
- TabletManager.Agent.BroadcastHealthStreamReply: its requires `RegistryValid()` excludes one channel registered under two handles; the source would offer such a channel the reply twice (agent.go:457-462).
- TabletManager.Agent.UpdateState, TabletManager.Agent.RefreshTablet, TabletManager.Agent.VerifyServingAddrs: `requires tablet != null` leaves out the nil dereference at agent.go:218, 299 and 336. In agent.go, `updateState` and `verifyServingAddrs` are called only after a tablet is cached (lines 314, 403, 408). `refreshTablet` has no caller in agent.go. Its callers are in other files and only run on an agent whose `Start` has cached a tablet, because `NewActionAgent` returns nil when `Start` fails (agent.go:178-180).
- TabletManager.Agent.CheckTabletMysqlPort: uses the corrected assignment `PortDrift.SetMysqlPort`. For a record with a nil port map it creates the map instead of panicking (see Findings).
- TabletManager.Agent.RefreshTablet: runs that corrected drift check, so it does not model the panic on a nil port map either.

## Findings

| source | as written | input that shows it | evidently intended | confidence | as-written member | corrected member |
|---|---|---|---|---|---|---|
| go/vt/tabletmanager/agent.go:438-443 | after the guard, `tablet.Portmap["mysql"] = mport` assigns into the record's port map without making sure the map exists; a nil Go map panics on assignment | a stored record without a port map (nil `Portmap`) while the daemon listens on 3306: the guard compares 3306 with 0 and goes on to the assignment | create the port map when it is nil, as `Start`'s closure does (line 374-376), and record the new port | medium, not executed | `PortDrift.DriftOnNilPortmapExample` | `PortDrift.SetMysqlPort` |
