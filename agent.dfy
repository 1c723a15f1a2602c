/** The tablet manager's action agent: the cached tablet record and the
    protocols that keep it in step with the topology server.  Each accessor
    is one atomic step; the mutexes that make it so are not modelled. */
module TabletManager {
  import opened Wrappers
  import opened Topo
  import opened Registration
  import opened PortDrift
  import opened HealthStream

  /** The health error of an agent on which no health check has run yet. */
  const HealthcheckNotRunYet: Error := Error("healthcheck not run yet")

  /** The error `verifyTopology` returns when no tablet is cached. */
  const NilTabletError: Error := Error("agent._tablet is nil")

  /** The error `refreshTablet` returns when rereading the tablet fails. */
  function RereadError(reason: string, cause: Error): (e: Error)
    ensures "Failed rereading tablet after " <= e.msg
    ensures |e.msg| == |"Failed rereading tablet after "| + |reason| + 2 + |cause.msg|
    ensures e.msg[|"Failed rereading tablet after "| + |reason|..] == ": " + cause.msg
  {
    Error("Failed rereading tablet after " + reason + ": " + cause.msg)
  }

  /** The reread error names the reason of the refresh. */
  lemma RereadErrorMentionsReason(reason: string, cause: Error)
    ensures Contains(RereadError(reason, cause).msg, reason)
  {
    var prefix := "Failed rereading tablet after ";
    var msg := RereadError(reason, cause).msg;
    assert msg == prefix + (reason + ": " + cause.msg);
    assert msg[|prefix|..] == reason + ": " + cause.msg;
    assert reason <= msg[|prefix|..];
  }

  /** What the agent handed to its collaborators, in order: every
      `changeCallback` call with its old and new record (together with the
      reason `updateState` was given, which the callback itself does not
      receive), and the shutdown calls made by `Stop`. */
  datatype Event =
    | StateChange(oldTablet: Tablet, newTablet: Tablet, reason: string)
    | BinlogPlayersStopped
    | MysqldClosed

  /** The answer of `net.LookupHost`: an error, or at least one address. */
  datatype Lookup = LookupFailed(error: Error) | Resolved(first: string, rest: seq<string>)

  /** The results of the external calls `Start` makes, in the order it makes
      them: the first read, the `-tablet_hostname` flag, the fully qualified
      hostname, the address lookup, the registration write, the reread,
      `topo.Validate`, the serving-address write and the callback. */
  datatype StartEnv = StartEnv(
    readFault: Option<Error>,
    hostnameFlag: string,
    fqdn: Result<string>,
    lookup: Lookup,
    updateFault: Option<Error>,
    rereadFault: Option<Error>,
    validate: Option<Error>,
    endPointFault: Option<Error>,
    callback: Option<Error>)

  /** The results of the external calls `refreshTablet` makes: the reread,
      the daemon's port, the write-back of a drifted port and the callback. */
  datatype RefreshEnv = RefreshEnv(
    readFault: Option<Error>,
    daemonPort: Result<int>,
    writeFault: Option<Error>,
    callback: Option<Error>)

  /** The hostname `Start` registers: the flag when it is set, the resolved
      fully qualified hostname otherwise. */
  function Hostname(flag: string, fqdn: Result<string>): (r: Result<string>)
    ensures flag != "" ==> r == Ok(flag)
    ensures flag == "" ==> r == fqdn
  {
    if flag != "" then Ok(flag) else fqdn
  }

  class Agent {
    // set during creation
    const tabletAlias: TabletAlias
    const topoServer: TopoServer
    /** `topo.IsRunningQueryService` of the record's type; it is not part of
        this model and is given to the agent. */
    const isRunningQueryService: Tablet -> bool
    /** `Tablet.EndPoint()`; it is not part of this model and is given to the
        agent. */
    const endPoint: Tablet -> Result<EndPoint>
    const hasBinlogPlayerMap: bool
    const hasMysqld: bool

    // protected by the agent's mutex
    var tablet: TabletInfo?
    var tabletControl: Option<TabletControl>
    var healthy: Option<Error>
    var replicationDelay: int

    // protected by the health stream mutex
    var healthStreamMap: map<int, HealthChannel>

    ghost var events: seq<Event>

    /** The channels of the health stream registry. */
    ghost function Channels(): set<HealthChannel>
      reads this
    {
      set k | k in healthStreamMap :: healthStreamMap[k]
    }

    /** Every registered channel is well formed, and each registration has a
        channel of its own. */
    ghost predicate RegistryValid()
      reads this, Channels()
    {
      (forall k :: k in healthStreamMap ==> healthStreamMap[k].Valid()) &&
      (forall i, j :: i in healthStreamMap && j in healthStreamMap && i != j ==> healthStreamMap[i] != healthStreamMap[j])
    }

    /** The field values `NewActionAgent` and `NewTestActionAgent` start from. */
    constructor (alias: TabletAlias, ts: TopoServer, isServing: Tablet -> bool,
                 endPointOf: Tablet -> Result<EndPoint>, binlogPlayers: bool, mysqld: bool)
      ensures tabletAlias == alias && topoServer == ts
      ensures isRunningQueryService == isServing && endPoint == endPointOf
      ensures hasBinlogPlayerMap == binlogPlayers && hasMysqld == mysqld
      ensures tablet == null && tabletControl == None
      ensures healthy == Some(HealthcheckNotRunYet) && replicationDelay == 0
      ensures healthStreamMap == map[] && events == []
      ensures RegistryValid()
    {
      tabletAlias := alias;
      topoServer := ts;
      isRunningQueryService := isServing;
      endPoint := endPointOf;
      hasBinlogPlayerMap := binlogPlayers;
      hasMysqld := mysqld;
      tablet := null;
      tabletControl := None;
      healthy := Some(HealthcheckNotRunYet);
      replicationDelay := 0;
      healthStreamMap := map[];
      events := [];
    }

    /** Calls the state-change callback with `oldTablet` and the record
        cached at this moment, and returns the callback's error. */
    method UpdateState(oldTablet: Tablet, reason: string, callback: Option<Error>) returns (err: Option<Error>)
      requires tablet != null
      modifies this`events
      ensures events == old(events) + [StateChange(oldTablet, tablet.tablet, reason)]
      ensures err == callback
    {
      var newTablet := tablet.tablet;
      events := events + [StateChange(oldTablet, newTablet, reason)];
      err := callback;
    }

    /** Reads the record from the topology server and caches the object it
        returns; a failed read leaves the cache alone. */
    method ReadTablet(fault: Option<Error>) returns (ti: TabletInfo?, err: Option<Error>)
      modifies this`tablet
      ensures err == StoreOutcome(topoServer.tablets, tabletAlias, fault)
      ensures err.None? ==> ti != null && fresh(ti) && tablet == ti && ti.tablet == topoServer.tablets[tabletAlias]
      ensures err.Some? ==> ti == null && tablet == old(tablet)
    {
      ti, err := topoServer.GetTablet(tabletAlias, fault);
      if err.Some? {
        return null, err;
      }
      tablet := ti;
    }

    method SetTablet(ti: TabletInfo?)
      modifies this`tablet
      ensures tablet == ti
    {
      tablet := ti;
    }

    /** The cached record object (not a copy). */
    method Tablet() returns (ti: TabletInfo?)
      ensures ti == tablet
    {
      ti := tablet;
    }

    /** The replication delay and the error of the latest health check. */
    method Healthy() returns (delay: int, err: Option<Error>)
      ensures delay == replicationDelay && err == healthy
    {
      delay, err := replicationDelay, healthy;
    }

    /** The blacklisted tables of the control record, none without one. */
    method BlacklistedTables() returns (tables: seq<string>)
      ensures tabletControl.None? ==> tables == []
      ensures tabletControl.Some? ==> tables == tabletControl.value.blacklistedTables
    {
      tables := [];
      if tabletControl.Some? {
        tables := tabletControl.value.blacklistedTables;
      }
    }

    /** The control record's serving switch, false without one. */
    method DisableQueryService() returns (disable: bool)
      ensures tabletControl.None? ==> !disable
      ensures tabletControl.Some? ==> disable == tabletControl.value.disableQueryService
    {
      disable := false;
      if tabletControl.Some? {
        disable := tabletControl.value.disableQueryService;
      }
    }

    /** Replaces the control record as a whole. */
    method SetTabletControl(tc: Option<TabletControl>)
      modifies this`tabletControl
      ensures tabletControl == tc
    {
      tabletControl := tc;
    }

    /** The MySQL port drift check.  When the daemon answers with a port other
        than the record's, the port is written into `ti` in place, before the
        record is written back; `ti` is returned only when the write-back
        succeeds, but keeps the new port either way. */
    method CheckTabletMysqlPort(ti: TabletInfo, daemonPort: Result<int>, writeFault: Option<Error>) returns (updated: TabletInfo?)
      modifies ti, topoServer`tablets
      ensures DriftedPort(old(ti.tablet), daemonPort).None? ==>
                updated == null && ti.tablet == old(ti.tablet) && topoServer.tablets == old(topoServer.tablets)
      ensures DriftedPort(old(ti.tablet), daemonPort).Some? ==>
                ti.tablet == SetMysqlPort(old(ti.tablet), daemonPort.value)
      ensures DriftedPort(old(ti.tablet), daemonPort).Some? &&
              StoreOutcome(old(topoServer.tablets), ti.tablet.alias, writeFault).None? ==>
                updated == ti && topoServer.tablets == old(topoServer.tablets)[ti.tablet.alias := ti.tablet]
      ensures DriftedPort(old(ti.tablet), daemonPort).Some? &&
              StoreOutcome(old(topoServer.tablets), ti.tablet.alias, writeFault).Some? ==>
                updated == null && topoServer.tablets == old(topoServer.tablets)
    {
      var mport := DriftedPort(ti.tablet, daemonPort);
      if mport.None? {
        return null;
      }
      ti.tablet := SetMysqlPort(ti.tablet, mport.value);
      var err := topoServer.UpdateTablet(ti, writeFault);
      if err.Some? {
        return null;
      }
      return ti;
    }

    /** Rereads the record after an action, runs the port drift check on the
        reread object (which is the newly cached one) and calls the callback
        with the record cached before and the one cached after. */
    method RefreshTablet(reason: string, env: RefreshEnv) returns (err: Option<Error>)
      requires tablet != null
      modifies this`tablet, this`events, topoServer`tablets
      ensures StoreOutcome(old(topoServer.tablets), tabletAlias, env.readFault).Some? ==>
                err == Some(RereadError(reason, StoreOutcome(old(topoServer.tablets), tabletAlias, env.readFault).value)) &&
                tablet == old(tablet) && events == old(events) && topoServer.tablets == old(topoServer.tablets)
      ensures StoreOutcome(old(topoServer.tablets), tabletAlias, env.readFault).None? ==>
                var read := old(topoServer.tablets)[tabletAlias];
                var drift := DriftedPort(read, env.daemonPort);
                tablet != null && fresh(tablet) &&
                tablet.tablet == (if drift.Some? then SetMysqlPort(read, drift.value) else read) &&
                events == old(events) + [StateChange(old(tablet.tablet), tablet.tablet, reason)] &&
                err == env.callback &&
                topoServer.tablets ==
                  (if drift.Some? && StoreOutcome(old(topoServer.tablets), tablet.tablet.alias, env.writeFault).None?
                   then old(topoServer.tablets)[tablet.tablet.alias := tablet.tablet]
                   else old(topoServer.tablets))
    {
      var cached := Tablet();
      var oldTablet := cached.tablet;

      var ti, readErr := ReadTablet(env.readFault);
      if readErr.Some? {
        return Some(RereadError(reason, readErr.value));
      }

      var updated := CheckTabletMysqlPort(ti, env.daemonPort, env.writeFault);
      if updated != null {
        tablet := updated;
      }

      err := UpdateState(oldTablet, reason, env.callback);
    }

    /** Fails only when no tablet is cached; a failing `topo.Validate` is
        logged and ignored. */
    method VerifyTopology(validate: Option<Error>) returns (err: Option<Error>)
      ensures tablet == null ==> err == Some(NilTabletError)
      ensures tablet != null ==> err == None
    {
      var ti := Tablet();
      if ti == null {
        return Some(NilTabletError);
      }
      // the result of validate is only logged
      return None;
    }

    /** Publishes the tablet's serving address when its type runs the query
        service, and does nothing otherwise. */
    method VerifyServingAddrs(endPointFault: Option<Error>) returns (err: Option<Error>)
      requires tablet != null
      modifies topoServer`endPoints
      ensures !isRunningQueryService(tablet.tablet) ==>
                err == None && topoServer.endPoints == old(topoServer.endPoints)
      ensures isRunningQueryService(tablet.tablet) && endPoint(tablet.tablet).Err? ==>
                err == Some(endPoint(tablet.tablet).error) && topoServer.endPoints == old(topoServer.endPoints)
      ensures isRunningQueryService(tablet.tablet) && endPoint(tablet.tablet).Ok? ==>
                var t := tablet.tablet;
                var key := EndPointsKey(t.alias.cell, t.keyspace, t.shard, t.tabletType);
                var ep := endPoint(t).value;
                err == endPointFault &&
                topoServer.endPoints ==
                  (if endPointFault.None? then old(topoServer.endPoints)[key := old(topoServer.EndPointsAt(key))[ep.uid := ep]]
                   else old(topoServer.endPoints))
    {
      var ti := Tablet();
      if !isRunningQueryService(ti.tablet) {
        return None;
      }
      var addr := endPoint(ti.tablet);
      if addr.Err? {
        return Some(addr.error);
      }
      var t := ti.tablet;
      err := topoServer.UpdateTabletEndpoint(EndPointsKey(t.alias.cell, t.keyspace, t.shard, t.tabletType), addr.value, endPointFault);
    }

    /** Registers hostname, address and ports in the topology server, rereads
        and verifies the record, and runs the first state change from an empty
        record.  Every failure up to and including the serving-address check
        is returned; `topo.Validate` and the callback cannot fail it. */
    method Start(mysqlPort: int, vtPort: int, vtsPort: int, env: StartEnv) returns (err: Option<Error>)
      modifies this`tablet, this`events, topoServer`tablets, topoServer`endPoints
      // the first read
      ensures StoreOutcome(old(topoServer.tablets), tabletAlias, env.readFault).Some? ==>
                err == StoreOutcome(old(topoServer.tablets), tabletAlias, env.readFault) &&
                tablet == old(tablet) && events == old(events) &&
                topoServer.tablets == old(topoServer.tablets) && topoServer.endPoints == old(topoServer.endPoints)
      ensures StoreOutcome(old(topoServer.tablets), tabletAlias, env.readFault).None? ==>
                tablet != null && fresh(tablet)
      // hostname and address
      ensures StoreOutcome(old(topoServer.tablets), tabletAlias, env.readFault).None? &&
              (Hostname(env.hostnameFlag, env.fqdn).Err? || env.lookup.LookupFailed?) ==>
                err == Some(if Hostname(env.hostnameFlag, env.fqdn).Err? then Hostname(env.hostnameFlag, env.fqdn).error
                            else env.lookup.error) &&
                tablet.tablet == old(topoServer.tablets)[tabletAlias] && events == old(events) &&
                topoServer.tablets == old(topoServer.tablets) && topoServer.endPoints == old(topoServer.endPoints)
      // the registration write, keyed by the alias inside the cached record
      ensures StoreOutcome(old(topoServer.tablets), tabletAlias, env.readFault).None? &&
              Hostname(env.hostnameFlag, env.fqdn).Ok? && env.lookup.Resolved? ==>
                var key := old(topoServer.tablets)[tabletAlias].alias;
                var updateErr := StoreOutcome(old(topoServer.tablets), key, env.updateFault);
                (updateErr.Some? ==>
                   err == updateErr && tablet.tablet == old(topoServer.tablets)[tabletAlias] && events == old(events) &&
                   topoServer.tablets == old(topoServer.tablets) && topoServer.endPoints == old(topoServer.endPoints)) &&
                (updateErr.None? ==>
                   topoServer.tablets == old(topoServer.tablets)[key := Register(old(topoServer.tablets)[key],
                     Hostname(env.hostnameFlag, env.fqdn).value, env.lookup.first, mysqlPort, vtPort, vtsPort)])
      // the reread, the serving address and the initial state change
      ensures StoreOutcome(old(topoServer.tablets), tabletAlias, env.readFault).None? &&
              Hostname(env.hostnameFlag, env.fqdn).Ok? && env.lookup.Resolved? &&
              StoreOutcome(old(topoServer.tablets), old(topoServer.tablets)[tabletAlias].alias, env.updateFault).None? ==>
                var rereadErr := StoreOutcome(topoServer.tablets, tabletAlias, env.rereadFault);
                (rereadErr.Some? ==>
                   err == rereadErr && tablet.tablet == old(topoServer.tablets)[tabletAlias] &&
                   events == old(events) && topoServer.endPoints == old(topoServer.endPoints)) &&
                (rereadErr.None? ==>
                   var t := topoServer.tablets[tabletAlias];
                   var servingErr :=
                     if !isRunningQueryService(t) then None
                     else if endPoint(t).Err? then Some(endPoint(t).error)
                     else env.endPointFault;
                   var key := EndPointsKey(t.alias.cell, t.keyspace, t.shard, t.tabletType);
                   tablet.tablet == t &&
                   topoServer.endPoints ==
                     (if isRunningQueryService(t) && endPoint(t).Ok? && env.endPointFault.None?
                      then old(topoServer.endPoints)[key := old(topoServer.EndPointsAt(key))[endPoint(t).value.uid := endPoint(t).value]]
                      else old(topoServer.endPoints)) &&
                   (servingErr.Some? ==> err == servingErr && events == old(events)) &&
                   (servingErr.None? ==> err == None && events == old(events) + [StateChange(EmptyTablet, t, "Start")]))
    {
      var ti, readErr := ReadTablet(env.readFault);
      if readErr.Some? {
        return readErr;
      }

      // the hostname flag wins over the resolved name; the first address is used
      var hostname := env.hostnameFlag;
      if hostname == "" {
        if env.fqdn.Err? {
          return Some(env.fqdn.error);
        }
        hostname := env.fqdn.value;
      }
      if env.lookup.LookupFailed? {
        return Some(env.lookup.error);
      }
      var ipAddr := env.lookup.first;

      var f := (t: Tablet) => Register(t, hostname, ipAddr, mysqlPort, vtPort, vtsPort);
      var cached := Tablet();
      err := topoServer.UpdateTabletFields(cached.tablet.alias, f, env.updateFault);
      if err.Some? {
        return;
      }

      // the cache must reflect the registration write
      ti, readErr := ReadTablet(env.rereadFault);
      if readErr.Some? {
        return readErr;
      }

      err := VerifyTopology(env.validate);
      if err.Some? {
        return;
      }

      err := VerifyServingAddrs(env.endPointFault);
      if err.Some? {
        return;
      }

      // a failing initial state change is only logged
      var callbackErr := UpdateState(EmptyTablet, "Start", env.callback);
      return None;
    }

    /** Stops the binlog players, then closes mysqld, each only if present. */
    method Stop()
      modifies this`events
      ensures events == old(events) + (if hasBinlogPlayerMap then [BinlogPlayersStopped] else [])
                                    + (if hasMysqld then [MysqldClosed] else [])
    {
      if hasBinlogPlayerMap {
        events := events + [BinlogPlayersStopped];
      }
      if hasMysqld {
        events := events + [MysqldClosed];
      }
    }

    /** Offers `hsr` to every registered channel without blocking: each
        channel with room gets it appended, a full channel is skipped.  The
        registry itself is not changed. */
    method BroadcastHealthStreamReply(hsr: HealthStreamReply)
      requires RegistryValid()
      modifies Channels()
      ensures RegistryValid()
      ensures healthStreamMap == old(healthStreamMap)
      ensures forall k :: k in healthStreamMap ==>
                healthStreamMap[k].queue ==
                  if |old(healthStreamMap[k].queue)| < healthStreamMap[k].capacity
                  then old(healthStreamMap[k].queue) + [hsr]
                  else old(healthStreamMap[k].queue)
    {
      var pending := healthStreamMap.Keys;
      while pending != {}
        invariant pending <= healthStreamMap.Keys
        invariant forall k :: k in healthStreamMap ==> healthStreamMap[k].Valid()
        invariant forall k :: k in pending ==> healthStreamMap[k].queue == old(healthStreamMap[k].queue)
        invariant forall k :: k in healthStreamMap && k !in pending ==>
                    healthStreamMap[k].queue ==
                      if |old(healthStreamMap[k].queue)| < healthStreamMap[k].capacity
                      then old(healthStreamMap[k].queue) + [hsr]
                      else old(healthStreamMap[k].queue)
        decreases pending
      {
        var k := Pick(pending);
        var c := healthStreamMap[k];
        var sent := c.TrySend(hsr);
        pending := pending - {k};
      }
    }

    /** The number of registered health stream channels. */
    method HealthStreamMapSize() returns (n: int)
      ensures n == |healthStreamMap|
    {
      n := |healthStreamMap|;
    }
  }
}
