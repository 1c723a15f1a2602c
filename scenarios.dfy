/** Four end-to-end scenarios of the agent, checked from the contracts alone. */
module Scenarios {
  import opened Wrappers
  import opened Topo
  import opened Registration
  import opened HealthStream
  import opened TabletManager

  /** A tablet registered with a hostname override and only a "vt" port:
      the store ends up with that hostname and port, and the first state
      change compares an empty record with the registered one. */
  method StartWithHostnameOverride()
  {
    var alias := TabletAlias("cell1", 100);
    var stored := EmptyTablet.(alias := alias, keyspace := "ks", shard := "0", tabletType := "replica");
    var ts := new TopoServer(map[alias := stored]);
    var agent := new Agent(alias, ts, (t: Tablet) => false, (t: Tablet) => Err(Error("no end point")), false, false);
    var env := StartEnv(None, "host-a", Err(Error("no dns")), Resolved("10.0.0.1", []),
                        None, None, Some(Error("validate failed")), None, Some(Error("callback failed")));
    var err := agent.Start(0, 15000, 0, env);
    assert err == None;
    var registered := ts.tablets[alias];
    assert registered.hostname == "host-a";
    assert Ports(registered)[VtPortName] == 15000;
    assert VtsPortName !in Ports(registered);
    assert agent.tablet.tablet == registered;
    assert agent.events == [StateChange(EmptyTablet, registered, "Start")];
  }

  /** A refresh whose reread finds no record fails with an error naming the
      reason, and the callback is not called. */
  method RefreshAfterRecordVanished()
  {
    var alias := TabletAlias("cell1", 100);
    var ts := new TopoServer(map[]);
    var agent := new Agent(alias, ts, (t: Tablet) => false, (t: Tablet) => Err(Error("no end point")), false, false);
    var cached := new TabletInfo(EmptyTablet.(alias := alias));
    agent.SetTablet(cached);
    var err := agent.RefreshTablet("finalize-reparent", RefreshEnv(None, Ok(3306), None, None));
    assert err == Some(RereadError("finalize-reparent", ErrNoNode));
    RereadErrorMentionsReason("finalize-reparent", ErrNoNode);
    assert Contains(err.value.msg, "finalize-reparent");
    assert agent.events == [];
    assert agent.tablet == cached;
  }

  /** The daemon moved to 3307 and the write-back fails: the store keeps the
      old port, but the cached record, being the object the check changed
      in place, already carries the new one and is what the callback sees. */
  method RefreshAfterFailedPortWriteBack()
  {
    var alias := TabletAlias("cell1", 100);
    var stored := EmptyTablet.(alias := alias, portmap := Some(map[MysqlPortName := 3306, VtPortName := 15000]));
    var ts := new TopoServer(map[alias := stored]);
    var agent := new Agent(alias, ts, (t: Tablet) => false, (t: Tablet) => Err(Error("no end point")), false, false);
    var before := new TabletInfo(stored);
    agent.SetTablet(before);
    var err := agent.RefreshTablet("after-action", RefreshEnv(None, Ok(3307), Some(Error("bad version")), None));
    assert err == None;
    assert ts.tablets[alias] == stored;
    assert MysqlPort(agent.tablet.tablet) == 3307;
    assert agent.events == [StateChange(stored, agent.tablet.tablet, "after-action")];
  }

  /** A subscriber whose channel never fills receives two broadcasts in the
      order they were made.  The registry entry is written directly, standing
      in for a subscription. */
  method BroadcastsArriveInOrder(first: HealthStreamReply, second: HealthStreamReply)
  {
    var ts := new TopoServer(map[]);
    var agent := new Agent(TabletAlias("cell1", 100), ts, (t: Tablet) => false, (t: Tablet) => Err(Error("no end point")), false, false);
    var ch := new HealthChannel(2);
    agent.healthStreamMap := map[1 := ch];
    assert agent.healthStreamMap[1] == ch;
    agent.BroadcastHealthStreamReply(first);
    assert ch.queue == [first];
    agent.BroadcastHealthStreamReply(second);
    assert ch.queue == [first, second];
    var n := agent.HealthStreamMapSize();
    assert n == 1;
  }
}
