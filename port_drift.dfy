/** The decision made by the MySQL port drift check, and the in-place
    assignment of the new port to the record's port map. */
module PortDrift {
  import opened Wrappers
  import opened Topo

  /** The port the drift check writes into the record, or `None` when it
      leaves the record alone: the daemon could not be asked, or it
      reports the port the record already has (a missing entry reads as 0). */
  function DriftedPort(t: Tablet, daemonPort: Result<int>): (p: Option<int>)
    ensures p.None? <==> daemonPort.Err? || daemonPort.value == MysqlPort(t)
    ensures p.Some? ==> p.value == daemonPort.value && p.value != MysqlPort(t)
  {
    match daemonPort
    case Err(_) => None
    case Ok(mport) => if mport == MysqlPort(t) then None else Some(mport)
  }

  /** `tablet.Portmap["mysql"] = mport` as written: assigning into a nil Go
      map panics, shown here as `None`; otherwise only the "mysql" entry of
      the map changes. */
  function AssignMysqlPortAsWritten(t: Tablet, mport: int): (r: Option<Tablet>)
    ensures r.None? <==> t.portmap.None?
    ensures r.Some? ==> r.value == t.(portmap := Some(t.portmap.value[MysqlPortName := mport]))
  {
    match t.portmap
    case None => None
    case Some(m) => Some(t.(portmap := Some(m[MysqlPortName := mport])))
  }

  /** The drift check's guard lets a record with a nil port map through
      whenever the daemon reports a non-zero port, and the assignment that
      follows then panics: for example a record stored without a port map
      while the daemon listens on 3306. */
  lemma DriftOnNilPortmapPanics(t: Tablet, mport: int)
    requires t.portmap.None? && mport != 0
    ensures DriftedPort(t, Ok(mport)) == Some(mport)
    ensures AssignMysqlPortAsWritten(t, mport).None?
  {
  }

  /** The concrete input of the finding. */
  lemma DriftOnNilPortmapExample()
    ensures DriftedPort(EmptyTablet, Ok(3306)) == Some(3306)
    ensures AssignMysqlPortAsWritten(EmptyTablet, 3306) == None
  {
    DriftOnNilPortmapPanics(EmptyTablet, 3306);
  }

  /** The assignment as intended: the record ends up carrying `mport` as its
      MySQL port, creating the port map when it is nil, and nothing else in
      the record changes. */
  function SetMysqlPort(t: Tablet, mport: int): (r: Tablet)
    ensures r.portmap.Some? && MysqlPort(r) == mport
    ensures MysqlPortName in Ports(r)
    ensures forall k :: k != MysqlPortName ==>
              (k in Ports(r) <==> k in Ports(t)) && (k in Ports(t) ==> Ports(r)[k] == Ports(t)[k])
    ensures r.(portmap := t.portmap) == t
  {
    t.(portmap := Some(Ports(t)[MysqlPortName := mport]))
  }

  /** Wherever the code as written does not panic, the corrected assignment
      gives the same record. */
  lemma SetMysqlPortAgreesWhenNoPanic(t: Tablet, mport: int)
    requires t.portmap.Some?
    ensures AssignMysqlPortAsWritten(t, mport) == Some(SetMysqlPort(t, mport))
  {
  }

  /** Once the drifted port has been written into the record, a second check
      against the same daemon answer finds nothing to do. */
  lemma DriftCheckConverges(t: Tablet, daemonPort: Result<int>)
    requires DriftedPort(t, daemonPort).Some?
    ensures DriftedPort(SetMysqlPort(t, DriftedPort(t, daemonPort).value), daemonPort).None?
  {
  }
}
