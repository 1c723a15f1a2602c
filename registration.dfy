/** The record update that `Start` hands to the topology server when it
    registers the tablet: hostname, IP address and the service port map. */
module Registration {
  import opened Wrappers
  import opened Topo

  /** The closure `f` built in `Start`.  It owns hostname, IP address and the
      "mysql", "vt" and "vts" ports; every other field and every other port
      passes through unchanged.  A zero `mysqlPort` means "unknown" and keeps
      whatever the record had; a zero `vtsPort` means "no secure port" and
      removes the entry. */
  function Register(t: Tablet, hostname: string, ipAddr: string, mysqlPort: int, vtPort: int, vtsPort: int): (r: Tablet)
    ensures r.hostname == hostname && r.ipAddr == ipAddr
    ensures r.portmap.Some?
    ensures VtPortName in Ports(r) && Ports(r)[VtPortName] == vtPort
    ensures mysqlPort != 0 ==> MysqlPortName in Ports(r) && Ports(r)[MysqlPortName] == mysqlPort
    ensures mysqlPort == 0 ==> (MysqlPortName in Ports(r) <==> MysqlPortName in Ports(t))
    ensures mysqlPort == 0 && MysqlPortName in Ports(t) ==> Ports(r)[MysqlPortName] == Ports(t)[MysqlPortName]
    ensures vtsPort != 0 ==> VtsPortName in Ports(r) && Ports(r)[VtsPortName] == vtsPort
    ensures vtsPort == 0 ==> VtsPortName !in Ports(r)
    ensures forall k :: k != MysqlPortName && k != VtPortName && k != VtsPortName ==>
              (k in Ports(r) <==> k in Ports(t)) && (k in Ports(t) ==> Ports(r)[k] == Ports(t)[k])
    ensures r.(hostname := t.hostname, ipAddr := t.ipAddr, portmap := t.portmap) == t
  {
    // a nil port map is replaced by a new, empty one
    var created := Ports(t);
    var withMysql := if mysqlPort != 0 then created[MysqlPortName := mysqlPort] else created;
    var withVt := withMysql[VtPortName := vtPort];
    var withVts := if vtsPort != 0 then withVt[VtsPortName := vtsPort] else withVt - {VtsPortName};
    t.(hostname := hostname, ipAddr := ipAddr, portmap := Some(withVts))
  }

  /** Registering twice with the same values is the same as registering once:
      the topology server may retry the update on a conflicting writer. */
  lemma RegisterIdempotent(t: Tablet, hostname: string, ipAddr: string, mysqlPort: int, vtPort: int, vtsPort: int)
    ensures Register(Register(t, hostname, ipAddr, mysqlPort, vtPort, vtsPort), hostname, ipAddr, mysqlPort, vtPort, vtsPort)
         == Register(t, hostname, ipAddr, mysqlPort, vtPort, vtsPort)
  {
    var once := Register(t, hostname, ipAddr, mysqlPort, vtPort, vtsPort);
    var twice := Register(once, hostname, ipAddr, mysqlPort, vtPort, vtsPort);
    assert Ports(twice) == Ports(once);
  }

  /** The resulting port map, written out: the old map (or an empty one) with
      "mysql" set if known, "vt" set, and "vts" set or removed. */
  lemma RegisterPorts(t: Tablet, hostname: string, ipAddr: string, mysqlPort: int, vtPort: int, vtsPort: int)
    ensures var r := Register(t, hostname, ipAddr, mysqlPort, vtPort, vtsPort);
      Ports(r).Keys == (Ports(t).Keys - {VtsPortName})
                       + (if mysqlPort != 0 then {MysqlPortName} else {})
                       + {VtPortName}
                       + (if vtsPort != 0 then {VtsPortName} else {})
  {
  }

  /** A registration that knows the MySQL port leaves nothing for the port
      drift check to correct when the daemon reports that same port. */
  lemma RegisterRecordsKnownMysqlPort(t: Tablet, hostname: string, ipAddr: string, mysqlPort: int, vtPort: int, vtsPort: int)
    requires mysqlPort != 0
    ensures MysqlPort(Register(t, hostname, ipAddr, mysqlPort, vtPort, vtsPort)) == mysqlPort
  {
  }
}
