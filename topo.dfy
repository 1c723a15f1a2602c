/** The topology records the agent works on, and an abstract model of the
    topology server it reads and writes.  The server itself is an external
    collaborator: it is a map from tablet alias to the stored record, and
    every call takes its transient failure as an explicit parameter. */
module Topo {
  import opened Wrappers

  /** Identifies one tablet: its cell and its numeric id. */
  datatype TabletAlias = TabletAlias(cell: string, uid: nat)

  /** The cluster-visible tablet record (Go's `topo.Tablet`).  `portmap` is
      `None` for Go's nil map. */
  datatype Tablet = Tablet(
    alias: TabletAlias,
    hostname: string,
    ipAddr: string,
    portmap: Option<map<string, int>>,
    keyspace: string,
    shard: string,
    tabletType: string,
    tags: map<string, string>,
    dbNameOverride: string)

  /** `&topo.Tablet{}`: every field at its zero value, nil port map. */
  const EmptyTablet: Tablet :=
    Tablet(TabletAlias("", 0), "", "", None, "", "", "", map[], "")

  const MysqlPortName: string := "mysql"
  const VtPortName: string := "vt"
  const VtsPortName: string := "vts"

  /** The port map as Go code reads it: a nil map reads as empty. */
  function Ports(t: Tablet): map<string, int>
  {
    t.portmap.GetOr(map[])
  }

  /** `tablet.Portmap["mysql"]`: a missing key (or a nil map) reads as 0. */
  function MysqlPort(t: Tablet): (p: int)
    ensures t.portmap.None? ==> p == 0
    ensures MysqlPortName !in Ports(t) ==> p == 0
    ensures MysqlPortName in Ports(t) ==> p == t.portmap.value[MysqlPortName]
  {
    if MysqlPortName in Ports(t) then Ports(t)[MysqlPortName] else 0
  }

  /** The serving-control override record (Go's `topo.TabletControl`). */
  datatype TabletControl = TabletControl(disableQueryService: bool, blacklistedTables: seq<string>)

  /** A serving address as published in the serving graph. */
  datatype EndPoint = EndPoint(uid: nat, host: string, namedPortMap: map<string, int>)

  /** Where a serving address is published: cell, keyspace, shard and type. */
  datatype EndPointsKey = EndPointsKey(cell: string, keyspace: string, shard: string, tabletType: string)

  /** `topo.ErrNoNode`, returned for an alias that has no record. */
  const ErrNoNode: Error := Error("node doesn't exist")

  /** The error a read or write of the record at `alias` returns: the
      transient `fault` if there is one, `ErrNoNode` for a missing record. */
  function StoreOutcome(tablets: map<TabletAlias, Tablet>, alias: TabletAlias, fault: Option<Error>): (err: Option<Error>)
    ensures err.None? <==> fault.None? && alias in tablets
  {
    if fault.Some? then fault
    else if alias in tablets then None
    else Some(ErrNoNode)
  }

  /** Go's `*topo.TabletInfo`: a record held by reference.  Whoever holds the
      same object sees every in-place change made to it. */
  class TabletInfo {
    var tablet: Tablet

    constructor (t: Tablet)
      ensures tablet == t
    {
      tablet := t;
    }
  }

  /** The topology server: the stored records and the serving graph. */
  class TopoServer {
    var tablets: map<TabletAlias, Tablet>
    var endPoints: map<EndPointsKey, map<nat, EndPoint>>

    constructor (tablets0: map<TabletAlias, Tablet>)
      ensures tablets == tablets0 && endPoints == map[]
    {
      tablets := tablets0;
      endPoints := map[];
    }

    /** `topo.GetTablet`: a fresh object holding a copy of the stored record. */
    method GetTablet(alias: TabletAlias, fault: Option<Error>) returns (ti: TabletInfo?, err: Option<Error>)
      ensures err == StoreOutcome(tablets, alias, fault)
      ensures err.None? <==> ti != null
      ensures ti != null ==> fresh(ti) && ti.tablet == tablets[alias]
    {
      err := StoreOutcome(tablets, alias, fault);
      if err.None? {
        ti := new TabletInfo(tablets[alias]);
      } else {
        ti := null;
      }
    }

    /** `UpdateTabletFields`: read-modify-write of the stored record with the
        update function `f`; nothing is written when the call fails. */
    method UpdateTabletFields(alias: TabletAlias, f: Tablet -> Tablet, fault: Option<Error>) returns (err: Option<Error>)
      modifies this`tablets
      ensures err == StoreOutcome(old(tablets), alias, fault)
      ensures err.None? ==> tablets == old(tablets)[alias := f(old(tablets)[alias])]
      ensures err.Some? ==> tablets == old(tablets)
    {
      err := StoreOutcome(tablets, alias, fault);
      if err.None? {
        tablets := tablets[alias := f(tablets[alias])];
      }
    }

    /** `topo.UpdateTablet`: writes the whole record back under its own alias. */
    method UpdateTablet(ti: TabletInfo, fault: Option<Error>) returns (err: Option<Error>)
      modifies this`tablets
      ensures err == StoreOutcome(old(tablets), ti.tablet.alias, fault)
      ensures err.None? ==> tablets == old(tablets)[ti.tablet.alias := ti.tablet]
      ensures err.Some? ==> tablets == old(tablets)
    {
      err := StoreOutcome(tablets, ti.tablet.alias, fault);
      if err.None? {
        tablets := tablets[ti.tablet.alias := ti.tablet];
      }
    }

    /** `UpdateTabletEndpoint`: publishes `ep` (replacing any address with the
        same uid) under `key`. */
    method UpdateTabletEndpoint(key: EndPointsKey, ep: EndPoint, fault: Option<Error>) returns (err: Option<Error>)
      modifies this`endPoints
      ensures err == fault
      ensures err.None? ==> endPoints == old(endPoints)[key := old(EndPointsAt(key))[ep.uid := ep]]
      ensures err.Some? ==> endPoints == old(endPoints)
    {
      err := fault;
      if err.None? {
        endPoints := endPoints[key := EndPointsAt(key)[ep.uid := ep]];
      }
    }

    /** The addresses published under `key`, empty when there are none. */
    function EndPointsAt(key: EndPointsKey): map<nat, EndPoint>
      reads this
    {
      if key in endPoints then endPoints[key] else map[]
    }
  }
}
