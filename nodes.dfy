/**
 * The entities the dashboard keeps in its three node lists, the demo-mode
 * snapshots it falls back to, and the list computations (filter by MAC,
 * projection to MACs) its handlers use.
 */
module Nodes {

  datatype Option<T> = None | Some(value: T)

  /** A discovered, not yet paired node. `kind` is "sensor" or "coordinator"
      as the data source reports it; the dashboard treats every value other
      than "coordinator" as a sensor. */
  datatype AvailableNode = AvailableNode(mac: string, kind: string)

  /** A paired sensor: its relay (`coordinator`, the hub sentinel or a
      coordinator MAC) and its last reading. */
  datatype SensorNode = SensorNode(mac: string, coordinator: string, temp: int, humidity: int)

  /** The three lists the dashboard shows, taken together. */
  datatype Registry = Registry(available: seq<AvailableNode>, coordinators: seq<string>, sensors: seq<SensorNode>)

  /** What one network call produced: a 2xx response with its decoded body,
      a non-2xx response, or an exception (unreachable host, bad JSON). */
  datatype Response<T> = Ok(payload: T) | NotOk | Threw

  const Hub: string := "hub"
  const SensorKind: string := "sensor"
  const CoordinatorKind: string := "coordinator"

  /** Demo-mode snapshot of the available list. */
  const MockAvailableNodes: seq<AvailableNode> := [
    AvailableNode("AA:BB:CC:DD:EE:01", SensorKind),
    AvailableNode("AA:BB:CC:DD:EE:02", CoordinatorKind),
    AvailableNode("AA:BB:CC:DD:EE:03", SensorKind),
    AvailableNode("AA:BB:CC:DD:EE:04", SensorKind)
  ]

  /** Demo-mode snapshot of the coordinator list. */
  const MockCoordinatorNodes: seq<string> := ["BB:BB:CC:DD:EE:10", "BB:BB:CC:DD:EE:11"]

  /** Demo-mode snapshot of the sensor list. */
  const MockSensorNodes: seq<SensorNode> := [
    SensorNode("CC:CC:DD:EE:FF:20", "BB:BB:CC:DD:EE:10", 22, 65),
    SensorNode("CC:CC:DD:EE:FF:21", "BB:BB:CC:DD:EE:10", 24, 62),
    SensorNode("CC:CC:DD:EE:FF:22", "BB:BB:CC:DD:EE:11", 23, 68)
  ]

  /** The two nodes a demo-mode scan discovers. */
  const NewScanNodes: seq<AvailableNode> := [
    AvailableNode("AA:BB:CC:DD:EE:05", SensorKind),
    AvailableNode("AA:BB:CC:DD:EE:06", CoordinatorKind)
  ]

  /** The available list a demo-mode scan leaves behind: the snapshot
      followed by the two discovered nodes. */
  function ScanResultNodes(): (r: seq<AvailableNode>)
    ensures |r| == 6
    ensures r[..4] == MockAvailableNodes && r[4..] == NewScanNodes
  {
    MockAvailableNodes + NewScanNodes
  }

  /** The MAC of every entry of a list, in order; `mac` picks an entry's
      MAC. */
  function MacsOf<T>(xs: seq<T>, mac: T -> string): (r: seq<string>)
    ensures |r| == |xs|
    ensures forall i :: 0 <= i < |xs| ==> r[i] == mac(xs[i])
  {
    if xs == [] then [] else [mac(xs[0])] + MacsOf(xs[1..], mac)
  }

  /** The MACs of a list of available nodes. */
  function Macs(nodes: seq<AvailableNode>): seq<string> {
    MacsOf(nodes, (n: AvailableNode) => n.mac)
  }

  /** The MACs of a list of paired sensors. */
  function SensorMacs(sensors: seq<SensorNode>): seq<string> {
    MacsOf(sensors, (s: SensorNode) => s.mac)
  }

  /** Every MAC on any of the three lists, with multiplicity. */
  function AllMacs(r: Registry): multiset<string> {
    multiset(Macs(r.available)) + multiset(r.coordinators) + multiset(SensorMacs(r.sensors))
  }

  /** The entries of `nodes` whose MAC is not `mac`, in their order. */
  function WithoutMac(nodes: seq<AvailableNode>, mac: string): (r: seq<AvailableNode>)
    ensures forall n :: n in r <==> n in nodes && n.mac != mac
    ensures |r| <= |nodes|
  {
    if nodes == [] then []
    else if nodes[0].mac == mac then WithoutMac(nodes[1..], mac)
    else [nodes[0]] + WithoutMac(nodes[1..], mac)
  }

  /** Filtering commutes with concatenation: the kept entries stay in their
      original order. */
  lemma {:induction false} WithoutMacAppend(a: seq<AvailableNode>, b: seq<AvailableNode>, mac: string)
    ensures WithoutMac(a + b, mac) == WithoutMac(a, mac) + WithoutMac(b, mac)
  {
    if a == [] {
      assert a + b == b;
    } else {
      assert (a + b)[0] == a[0];
      assert (a + b)[1..] == a[1..] + b;
      WithoutMacAppend(a[1..], b, mac);
    }
  }

  /** A list in which no entry has `mac` is returned as it is. */
  lemma {:induction false} WithoutMacKeeps(nodes: seq<AvailableNode>, mac: string)
    requires forall i :: 0 <= i < |nodes| ==> nodes[i].mac != mac
    ensures WithoutMac(nodes, mac) == nodes
  {
    if nodes != [] {
      WithoutMacKeeps(nodes[1..], mac);
      assert [nodes[0]] + nodes[1..] == nodes;
    }
  }

  /** Filtering the same MAC twice is filtering it once. */
  lemma WithoutMacIdempotent(nodes: seq<AvailableNode>, mac: string)
    ensures WithoutMac(WithoutMac(nodes, mac), mac) == WithoutMac(nodes, mac)
  {
    WithoutMacKeeps(WithoutMac(nodes, mac), mac);
  }

  /** Appending a sensor appends its MAC. */
  lemma SensorMacsAppend(s: seq<SensorNode>, e: SensorNode)
    ensures SensorMacs(s + [e]) == SensorMacs(s) + [e.mac]
  {
  }

  /** Filtering removes every occurrence of `mac` and no other MAC: as a
      multiset, the MACs left are the old ones with `mac` taken out. */
  lemma {:induction false} WithoutMacMacs(nodes: seq<AvailableNode>, mac: string)
    ensures multiset(Macs(WithoutMac(nodes, mac))) == multiset(Macs(nodes))[mac := 0]
  {
    if nodes != [] {
      var x, rest := nodes[0], nodes[1..];
      var kept := WithoutMac(rest, mac);
      WithoutMacMacs(rest, mac);
      assert Macs(nodes) == [x.mac] + Macs(rest);
      var m := multiset(Macs(rest));
      assert multiset(Macs(nodes)) == m + multiset{x.mac};
      DropAfterAdd(m, x.mac, mac);
      if x.mac != mac {
        assert WithoutMac(nodes, mac) == [x] + kept;
        assert Macs([x] + kept) == [x.mac] + Macs(kept);
      }
    }
  }

  /** Adding one `x` and then dropping every `k`. */
  lemma DropAfterAdd(m: multiset<string>, x: string, k: string)
    ensures (m + multiset{x})[k := 0] == if x == k then m[k := 0] else m[k := 0] + multiset{x}
  {
  }

  /** A multiset holding `k` once is the rest plus that one `k`. */
  lemma SplitSingle(m: multiset<string>, k: string)
    requires m[k] == 1
    ensures m == m[k := 0] + multiset{k}
  {
  }
}
