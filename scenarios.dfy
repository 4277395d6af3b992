/**
 * Client sessions run against the dashboard's contracts alone: each method
 * drives a fresh dashboard through a sequence of events and states what the
 * operator sees at the end.
 */
module Scenarios {
  import opened Nodes
  import opened Transitions
  import opened DashboardModel

  /** A dashboard after its mount effect, whose fetches see the first
      render's demo mode: they set the three snapshots (the response plays
      no part). */
  method Mounted() returns (d: Dashboard)
    ensures fresh(d) && d.Valid()
    ensures d.Lists() == Registry(MockAvailableNodes, MockCoordinatorNodes, MockSensorNodes)
    ensures d.useMockData && d.selectedNode == None && d.selectedDestination == Hub
    ensures !d.isScanning && !d.isPairing && d.scanStage == ScanIdle && d.pairStage == PairIdle
    ensures d.Status() == StatusState("", None, 0)
  {
    d := new Dashboard();
    d.FetchAvailable(true, NotOk);
    d.FetchCoordinators(true, NotOk);
    d.FetchSensors(true, NotOk);
  }

  /** A demo-mode scan yields the four snapshot nodes and the two
      discovered ones, six in all, and reports the two. */
  method MockScanFindsTwo() returns (available: seq<AvailableNode>, status: string, scanning: bool)
    ensures |available| == 6 && available[..4] == MockAvailableNodes && available[4..] == NewScanNodes
    ensures status == MockScanDoneMessage && !scanning
  {
    var d := new Dashboard();
    d.TriggerScan();
    d.MockScanTimerFires();
    available, status, scanning := d.availableNodes, d.statusMessage, d.isScanning;
  }

  /** A mounted demo dashboard after the first demo sensor was selected
      and paired to the hub with the given reading: the sensor list gains
      exactly that sensor, the node leaves the available list, and the
      selection is cleared. */
  method PairedFirstSensor(temp: int, humidity: int) returns (d: Dashboard)
    requires 20 <= temp <= 29 && 50 <= humidity <= 69
    ensures fresh(d) && d.Valid() && d.useMockData && !d.isScanning && !d.isPairing
    ensures d.sensorNodes == MockSensorNodes + [SensorNode("AA:BB:CC:DD:EE:01", Hub, temp, humidity)]
    ensures d.availableNodes == MockAvailableNodes[1..]
    ensures d.coordinatorNodes == MockCoordinatorNodes
    ensures d.selectedNode == None && d.statusMessage == PairedMessage
  {
    d := Mounted();
    d.Select(MockAvailableNodes[0]);
    d.TriggerPair();
    assert d.pairStage.snapshot == PairSnapshot(MockAvailableNodes[0], SensorKind, Hub, Registry(MockAvailableNodes, MockCoordinatorNodes, MockSensorNodes));
    d.MockPairTimerFires(temp, humidity);
    FirstMockNodeRemoved();
  }

  lemma FirstMockNodeRemoved()
    ensures WithoutMac(MockAvailableNodes, "AA:BB:CC:DD:EE:01") == MockAvailableNodes[1..]
  {
    var rest := MockAvailableNodes[1..];
    assert rest == [AvailableNode("AA:BB:CC:DD:EE:02", CoordinatorKind), AvailableNode("AA:BB:CC:DD:EE:03", SensorKind), AvailableNode("AA:BB:CC:DD:EE:04", SensorKind)];
    assert forall i :: 0 <= i < |rest| ==> rest[i].mac[|rest[i].mac| - 1] != '1';
    WithoutMacKeeps(rest, "AA:BB:CC:DD:EE:01");
  }

  /** A second click on the pair button while the first pair is pending
      changes nothing: one timer, one snapshot. */
  method DoublePairIsOnePair() returns (afterFirst: PairStage, afterSecond: PairStage, status: string)
    ensures afterFirst.MockPairTimer? && afterFirst == afterSecond
    ensures afterFirst.snapshot.node == MockAvailableNodes[2]
    ensures status == PairingMessage
  {
    var d := Mounted();
    d.Select(MockAvailableNodes[2]);
    d.TriggerPair();
    afterFirst := d.pairStage;
    d.TriggerPair();
    afterSecond, status := d.pairStage, d.statusMessage;
  }

  /** Remote mode, a non-2xx answer to the available-list fetch: the list
      keeps what it had and the failure is reported; an exception then
      falls back to the demo snapshot. */
  method RemoteFetchFailures() returns (afterNotOk: seq<AvailableNode>, notOkStatus: string,
                                        afterThrew: seq<AvailableNode>, threwStatus: string)
    ensures afterNotOk == [] && notOkStatus == FetchAvailableFailedMessage
    ensures afterThrew == MockAvailableNodes && threwStatus == DemoDataMessage
  {
    var d := new Dashboard();
    d.SetMockMode(false);
    d.FetchAvailable(false, NotOk);
    afterNotOk, notOkStatus := d.availableNodes, d.statusMessage;
    d.FetchAvailable(false, Threw);
    afterThrew, threwStatus := d.availableNodes, d.statusMessage;
  }

  /** A remote scan whose refresh is answered after the checkbox was
      switched to demo mode: the refresh was started by the remote handler,
      so it stays remote and the list becomes the server's payload. */
  method RemoteRefreshIgnoresToggle(payload: seq<AvailableNode>) returns (available: seq<AvailableNode>, demoMode: bool)
    ensures available == payload && demoMode
  {
    var d := new Dashboard();
    d.SetMockMode(false);
    d.TriggerScan();
    d.ScanCommandResult(Ok(()));
    d.SetMockMode(true);
    d.ScanWaitTimerFires();
    d.FetchAvailable(false, Ok(payload));
    available, demoMode := d.availableNodes, d.useMockData;
  }

  /** A mounted demo dashboard with a pair of the first demo sensor to the
      hub pending. */
  method PendingFirstPair() returns (d: Dashboard)
    ensures fresh(d) && d.Valid() && d.useMockData && !d.isScanning && d.scanStage == ScanIdle
    ensures d.pairStage == MockPairTimer(PairSnapshot(MockAvailableNodes[0], SensorKind, Hub,
                                                      Registry(MockAvailableNodes, MockCoordinatorNodes, MockSensorNodes)))
  {
    d := Mounted();
    d.Select(MockAvailableNodes[0]);
    d.TriggerPair();
  }

  /** A demo scan that completes while a demo pair is pending is undone by
      the pair: its timer filters the available list it saw when it was
      triggered, so both discovered nodes are lost and three nodes are left. */
  method PairUndoesScan(temp: int, humidity: int) returns (afterScan: seq<AvailableNode>, afterPair: seq<AvailableNode>)
    requires 20 <= temp <= 29 && 50 <= humidity <= 69
    ensures afterScan == ScanResultNodes() && NewScanNodes[0] in afterScan && NewScanNodes[1] in afterScan
    ensures afterPair == MockAvailableNodes[1..] && |afterPair| == 3
    ensures NewScanNodes[0] !in afterPair && NewScanNodes[1] !in afterPair
  {
    var d := PendingFirstPair();
    d.TriggerScan();
    d.MockScanTimerFires();
    afterScan := d.availableNodes;
    d.MockPairTimerFires(temp, humidity);
    FirstMockNodeRemoved();
    afterPair := d.availableNodes;
    DiscoveredAreNew();
  }

  lemma DiscoveredAreNew()
    ensures NewScanNodes[0] in ScanResultNodes() && NewScanNodes[1] in ScanResultNodes()
    ensures NewScanNodes[0] !in MockAvailableNodes[1..] && NewScanNodes[1] !in MockAvailableNodes[1..]
  {
    assert ScanResultNodes()[4] == NewScanNodes[0] && ScanResultNodes()[5] == NewScanNodes[1];
    assert forall i :: 0 <= i < 3 ==> MockAvailableNodes[1..][i].mac[16] != '5' && MockAvailableNodes[1..][i].mac[16] != '6';
  }

  /** A remote pair that the server rejects leaves the lists and the
      selection as they were and clears the pairing flag. */
  method RemotePairRejected() returns (before: Registry, after: Registry, selected: Option<AvailableNode>, pairing: bool, status: string)
    ensures after == before && selected == Some(MockAvailableNodes[0])
    ensures !pairing && status == PairFailedMessage
  {
    var d := Mounted();
    d.SetMockMode(false);
    d.Select(MockAvailableNodes[0]);
    before := d.Lists();
    d.TriggerPair();
    d.PairCommandResult(NotOk);
    after, selected, pairing, status := d.Lists(), d.selectedNode, d.isPairing, d.statusMessage;
  }

  /** A node paired in demo mode comes back as available after a demo-mode
      scan: nothing keeps a MAC on one list only. */
  method PairedNodeRediscovered() returns (lists: Registry)
    ensures "AA:BB:CC:DD:EE:01" in Macs(lists.available)
    ensures "AA:BB:CC:DD:EE:01" in SensorMacs(lists.sensors)
  {
    var d := PairedFirstSensor(25, 55);
    d.TriggerScan();
    d.MockScanTimerFires();
    lists := d.Lists();
    assert Macs(lists.available)[0] == "AA:BB:CC:DD:EE:01";
    assert SensorMacs(lists.sensors)[3] == "AA:BB:CC:DD:EE:01";
  }

  /** A coordinator-kind node is paired even while the destination still
      names a coordinator chosen for an earlier sensor selection; only its
      MAC is recorded. */
  method CoordinatorWithStaleDestination() returns (destinationAtTrigger: string, coordinators: seq<string>)
    ensures destinationAtTrigger == "BB:BB:CC:DD:EE:10"
    ensures coordinators == MockCoordinatorNodes + ["AA:BB:CC:DD:EE:02"]
  {
    var d := Mounted();
    d.Select(MockAvailableNodes[0]);
    d.SetDestination(MockCoordinatorNodes[0]);
    d.Select(MockAvailableNodes[1]);
    d.TriggerPair();
    destinationAtTrigger := d.pairStage.snapshot.destination;
    d.MockPairTimerFires(20, 50);
    coordinators := d.coordinatorNodes;
  }

  /** The clearing timer armed for "Scanning…" is replaced when the scan
      reports; the timer that finally fires clears the status line. */
  method StatusTimerRestarts() returns (firstTimer: Option<nat>, secondTimer: Option<nat>, finalStatus: string)
    ensures firstTimer == Some(0) && secondTimer == Some(1)
    ensures finalStatus == ""
  {
    var d := new Dashboard();
    d.TriggerScan();
    firstTimer := d.statusTimer;
    d.MockScanTimerFires();
    secondTimer := d.statusTimer;
    d.StatusTimerFires();
    finalStatus := d.statusMessage;
  }
}
