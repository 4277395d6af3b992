/**
 * The dashboard's session state and its event handlers. Each asynchronous
 * handler is split into the part that runs when it is triggered and the
 * parts that run when its timer fires or its network call returns; the
 * fields `scanStage` and `pairStage` record which completion is pending.
 */
module DashboardModel {
  import opened Nodes
  import opened Transitions

  /** The completion a scan is waiting for. */
  datatype ScanStage =
    | ScanIdle
    | MockScanTimer      // demo mode: the 3 s discovery timer
    | ScanCommandSent    // remote: the POST to /api/commands/scan
    | ScanWaitTimer      // remote: the 5 s wait before re-fetching

  /** The completion a pair is waiting for. The demo-mode timer closes over
      the state at trigger time; the remote request carries the node and the
      destination it was sent with. */
  datatype PairStage =
    | PairIdle
    | MockPairTimer(snapshot: PairSnapshot)
    | PairCommandSent(nodeToPair: AvailableNode, destination: string)

  class Dashboard {
    var availableNodes: seq<AvailableNode>
    var coordinatorNodes: seq<string>
    var sensorNodes: seq<SensorNode>
    var selectedNode: Option<AvailableNode>
    var selectedDestination: string
    var nodeType: string
    var isScanning: bool
    var isPairing: bool
    var statusMessage: string
    var useMockData: bool

    var scanStage: ScanStage
    var pairStage: PairStage
    /** The clearing timer armed for the current message, by number. */
    var statusTimer: Option<nat>
    var timersStarted: nat

    /** The three lists. */
    function Lists(): Registry
      reads this
    {
      Registry(availableNodes, coordinatorNodes, sensorNodes)
    }

    /** The status line with its clearing timer. */
    function Status(): StatusState
      reads this
    {
      StatusState(statusMessage, statusTimer, timersStarted)
    }

    /** The flags are set exactly while a completion is pending; the kind of
        the selected node is `nodeType`; a clearing timer is armed exactly
        while a message is shown. */
    ghost predicate Valid()
      reads this
    {
      && (isScanning <==> scanStage != ScanIdle)
      && (isPairing <==> pairStage != PairIdle)
      && (selectedNode.Some? ==> nodeType == selectedNode.value.kind)
      && StatusValid(Status())
    }

    /** The state on first render. */
    constructor ()
      ensures Valid()
      ensures Lists() == Registry([], [], [])
      ensures selectedNode == None && selectedDestination == Hub && nodeType == SensorKind
      ensures !isScanning && !isPairing && useMockData
      ensures scanStage == ScanIdle && pairStage == PairIdle
      ensures Status() == StatusState("", None, 0)
    {
      availableNodes, coordinatorNodes, sensorNodes := [], [], [];
      selectedNode, selectedDestination, nodeType := None, Hub, SensorKind;
      isScanning, isPairing := false, false;
      statusMessage, useMockData := "", true;
      scanStage, pairStage := ScanIdle, PairIdle;
      statusTimer, timersStarted := None, 0;
    }

    /** Leaves `message` as the status at the end of an event. */
    method SetStatus(message: string)
      requires StatusValid(Status())
      modifies this`statusMessage, this`statusTimer, this`timersStarted
      ensures StatusValid(Status()) && statusMessage == message
      ensures Status() == Announce(old(Status()), message)
    {
      if message != statusMessage {
        if message == "" {
          statusTimer := None;
        } else {
          statusTimer := Some(timersStarted);
          timersStarted := timersStarted + 1;
        }
        statusMessage := message;
      }
    }

    /** The clearing timer of the shown message fires. */
    method StatusTimerFires()
      requires Valid() && statusTimer.Some?
      modifies this`statusMessage, this`statusTimer, this`timersStarted
      ensures Valid()
      ensures statusMessage == "" && statusTimer == None && timersStarted == old(timersStarted)
    {
      SetStatus("");
    }

    // -------------------------------------------------------------------
    // Fetching the lists
    // -------------------------------------------------------------------

    /** One call of the available-list fetch, answered by `response`.
        `demoAtCall` is the demo-mode flag of the render whose handler made
        the call: the mount effect sees the first render's `true`, and the
        refresh a remote scan or remote pair starts sees the `false` of the
        render where it was clicked, whatever `useMockData` holds by now. */
    method FetchAvailable(demoAtCall: bool, response: Response<seq<AvailableNode>>)
      requires Valid()
      modifies this`availableNodes, this`statusMessage, this`statusTimer, this`timersStarted
      ensures Valid()
      ensures var o := Fetch(demoAtCall, response, old(availableNodes), MockAvailableNodes, FetchAvailableFailedMessage);
        && availableNodes == o.list
        && Status() == if o.status.Some? then Announce(old(Status()), o.status.value) else old(Status())
    {
      if demoAtCall {
        availableNodes := MockAvailableNodes;
        return;
      }
      match response
      case Ok(nodes) =>
        availableNodes := nodes;
      case NotOk =>
        SetStatus(FetchAvailableFailedMessage);
      case Threw =>
        SetStatus(DemoDataMessage);
        availableNodes := MockAvailableNodes;
    }

    /** One call of the coordinator-list fetch, answered by `response`;
        `demoAtCall` as for `FetchAvailable`. */
    method FetchCoordinators(demoAtCall: bool, response: Response<seq<string>>)
      requires Valid()
      modifies this`coordinatorNodes, this`statusMessage, this`statusTimer, this`timersStarted
      ensures Valid()
      ensures var o := Fetch(demoAtCall, response, old(coordinatorNodes), MockCoordinatorNodes, FetchCoordinatorsFailedMessage);
        && coordinatorNodes == o.list
        && Status() == if o.status.Some? then Announce(old(Status()), o.status.value) else old(Status())
    {
      if demoAtCall {
        coordinatorNodes := MockCoordinatorNodes;
        return;
      }
      match response
      case Ok(nodes) =>
        coordinatorNodes := nodes;
      case NotOk =>
        SetStatus(FetchCoordinatorsFailedMessage);
      case Threw =>
        SetStatus(DemoDataMessage);
        coordinatorNodes := MockCoordinatorNodes;
    }

    /** One call of the sensor-list fetch, answered by `response`;
        `demoAtCall` as for `FetchAvailable`. */
    method FetchSensors(demoAtCall: bool, response: Response<seq<SensorNode>>)
      requires Valid()
      modifies this`sensorNodes, this`statusMessage, this`statusTimer, this`timersStarted
      ensures Valid()
      ensures var o := Fetch(demoAtCall, response, old(sensorNodes), MockSensorNodes, FetchSensorsFailedMessage);
        && sensorNodes == o.list
        && Status() == if o.status.Some? then Announce(old(Status()), o.status.value) else old(Status())
    {
      if demoAtCall {
        sensorNodes := MockSensorNodes;
        return;
      }
      match response
      case Ok(nodes) =>
        sensorNodes := nodes;
      case NotOk =>
        SetStatus(FetchSensorsFailedMessage);
      case Threw =>
        SetStatus(DemoDataMessage);
        sensorNodes := MockSensorNodes;
    }

    // -------------------------------------------------------------------
    // Scanning
    // -------------------------------------------------------------------

    /** A click on the scan button, which is disabled while scanning. */
    method TriggerScan()
      requires Valid()
      modifies this`isScanning, this`scanStage, this`statusMessage, this`statusTimer, this`timersStarted
      ensures Valid() && isScanning
      ensures old(isScanning) ==> scanStage == old(scanStage) && Status() == old(Status())
      ensures !old(isScanning) ==>
        && scanStage == (if useMockData then MockScanTimer else ScanCommandSent)
        && Status() == Announce(old(Status()), ScanningMessage)
    {
      if isScanning {
        return;
      }
      isScanning := true;
      SetStatus(ScanningMessage);
      scanStage := if useMockData then MockScanTimer else ScanCommandSent;
    }

    /** The demo-mode discovery timer fires: the available list becomes the
        snapshot plus the two discovered nodes, whatever it held. */
    method MockScanTimerFires()
      requires Valid() && scanStage == MockScanTimer
      modifies this`availableNodes, this`isScanning, this`scanStage, this`statusMessage, this`statusTimer, this`timersStarted
      ensures Valid() && !isScanning && scanStage == ScanIdle
      ensures availableNodes == ScanResultNodes()
      ensures Status() == Announce(old(Status()), MockScanDoneMessage)
    {
      availableNodes := MockAvailableNodes + NewScanNodes;
      isScanning := false;
      scanStage := ScanIdle;
      SetStatus(MockScanDoneMessage);
    }

    /** The scan command returns. On success the scan goes on waiting. */
    method ScanCommandResult(response: Response<()>)
      requires Valid() && scanStage == ScanCommandSent
      modifies this`isScanning, this`scanStage, this`statusMessage, this`statusTimer, this`timersStarted
      ensures Valid()
      ensures response.Ok? ==> isScanning && scanStage == ScanWaitTimer && Status() == Announce(old(Status()), ScanInitiatedMessage)
      ensures response.NotOk? ==> !isScanning && scanStage == ScanIdle && Status() == Announce(old(Status()), ScanFailedMessage)
      ensures response.Threw? ==> !isScanning && scanStage == ScanIdle && Status() == Announce(old(Status()), ScanErrorMessage)
    {
      match response
      case Ok(_) =>
        SetStatus(ScanInitiatedMessage);
        scanStage := ScanWaitTimer;
      case NotOk =>
        SetStatus(ScanFailedMessage);
        isScanning := false;
        scanStage := ScanIdle;
      case Threw =>
        SetStatus(ScanErrorMessage);
        isScanning := false;
        scanStage := ScanIdle;
    }

    /** The remote wait timer fires. The available-list fetch it starts is
        not awaited and arrives later as its own `FetchAvailable` event, with
        `demoAtCall` false. */
    method ScanWaitTimerFires()
      requires Valid() && scanStage == ScanWaitTimer
      modifies this`isScanning, this`scanStage, this`statusMessage, this`statusTimer, this`timersStarted
      ensures Valid() && !isScanning && scanStage == ScanIdle
      ensures Status() == Announce(old(Status()), ScanDoneMessage)
    {
      isScanning := false;
      scanStage := ScanIdle;
      SetStatus(ScanDoneMessage);
    }

    // -------------------------------------------------------------------
    // Pairing
    // -------------------------------------------------------------------

    /** A click on the pair button, which is disabled while pairing; with no
        node selected the handler returns at once. */
    method TriggerPair()
      requires Valid()
      modifies this`isPairing, this`pairStage, this`statusMessage, this`statusTimer, this`timersStarted
      ensures Valid()
      ensures old(selectedNode).None? || old(isPairing) ==>
        isPairing == old(isPairing) && pairStage == old(pairStage) && Status() == old(Status())
      ensures old(selectedNode).Some? && !old(isPairing) ==>
        && isPairing
        && Status() == Announce(old(Status()), PairingMessage)
        && pairStage == if useMockData
                        then MockPairTimer(PairSnapshot(selectedNode.value, nodeType, selectedDestination, Lists()))
                        else PairCommandSent(selectedNode.value, selectedDestination)
    {
      if isPairing || selectedNode.None? {
        return;
      }
      isPairing := true;
      SetStatus(PairingMessage);
      if useMockData {
        pairStage := MockPairTimer(PairSnapshot(selectedNode.value, nodeType, selectedDestination, Lists()));
      } else {
        pairStage := PairCommandSent(selectedNode.value, selectedDestination);
      }
    }

    /** The demo-mode pair timer fires with the reading it drew. */
    method MockPairTimerFires(temp: int, humidity: int)
      requires Valid() && pairStage.MockPairTimer?
      requires 20 <= temp <= 29 && 50 <= humidity <= 69
      modifies this`availableNodes, this`coordinatorNodes, this`sensorNodes, this`selectedNode,
               this`selectedDestination, this`isPairing, this`pairStage,
               this`statusMessage, this`statusTimer, this`timersStarted
      ensures Valid()
      ensures Lists() == MockPaired(old(Lists()), old(pairStage.snapshot), temp, humidity)
      ensures selectedNode == None && selectedDestination == Hub
      ensures !isPairing && pairStage == PairIdle
      ensures Status() == Announce(old(Status()), PairedMessage)
    {
      var snap := pairStage.snapshot;
      var mac := snap.node.mac;
      if snap.nodeType == CoordinatorKind {
        coordinatorNodes := snap.lists.coordinators + [mac];
      } else {
        var relay := if snap.destination == Hub then Hub else snap.destination;
        sensorNodes := snap.lists.sensors + [SensorNode(mac, relay, temp, humidity)];
      }
      availableNodes := WithoutMac(snap.lists.available, mac);
      selectedNode := None;
      selectedDestination := Hub;
      SetStatus(PairedMessage);
      isPairing := false;
      pairStage := PairIdle;
    }

    /** The pair command returns. On success the handler starts the three
        list fetches without awaiting them; each arrives later as its own
        `Fetch…` event with `demoAtCall` false, in any order. */
    method PairCommandResult(response: Response<()>)
      requires Valid() && pairStage.PairCommandSent?
      modifies this`selectedNode, this`selectedDestination, this`isPairing, this`pairStage,
               this`statusMessage, this`statusTimer, this`timersStarted
      ensures Valid() && !isPairing && pairStage == PairIdle
      ensures response.Ok? ==>
        && selectedNode == None && selectedDestination == CoordinatorKind
        && Status() == Announce(old(Status()), PairedMessage)
      ensures !response.Ok? ==>
        && selectedNode == old(selectedNode) && selectedDestination == old(selectedDestination)
        && Status() == Announce(old(Status()), if response.NotOk? then PairFailedMessage else PairErrorMessage)
    {
      match response {
        case Ok(_) =>
          SetStatus(PairedMessage);
          selectedNode := None;
          selectedDestination := CoordinatorKind;
        case NotOk =>
          SetStatus(PairFailedMessage);
        case Threw =>
          SetStatus(PairErrorMessage);
      }
      isPairing := false;
      pairStage := PairIdle;
    }

    // -------------------------------------------------------------------
    // Selection and mode
    // -------------------------------------------------------------------

    /** The select button of an entry of the available list. */
    method Select(node: AvailableNode)
      requires Valid() && node in availableNodes
      modifies this`selectedNode, this`nodeType
      ensures Valid() && selectedNode == Some(node) && nodeType == node.kind
    {
      selectedNode := Some(node);
      nodeType := node.kind;
    }

    /** The cancel button of the pairing panel. The destination and the
        kind are left as they were. */
    method Cancel()
      requires Valid()
      modifies this`selectedNode
      ensures Valid() && selectedNode == None
    {
      selectedNode := None;
    }

    /** A choice in the destination list of the pairing panel, which is shown
        only with a node selected and offers the hub, and for a sensor-kind
        node also every coordinator. */
    method SetDestination(d: string)
      requires Valid() && selectedNode.Some?
      requires d == Hub || (nodeType != CoordinatorKind && d in coordinatorNodes)
      modifies this`selectedDestination
      ensures Valid() && selectedDestination == d
    {
      selectedDestination := d;
    }

    /** The demo-mode checkbox. Nothing is re-fetched. */
    method SetMockMode(b: bool)
      requires Valid()
      modifies this`useMockData
      ensures Valid() && useMockData == b
    {
      useMockData := b;
    }
  }
}
