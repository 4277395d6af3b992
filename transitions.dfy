/**
 * The pure computations inside the dashboard's event handlers: what a
 * demo-mode pair does to the three lists, what a list fetch produces, and
 * how a new status message re-arms the five-second clearing timer.
 */
module Transitions {
  import opened Nodes

  const ScanningMessage: string := "Scanning for new nodes..."
  const MockScanDoneMessage: string := "Scan completed - Found 2 new nodes"
  const ScanInitiatedMessage: string := "Scan initiated. Waiting for results..."
  const ScanDoneMessage: string := "Scan completed"
  const ScanFailedMessage: string := "Failed to start scan"
  const ScanErrorMessage: string := "Error starting scan"
  const PairingMessage: string := "Pairing node..."
  const PairedMessage: string := "Node paired successfully"
  const PairFailedMessage: string := "Failed to pair node"
  const PairErrorMessage: string := "Error pairing node"
  const FetchAvailableFailedMessage: string := "Failed to fetch available nodes"
  const FetchCoordinatorsFailedMessage: string := "Failed to fetch coordinator nodes"
  const FetchSensorsFailedMessage: string := "Failed to fetch sensor nodes"
  const DemoDataMessage: string := "Error connecting to API - Using demo data"

  // ---------------------------------------------------------------------
  // Demo-mode pairing
  // ---------------------------------------------------------------------

  /** What the demo-mode pair timer works on: the selection and the three
      lists as they were when the pair was triggered. */
  datatype PairSnapshot = PairSnapshot(node: AvailableNode, nodeType: string, destination: string, lists: Registry)

  /** The three lists after the demo-mode pair timer fires, given the lists
      `current` at that moment. The timer writes the list of the node's kind
      and the available list, both computed from the snapshot; the list of
      the other kind keeps its current value. */
  function MockPaired(current: Registry, snap: PairSnapshot, temp: int, humidity: int): Registry {
    var mac := snap.node.mac;
    var available := WithoutMac(snap.lists.available, mac);
    if snap.nodeType == CoordinatorKind then
      Registry(available, snap.lists.coordinators + [mac], current.sensors)
    else
      var relay := if snap.destination == Hub then Hub else snap.destination;
      Registry(available, current.coordinators, snap.lists.sensors + [SensorNode(mac, relay, temp, humidity)])
  }

  /** Pairing a sensor-kind node appends exactly one sensor entry, for the
      selected MAC, relayed through the selected destination, with a reading
      in range; the coordinators are left alone; the available list loses
      exactly the entries with that MAC. */
  lemma MockPairSensor(current: Registry, snap: PairSnapshot, temp: int, humidity: int)
    requires snap.nodeType != CoordinatorKind
    requires 20 <= temp <= 29 && 50 <= humidity <= 69
    ensures var r := MockPaired(current, snap, temp, humidity);
      && |r.sensors| == |snap.lists.sensors| + 1
      && r.sensors[..|snap.lists.sensors|] == snap.lists.sensors
      && var added := r.sensors[|snap.lists.sensors|];
      && added.mac == snap.node.mac && added.coordinator == snap.destination
      && 20 <= added.temp <= 29 && 50 <= added.humidity <= 69
      && r.coordinators == current.coordinators
      && (forall n :: n in r.available <==> n in snap.lists.available && n.mac != snap.node.mac)
  {
  }

  /** Pairing a coordinator-kind node appends only its MAC to the
      coordinators, whatever the destination, and leaves the sensors alone. */
  lemma MockPairCoordinator(current: Registry, snap: PairSnapshot, temp: int, humidity: int)
    requires snap.nodeType == CoordinatorKind
    ensures var r := MockPaired(current, snap, temp, humidity);
      && r.coordinators == snap.lists.coordinators + [snap.node.mac]
      && r.sensors == current.sensors
      && (forall n :: n in r.available <==> n in snap.lists.available && n.mac != snap.node.mac)
  {
  }

  /** The destination plays no part in pairing a coordinator-kind node. */
  lemma MockPairCoordinatorIgnoresDestination(current: Registry, snap: PairSnapshot, d: string, temp: int, humidity: int)
    requires snap.nodeType == CoordinatorKind
    ensures MockPaired(current, snap.(destination := d), temp, humidity) == MockPaired(current, snap, temp, humidity)
  {
  }

  /** The pair keeps the order of the trigger-time available nodes it did
      not remove, whatever the lists hold when the timer fires: filtering a
      concatenation is concatenating the filtered parts, and an entry with
      another MAC survives in place. */
  lemma {:induction false} MockPairKeepsOrder(current: Registry, snap: PairSnapshot, before: seq<AvailableNode>, n: AvailableNode, after: seq<AvailableNode>, temp: int, humidity: int)
    requires snap.lists.available == before + [n] + after
    requires n.mac != snap.node.mac
    ensures MockPaired(current, snap, temp, humidity).available
         == WithoutMac(before, snap.node.mac) + [n] + WithoutMac(after, snap.node.mac)
  {
    var mac := snap.node.mac;
    WithoutMacAppend(before + [n], after, mac);
    WithoutMacAppend(before, [n], mac);
    WithoutMacKeeps([n], mac);
    assert MockPaired(current, snap, temp, humidity).available == WithoutMac(before + [n] + after, mac);
  }

  /** Pairing atomicity. When the lists did not change between trigger and
      timer and the selected MAC is on the available list once, the pair
      moves it: it is no longer available, it is on exactly one more of the
      coordinator and sensor lists than before, and taking the three lists
      together no MAC is gained or lost. */
  lemma {:induction false} MockPairMovesNode(current: Registry, snap: PairSnapshot, temp: int, humidity: int)
    requires snap.lists == current
    requires multiset(Macs(current.available))[snap.node.mac] == 1
    ensures var r := MockPaired(current, snap, temp, humidity);
      && snap.node.mac !in Macs(r.available)
      && multiset(r.coordinators)[snap.node.mac] + multiset(SensorMacs(r.sensors))[snap.node.mac]
         == multiset(current.coordinators)[snap.node.mac] + multiset(SensorMacs(current.sensors))[snap.node.mac] + 1
      && AllMacs(r) == AllMacs(current)
  {
    var mac := snap.node.mac;
    var r := MockPaired(current, snap, temp, humidity);
    var a, a' := multiset(Macs(current.available)), multiset(Macs(r.available));
    var c, c' := multiset(current.coordinators), multiset(r.coordinators);
    var s, s' := multiset(SensorMacs(current.sensors)), multiset(SensorMacs(r.sensors));
    WithoutMacMacs(current.available, mac);
    SplitSingle(a, mac);
    assert a == a' + multiset{mac};
    if snap.nodeType == CoordinatorKind {
      assert r.coordinators == current.coordinators + [mac];
      assert c' == c + multiset{mac} && s' == s;
    } else {
      var e := r.sensors[|current.sensors|];
      assert r.sensors == current.sensors + [e];
      SensorMacsAppend(current.sensors, e);
      assert s' == s + multiset{mac} && c' == c;
    }
    MoveOne(a, a', c, c', s, s', mac);
  }

  /** Moving one copy of `k` out of `a` and into `c` or `s` keeps the sum. */
  lemma MoveOne(a: multiset<string>, a': multiset<string>, c: multiset<string>, c': multiset<string>,
                s: multiset<string>, s': multiset<string>, k: string)
    requires a == a' + multiset{k}
    requires (c' == c + multiset{k} && s' == s) || (s' == s + multiset{k} && c' == c)
    ensures a' + c' + s' == a + c + s
    ensures c'[k] + s'[k] == c[k] + s[k] + 1
  {
  }

  // ---------------------------------------------------------------------
  // Fetching a list
  // ---------------------------------------------------------------------

  /** A fetched list, and the status message the fetch posts, if any. */
  datatype FetchOutcome<T> = FetchOutcome(list: seq<T>, status: Option<string>)

  /** One fetch of a list that currently holds `current`, whose demo
      snapshot is `mock` and whose non-2xx message is `failure`. */
  function Fetch<T>(useMock: bool, response: Response<seq<T>>, current: seq<T>, mock: seq<T>, failure: string): FetchOutcome<T> {
    if useMock then FetchOutcome(mock, None)
    else match response
      case Ok(nodes) => FetchOutcome(nodes, None)
      case NotOk => FetchOutcome(current, Some(failure))
      case Threw => FetchOutcome(mock, Some(DemoDataMessage))
  }

  /** In demo mode a fetch sets the list to its snapshot, whatever the
      response; remotely, Ok replaces the list with the payload, non-2xx
      keeps the list, and an exception falls back to the snapshot. */
  lemma FetchList<T>(useMock: bool, response: Response<seq<T>>, current: seq<T>, mock: seq<T>, failure: string)
    ensures var o := Fetch(useMock, response, current, mock, failure);
      && (useMock ==> o.list == mock)
      && (!useMock && response.Ok? ==> o.list == response.payload)
      && (!useMock && response.NotOk? ==> o.list == current)
      && (!useMock && response.Threw? ==> o.list == mock)
  {
  }

  /** A fetch posts a status message exactly when it is remote and fails:
      the list's own message for non-2xx and the demo-data message for an
      exception. */
  lemma FetchStatus<T>(useMock: bool, response: Response<seq<T>>, current: seq<T>, mock: seq<T>, failure: string)
    ensures var o := Fetch(useMock, response, current, mock, failure);
      && (o.status.Some? <==> !useMock && !response.Ok?)
      && (o.status == Some(DemoDataMessage) <== !useMock && response.Threw?)
      && (o.status == Some(failure) <== !useMock && response.NotOk?)
  {
  }

  /** A failed fetch never empties a list: it keeps the current list or
      falls back to the (non-empty) snapshot. */
  lemma FetchFailureKeepsData<T>(useMock: bool, response: Response<seq<T>>, current: seq<T>, mock: seq<T>, failure: string)
    requires !response.Ok? && current != [] && mock != []
    ensures Fetch(useMock, response, current, mock, failure).list != []
  {
  }

  /** Repeating a fetch with the same response changes nothing more. */
  lemma FetchIdempotent<T>(useMock: bool, response: Response<seq<T>>, current: seq<T>, mock: seq<T>, failure: string)
    ensures var once := Fetch(useMock, response, current, mock, failure);
      Fetch(useMock, response, once.list, mock, failure) == once
  {
  }

  // ---------------------------------------------------------------------
  // The self-clearing status message
  // ---------------------------------------------------------------------

  /** The status line: the message shown, the clearing timer currently armed
      (by the number it was started with), and how many timers have been
      started so far. */
  datatype StatusState = StatusState(message: string, timer: Option<nat>, timersStarted: nat)

  /** A timer is armed exactly while a message is shown, and it is the
      latest one started. */
  predicate StatusValid(s: StatusState) {
    (s.timer.Some? <==> s.message != "") && (s.timer.Some? ==> s.timer.value < s.timersStarted)
  }

  /** The status line after an event leaves `message` as the status. The
      clearing effect re-runs only when the message differs from the one
      shown: it cancels the armed timer and, for a non-empty message, starts
      a new one. Setting the message already shown is a no-op. */
  function Announce(s: StatusState, message: string): StatusState {
    if message == s.message then s
    else if message == "" then StatusState("", None, s.timersStarted)
    else StatusState(message, Some(s.timersStarted), s.timersStarted + 1)
  }

  /** Posting a message keeps the status line consistent and shows it. */
  lemma AnnounceValid(s: StatusState, message: string)
    requires StatusValid(s)
    ensures StatusValid(Announce(s, message)) && Announce(s, message).message == message
  {
  }

  /** A new non-empty message cancels the pending timer and arms a fresh
      one, never seen before. */
  lemma AnnounceRestartsTimer(s: StatusState, message: string)
    requires StatusValid(s) && message != "" && message != s.message
    ensures var r := Announce(s, message);
      && r.timer.Some? && r.timer != s.timer
      && r.timer.value == s.timersStarted && r.timersStarted == s.timersStarted + 1
  {
  }

  /** Re-posting the message already shown keeps the armed timer: it
      expires as scheduled for the first posting. */
  lemma AnnounceSameKeepsTimer(s: StatusState, message: string)
    ensures Announce(Announce(s, message), message) == Announce(s, message)
    ensures message == s.message ==> Announce(s, message).timer == s.timer
  {
  }

  /** When the armed timer fires the message clears and no timer is left. */
  lemma ExpiryClears(s: StatusState)
    requires StatusValid(s) && s.timer.Some?
    ensures var r := Announce(s, "");
      && r.message == "" && r.timer.None? && StatusValid(r)
  {
  }
}
