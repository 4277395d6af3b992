# Sensor-network pairing dashboard, modelled in Dafny

The dashboard lets an operator run a sensor network with three tiers: one hub,
coordinator relay nodes, and sensor nodes. It shows three lists:

- the available (discovered, unpaired) nodes;
- the paired coordinators;
- the paired sensors, each with its relay and a reading.

It scans for new nodes and pairs a selected node to a destination. There are
two data sources. Demo mode uses canned snapshots and timers. Remote mode
calls a management API and falls back to the snapshots when a list fetch
throws; a scan or pair command that throws only posts an error message.
Every status message clears itself after five seconds.

The model has four modules:

- `Nodes` (`nodes.dfy`): the entities (`AvailableNode`, `SensorNode`,
  `Registry` for the three lists taken together, `Response` for the outcome
  of a network call: `Ok(payload)`, `NotOk` for a non-2xx answer, `Threw`),
  the demo snapshots, and the list computations: the filter by MAC
  (`WithoutMac`) and the projections to MACs.
- `Transitions` (`transitions.dfy`): the pure computations inside the
  handlers, with their properties as lemmas. `MockPaired` is what the
  demo-mode pair timer does to the lists, `Fetch` is one list fetch, and
  `Announce` is how a new status message re-arms the clearing timer.
- `DashboardModel` (`dashboard.dfy`): the class `Dashboard`. Its fields are
  the component's state variables, plus the pending completions. There is
  one method per event. Each asynchronous handler is a trigger method plus
  completion methods: a timer firing, or a network call returning. Every
  method names in `modifies` exactly the fields it writes, so every other
  field is unchanged. Its `ensures` give the new value of each field it
  writes, in terms of the functions of `Transitions`.
- `Scenarios` (`scenarios.dfy`): sessions driven through the class contracts
  alone. Examples: a demo scan, a demo pair, a double click on pair, remote
  fetch failures, a rejected remote pair, the status-timer restart.

Modelling decisions:

- The mock pair timer closes over the selection, the node kind, the
  destination and the three lists as they were at trigger time.
  `TriggerPair` stores them in a `PairSnapshot`, and `MockPairTimerFires`
  computes from that snapshot. The list of the other kind keeps its value
  at fire time.
- `scanStage` and `pairStage` record which completion is pending. The
  invariant `Valid()` states that `isScanning` and `isPairing` are true
  exactly while a completion is pending.
- The status timer is a numbered timer (`statusTimer`, `timersStarted`).
  The clearing effect re-runs only when the message changes. So posting the
  message already shown keeps the armed timer, and a different message
  cancels it and arms a new one (`Announce`).
- A disabled button cannot be clicked. Its click is modelled as a no-op:
  `TriggerScan` while scanning, `TriggerPair` while pairing, and
  `TriggerPair` with no selection (the handler's own early return).
- `Select` takes only an entry of the available list, because those are
  the only select buttons rendered. `SetDestination` takes only an offered
  option: the hub, and for a sensor-kind node also a coordinator MAC.
- The network is a `Response` argument, the random reading is two
  arguments, and each timer is an explicit "fires" event.
- The fetches that the remote pair and the remote scan start without
  awaiting them are separate `FetchAvailable` / `FetchCoordinators` /
  `FetchSensors` events. They can arrive in any order, so the refresh is not
  atomic. Each fetch event takes the demo-mode flag of the render whose
  handler called it (`demoAtCall`), not the flag's value when the answer
  arrives: the mount effect's fetches see the first render's `true`
  (`Scenarios.Mounted`), and the refresh a remote scan or remote pair starts
  sees the `false` of the render where it was clicked, so it stays remote even
  if the checkbox is switched meanwhile (`Scenarios.RemoteRefreshIgnoresToggle`).

What the code does not enforce, and the model therefore does not assume:

- A MAC is not kept on one list only. `Scenarios.PairedNodeRediscovered`
  shows a paired sensor back on the available list after a demo scan.
- A sensor's relay is not checked against the coordinator list.
- A coordinator-kind node is paired whatever the destination says
  (`Scenarios.CoordinatorWithStaleDestination`).
- A non-2xx answer to a list fetch keeps the old list and posts a failure
  message. It does not fall back to the demo snapshot; only an exception
  does.
- A demo scan leaves six available nodes: the four snapshot nodes and the
  two discovered ones.
- After a successful remote pair the destination becomes the literal
  `"coordinator"`. After a demo pair it becomes `"hub"`.
- When a remote pair fails, the selection is left as it is.
- Pairing is not atomic against a scan. The demo pair timer filters the
  available list it saw when the pair was triggered, so a demo scan that
  completes while a demo pair is pending is overwritten when the pair timer
  fires: three nodes are left and neither discovered node
  (`Scenarios.PairUndoesScan`). `Transitions.MockPairMovesNode` holds only
  when the lists did not change between trigger and timer.

## Model

| member | source | states |
|---|---|---|
| `Nodes.ScanResultNodes` | frontend-ui/src/components/Dashboard.tsx:107-111 | the list a demo scan sets has 6 entries: the four snapshot nodes, then the two discovered ones |
| `Nodes.WithoutMac` | frontend-ui/src/components/Dashboard.tsx:167 | an entry is kept exactly when it was in the list and its MAC differs from the paired one; the list never grows |
| `Nodes.WithoutMacAppend` | frontend-ui/src/components/Dashboard.tsx:167 | filtering a concatenation concatenates the filtered parts, so the kept entries stay in their original order |
| `Nodes.WithoutMacKeeps` | frontend-ui/src/components/Dashboard.tsx:167 | a list with no entry for the MAC comes back unchanged |
| `Nodes.WithoutMacIdempotent` | frontend-ui/src/components/Dashboard.tsx:167 | filtering the same MAC twice is filtering it once |
| `Nodes.WithoutMacMacs` | frontend-ui/src/components/Dashboard.tsx:167 | as a multiset, the MACs left are the old ones with every copy of the paired MAC removed and no other MAC touched |
| `Transitions.MockPairSensor` | frontend-ui/src/components/Dashboard.tsx:157-167 | a sensor-kind pair appends exactly one sensor entry to the trigger-time list: selected MAC, relay = selected destination, 20 ≤ temp ≤ 29, 50 ≤ humidity ≤ 69; coordinators keep their value; available keeps exactly the entries with another MAC |
| `Transitions.MockPairCoordinator` | frontend-ui/src/components/Dashboard.tsx:155-167 | a coordinator-kind pair appends only the MAC to the trigger-time coordinator list and leaves the sensors as they are; available loses that MAC |
| `Transitions.MockPairCoordinatorIgnoresDestination` | frontend-ui/src/components/Dashboard.tsx:155-156 | the destination plays no part in a coordinator-kind pair |
| `Transitions.MockPairKeepsOrder` | frontend-ui/src/components/Dashboard.tsx:167 | an entry of the trigger-time available list with another MAC stays between the filtered entries before it and after it, whatever the lists hold when the timer fires |
| `Transitions.MockPairMovesNode` | frontend-ui/src/components/Dashboard.tsx:154-167 | with lists unchanged since the trigger and the MAC available once: it leaves the available list, lands on exactly one more of the coordinator/sensor lists, and the multiset of all MACs on the three lists is unchanged |
| `Transitions.FetchList` | frontend-ui/src/components/Dashboard.tsx:37-56 | demo mode sets the snapshot whatever the response; remote Ok sets the payload, NotOk keeps the list, Threw sets the snapshot |
| `Transitions.FetchStatus` | frontend-ui/src/components/Dashboard.tsx:37-98 | a fetch posts a status exactly when it is remote and fails: the list's "Failed to fetch …" message for NotOk, "Error connecting to API - Using demo data" for Threw |
| `Transitions.FetchFailureKeepsData` | frontend-ui/src/components/Dashboard.tsx:48-55 | a failed fetch never empties a non-empty list, given a non-empty snapshot |
| `Transitions.FetchIdempotent` | frontend-ui/src/components/Dashboard.tsx:37-56 | repeating a fetch with the same response changes nothing more |
| `Transitions.AnnounceValid` | frontend-ui/src/components/Dashboard.tsx:216-223 | after any posting the message is shown, and a timer is armed exactly while a message is shown |
| `Transitions.AnnounceRestartsTimer` | frontend-ui/src/components/Dashboard.tsx:216-223 | a new non-empty message cancels the armed timer and arms a fresh, never-used one |
| `Transitions.AnnounceSameKeepsTimer` | frontend-ui/src/components/Dashboard.tsx:216-223 | re-posting the shown message keeps the armed timer; posting twice is posting once |
| `Transitions.ExpiryClears` | frontend-ui/src/components/Dashboard.tsx:218-220 | when the armed timer fires the message becomes empty and no timer is left |
| `DashboardModel.Dashboard.constructor` | frontend-ui/src/components/Dashboard.tsx:4-13 | the initial state: empty lists, no selection, destination "hub", kind "sensor", flags false, status empty, demo mode on |
| `DashboardModel.Dashboard.SetStatus` | frontend-ui/src/components/Dashboard.tsx:216-223 | leaves the message shown and the timer state = `Announce` of the old one |
| `DashboardModel.Dashboard.StatusTimerFires` | frontend-ui/src/components/Dashboard.tsx:218-221 | the status becomes empty, the timer is disarmed, nothing else changes |
| `DashboardModel.Dashboard.FetchAvailable` | frontend-ui/src/components/Dashboard.tsx:37-56 | the available list and the status become what `Fetch` gives for the demo-mode flag the calling render saw and the response; nothing else changes |
| `DashboardModel.Dashboard.FetchCoordinators` | frontend-ui/src/components/Dashboard.tsx:58-77 | the same for the coordinator list |
| `DashboardModel.Dashboard.FetchSensors` | frontend-ui/src/components/Dashboard.tsx:79-98 | the same for the sensor list |
| `DashboardModel.Dashboard.TriggerScan` | frontend-ui/src/components/Dashboard.tsx:101-124 | while scanning nothing changes (button disabled, line 258); otherwise scanning is set, "Scanning for new nodes..." posted, and the demo timer or the scan command is pending |
| `DashboardModel.Dashboard.MockScanTimerFires` | frontend-ui/src/components/Dashboard.tsx:106-114 | available becomes exactly the six scan-result nodes whatever it held, scanning clears, "Scan completed - Found 2 new nodes" posted |
| `DashboardModel.Dashboard.ScanCommandResult` | frontend-ui/src/components/Dashboard.tsx:126-143 | Ok keeps scanning and arms the wait timer with "Scan initiated…"; NotOk and Threw clear scanning with "Failed to start scan" / "Error starting scan" |
| `DashboardModel.Dashboard.ScanWaitTimerFires` | frontend-ui/src/components/Dashboard.tsx:130-134 | scanning clears and "Scan completed" is posted; the list fetch it starts is a separate event |
| `DashboardModel.Dashboard.TriggerPair` | frontend-ui/src/components/Dashboard.tsx:147-186 | with no selection or while pairing nothing changes (line 148, button disabled at line 382); otherwise pairing is set, "Pairing node..." posted, and the demo timer with its trigger-time snapshot or the pair command is pending |
| `DashboardModel.Dashboard.MockPairTimerFires` | frontend-ui/src/components/Dashboard.tsx:154-172 | the lists become `MockPaired` of the snapshot; selection cleared, destination "hub", pairing false, "Node paired successfully" posted |
| `DashboardModel.Dashboard.PairCommandResult` | frontend-ui/src/components/Dashboard.tsx:188-205 | lists never change here; Ok clears the selection, sets destination "coordinator", posts success; NotOk/Threw keep the selection and post "Failed to pair node" / "Error pairing node"; pairing ends false in every case |
| `DashboardModel.Dashboard.Select` | frontend-ui/src/components/Dashboard.tsx:308-311 | the selection becomes the clicked available node and the kind becomes its type |
| `DashboardModel.Dashboard.Cancel` | frontend-ui/src/components/Dashboard.tsx:393 | the selection is cleared; destination and kind stay |
| `DashboardModel.Dashboard.SetDestination` | frontend-ui/src/components/Dashboard.tsx:359-376 | the destination becomes the chosen option: the hub, or a coordinator MAC for a sensor-kind node |
| `DashboardModel.Dashboard.SetMockMode` | frontend-ui/src/components/Dashboard.tsx:240 | demo mode becomes the checkbox value; nothing is re-fetched, and fetches already started keep the flag they were called with |
| `Scenarios.Mounted` | frontend-ui/src/components/Dashboard.tsx:209-213 | the mount effect in demo mode sets the three snapshots |
| `Scenarios.MockScanFindsTwo` | frontend-ui/src/components/Dashboard.tsx:101-114 | a demo scan from a fresh dashboard leaves six available nodes and the "Found 2" message, not scanning |
| `Scenarios.PairedFirstSensor` | frontend-ui/src/components/Dashboard.tsx:147-172 | pairing the first demo sensor to the hub adds exactly that sensor (relay hub, the drawn reading), drops it from available, keeps the coordinators, clears the selection |
| `Scenarios.DoublePairIsOnePair` | frontend-ui/src/components/Dashboard.tsx:379-390 | a second pair click while pairing leaves the pending pair and its snapshot as they were |
| `Scenarios.RemoteFetchFailures` | frontend-ui/src/components/Dashboard.tsx:43-55 | remote NotOk keeps the (empty) list with "Failed to fetch available nodes"; Threw falls back to the snapshot with the demo-data message |
| `Scenarios.RemoteRefreshIgnoresToggle` | frontend-ui/src/components/Dashboard.tsx:126-134 | a remote scan's refresh answered after the switch to demo mode still sets the server's payload |
| `Scenarios.PairUndoesScan` | frontend-ui/src/components/Dashboard.tsx:101-172 | a demo scan finished while a demo pair is pending leaves six nodes, and the pair timer then leaves the three trigger-time nodes other than the paired one, losing both discovered nodes |
| `Scenarios.RemotePairRejected` | frontend-ui/src/components/Dashboard.tsx:197-205 | a rejected remote pair keeps the lists and the selection and ends pairing with "Failed to pair node" |
| `Scenarios.PairedNodeRediscovered` | frontend-ui/src/components/Dashboard.tsx:111 | after a demo pair and a demo scan the paired MAC is both available and a sensor |
| `Scenarios.CoordinatorWithStaleDestination` | frontend-ui/src/components/Dashboard.tsx:155-156 | a coordinator-kind node is paired with a coordinator still chosen as destination; only its MAC is appended |
| `Scenarios.StatusTimerRestarts` | frontend-ui/src/components/Dashboard.tsx:216-223 | the timer armed for "Scanning…" is replaced by a new one when the scan reports, and the last one clears the status |

## Left out

- Rendering: the JSX, class names, labels, counts and the network summary (lines 225-503). These are presentation only.
- `fetch`, JSON encoding and decoding, `API_BASE` and the HTTP headers. Each network call is a `Response` argument. The pair request's body is recorded only as the node and destination it carries (`PairCommandSent`).
- `console.error`, which is logging only.
- `Math.random`: the reading is the two arguments of `MockPairTimerFires`, and their bounds are its preconditions.
- Timer durations and real time. Each timer is an explicit event whose precondition is that the timer is pending.
- Bookkeeping of fetches in flight. A fetch event may arrive at any time and with either value of `demoAtCall`; the model does not record which handler started it, so it does not rule out a demo-mode fetch other than the mount effect's.
- React batching within one handler: each event leaves one final status, and intermediate values inside a batch are not observable. Unmounting is also left out. On unmount the status effect's cleanup cancels the status timer only (line 221); the scan and pair timers (lines 106, 130, 154) have no cleanup and would still fire.
- `DashboardModel.Dashboard.PairCommandResult`: it does not model the three refresh fetches it starts. They are separate events, so a refresh in this model is not atomic, as in the code.
