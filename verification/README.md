# Verification of the elevator requester and controller

The repository is a Python requester and a C++ elevator controller joined by a packet protocol. This
project models both parties, the protocol and the codec as they are written, and proves what holds in
every run.

- **The two parties as one transition system** (`System`, on top of `Requester` and `Controller`).
  The requester schedules a list of call and go items, waits, reads, writes and tests for the end. The
  controller has a net thread (answer, then hand the request over) and a process thread (pop, ride,
  report, or drain a side queue). Each action is an indivisible step of one thread; a run is any
  sequence of actions, so every interleaving is covered. Channels are histories with read positions.
- **What every run keeps** (`Safety`, `Guarantees`, `Rides`, `Forward`): one invariant over both sides and
  both channels, and from it token conservation, the exact counter, packet order per id, call before
  go, service order, the ride trace and monotone item states.
- **Exactly when the requester can finish, and when it must** (`Routing`, `Progress`, `Outcome`, `AsCoded`,
  `Fairness`, `Config`). One measure of the whole state drives all of it. `Outcome` leaves the direction of
  draining arbitrary; `AsCoded` restricts it to what the code does; `Fairness` speaks of every infinite schedule.
- **Runs in general** (`Runs`): sequences of actions, infinite schedules and the rule for waiting on a helpful
  action, for any machine given by a step function.
- **Bytes** (`WireSystem`, `Effects`, `NetPackets`, `Packets`, `Endian`): the same system with encoded packets in the
  channels and the two independently written codecs at the ends; what each packet's bytes do to the list.
- **The frame check** (`Crc16`, `FrameCheck`, `Gf2`): the 16-bit FCS of RFC 1662, Appendix C.2, as polynomial
  arithmetic over GF(2).
- **The queues** (`Heap`, `Controller`): `std::priority_queue` as an array heap over the comparators of the
  repository (sections 23.6.4 and 25.4.6 of C++11).

A class is a class here: `ElevatorCtrl`, `PriorityQueue`, `ReqApp`, `TestCaseList`, `NetProtocol` and
`DecodeRecPacket` update their fields in place, and each method is proved equal to the function that the
transition system uses.

## What the code does that a reader may not expect

- `getLowestTimeUpQueue` and `getLowestTimeDownQueue` never pop, so they return only on an empty queue:
  a request that goes to a side queue is never served (`AsCoded`). With both empty the comparison picks DOWN,
  so an idle controller heads down; a go request above its call is then put aside. The shipped
  configuration is such a list (`Config.ShippedOutcome`).
- A pass of the scheduler keeps only the last READY2GO item; the others stay IN_PROGRESS unwritten, so a
  list with two calls never finishes (`Outcome`). The same happens to an item scheduled when the socket is not writable.
- The reporting loop of `goToFloor` has an 8-bit counter and does not end for floor 255.
- `handle` compares the length field with itself, checks no checksum and returns the request after a NAK too.
  Bursts that a status packet never survives go unnoticed in a request: `NetPackets.FlippedFloor` gives the
  input, `NetPackets.AckedIff` and `NetPackets.DamagedRequest` say exactly which damage is noticed.
- The comments in the requester's scheduler say a go item waits until its call is REACHED; the code
  releases it in the step that makes the call FINISHED, which is what is proved.

## Model

| member | source | states |
|---|---|---|
| AsCoded.CodeFinishesIff | src/controller/cpp/main/Elevator.h:186-282 | For every well-formed list and every reachable state: some continuation in which `preProcessNextQueue` only ever returns when both its scans end lets the requester quit **if and only if** the list is finishable (at most one call, every go item named by it, no floor 255), no scheduled packet has been dropped unwritten, and no item is barred (its request lies in a side queue, or will be routed there) |
| AsCoded.StartFinishesIff | src/controller/cpp/main/Elevator.h:158-170 | From the start that condition is: finishable, and the call goes up or asks for floor 0 |
| AsCoded.IdledFinishesIff | src/controller/cpp/main/Elevator.h:243-257 | After one idle turn of the process thread, which leaves the car heading down, a go item above its call can no longer be served: exactly the lists whose go asks for no higher floor than its call can still finish |
| Config.ShippedOutcome | src/requester/py/config/elevator_cfg.json:35-36 | The shipped list can finish from the start, and cannot once the controller has idled through one turn before its first request |
| AsCoded.ReturnsIffScansEnd | src/controller/cpp/main/Elevator.h:262-281 | `preProcessNextQueue` returns exactly when both side queues are empty: the scans for the lowest time tag never pop |
| AsCoded.BarredNext | src/controller/cpp/main/Elevator.h:155-182 | In runs of the code, a request that lies aside or is bound to go aside stays so at every step of either party |
| AsCoded.CodeCanFinish | src/controller/cpp/main/Elevator.h:186-202 | From every state with a finishable list, nothing lost and nothing barred there is a continuation of the code that ends with the requester quitting |
| AsCoded.NeverBarredIff | src/controller/cpp/main/Elevator.h:155-257 | For a finishable list: in no run of the code is an item ever barred **if and only if** its call goes up or asks for floor 0 and its go asks for exactly the floor of the call |
| AsCoded.CanBar | src/controller/cpp/main/Elevator.h:155-257 | For every other finishable list a run of the code that bars an item: at once, after an idle turn (a go above its call), or by routing the go while the car heads up (a go below it) |
| Fairness.EveryScheduleEndsIff | src/requester/py/ElevatorReqApp.py:138-175 | For a finishable list: **every** infinite schedule the code allows, that neglects no action for ever and drops no packet, ends with the requester quitting, if and only if the call lies ahead and the go asks for the floor of the call |
| Fairness.Inevitable | src/requester/py/ElevatorReqApp.py:138-175 | With either outcome of every draining comparison: from every live state, every schedule that takes each action again and again and drops no packet ends with the requester quitting |
| Fairness.InevitableAhead | src/requester/py/ElevatorReqApp.py:138-175 | The same without any drain, from a live state in which every request to come lies ahead of the car |
| Outcome.FinishesIff | src/requester/py/ElevatorReqApp.py:138-175 | With an arbitrary draining direction, from every reachable state the requester can still quit if and only if the list is finishable and no scheduled packet was dropped |
| Outcome.SomeRunFinishesIff | src/requester/py/ElevatorReqApp.py:106-113 | From the start: some run quits iff the list has at most one call, links every go item and names no floor 255; a second READY2GO item in one pass replaces the first, which is then never written |
| Outcome.DoomedRun | src/requester/py/ElevatorReqApp.py:106-135 | With two calls in the list, in every state of every run both are still ahead of the first pass, or the second is about to replace the first, or the first is lost |
| Outcome.LostRun | src/requester/py/ElevatorReqApp.py:146-158 | A scheduled item whose packet was not written while it was in hand stays IN_PROGRESS and unwritten over every continuation of every run |
| Outcome.DroppedForGood | src/requester/py/ElevatorNetProtocol.py:145-152 | In any run of a well-formed list, an item in hand that the socket does not take at once is never written, and the requester never quits |
| Outcome.NeverTopRun | src/controller/cpp/main/Elevator.h:211-221 | In no state of any run has the car stopped for floor 255, or arrived for it |
| Progress.CanFinish | src/requester/py/ElevatorReqApp.py:138-175 | From every live state a continuation makes the requester quit; it drops no packet and drains only where a side queue holds something |
| Progress.StepLowers | src/requester/py/ElevatorReqApp.py:138-175 | Whatever requester, net thread and process thread do next, one measure of the whole state falls, or the step only idles; the step named helpful, the controller's until it has settled and then the requester's, always lowers it |
| Progress.ControllerCloser | src/controller/cpp/main/Elevator.h:186-236 | With floors up to 254, under any schedule, each step of the controller strictly decreases a measure (unread packets, net thread, side queues, current queue, ride), except that draining an empty queue may turn the car round; so every ride terminates |
| Progress.Settle | src/controller/cpp/main/Elevator.h:186-257 | From every live state the controller alone empties the request channel, its queues and the car |
| Progress.LiveSchedule | src/requester/py/ElevatorReqApp.py:106-135 | With a finishable list no scheduler step replaces the item in hand: every IN_PROGRESS item stays written or in hand |
| Routing.EnqueuedAsPredicted | src/controller/cpp/main/Elevator.h:155-182 | Which queue a request enters is decided by its direction and its position relative to floor 0 (the call) or the floor of the call (the go), whenever the net thread gets to it |
| Routing.SmoothNext | src/controller/cpp/main/Elevator.h:155-182 | If every request to come lies ahead, no step but a drain changes that, and nothing ever enters a side queue |
| Forward.NextAdvances | src/requester/py/ElevatorReqApp.py:106-135 | At every step of every run each item keeps its state or moves one step along RESET, READY2GO, IN_PROGRESS, ACKED, REACHED, FINISHED; NACKED is never entered |
| Forward.NextRank | src/requester/py/ElevatorReqApp.py:106-135 | At every step no item moves back, and the summed rank falls whenever a state changes |
| Forward.QuitAtRankZero | src/requester/py/ElevatorReqApp.py:171 | In every reachable state the quit test succeeds exactly when the summed rank is zero |
| Forward.RunRank | src/requester/py/ElevatorNetProtocol.py:129-142 | Over any stretch of any run no item moves back, although a received packet overwrites the state unconditionally |
| Safety.RunKeeps | src/requester/py/ElevatorReqApp.py:106-135 | The invariant tying items, channels, queues and car together holds in every state of every run of a well-formed list, for every interleaving and every draining direction |
| Safety.NextKeeps | src/requester/py/ElevatorNetProtocol.py:129-142 | Each action of the requester, the net thread and the process thread keeps the invariant |
| Safety.DeliveredItem | src/requester/py/ElevatorNetProtocol.py:129-142 | A delivered packet finds its item IN_PROGRESS or ACKED and leaves it ACKED or REACHED; NACKED is never entered |
| Safety.FinishLinks | src/requester/py/ElevatorReqApp.py:122-129 | Finishing a call releases exactly its go item, which was still waiting |
| Guarantees.EndToEnd | src/requester/py/ElevatorReqApp.py:122-171 | In every reachable state `allDoneCntr` equals the number of FINISHED items, no exception was raised, a FINISHED item has a stop at its own floor in the log of stops, and the quit test passes exactly when all are finished |
| Guarantees.Tokens | src/controller/cpp/main/Elevator.h:155-236 | Every request ever written is in exactly one place: request channel, net thread, one of the three queues, in service, stop status in the reply channel, or stop status received; no id is duplicated or lost |
| Guarantees.CallBeforeGo | src/requester/py/ElevatorTestCaseList.py:34-65 | A go item has left RESET exactly when its call is FINISHED, and its request is written only after the car has stopped for the call |
| Guarantees.WireOrder | src/controller/cpp/main/NetProtocol.h:348-353 | For every message id the packets sent, and those received, are nothing, or ACK and MOVING statuses, or ACK, MOVING statuses and one final STOPPED status |
| Guarantees.ControllerOrder | src/controller/cpp/main/Elevator.h:155-202 | Accepted requests equal as a multiset the three queues, the request in service and those served; what was served is a prefix of what entered the current queue, and the rest follows in order |
| Guarantees.SideQueues | src/controller/cpp/main/Elevator.h:158-171 | In every state of every run each request in the up queue has direction up and each in the down queue has not |
| Guarantees.FlagIsAck | src/requester/py/ElevatorNetProtocol.py:131-136 | In every state of every run an item's `is_ok` is set exactly if it is ACKED, REACHED or FINISHED |
| Rides.ServedInTurn | src/controller/cpp/main/Elevator.h:193-201 | A request at position k of the current queue is served after the one in service and the k before it, whatever is enqueued or drained meanwhile |
| Rides.RideTrace | src/controller/cpp/main/Elevator.h:208-236 | In every state of every run the statuses sent are those of the rides of the served requests in order, each from the previous stop in unit steps up (none when riding down) and then the stop, followed by a beginning of the ride in service; between rides the car is at the last stop |
| Rides.DoorAtEmission | src/controller/cpp/main/Elevator.h:216-229 | Every MOVING status is emitted with the door closed, every STOPPED status with the door open and the car at the floor named |
| Rides.ProcessRuns | src/controller/cpp/main/Elevator.h:186-202 | Left undisturbed, the steps of the machine do exactly what one turn of `process` does, serving the front request or draining one side |
| Rides.ReportsAreRideLog | src/controller/cpp/main/Elevator.h:211-229 | The packets of a ride in the machine, its stop included, carry exactly the fields that `goToFloor` emits, in the same order |
| Effects.RideEffect | src/requester/py/ElevatorNetProtocol.py:129-142 | Of the packets made of a ride's emissions, those of the moving ones change no item; that of the last one marks the item with that id and floor REACHED |
| System.HandOverRuns | src/controller/cpp/main/Elevator.h:134-148 | A request handed over by the net thread reaches the queues as `input_data_consumer` passes it on: a call with its own direction, a go with the car's, stamped with the time of arrival; another command is dropped |
| System.ScheduleRuns | src/requester/py/ElevatorReqApp.py:106-135 | Schedule steps alone carry out exactly one call of `scheduleElevatorReqList` |
| Config.GoodConfigWellFormed | src/requester/py/ElevatorTestCaseList.py:26-65 | Distinct ids, non-zero for go items, data class and no go item named twice give a well-formed list in its initial states |
| Requester.InitialCarried | src/requester/py/ElevatorTestCaseList.py:26-65 | Each item carries the addresses, id, class, time tag and floor of its configuration entry, calls also direction and go id; calls start READY2GO, go items RESET, none acknowledged |
| Config.QuitServesConfig | src/requester/py/ElevatorTestCaseList.py:26-65 | In every run that quits, the car has stopped for every call and go entry of the configuration under its id, at its own floor |
| WireSystem.BytesCarryMessages | src/controller/cpp/main/NetProtocol.h:485-515 | For any item list and interleaving, the system that exchanges encoded packets, each side with its own codec, is at every point the encoding of the system that exchanges messages |
| WireSystem.BytesEndToEnd | src/requester/py/ElevatorNetProtocol.py:101-142 | On bytes: no packet ever fails to decode, and a requester that quits has had every item stopped for |
| WireSystem.ReadRaisesIff | src/requester/py/ElevatorNetProtocol.py:101-142 | On bytes: reading raises exactly on a buffer too short for its kind, changing no item; any other buffer is processed |
| WireSystem.BytesFinishIff | src/requester/py/ElevatorReqApp.py:144-175 | On bytes: some run quits iff the list is finishable |
| WireSystem.ReplyUpdates | src/requester/py/ElevatorNetProtocol.py:109-142 | The bytes of an ACK, NAK or status do to the item list what the message does |
| Effects.ControlEffect | src/requester/py/ElevatorNetProtocol.py:131-136 | A well-formed ACK marks the first item with its id ACKED and in order, a NAK marks it NACKED and not in order; nothing else changes |
| Effects.AnswerEffect | src/requester/py/ElevatorNetProtocol.py:131-136 | The controller's answer to a request marks its item ACKED if the request's class is data, NACKED otherwise |
| Effects.DataEffect | src/requester/py/ElevatorNetProtocol.py:137-140 | An accepted data packet marks the item with its id REACHED exactly if it is a status report of a stop at the item's own floor |
| Effects.RaisedEffect | src/requester/py/ElevatorMsgProtocol.py:263-296 | Processing raises exactly on a buffer shorter than its kind of packet |
| Effects.BurstIgnored | src/requester/py/ElevatorNetProtocol.py:112-142 | A status packet hit by any burst of at most 16 bits leaves the list as it was |
| Controller.QueuesSort | src/controller/cpp/main/Request.h:102-115 | For any sequence of pushes, draining the up queue gives a permutation in non-increasing floor order, draining the down queue one in non-decreasing order |
| Controller.DownRespects | src/controller/cpp/main/Request.h:110-115 | The down comparator is no strict order (it holds of a request and itself) and yet agrees with the order of floors |
| Controller.DrainedConserves | src/controller/cpp/main/Elevator.h:243-257 | Draining loses and invents no request, leaves the other side alone, sorts what it moves and turns the car towards the side drained |
| Controller.AcceptRoutes | src/controller/cpp/main/Elevator.h:158-171 | A request on the way joins the end of the current queue; otherwise the up queue gains just this request if its direction is up, else the down queue does; nothing else of the state changes |
| Controller.AcceptConserves | src/controller/cpp/main/Elevator.h:155-176 | Enqueuing puts the request in exactly one queue and keeps both heaps |
| Controller.ScanEndsIff | src/controller/cpp/main/Elevator.h:262-281 | The scan for the lowest time tag reaches its exit iff the queue is empty |
| Controller.RideEndsIff | src/controller/cpp/main/Elevator.h:211-220 | With an 8-bit counter the reporting loop has an exit iff the goal is not floor 255 |
| Controller.ScanLowest | src/controller/cpp/main/Elevator.h:262-281 | From its first turn on the scan of a non-empty queue holds the earlier of its start value and the front request's time tag, and no other request is looked at |
| Controller.EarlierIsSigned | src/controller/cpp/main/Elevator.h:262-281 | Time tags compare as signed 64-bit values |
| Controller.PassedFloors | src/controller/cpp/main/Elevator.h:211-220 | A ride up reports every floor from the start to the goal once, in unit steps; a ride down reports none |
| Controller.ElevatorCtrl.Call | src/controller/cpp/main/Elevator.h:155-175 | The new request carries the caller's node, id, floor and direction, the time of arrival and no command, and enters the one queue that direction and location select (`EntersRightly`); nothing else changes |
| Controller.ElevatorCtrl.InputDataConsumer | src/controller/cpp/main/Elevator.h:134-148 | A call keeps its direction, a go takes the direction of the car, any other command throws and changes nothing |
| Controller.ElevatorCtrl.PreProcessNextQueue | src/controller/cpp/main/Elevator.h:243-257 | Draining one side in heap order into the current queue, for either outcome of the comparison |
| Controller.ElevatorCtrl.GoToFloor | src/controller/cpp/main/Elevator.h:208-236 | A ride emits (`IsRide`) status 1 for every floor from the start to the goal with the car still at the start, then exactly one status 2 for the goal with the door open there; it leaves the car at the goal, stopped, door closed |
| Controller.ElevatorCtrl.Process | src/controller/cpp/main/Elevator.h:186-202 | One turn: serve the front request with the emissions of its ride, ending in one stop, or drain one side; what waits behind the front is untouched |
| Heap.HeapSort | src/controller/cpp/main/Elevator.h:124-125 | The binary heap refines a sorted multiset for any comparator that agrees with a total preorder: pushes, then a full drain, give a sorted permutation |
| Heap.PopKeeps | src/controller/cpp/main/Elevator.h:246-255 | Popping removes exactly the top element and keeps the heap |
| Heap.TopIsGreatest | src/controller/cpp/main/Elevator.h:246-255 | The top of the heap comes first in the order |
| Heap.PriorityQueue.PushItem | src/controller/cpp/main/Elevator.h:163-171 | Sifting up in place does what the push on sequences does |
| Requester.ReqApp.ScheduleElevatorReqList | src/requester/py/ElevatorReqApp.py:74-135 | One pass over the list: which item is in hand, which are released or finished, the counter; it raises exactly if some item is NACKED when the scan comes to it |
| Requester.RaisesIff | src/requester/py/ElevatorReqApp.py:119-121 | A pass raises exactly if some item is NACKED when the scan comes to it |
| Requester.ReqApp.Release | src/requester/py/ElevatorReqApp.py:125-127 | The inner loop releases exactly the linked go items |
| Requester.NetProtocol.ProcessResponse | src/requester/py/ElevatorNetProtocol.py:101-142 | A received buffer updates the first item with its id by the class of the packet, or raises on a short buffer |
| Requester.NetProtocol.Write | src/requester/py/ElevatorNetProtocol.py:77-90 | Writing packs the item in hand over the old buffer; what the socket takes, all, some or none, is a beginning of it and the rest stays in the buffer; without an item nothing changes |
| Requester.TestCaseList.CreateTestcaseList | src/requester/py/ElevatorTestCaseList.py:26-65 | The list built is calls then go items in configuration order, each carrying its entry field by field (`Carried`) |
| NetPackets.RequestAcross | src/controller/cpp/main/NetProtocol.h:318-366 | Request bytes packed by the requester parse in the controller to the same fields; the answer carries the same id with the addresses exchanged and ACK iff the class is data |
| NetPackets.ReplyAcross | src/requester/py/ElevatorMsgProtocol.py:263-289 | The answer decodes in the requester as that ACK or NAK, accepted, with equal fields |
| NetPackets.StatusAcross | src/controller/cpp/main/NetProtocol.h:375-409 | Status bytes decode in the requester as accepted data with every field as sent and matching check |
| NetPackets.StatusLayout | src/controller/cpp/main/NetProtocol.h:375-409 | A status packet byte for byte: magic 0x0E, from node 1000, class 2, length 23, time tag 10, then command, floor, status and the check over all of it |
| NetPackets.BurstRejected | src/requester/py/ElevatorMsgProtocol.py:263-301 | Any non-zero burst of at most 16 bits in an accepted status packet, wherever it falls, is rejected |
| NetPackets.OddFlipsRejected | src/requester/py/ElevatorMsgProtocol.py:291-301 | An odd number of flipped bits in a packet still classed as data is rejected |
| NetPackets.AckedIff | src/controller/cpp/main/NetProtocol.h:328-340 | The class byte of the answer to any packet has message type 1 (control) in its low six bits, and in its top two 11 (ACK) iff byte 0 is 0x0E and byte 5 is 2, else 10 (NAK), whatever the length field, payload and frame check say |
| NetPackets.ReplyLayout | src/controller/cpp/main/NetProtocol.h:334-353 | The answer byte for byte: magic as received, addresses exchanged, class, message id as received, length 10 |
| NetPackets.LengthUnchecked | src/controller/cpp/main/NetProtocol.h:266-284 | Called with 23 the header check tests magic, class and bytes 8-9; called with the packet's own length, as it is, it says nothing about them |
| NetPackets.AnswerRead | src/controller/cpp/main/NetProtocol.h:334-353 | The requester accepts the answer to any packet iff the magic byte of that packet was right, and reads it as that ACK or NAK |
| NetPackets.SameRequestIff | src/controller/cpp/main/NetProtocol.h:355-365 | Two packets make the controller enqueue the same request iff sender address, message id and the whole payload agree |
| NetPackets.DamagedRequest | src/controller/cpp/main/NetProtocol.h:318-366 | A data request damaged in any way, bursts included, is acknowledged iff bytes 0 and 5 are untouched, and understood as sent iff bytes 1-2, 6-7 and 10-20 are |
| NetPackets.FlippedFloor | src/controller/cpp/main/NetProtocol.h:318-366 | For every request there is a packet one flipped bit away, with a wrong frame check, that gets the same answer and asks for another floor |
| NetPackets.Handle | src/controller/cpp/main/NetProtocol.h:318-366 | The 10-byte reply written, its class byte bit by bit, and the request returned, for every packet, on a host of either byte order; past the end of a short packet the fields keep what their memory held |
| NetPackets.Xmit | src/controller/cpp/main/NetProtocol.h:375-409 | The 23 bytes of a status packet, header and payload followed by their check |
| NetPackets.SerializeHeader | src/controller/cpp/main/NetProtocol.h:228-241 | Swapping in place and writing memory images gives network order on either host |
| Packets.AcceptedIff | src/requester/py/ElevatorMsgProtocol.py:263-301 | A data packet is accepted iff magic and length are right and its check field is that of its first 21 bytes |
| Packets.ControlAcceptedIff | src/requester/py/ElevatorMsgProtocol.py:264-289 | A control packet is accepted iff magic and length are right |
| Packets.KindBits | src/requester/py/ElevatorMsgProtocol.py:271-282 | The kind of a class byte bit by bit: bits 7 and 0 make a control packet, bit 6 tells ACK from NAK, bit 1 makes the rest data, all else is refused |
| Packets.DecodeRaisesIff | src/requester/py/ElevatorMsgProtocol.py:263-296 | Decoding raises exactly on a buffer shorter than its kind of packet |
| Packets.Rebuilt | src/requester/py/ElevatorMsgProtocol.py:314-327 | The list rebuilt from the parsed fields is the first 21 bytes received |
| Packets.ListIsRaw | src/requester/py/ElevatorMsgProtocol.py:82-98 | The shift-and-mask list equals the packed bytes, so both checks cover the bytes on the wire |
| Packets.EncodeRequest | src/requester/py/ElevatorMsgProtocol.py:158-215 | The bytes written for a request: 23 of them, their length field says so, magic, class and payload in place, and their check intact |
| Packets.RequestLayout | src/requester/py/ElevatorMsgProtocol.py:63-131 | A request packet byte for byte, with the length field equal to the number of bytes sent |
| Packets.DecodeRecPacket.Deserialize | src/requester/py/ElevatorMsgProtocol.py:247-301 | Flags, fields, check and verdict after decoding, or an exception for a short buffer |
| Endian.Ntoh64Htonll | src/controller/cpp/main/NetProtocol.h:70-87 | `ntoh64` inverts `htonll` on all 64-bit values on either byte order |
| Endian.StoreHtonll | src/controller/cpp/main/NetProtocol.h:245-248 | Storing the result of `htonll` gives network byte order on either host |
| Endian.HtonsOnHosts | src/controller/cpp/main/NetProtocol.h:202-235 | The 16-bit conversions change nothing on a big-endian host and exchange the bytes on a little-endian one |
| Crc16.Compute | src/requester/py/ElevatorMsgProtocol.py:37-57 | The bit loop computes the checksum defined on the bit sequence of the message |
| Gf2.RegisterIsRemainder | src/controller/cpp/main/NetProtocol.h:47-60 | For every message the register is the one polynomial of degree below 16 congruent to the message (with its 0xFFFF start term) modulo x^16+x^12+x^5+1 |
| Gf2.RemainderUnique | src/controller/cpp/main/NetProtocol.h:53-58 | Remainders modulo the generator are unique |
| FrameCheck.Residue | src/controller/cpp/main/NetProtocol.h:47-66 | A packet ends with its own check, low octet first, iff the register run over all of it ends at 0xF0B8 |
| FrameCheck.BurstDetected | src/requester/py/ElevatorMsgProtocol.py:45-57 | Two different packets that differ within 16 consecutive bits are not both intact |
| FrameCheck.ChecksumParity | src/requester/py/ElevatorMsgProtocol.py:45-57 | The parity of the checksum is the parity of the message |
| FrameCheck.OddFlipsDetected | src/requester/py/ElevatorMsgProtocol.py:45-57 | An odd number of flipped bits breaks the check |
| Crc16.FeedLinear | src/requester/py/ElevatorMsgProtocol.py:45-53 | The register is linear: feeding the xor of two equally long messages gives the xor of the registers |
| Crc16.ClearedIff | src/requester/py/ElevatorMsgProtocol.py:45-53 | The register clears to zero only by the one input that equals it, so a non-zero difference never vanishes over zero bits |
| Crc16.WindowInjective | src/requester/py/ElevatorMsgProtocol.py:45-53 | From one register, different sixteen-bit inputs lead to different registers |

## Left out

- Sockets, selectors and file descriptors: each direction is a FIFO of whole packets, one packet per read and one atomic send per packet; packets merged or split by TCP are not modelled.
- The loop of `run` has no method of its own: it is the requester's program counter in `System` (scan, select, write, test).
- Closing and losing the connection: a decoding error raises in the requester's event handler and ends the loop without quitting, modelled as the state `Raised`.
- NetPackets.Handle: what a field holds past the end of a short packet is a parameter, the memory before the read; that C++ leaves the use of such a value undefined is not modelled, and the byte system leaves packets shorter than 21 bytes unread (no run writes one).
- Controller.ElevatorCtrl.GoToFloor: excludes floor 255, because the source's loop then never returns (`Controller.RideEndsIff`); the transition system keeps floor 255 and rides there for ever.
- Controller.ElevatorCtrl.Process: excludes floor 255 for the request at the front, for the same reason.
- Requester.NetProtocol.Write: keeps what the socket did not take, as the source does; in the transition system a write takes the whole packet or, when the socket is not writable, nothing.
- Controller.ElevatorCtrl.PreProcessNextQueue: the outcome of the comparison of time tags is a parameter, because the scans behind it return only on empty queues (`Controller.ScanEndsIff`); `AsCoded` restricts runs to where they do.
- Wall-clock time: `current_time_ms` is a parameter of the enqueue step; sleeps, the two-second wait and its wake-up only decide when a step happens, which is arbitrary here.
- The hung scan itself: a call of `preProcessNextQueue` that would not return is a step that `AsWritten` forbids, so the lock it then holds for ever is not a state of the model; the net thread, which would block on it, may go on.
- `std::priority_queue` is the hole-based sift-up and sift-down of common libraries; with `downComparator`, which is no strict order, C++ promises nothing, so the result is for that algorithm.
- The order of memory writes inside a step: the assignments of location, door and state before a stop are one step, and the unlocked reads by the net thread see the state before or after it.
- Thread start, stop and join, the promise of `StoppableTask.h`, and `signal_slot.h`, which is a direct call here.
- The listener's `std::async`, whose future is discarded at once: read handlers run one at a time.
- Loading of the JSON configuration; fields are typed to their width on the wire, so the `struct.error` of a value out of range has no counterpart.
- The requester's items are values in a sequence that methods reassign; Python's sharing of item objects between the list and the item in hand is expressed by an index.
- Reading a header field by field in `deserialize` is one expression; a buffer shorter than it needs raises at once instead of after some fields were set.
- Oldest-first or fair service: nothing is claimed, since the comparison of time tags never sees a non-empty queue.
- Printing, and the unused members of the headers (`timetag_compare`, `operator==`, `inputQueue_`).
