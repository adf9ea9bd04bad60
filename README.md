# Battery model for the ESSIM energy-system simulator, in Dafny

The ESSIM battery model is an external model that an ESSIM simulation run drives over MQTT.
Every hour of simulated time it receives a bid request for one energy carrier. It answers
with a piecewise-linear bid curve: the energy it wants to charge (positive) or discharge
(negative) at each price. The market then clears a price and sends it back as an allocation,
and the battery resolves that price on its curve and updates its state of charge.

This project models the core of that model and proves properties of it:

- `Common` (`common.dfy`) holds the shared pieces:
  - `Option` and `Result`;
  - the exceptions the code raises, as an `Error` datatype;
  - Python's list indexing, where a negative index counts from the end;
  - the "append to the list under a key" idiom of the node's dictionaries.
- `BatteryCurve` (`battery_curve.dfy`) is the per-step arithmetic of the battery node:
  - the charge and discharge time-window policy, with its window loop and the errors a malformed window config raises;
  - the headroom in each direction;
  - the 2–4 point bid curve;
  - the segment scan that turns a cleared price into an energy allocation;
  - the new state of charge.
- `Battery` (`battery_node.dfy`) models `battery_node.py`, the class `BatteryNode`. It holds an append-only state-of-charge history, per-carrier histories of bid curves and allocations, and the price bounds of the latest bid request. Its two market operations, `CreateBidCurve` and `ProcessAllocation`, extend those histories in place. `WriteResults` builds the rows of results a stopped run hands to its store.
- `BidPayload` (`bid_payload.dfy`) is the binary bid message. It holds an 8-byte big-endian two's-complement timestamp, then one (price, energy) pair of 8-byte doubles per curve point. The message is built by the packing loop.
- `SimulationSteps` (`simulation_steps.dfy`) holds the client's step arithmetic:
  - the step number of a message;
  - the number of simulation steps;
  - the simulation info;
  - the expansion of a profile over the steps.
- `EssimClient` (`essim_client.dfy`) is the class `EssimMqttClient`, the protocol state machine:
  - topic dispatch by suffix;
  - the `/config`, `/createBid`, `/allocate` and `/stop` handlers;
  - the run settings a configuration writes;
  - the bids it publishes and the results it writes.
- `ProfileUnits` (`profile_units.dfy`) covers profile unit conversion:
  - the `factor` and `mult_suffix` tables;
  - `to_joules`, which maps a profile type, or a (unit, multiplier) pair, to joules;
  - the energy/power classification.

Numbers are `real`, and the node's `delta` (1e-12) is the constant `Delta`. Timestamps and
dates are whole seconds since the epoch. The model keeps these behaviours as the code has them:

- The step number of a bid request or an allocation is `int((timestamp - start) / 3600)`. It truncates toward zero and always divides by 3600, even when the bid request announces another step length (`essim_mqtt_client.py:167`, `:208`).
- `/createBid` is handled in every state.
- `/allocate` moves to WAITING_FOR_BID_REQUEST before it reads its payload, so even a malformed allocation changes the state.
- FIRST_BID_REQUEST_RECEIVED and COMPLETE are declared but never entered.
- A `/config` payload that is not UTF-8 fails outside the handler's inner `try`, so the client stays in RECEIVED_CONFIG rather than moving to ERROR.
- The step origin is taken again whenever the stored one is falsy. A run whose first bid has timestamp 0 takes the next bid's timestamp as its origin.
- The node reads its history with Python indexing, so a negative step number reads from the end.
- A zero capacity raises ZeroDivisionError in the fill fraction.
- `process_allocation` appends the new state of charge *before* it divides the allocation by the stored duration for a debug line. A zero duration therefore raises after the history was extended, and the allocation is not stored.
- The allocation threshold uses the most recently stored `min_price`, whatever carrier or step that came from. A segment whose two prices are equal raises ZeroDivisionError.
- A window config is read only as far as the decision needs it. An empty config counts as no config. A non-empty one raises KeyError or ValueError when its threshold is missing or not a number. Its `windows` key is read only past the threshold. A window's end hour is read only when its start hour is at most the hour (the chained comparison), and no window after the first match is read.
- `write_results` catches an exception in a row, but its handler then reads `e.message`, which Python 3 exceptions do not have. The AttributeError escapes, nothing is written, and `/stop` leaves the state as it was. Any failing row does this: a stop before the first bid request (no duration), a carrier whose cost is a single number, or fewer stored allocations or curves than rows (`battery_node.py:194-222`).
- `/stop` looks the carrier up before it asks the node to write, so an unknown carrier raises KeyError even when no node exists.
- Between the two cost points of a four-point curve the interpolated energy is about ±Delta/2, not half the plateau. `HalfFullHourScenario` works one case out: a price of 0.15 on a half-full 10 kWh battery with costs 0.1/0.2 allocates exactly 0.

## Model

| member | source | states |
|---|---|---|
| Common.PyIndex | tno/essim_battery/battery_node.py:85 | indexing succeeds iff -len <= i < len; a non-negative index reads element i, a negative one element len+i |
| Common.AppendTo | tno/essim_battery/battery_node.py:48-58 | the key's list (created empty if absent) gains exactly the value at its end; every other key keeps its list |
| BatteryCurve.WindowTest | tno/essim_battery/battery_node.py:96 | a window grants iff both its hours are numbers and start_hour <= hour < end_hour; reading raises iff the start hour is not a number, or it passes and the end hour is not |
| BatteryCurve.WindowsAllow | tno/essim_battery/battery_node.py:94-96 | on windows whose hours are all numbers, the scan grants iff some window contains the hour |
| BatteryCurve.WindowsAllowFirstDecides | tno/essim_battery/battery_node.py:94-96 | the scan raises iff some window is unreadable and every window before it was read and missed; it grants iff some window contains the hour and every window before it was read and missed |
| BatteryCurve.ScanWindows | tno/essim_battery/battery_node.py:94-96 | the window loop (which keeps iterating but stops reading after a match) computes exactly the scan |
| BatteryCurve.ChargeAllowed | tno/essim_battery/battery_node.py:90-96 | no config grants; a non-empty config without a numeric threshold raises; at or below the threshold grants; above it a missing window list raises KeyError; for a readable config the grant is "no config, fill <= threshold, or some window contains the hour" |
| BatteryCurve.DischargeAllowed | tno/essim_battery/battery_node.py:98-104 | the mirror rule: at or above the threshold grants (only `<` scans the windows), with the same errors |
| BatteryCurve.ChargePermission | tno/essim_battery/battery_node.py:90-96 | the permission code computes exactly ChargeAllowed, errors included |
| BatteryCurve.DischargePermission | tno/essim_battery/battery_node.py:98-104 | the permission code computes exactly DischargeAllowed, errors included |
| BatteryCurve.EmptyWindowsForbid | tno/essim_battery/battery_node.py:90-104 | past its threshold, an empty window list disallows the direction without raising |
| BatteryCurve.MaxChargeEnergy | tno/essim_battery/battery_node.py:108-114 | 0 when charging is not allowed, otherwise the minimum of rate x duration and capacity - soc |
| BatteryCurve.MaxDischargeEnergy | tno/essim_battery/battery_node.py:116-122 | 0 when discharging is not allowed, otherwise the minimum of rate x duration and soc |
| BatteryCurve.MaxEnergiesWithinCapacity | tno/essim_battery/battery_node.py:108-122 | with 0 <= soc <= capacity and non-negative rates and duration, max charge lies in [0, capacity - soc] and max discharge in [0, soc] |
| BatteryCurve.Epsilon | tno/essim_battery/battery_node.py:133-134 | a cost point's energy magnitude is Delta/2 or half the headroom; for positive headroom it is strictly between 0 and the headroom and at most Delta/2 |
| BatteryCurve.BidCurveFor | tno/essim_battery/battery_node.py:133-142 | the curve has 2 to 4 points, starts at (minprice, maxCharge) and ends at maxprice |
| BatteryCurve.BidCurveShape | tno/essim_battery/battery_node.py:133-142 | 2–4 points; first (minprice, maxCharge); last price maxprice; the mcc point present iff maxCharge != 0, the mdc point iff maxDischarge != 0; both 0 gives [(minprice, 0), (maxprice, -Delta)] |
| BatteryCurve.BidCurveStrictlyDecreasing | tno/essim_battery/battery_node.py:133-142 | with non-negative headroom the energies strictly decrease along the curve |
| BatteryCurve.BidCurvePricesOrdered | tno/essim_battery/battery_node.py:136 | prices are non-decreasing (strictly increasing) when minprice <= mcc <= mdc <= maxprice (with `<`) |
| BatteryCurve.LerpBetween | tno/essim_battery/battery_node.py:168-171 | strictly inside a segment of falling energy the interpolation lies between the segment's energies |
| BatteryCurve.LerpAtRightEnd | tno/essim_battery/battery_node.py:168-171 | interpolation at a segment's right price gives that point's energy exactly |
| BatteryCurve.FirstSegment | tno/essim_battery/battery_node.py:166-172 | the scan stops at the first i whose right price c[i+1] is >= price; all earlier right prices are below it; no match means every right price is below it |
| BatteryCurve.Allocation | tno/essim_battery/battery_node.py:162-174 | below min_price + 1e-12 it succeeds iff the curve has a point (AllocationAtMinPrice gives the value); "No allocation found" iff the price is at least min_price + 1e-12 and every later breakpoint is below it; a division by zero only on a segment of two equal prices reaching the price |
| BatteryCurve.ResolveAllocation | tno/essim_battery/battery_node.py:162-174 | the scan loop with `break` computes the allocation: below min_price + 1e-12 the first energy, else interpolation on the first segment reaching the price, else it raises |
| BatteryCurve.AllocationAtMinPrice | tno/essim_battery/battery_node.py:163-164 | any price below the stored min_price + 1e-12, whichever bid stored it, resolves to the first point's energy; in particular the curve's own minimum price does |
| BatteryCurve.AllocationAtBreakpoint | tno/essim_battery/battery_node.py:166-172 | on a curve of strictly increasing prices, a breakpoint price resolves to that breakpoint's energy |
| BatteryCurve.NewStateOfCharge | tno/essim_battery/battery_node.py:178-180 | the appended state of charge is never negative and equals soc + allocation when that is non-negative |
| BatteryCurve.AllocationWithinCurve | tno/essim_battery/battery_node.py:160-174 | on a curve of falling energy starting at min_price, a resolved allocation lies between the last and the first energy |
| BatteryCurve.AllocationKeepsChargeInRange | tno/essim_battery/battery_node.py:108-181 | a state of charge in [0, capacity] stays in [0, capacity] after resolving any price on the curve built from it |
| BatteryCurve.HalfFullHourScenario | tno/essim_battery/battery_node.py:108-172 | the four-point curve of a half-full battery for one hour, and a price between the cost points allocating 0 |
| Battery.MarginalCost | tno/essim_battery/battery_node.py:68-78 | a marginal cost is read iff it is a SingleValue; another type raises, a dictionary without a type raises KeyError |
| Battery.BatteryNode.New | tno/essim_battery/battery_node.py:24-46 | construction raises iff capacity, fillLevel or a marginal cost is missing; otherwise the history is [capacity x fillLevel], both maps are empty, no price bounds |
| Battery.BatteryNode.constructor | tno/essim_battery/battery_node.py:24-46 | the initial state of a node whose asset has the required attributes |
| Battery.BatteryNode.StoreBidCurve | tno/essim_battery/battery_node.py:48-52 | appends the curve to the carrier's list, creating it when absent |
| Battery.BatteryNode.StoreAllocationEnergy | tno/essim_battery/battery_node.py:54-58 | appends the allocation to the carrier's list, creating it when absent |
| Battery.BatteryNode.GetAllocationEnergy | tno/essim_battery/battery_node.py:60-66 | None for a carrier never allocated; the stored value for a step inside the list; IndexError iff the carrier is present and the step is outside Python's index range |
| Battery.BatteryNode.BidFor | tno/essim_battery/battery_node.py:85-142 | a bid needs a step inside the history and a non-zero capacity, and is a 2–4 point curve from minprice to maxprice |
| Battery.BatteryNode.CurveFor | tno/essim_battery/battery_node.py:108-142 | once the permissions are known, a curve is a 2–4 point curve from minprice to maxprice |
| Battery.TrimmedCurve | tno/essim_battery/battery_node.py:133-142 | popping the mdc and then the mcc point from the four-point list, and setting -delta on a two-point curve, gives exactly BidCurveFor |
| Battery.BatteryNode.BuildCurve | tno/essim_battery/battery_node.py:108-142 | the headroom, cost and curve code computes exactly CurveFor, errors included |
| Battery.BatteryNode.CreateBidCurve | tno/essim_battery/battery_node.py:80-146 | records min/max price and duration, leaves history and allocations alone, returns the curve of the step's headroom (or raises), and appends it to the carrier's curves exactly when it succeeds |
| Battery.BidSucceedsExactly | tno/essim_battery/battery_node.py:85-142 | a bid is produced iff the step indexes the history, capacity != 0, the rate of each allowed direction exists, both costs are SingleValue and mcc <= mdc; the curve is then the one built from the step's headroom in each allowed direction and the two costs |
| Battery.BidCurveOfNode | tno/essim_battery/battery_node.py:108-142 | a node's curve starts at (minprice, e) with 0 <= e <= capacity - soc, ends at maxprice with energy >= -soc - Delta, has 2–4 points and strictly falls in energy |
| Battery.BatteryNode.AllocationFor | tno/essim_battery/battery_node.py:157-178 | an allocation is resolved iff the carrier is known and has a curve at the step, a min price is stored, the price resolves on that curve and the history has an entry at the step; it is then the curve's allocation |
| Battery.BatteryNode.ProcessAllocation | tno/essim_battery/battery_node.py:157-187 | a failed resolution raises and changes nothing; a resolved one appends max(0, soc[step] + allocation) to the history, and stores and returns the allocation unless the duration is missing or 0 |
| Battery.BatteryNode.RowsUpTo | tno/essim_battery/battery_node.py:194-223 | the rows of steps 0..k-1 exist iff every one of them can be built, and are then exactly those rows in order |
| Battery.BatteryNode.WriteResults | tno/essim_battery/battery_node.py:189-227 | the loop hands exactly the rows of steps 0..number_of_steps-2 to the store; any row that raises ends in AttributeError (from `e.message`) with nothing written; a missing store raises |
| Battery.RowWrittenExactly | tno/essim_battery/battery_node.py:195-212 | a row can be built iff origin and duration are set, the step is inside the history, capacity != 0, and every carrier has an allocation and a non-empty curve at the step and no single-number or too-short cost |
| Battery.StopBeforeAnyBidWritesNothing | tno/essim_battery/battery_node.py:194-196 | with no bid request yet (no duration) and at least one row, writing the results raises |
| BidPayload.BigEndianRoundTrip | tno/essim_battery/essim_mqtt_client.py:174 | reading back n big-endian bytes of u < 256^n gives u |
| BidPayload.Int64RoundTrip | tno/essim_battery/essim_mqtt_client.py:174 | the 8-byte `>q` encoding of any int64 decodes back to it |
| BidPayload.PointBytesLayout | tno/essim_battery/essim_mqtt_client.py:175-176 | the points occupy 16 bytes each, point k's price at 16k and energy at 16k+8 |
| BidPayload.BidPayloadLayout | tno/essim_battery/essim_mqtt_client.py:174-176 | the payload is 8 + 16n bytes, its first 8 bytes decode to the timestamp, and point k's price and energy follow in curve order |
| BidPayload.PackBid | tno/essim_battery/essim_mqtt_client.py:174-176 | the packing loop builds exactly that payload, and raises iff the timestamp is outside the int64 range |
| SimulationSteps.StepNumber | tno/essim_battery/essim_mqtt_client.py:167 | the whole number of 3600 s periods between origin and timestamp, truncated toward zero on either side |
| SimulationSteps.NumberOfSimulationSteps | tno/essim_battery/essim_mqtt_client.py:280-287 | floor((end - start) / 3600) + 1; raises iff a date is missing |
| SimulationSteps.CreateSimulationInfo | tno/essim_battery/essim_mqtt_client.py:289-295 | step size 3600, the two dates, and number_of_steps = that count + 1; raises iff a date is missing |
| SimulationSteps.GetProfile | tno/essim_battery/essim_mqtt_client.py:297-309 | the step count is computed (and may raise) first; SingleValue gives exactly max(0, n) copies of its value; stored and explicit series come back unchanged; an untyped profile raises |
| ProfileUnits.ToJoules | tno/essim_battery/esdl_profile_processor.py:257-291 | a defined type never raises; ValueError exactly without a defined type and without a quantity and unit; any other failure is a KeyError |
| ProfileUnits.PowerIsEnergyPerStep | tno/essim_battery/esdl_profile_processor.py:49-81 | through the factor and multiplier tables, every supported multiplier of W converts at the factor of the same multiplier of Wh times step seconds / 3600 |
| ProfileUnits.WattHourFactor | tno/essim_battery/esdl_profile_processor.py:50-55 | Wh, kWh, MWh, GWh, TWh (TERA and TERRA) and PWh convert at 3.6e3 through 3.6e18 J |
| ProfileUnits.JouleFactor | tno/essim_battery/esdl_profile_processor.py:56-61 | J, kJ, MJ, GJ, TJ (TERA and TERRA) and PJ convert at 1 through 1e15 J |
| ProfileUnits.WattFactor | tno/essim_battery/esdl_profile_processor.py:62-67 | W through PW convert at their SI multiplier times the step length in seconds |
| ProfileUnits.UnitPathRaisesOnlyOnUnknownMultiplier | tno/essim_battery/esdl_profile_processor.py:264-291 | without a defined type, conversion raises ValueError without a quantity and unit, and otherwise raises iff a supported unit has a multiplier missing from the multiplier table: every supported (unit, multiplier) key exists |
| ProfileUnits.MultiplierSpellingsAndUnsupported | tno/essim_battery/esdl_profile_processor.py:282-289 | a sub-unit multiplier or an unsupported unit gives 0; TERA and TERRA give the same factor |
| ProfileUnits.DefinedTypeDecides | tno/essim_battery/esdl_profile_processor.py:258-262 | a defined profile type gives factor[type name], or 0 when there is none, whatever its unit |
| ProfileUnits.IsEnergy | tno/essim_battery/esdl_profile_processor.py:212-232 | true iff the defined type's ordinal is in 4..13, or there is no defined type and the quantity is ENERGY |
| ProfileUnits.IsPower | tno/essim_battery/esdl_profile_processor.py:234-255 | true iff the defined type's ordinal is in 16..20, or there is no defined type and the quantity is POWER |
| ProfileUnits.EnergyAndPowerExclusive | tno/essim_battery/esdl_profile_processor.py:212-255 | no profile is classified as both energy and power |
| EssimClient.SuffixesExclusive | tno/essim_battery/essim_mqtt_client.py:112-213 | no topic ends with two of the command suffixes |
| EssimClient.KindOf | tno/essim_battery/essim_mqtt_client.py:112-230 | a topic is dispatched to the handler of the one suffix it ends with, else to the unknown-command branch |
| EssimClient.ApplyConfigBlock | tno/essim_battery/essim_mqtt_client.py:253-278 | every field of the new settings: the scenario defaults to the energy-system id; the influx connector uses that scenario; each date is taken when present and no earlier key was unusable, else kept; both window lists are taken (None when absent) unless a url or date was unusable, in which case they are kept |
| EssimClient.ApplyConfigBlockIdempotent | tno/essim_battery/essim_mqtt_client.py:253-278 | applying the same configuration block twice is applying it once |
| EssimClient.ApplyConfigBlockForgetsEarlierRun | tno/essim_battery/essim_mqtt_client.py:253-278 | a block with url and both dates gives the same settings whatever the earlier run left |
| EssimClient.StartAfterBid | tno/essim_battery/essim_mqtt_client.py:158-159 | the origin is the bid's timestamp when the stored one is missing or 0, otherwise it is kept |
| EssimClient.StartIsStable | tno/essim_battery/essim_mqtt_client.py:158-167 | the first bid of a run is step 0; a non-zero origin survives every later bid; an origin of 0 is replaced |
| EssimClient.EssimMqttClient.BidTopic | tno/essim_battery/essim_mqtt_client.py:181 | the publish topic `<topic>/simulation/<node>/<carrier>/bid` |
| EssimClient.EssimMqttClient.constructor | tno/essim_battery/essim_mqtt_client.py:43-87 | a new client is UNINITIALIZED, without origin, document, settings, node or publications |
| EssimClient.EssimMqttClient.ProcessJsonPayload | tno/essim_battery/essim_mqtt_client.py:243-278 | an unloadable document raises before anything is recorded; otherwise document, id, simulation id and the configuration block are applied in that order |
| EssimClient.EssimMqttClient.HandleConfig | tno/essim_battery/essim_mqtt_client.py:112-137 | ignored unless UNINITIALIZED; then RECEIVED_CONFIG with the origin cleared; a non-UTF-8 payload stays there; every configuration field after a readable payload (document, ids, settings, simulation info only when both dates exist, carriers only once they are read); the client ends WAITING_FOR_BID_REQUEST with a fresh node (no price bounds or duration) iff the dates, carriers and asset allow a run, otherwise ERROR with the old node |
| EssimClient.EssimMqttClient.HandleCreateBid | tno/essim_battery/essim_mqtt_client.py:139-186 | accepted in every state; fixes the origin; on success publishes exactly the packed curve once and moves to WAITING_FOR_ALLOCATION; any failure leaves state and publications unchanged |
| EssimClient.EssimMqttClient.HandleAllocate | tno/essim_battery/essim_mqtt_client.py:187-212 | always ends in WAITING_FOR_BID_REQUEST; the node's history and allocations change exactly as its allocation step does at the hour since the origin |
| EssimClient.EssimMqttClient.HandleStop | tno/essim_battery/essim_mqtt_client.py:213-228 | a malformed payload, no carriers, an unknown carrier (looked up first) or no node raises; then a row that raises gives AttributeError and a missing store raises; otherwise the node's rows are written once, tagged with the simulation id, and the client is UNINITIALIZED; on every failure the state and the writes are unchanged |
| EssimClient.EssimMqttClient.OnMessage | tno/essim_battery/essim_mqtt_client.py:108-233 | FIRST_BID_REQUEST_RECEIVED and COMPLETE are never entered; unknown topics change nothing; at most one bid is published per message and earlier publications are kept; only a handled stop adds a results write; the per-command state changes above |

## Left out

- MQTT transport (`connect`, `on_connect`, `loop`, the broker), the process wiring in `app.py`, and logging. A publish is an appended `Publication`.
- JSON decoding, the base64/ASCII decoding of the energy-system document, `strptime`/`strftime` and `urlparse` are not modelled. A payload arrives as what each handler reads from it (`Payload`, `ConfigValue`). A value that would fail to parse is `Malformed` or `Invalid`.
- The energy-system document processor (`esdl_processor.py`) is not part of this model. A loaded document is its id plus the outcome of its two lookups for this node (carrier ids, asset information).
- `influxdb_connector.py` and the stored-profile query (`get_influxdb_profile`) are not part of this model. A stored profile is given by the values the store holds for it, and a write to a store is an appended `StoreWrite`.
- Battery.BatteryNode.CreateBidCurve: the hour of day is an input. The code derives it from the timestamp in the local time zone, and `datetime.fromtimestamp` raises ValueError for a timestamp past the year 9999 (after the prices and duration are recorded, before a curve is stored). That range error is not modelled: for such a timestamp the model builds, stores and publishes a bid where the code raises.
- BidPayload.PackBid: the IEEE-754 layout of the doubles is not modelled. Each double is encoded by a function the client holds, assumed to yield 8 bytes.
- Floating point: all arithmetic is exact on `real`. Float rounding, overflow to infinity and NaN are not modelled.
- EssimClient.EssimMqttClient.HandleStop: network failures while writing to the store are not modelled.
- Battery.BatteryNode.WriteResults: a row's time is the number start + i x duration. Its text form, and the range limits of `datetime.utcfromtimestamp`, are not modelled. The row's fields are kept per carrier id: the source names them by carrier type, so two carriers of the same type overwrite each other there. The measurement name `battery-<asset name>` is not modelled.
- BatteryCurve.WindowTest: a number in a window config is what `int()`/`float()` makes of the entry. The conversion itself (for example the truncation of 7.5 to 7) is not modelled, and neither is a `windows` entry that is not a list of dictionaries.
- `BatteryNode.get_carrier_cost` is not modelled: nothing in the modelled code calls it.
- `ESDLProfileProcessor.process_profile` and the credential parsing are not modelled: they are data-frame, query and caching code around the conversion.
- ProfileUnits: a profile type other than UNDEFINED is known only by its literal's name and ordinal. The list of ESDL profile-type literals is not reproduced.
- SimulationSteps.CreateSimulationInfo: the two dates stand for their formatted strings.
