/** The battery node of one simulation run (tno/essim_battery/battery_node.py): an
    append-only state-of-charge history, per-carrier histories of bid curves and
    allocations, the two market operations that extend them, and the rows of results
    written when the run stops. */
module Battery {
  import opened Common
  import opened BatteryCurve
  import opened SimulationSteps

  /** The `asset_info` dictionary read from the energy-system document; an absent key is `None`. */
  datatype AssetInfo = AssetInfo(
    capacity: Option<real>,
    fillLevel: Option<real>,
    maxChargeRate: Option<real>,
    maxDischargeRate: Option<real>,
    marginalChargeCosts: Option<ProfileInfo>,
    marginalDischargeCosts: Option<ProfileInfo>)

  /** The keys the constructor insists on. */
  predicate HasRequiredAttributes(a: AssetInfo) {
    a.capacity.Some? && a.fillLevel.Some? && a.marginalChargeCosts.Some? && a.marginalDischargeCosts.Some?
  }

  /** The charge (J) a node starts with: capacity x fillLevel. */
  function InitialCharge(a: AssetInfo): real
    requires HasRequiredAttributes(a)
  {
    a.capacity.value * a.fillLevel.value
  }

  /** A marginal cost: only a `SingleValue` is supported; a dictionary without a `type`
      raises KeyError, any other type raises. */
  function MarginalCost(info: ProfileInfo): (r: Result<real>)
    ensures r.Ok? <==> info.SingleValue?
    ensures info.SingleValue? ==> r.value == info.value
    ensures info.UntypedProfile? ==> r == Err(UnknownKey)
    ensures info.InfluxDBProfile? || info.TimeSeriesProfile? ==> r == Err(UnsupportedCostType)
  {
    match info
    case SingleValue(v) => Ok(v)
    case UntypedProfile => Err(UnknownKey)
    case _ => Err(UnsupportedCostType)
  }

  /** The `carrier_cost` entry of a carrier: absent, the series of a stored profile, or the
      number of a single value. */
  datatype CarrierCost = NoCost | CostSeries(values: seq<real>) | CostValue(value: real)

  /** The fields of one results row for one carrier: its allocation, the energies at both
      ends of its curve, and its cost at the step when it has one. */
  datatype CarrierFields = CarrierFields(allocationEnergy: real, curveEnergyStart: real, curveEnergyEnd: real,
                                         cost: Option<real>)

  /** One row of results: its time in seconds since the epoch (written as a UTC date), the
      state of charge in joules and as a fraction of the capacity, and the fields of every
      carrier. */
  datatype ResultRow = ResultRow(time: real, stateOfCharge: real, fillFraction: real,
                                 carriers: map<CarrierId, CarrierFields>)

  class BatteryNode {
    const asset: AssetInfo
    /** `carriers_info`: the carriers of the node's ports, with their costs. */
    const carriers: map<CarrierId, CarrierCost>
    const simulationInfo: SimulationInfo
    const chargeWindows: Option<WindowConfig>
    const dischargeWindows: Option<WindowConfig>

    /** Element i is the state of charge (J) before step i is allocated. */
    var stateOfCharge: seq<real>
    var bidCurves: map<CarrierId, seq<Curve>>
    var allocations: map<CarrierId, seq<real>>
    /** Set by the most recent bid request, whatever its carrier or step. */
    var minPrice: Option<real>
    var maxPrice: Option<real>
    var duration: Option<real>

    ghost predicate Valid() {
      HasRequiredAttributes(asset)
    }

    function Capacity(): real
      requires Valid()
    {
      asset.capacity.value
    }

    /** Construction raises unless capacity, fillLevel and both marginal costs are present;
        otherwise the history holds the initial charge capacity x fillLevel and nothing else. */
    static method New(asset: AssetInfo, carriers: map<CarrierId, CarrierCost>, simulationInfo: SimulationInfo,
                      chargeWindows: Option<WindowConfig>, dischargeWindows: Option<WindowConfig>)
      returns (r: Result<BatteryNode>)
      ensures r.Err? <==> !HasRequiredAttributes(asset)
      ensures r.Err? ==> r.error == MissingAttribute
      ensures r.Ok? ==> fresh(r.value) && r.value.Valid()
      ensures r.Ok? ==> r.value.asset == asset && r.value.carriers == carriers
      ensures r.Ok? ==> r.value.simulationInfo == simulationInfo
      ensures r.Ok? ==> r.value.chargeWindows == chargeWindows && r.value.dischargeWindows == dischargeWindows
      ensures r.Ok? ==> r.value.stateOfCharge == [InitialCharge(asset)]
      ensures r.Ok? ==> r.value.bidCurves == map[] && r.value.allocations == map[]
      ensures r.Ok? ==> r.value.minPrice.None? && r.value.maxPrice.None? && r.value.duration.None?
    {
      if !HasRequiredAttributes(asset) {
        return Err(MissingAttribute);
      }
      var node := new BatteryNode(asset, carriers, simulationInfo, chargeWindows, dischargeWindows);
      return Ok(node);
    }

    constructor (asset: AssetInfo, carriers: map<CarrierId, CarrierCost>, simulationInfo: SimulationInfo,
                 chargeWindows: Option<WindowConfig>, dischargeWindows: Option<WindowConfig>)
      requires HasRequiredAttributes(asset)
      ensures Valid()
      ensures this.asset == asset && this.carriers == carriers && this.simulationInfo == simulationInfo
      ensures this.chargeWindows == chargeWindows && this.dischargeWindows == dischargeWindows
      ensures stateOfCharge == [InitialCharge(asset)]
      ensures bidCurves == map[] && allocations == map[]
      ensures minPrice.None? && maxPrice.None? && duration.None?
    {
      this.asset := asset;
      this.carriers := carriers;
      this.simulationInfo := simulationInfo;
      this.chargeWindows := chargeWindows;
      this.dischargeWindows := dischargeWindows;
      stateOfCharge := [InitialCharge(asset)];
      bidCurves := map[];
      allocations := map[];
      minPrice, maxPrice, duration := None, None, None;
    }

    method StoreBidCurve(carrier: CarrierId, curve: Curve)
      modifies this`bidCurves
      ensures bidCurves == AppendTo(old(bidCurves), carrier, curve)
    {
      if carrier !in bidCurves {
        bidCurves := bidCurves[carrier := []];
      }
      bidCurves := bidCurves[carrier := bidCurves[carrier] + [curve]];
    }

    method StoreAllocationEnergy(carrier: CarrierId, allocation: real)
      modifies this`allocations
      ensures allocations == AppendTo(old(allocations), carrier, allocation)
    {
      if carrier !in allocations {
        allocations := allocations[carrier := []];
      }
      allocations := allocations[carrier := allocations[carrier] + [allocation]];
    }

    /** The allocation stored for a carrier at a step: `None` for a carrier never allocated,
        an IndexError for a step outside its list. */
    function GetAllocationEnergy(carrier: CarrierId, stepNr: int): (r: Result<Option<real>>)
      reads this
      ensures carrier !in allocations ==> r == Ok(None)
      ensures carrier in allocations && 0 <= stepNr < |allocations[carrier]| ==>
                r == Ok(Some(allocations[carrier][stepNr]))
      ensures carrier in allocations && -|allocations[carrier]| <= stepNr < 0 ==>
                r == Ok(Some(allocations[carrier][|allocations[carrier]| + stepNr]))
      ensures r.Err? <==> carrier in allocations && !(-|allocations[carrier]| <= stepNr < |allocations[carrier]|)
    {
      if carrier in allocations then
        match PyIndex(allocations[carrier], stepNr)
        case Ok(v) => Ok(Some(v))
        case Err(e) => Err(e)
      else Ok(None)
    }

    /** What a bid request computes from the history `soc`: the headroom of the step from
        the window policy, the rates and the capacity, then the curve; it raises on a bad
        step index, a zero capacity, an unreadable window config, a missing rate, an
        unsupported cost or mcc > mdc. */
    function BidFor(soc: seq<real>, stepNr: int, hourOfDay: int, duration: real,
                    minPrice: real, maxPrice: real): (r: Result<Curve>)
      requires Valid()
      ensures r.Ok? ==> -|soc| <= stepNr < |soc| && Capacity() != 0.0
      ensures r.Ok? ==> 2 <= |r.value| <= 4 && r.value[0].price == minPrice && r.value[|r.value| - 1].price == maxPrice
    {
      match PyIndex(soc, stepNr)
      case Err(e) => Err(e)
      case Ok(current) =>
        if Capacity() == 0.0 then Err(ZeroDivision)
        else
          var fill := current / Capacity();
          match ChargeAllowed(chargeWindows, fill, hourOfDay)
          case Err(e) => Err(e)
          case Ok(allowCharge) =>
          match DischargeAllowed(dischargeWindows, fill, hourOfDay)
          case Err(e) => Err(e)
          case Ok(allowDischarge) =>
          CurveFor(current, allowCharge, allowDischarge, duration, minPrice, maxPrice)
    }

    /** The curve of a step once the permissions are known: the headroom in each allowed
        direction needs that direction's rate; both costs must be single values with
        mcc <= mdc. */
    function CurveFor(current: real, allowCharge: bool, allowDischarge: bool, duration: real,
                      minPrice: real, maxPrice: real): (r: Result<Curve>)
      requires Valid()
      ensures r.Ok? ==> 2 <= |r.value| <= 4 && r.value[0].price == minPrice && r.value[|r.value| - 1].price == maxPrice
    {
      if allowCharge && asset.maxChargeRate.None? then Err(MissingAttribute)
      else if allowDischarge && asset.maxDischargeRate.None? then Err(MissingAttribute)
      else
        var maxCharge := MaxChargeEnergy(allowCharge, if allowCharge then asset.maxChargeRate.value else 0.0,
                                         duration, Capacity(), current);
        var maxDischarge := MaxDischargeEnergy(allowDischarge,
                                               if allowDischarge then asset.maxDischargeRate.value else 0.0,
                                               duration, current);
        match MarginalCost(asset.marginalChargeCosts.value)
        case Err(e) => Err(e)
        case Ok(mcc) =>
          match MarginalCost(asset.marginalDischargeCosts.value)
          case Err(e) => Err(e)
          case Ok(mdc) =>
            if mcc > mdc then Err(ChargeCostsExceedDischargeCosts)
            else Ok(BidCurveFor(minPrice, maxPrice, mcc, mdc, maxCharge, maxDischarge))
    }

    /** The second half of a bid request: the headroom in each direction, the cost check,
        and the trimmed curve. */
    method BuildCurve(current: real, allowCharge: bool, allowDischarge: bool, duration: real,
                      minPrice: real, maxPrice: real) returns (r: Result<Curve>)
      requires Valid()
      ensures r == CurveFor(current, allowCharge, allowDischarge, duration, minPrice, maxPrice)
    {
      var maxCharge := 0.0;
      if allowCharge {
        if asset.maxChargeRate.None? {
          return Err(MissingAttribute);
        }
        var byRate := asset.maxChargeRate.value * duration;
        var room := Capacity() - current;
        maxCharge := if byRate <= room then byRate else room;
      }
      var maxDischarge := 0.0;
      if allowDischarge {
        if asset.maxDischargeRate.None? {
          return Err(MissingAttribute);
        }
        var byRate := asset.maxDischargeRate.value * duration;
        maxDischarge := if byRate <= current then byRate else current;
      }

      var mcc := MarginalCost(asset.marginalChargeCosts.value);
      if mcc.Err? {
        return Err(mcc.error);
      }
      var mdc := MarginalCost(asset.marginalDischargeCosts.value);
      if mdc.Err? {
        return Err(mdc.error);
      }
      if mcc.value > mdc.value {
        return Err(ChargeCostsExceedDischargeCosts);
      }
      assert maxCharge == MaxChargeEnergy(allowCharge, if allowCharge then asset.maxChargeRate.value else 0.0,
                                          duration, Capacity(), current);
      assert maxDischarge == MaxDischargeEnergy(allowDischarge,
                                                if allowDischarge then asset.maxDischargeRate.value else 0.0,
                                                duration, current);
      var curve := TrimmedCurve(minPrice, maxPrice, mcc.value, mdc.value, maxCharge, maxDischarge);
      return Ok(curve);
    }

    /** A bid request: records the price bounds and duration, builds the curve by trimming
        the four-point list in place, and appends it to the carrier's curves. Nothing is
        appended when it raises; the price bounds and duration are recorded regardless. */
    method CreateBidCurve(stepNr: int, hourOfDay: int, duration: real, minPrice: real,
                          maxPrice: real, carrier: CarrierId) returns (r: Result<Curve>)
      requires Valid()
      modifies this
      ensures this.minPrice == Some(minPrice) && this.maxPrice == Some(maxPrice)
      ensures this.duration == Some(duration)
      ensures stateOfCharge == old(stateOfCharge) && allocations == old(allocations)
      ensures r == BidFor(old(stateOfCharge), stepNr, hourOfDay, duration, minPrice, maxPrice)
      ensures bidCurves == if r.Ok? then AppendTo(old(bidCurves), carrier, r.value) else old(bidCurves)
    {
      this.minPrice := Some(minPrice);
      this.maxPrice := Some(maxPrice);
      this.duration := Some(duration);

      var current := PyIndex(stateOfCharge, stepNr);
      if current.Err? {
        return Err(current.error);
      }
      var currentSoc := current.value;
      if Capacity() == 0.0 {
        return Err(ZeroDivision);
      }
      var fill := currentSoc / Capacity();

      var chargePermission := ChargePermission(chargeWindows, fill, hourOfDay);
      if chargePermission.Err? {
        return Err(chargePermission.error);
      }
      var allowCharge := chargePermission.value;
      var dischargePermission := DischargePermission(dischargeWindows, fill, hourOfDay);
      if dischargePermission.Err? {
        return Err(dischargePermission.error);
      }
      var allowDischarge := dischargePermission.value;

      var curve := BuildCurve(currentSoc, allowCharge, allowDischarge, duration, minPrice, maxPrice);
      if curve.Err? {
        return curve;
      }
      StoreBidCurve(carrier, curve.value);
      return curve;
    }

    /** The allocation an allocate message resolves to, before the history is extended: the
        carrier must be known and have a curve at the step, and the history an entry there. */
    function AllocationFor(stepNr: int, price: real, carrier: CarrierId): (r: Result<real>)
      reads this
      ensures r.Ok? <==>
        && carrier in carriers && carrier in bidCurves
        && -|bidCurves[carrier]| <= stepNr < |bidCurves[carrier]|
        && minPrice.Some?
        && Allocation(PyIndex(bidCurves[carrier], stepNr).value, minPrice.value, price).Ok?
        && -|stateOfCharge| <= stepNr < |stateOfCharge|
      ensures r.Ok? ==> r == Allocation(PyIndex(bidCurves[carrier], stepNr).value, minPrice.value, price)
    {
      if carrier !in carriers || carrier !in bidCurves then Err(UnknownKey)
      else match PyIndex(bidCurves[carrier], stepNr)
        case Err(e) => Err(e)
        case Ok(curve) =>
          if minPrice.None? then Err(NoneValue)
          else match Allocation(curve, minPrice.value, price)
            case Err(e) => Err(e)
            case Ok(a) =>
              if PyIndex(stateOfCharge, stepNr).Err? then Err(IndexOutOfRange) else Ok(a)
    }

    /** An allocate message: resolves the price on the step's curve, appends the clamped new
        state of charge, then (after dividing by the duration for a debug line) appends the
        allocation. A zero duration raises after the state of charge was appended. */
    method ProcessAllocation(stepNr: int, price: real, carrier: CarrierId) returns (r: Result<real>)
      modifies this
      ensures bidCurves == old(bidCurves) && minPrice == old(minPrice)
      ensures maxPrice == old(maxPrice) && duration == old(duration)
      ensures old(AllocationFor(stepNr, price, carrier)).Err? ==>
                r == old(AllocationFor(stepNr, price, carrier))
                && stateOfCharge == old(stateOfCharge)
      ensures old(AllocationFor(stepNr, price, carrier)).Ok? ==>
                var a := old(AllocationFor(stepNr, price, carrier)).value;
                && stateOfCharge == old(stateOfCharge)
                     + [NewStateOfCharge(PyIndex(old(stateOfCharge), stepNr).value, a)]
                && r == (if duration.None? then Err(NoneValue)
                         else if duration.value == 0.0 then Err(ZeroDivision) else Ok(a))
      ensures allocations == if r.Ok? then AppendTo(old(allocations), carrier, r.value) else old(allocations)
    {
      if carrier !in carriers || carrier !in bidCurves {
        return Err(UnknownKey);
      }
      var found := PyIndex(bidCurves[carrier], stepNr);
      if found.Err? {
        return Err(found.error);
      }
      var curve := found.value;
      if minPrice.None? {
        return Err(NoneValue);
      }
      var allocation := ResolveAllocation(curve, minPrice.value, price);
      if allocation.Err? {
        return Err(allocation.error);
      }
      var previous := PyIndex(stateOfCharge, stepNr);
      if previous.Err? {
        return Err(IndexOutOfRange);
      }
      var newSoc := previous.value + allocation.value;
      if newSoc < 0.0 {
        newSoc := 0.0;
      }
      stateOfCharge := stateOfCharge + [newSoc];
      if duration.None? {
        return Err(NoneValue);
      }
      if duration.value == 0.0 {
        return Err(ZeroDivision);
      }
      StoreAllocationEnergy(carrier, allocation.value);
      return Ok(allocation.value);
    }

    /** The fields of carrier `c` in row `i`, or `None` when reading them raises: no
        allocation stored for the carrier (`float(None)`), no curve list, a step past
        either list, or a cost that is a single number (which cannot be indexed) or a
        series too short for the step. */
    function CarrierFieldsAt(c: CarrierId, i: nat): Option<CarrierFields>
      requires c in carriers
      reads this
    {
      match GetAllocationEnergy(c, i)
      case Err(_) => None
      case Ok(None) => None
      case Ok(Some(allocation)) =>
        if c !in bidCurves then None
        else match PyIndex(bidCurves[c], i)
          case Err(_) => None
          case Ok(curve) =>
            if |curve| == 0 then None
            else match carriers[c]
              case NoCost => Some(CarrierFields(allocation, curve[0].energy, curve[|curve| - 1].energy, None))
              case CostValue(_) => None
              case CostSeries(values) =>
                match PyIndex(values, i)
                case Err(_) => None
                case Ok(cost) => Some(CarrierFields(allocation, curve[0].energy, curve[|curve| - 1].energy, Some(cost)))
    }

    /** Row `i` of the results, or `None` when building it raises: no step origin or no
        duration (both `None` until a bid request), a step past the history, a zero
        capacity, or a carrier whose fields cannot be read. */
    function RowAt(start: Option<int>, i: nat): Option<ResultRow>
      requires Valid()
      reads this
    {
      if start.None? || duration.None? then None
      else match PyIndex(stateOfCharge, i)
        case Err(_) => None
        case Ok(soc) =>
          if Capacity() == 0.0 then None
          else if exists c :: c in carriers && CarrierFieldsAt(c, i).None? then None
          else Some(ResultRow(start.value as real + i as real * duration.value, soc, soc / Capacity(),
                              map c | c in carriers :: CarrierFieldsAt(c, i).value))
    }

    /** The number of rows: one per simulation step but the last. */
    function RowCount(): nat
      reads this
    {
      if simulationInfo.numberOfSteps - 1 < 0 then 0 else simulationInfo.numberOfSteps - 1
    }

    /** Rows `0 .. k-1`, or `None` when any of them raises. */
    function RowsUpTo(start: Option<int>, k: nat): (rows: Option<seq<ResultRow>>)
      requires Valid()
      reads this
      ensures rows.Some? <==> forall i: nat :: i < k ==> RowAt(start, i).Some?
      ensures rows.Some? ==> |rows.value| == k && forall i: nat :: i < k ==> RowAt(start, i) == Some(rows.value[i])
    {
      if k == 0 then Some([])
      else match RowsUpTo(start, k - 1)
        case None => None
        case Some(earlier) =>
          match RowAt(start, k - 1)
          case None => None
          case Some(row) => Some(earlier + [row])
    }

    /** `write_results`: builds one row per step and hands the rows to the store. A row
        that raises is caught, but the handler then reads `e.message`, which Python 3
        exceptions lack, so an AttributeError escapes and nothing is written. A missing
        store raises when the rows are handed over. */
    method WriteResults<S>(store: Option<S>, start: Option<int>) returns (r: Result<seq<ResultRow>>)
      requires Valid()
      ensures RowsUpTo(start, RowCount()).None? ==> r == Err(NoMessageAttribute)
      ensures RowsUpTo(start, RowCount()).Some? ==>
        r == if store.Some? then Ok(RowsUpTo(start, RowCount()).value) else Err(NoneValue)
    {
      var rows: seq<ResultRow> := [];
      for i := 0 to RowCount()
        invariant RowsUpTo(start, i) == Some(rows)
      {
        var row := RowAt(start, i);
        if row.None? {
          return Err(NoMessageAttribute);
        }
        rows := rows + [row.value];
      }
      if store.None? {
        return Err(NoneValue);
      }
      return Ok(rows);
    }
  }

  /** A row is written exactly when the origin and the duration are set, the history and
      every carrier's allocations and curves reach its step, the capacity is not zero, and
      no carrier's cost is a single number or a series too short for the step. */
  lemma RowWrittenExactly(node: BatteryNode, start: Option<int>, i: nat)
    requires node.Valid()
    ensures node.RowAt(start, i).Some? <==>
      && start.Some? && node.duration.Some? && i < |node.stateOfCharge| && node.Capacity() != 0.0
      && forall c :: c in node.carriers ==>
           && c in node.allocations && i < |node.allocations[c]|
           && c in node.bidCurves && i < |node.bidCurves[c]| && |node.bidCurves[c][i]| > 0
           && !node.carriers[c].CostValue?
           && (node.carriers[c].CostSeries? ==> i < |node.carriers[c].values|)
  {
  }

  /** A run stopped before its first bid request writes nothing: without a duration the
      first row raises. */
  lemma StopBeforeAnyBidWritesNothing(node: BatteryNode, start: Option<int>)
    requires node.Valid() && node.duration.None? && node.RowCount() > 0
    ensures node.RowsUpTo(start, node.RowCount()).None?
  {
    assert node.RowAt(start, 0).None?;
  }

  /** The four-point list of `create_bid_curve`, trimmed in place: the mdc point goes when
      there is no discharge headroom, the mcc point when there is no charge headroom, and a
      two-point curve ends at -Delta. */
  method TrimmedCurve(minPrice: real, maxPrice: real, mcc: real, mdc: real, maxCharge: real, maxDischarge: real)
    returns (curve: Curve)
    ensures curve == BidCurveFor(minPrice, maxPrice, mcc, mdc, maxCharge, maxDischarge)
  {
    var mdcEnergy := if Delta / 2.0 < maxDischarge then -Delta / 2.0 else -maxDischarge / 2.0;
    var mccEnergy := if Delta / 2.0 < maxCharge then Delta / 2.0 else maxCharge / 2.0;
    curve := [Point(minPrice, maxCharge), Point(mcc, mccEnergy), Point(mdc, mdcEnergy), Point(maxPrice, -maxDischarge)];
    if maxDischarge == 0.0 {
      curve := curve[..2] + curve[3..];
    }
    if maxCharge == 0.0 {
      curve := curve[..1] + curve[2..];
    }
    if |curve| == 2 {
      curve := curve[1 := Point(curve[1].price, -Delta)];
    }
  }

  /** A bid is produced exactly when the step indexes the history, the capacity is non-zero,
      the rates of the allowed directions are present, both costs are single values and
      mcc <= mdc; the curve is then the one built from the step's headroom. */
  lemma BidSucceedsExactly(node: BatteryNode, soc: seq<real>, stepNr: int, hourOfDay: int,
                           duration: real, minPrice: real, maxPrice: real)
    requires node.Valid()
    ensures var r := node.BidFor(soc, stepNr, hourOfDay, duration, minPrice, maxPrice);
      r.Ok? <==>
        && -|soc| <= stepNr < |soc|
        && node.Capacity() != 0.0
        && var fill := PyIndex(soc, stepNr).value / node.Capacity();
        && ChargeAllowed(node.chargeWindows, fill, hourOfDay).Ok?
        && DischargeAllowed(node.dischargeWindows, fill, hourOfDay).Ok?
        && (ChargeAllowed(node.chargeWindows, fill, hourOfDay).value ==> node.asset.maxChargeRate.Some?)
        && (DischargeAllowed(node.dischargeWindows, fill, hourOfDay).value ==> node.asset.maxDischargeRate.Some?)
        && node.asset.marginalChargeCosts.value.SingleValue?
        && node.asset.marginalDischargeCosts.value.SingleValue?
        && node.asset.marginalChargeCosts.value.value <= node.asset.marginalDischargeCosts.value.value
    ensures var r := node.BidFor(soc, stepNr, hourOfDay, duration, minPrice, maxPrice);
      r.Ok? ==>
        var current := PyIndex(soc, stepNr).value;
        var fill := current / node.Capacity();
        var allowCharge := ChargeAllowed(node.chargeWindows, fill, hourOfDay).value;
        var allowDischarge := DischargeAllowed(node.dischargeWindows, fill, hourOfDay).value;
        r.value == BidCurveFor(minPrice, maxPrice,
                               node.asset.marginalChargeCosts.value.value,
                               node.asset.marginalDischargeCosts.value.value,
                               MaxChargeEnergy(allowCharge, if allowCharge then node.asset.maxChargeRate.value else 0.0,
                                               duration, node.Capacity(), current),
                               MaxDischargeEnergy(allowDischarge,
                                                  if allowDischarge then node.asset.maxDischargeRate.value else 0.0,
                                                  duration, current))
  {
  }

  /** The stored curve of a successful bid request starts at (minPrice, headroom to charge),
      ends at maxPrice, has 2 to 4 points and falls strictly in energy whenever the state of
      charge lies within [0, capacity] and rates and duration are non-negative. */
  lemma BidCurveOfNode(node: BatteryNode, soc: seq<real>, stepNr: int, hourOfDay: int,
                       duration: real, minPrice: real, maxPrice: real)
    requires node.Valid()
    requires node.BidFor(soc, stepNr, hourOfDay, duration, minPrice, maxPrice).Ok?
    requires 0.0 <= PyIndex(soc, stepNr).value <= node.Capacity()
    requires 0.0 <= duration
    requires node.asset.maxChargeRate.Some? ==> 0.0 <= node.asset.maxChargeRate.value
    requires node.asset.maxDischargeRate.Some? ==> 0.0 <= node.asset.maxDischargeRate.value
    ensures var c := node.BidFor(soc, stepNr, hourOfDay, duration, minPrice, maxPrice).value;
      && 2 <= |c| <= 4
      && c[0].price == minPrice && 0.0 <= c[0].energy <= node.Capacity() - PyIndex(soc, stepNr).value
      && c[|c| - 1].price == maxPrice && -PyIndex(soc, stepNr).value - Delta <= c[|c| - 1].energy
      && StrictlyDecreasingEnergy(c)
  {
    var current := PyIndex(soc, stepNr).value;
    var fill := current / node.Capacity();
    var allowCharge := ChargeAllowed(node.chargeWindows, fill, hourOfDay).value;
    var allowDischarge := DischargeAllowed(node.dischargeWindows, fill, hourOfDay).value;
    var chargeRate := if allowCharge then node.asset.maxChargeRate.value else 0.0;
    var dischargeRate := if allowDischarge then node.asset.maxDischargeRate.value else 0.0;
    var maxCharge := MaxChargeEnergy(allowCharge, chargeRate, duration, node.Capacity(), current);
    var maxDischarge := MaxDischargeEnergy(allowDischarge, dischargeRate, duration, current);
    MaxEnergiesWithinCapacity(allowCharge, allowDischarge, chargeRate, dischargeRate, duration,
                              node.Capacity(), current);
    var mcc := node.asset.marginalChargeCosts.value.value;
    var mdc := node.asset.marginalDischargeCosts.value.value;
    BidCurveShape(minPrice, maxPrice, mcc, mdc, maxCharge, maxDischarge);
    BidCurveStrictlyDecreasing(minPrice, maxPrice, mcc, mdc, maxCharge, maxDischarge);
  }
}
