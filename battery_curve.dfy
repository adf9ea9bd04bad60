/** The per-step arithmetic of the battery node (tno/essim_battery/battery_node.py):
    the time-window policy, the charge/discharge headroom of one step, the
    2-4 point bid curve, and the resolution of a cleared price back to an
    energy allocation. Energies are in joules, numbers are `real`. */
module BatteryCurve {
  import opened Common

  /** The node's `delta` (1e-12): keeps the curve strictly decreasing. */
  const Delta: real := 0.000000000001

  /** One bid-curve point `[price, energy]`; positive energy charges the battery. */
  datatype Point = Point(price: real, energy: real)
  type Curve = seq<Point>

  /** A number a window config holds under some key: the key is missing (KeyError), the
      entry is something `int()` or `float()` cannot convert (ValueError), or the number
      the conversion gives. */
  datatype ConfigNumber<T> = Missing | NotANumber | Number(value: T)

  function ReadNumber<T>(n: ConfigNumber<T>): Result<T> {
    match n
    case Missing => Err(UnknownKey)
    case NotANumber => Err(InvalidNumber)
    case Number(v) => Ok(v)
  }

  /** One entry of a config's `windows` list: its `start_hour` and `end_hour`. */
  datatype Window = Window(startHour: ConfigNumber<int>, endHour: ConfigNumber<int>)

  /** A window config that is not empty: `threshold` is its
      `always_charge_below_fill_fraction` (for charging) or
      `always_discharge_above_fill_fraction` (for discharging) entry, `windows` its
      `windows` list, `None` when that key is missing. A missing or empty config, which
      Python finds falsy, is `None` where a config is used. */
  datatype WindowConfig = WindowConfig(threshold: ConfigNumber<real>, windows: Option<seq<Window>>)

  /** A window whose hours are numbers and contain `hour`. */
  predicate InWindow(w: Window, hour: int) {
    w.startHour.Number? && w.endHour.Number? && w.startHour.value <= hour < w.endHour.value
  }

  predicate WellFormedWindows(windows: seq<Window>) {
    forall i :: 0 <= i < |windows| ==> windows[i].startHour.Number? && windows[i].endHour.Number?
  }

  predicate SomeWindowContains(windows: seq<Window>, hour: int) {
    exists i :: 0 <= i < |windows| && InWindow(windows[i], hour)
  }

  /** `int(w["start_hour"]) <= hour < int(w["end_hour"])`. The chained comparison reads
      the end hour only when the start hour is at most `hour`. */
  function WindowTest(w: Window, hour: int): (r: Result<bool>)
    ensures r == Ok(true) <==> InWindow(w, hour)
    ensures r.Err? <==> !w.startHour.Number? || (w.startHour.value <= hour && !w.endHour.Number?)
  {
    match ReadNumber(w.startHour)
    case Err(e) => Err(e)
    case Ok(start) =>
      if !(start <= hour) then Ok(false)
      else match ReadNumber(w.endHour)
        case Err(e) => Err(e)
        case Ok(end) => Ok(hour < end)
  }

  /** The windows are tested in order until one contains the hour; a window that cannot
      be read before that raises. Windows after the first match are not read. */
  function WindowsAllow(windows: seq<Window>, hour: int): (r: Result<bool>)
    ensures WellFormedWindows(windows) ==> r == Ok(SomeWindowContains(windows, hour))
    decreases |windows|
  {
    if windows == [] then Ok(false)
    else match WindowTest(windows[0], hour)
      case Err(e) => Err(e)
      case Ok(true) => Ok(true)
      case Ok(false) =>
        var rest := WindowsAllow(windows[1..], hour);
        assert WellFormedWindows(windows) ==> WellFormedWindows(windows[1..]) by {
          if WellFormedWindows(windows) {
            forall i | 0 <= i < |windows[1..]|
              ensures windows[1..][i].startHour.Number? && windows[1..][i].endHour.Number?
            {
              assert windows[1..][i] == windows[i + 1];
            }
          }
        }
        assert SomeWindowContains(windows, hour) ==> SomeWindowContains(windows[1..], hour) by {
          if SomeWindowContains(windows, hour) {
            var i :| 0 <= i < |windows| && InWindow(windows[i], hour);
            assert i != 0;
            assert windows[1..][i - 1] == windows[i];
          }
        }
        assert SomeWindowContains(windows[1..], hour) ==> SomeWindowContains(windows, hour) by {
          if SomeWindowContains(windows[1..], hour) {
            var i :| 0 <= i < |windows[1..]| && InWindow(windows[1..][i], hour);
            assert windows[i + 1] == windows[1..][i];
          }
        }
        rest
  }

  /** No window before `k` can be read and contains the hour. */
  predicate ClearBefore(windows: seq<Window>, k: int, hour: int)
    requires 0 <= k <= |windows|
  {
    forall j :: 0 <= j < k ==> WindowTest(windows[j], hour) == Ok(false)
  }

  /** The scan raises exactly when some window cannot be read and every window before it
      was read and missed the hour; it grants exactly when some window contains the hour
      and every window before it was read and missed it. */
  lemma {:induction false} WindowsAllowFirstDecides(windows: seq<Window>, hour: int)
    ensures WindowsAllow(windows, hour).Err? <==>
      exists k :: 0 <= k < |windows| && WindowTest(windows[k], hour).Err? && ClearBefore(windows, k, hour)
    ensures WindowsAllow(windows, hour) == Ok(true) <==>
      exists k :: 0 <= k < |windows| && InWindow(windows[k], hour) && ClearBefore(windows, k, hour)
    decreases |windows|
  {
    if windows != [] {
      var rest := windows[1..];
      WindowsAllowFirstDecides(rest, hour);
      // Moving one window to the front shifts every witness by one.
      forall k | 1 <= k <= |windows|
        ensures ClearBefore(windows, k, hour) <==>
                WindowTest(windows[0], hour) == Ok(false) && ClearBefore(rest, k - 1, hour)
      {
        if ClearBefore(windows, k, hour) {
          forall j | 0 <= j < k - 1 ensures WindowTest(rest[j], hour) == Ok(false) {
            assert rest[j] == windows[j + 1];
          }
        }
        if WindowTest(windows[0], hour) == Ok(false) && ClearBefore(rest, k - 1, hour) {
          forall j | 0 <= j < k ensures WindowTest(windows[j], hour) == Ok(false) {
            if j > 0 {
              assert windows[j] == rest[j - 1];
            }
          }
        }
      }
      if WindowTest(windows[0], hour) == Ok(false) {
        if exists k :: 0 <= k < |rest| && WindowTest(rest[k], hour).Err? && ClearBefore(rest, k, hour) {
          var k :| 0 <= k < |rest| && WindowTest(rest[k], hour).Err? && ClearBefore(rest, k, hour);
          assert windows[k + 1] == rest[k];
          assert ClearBefore(windows, k + 1, hour);
        }
        if exists k :: 0 <= k < |windows| && WindowTest(windows[k], hour).Err? && ClearBefore(windows, k, hour) {
          var k :| 0 <= k < |windows| && WindowTest(windows[k], hour).Err? && ClearBefore(windows, k, hour);
          assert k != 0;
          assert rest[k - 1] == windows[k];
          assert ClearBefore(rest, k - 1, hour);
        }
        if exists k :: 0 <= k < |rest| && InWindow(rest[k], hour) && ClearBefore(rest, k, hour) {
          var k :| 0 <= k < |rest| && InWindow(rest[k], hour) && ClearBefore(rest, k, hour);
          assert windows[k + 1] == rest[k];
          assert ClearBefore(windows, k + 1, hour);
        }
        if exists k :: 0 <= k < |windows| && InWindow(windows[k], hour) && ClearBefore(windows, k, hour) {
          var k :| 0 <= k < |windows| && InWindow(windows[k], hour) && ClearBefore(windows, k, hour);
          assert k != 0;
          assert rest[k - 1] == windows[k];
          assert ClearBefore(rest, k - 1, hour);
        }
      } else {
        assert ClearBefore(windows, 0, hour);
      }
    }
  }

  /** The window loop of `create_bid_curve`: it starts false and, until a window matches,
      tests the next one; it keeps iterating after a match without reading further. */
  method ScanWindows(windows: seq<Window>, hour: int) returns (r: Result<bool>)
    ensures r == WindowsAllow(windows, hour)
  {
    var allow := false;
    for i := 0 to |windows|
      invariant WindowsAllow(windows, hour) == if allow then Ok(true) else WindowsAllow(windows[i..], hour)
    {
      if !allow {
        assert windows[i..][0] == windows[i] && windows[i..][1..] == windows[i + 1..];
        var test := WindowTest(windows[i], hour);
        if test.Err? {
          return Err(test.error);
        }
        allow := test.value;
      }
    }
    assert windows[|windows|..] == [];
    return Ok(allow);
  }

  /** Every entry of a config is readable. */
  predicate WellFormedConfig(cfg: Option<WindowConfig>) {
    cfg.Some? ==> cfg.value.threshold.Number? && cfg.value.windows.Some? && WellFormedWindows(cfg.value.windows.value)
  }

  /** Whether the node may charge: always without a config; otherwise the threshold is read
      (raising when it is missing or not a number), and above it the windows are scanned. */
  function ChargeAllowed(cfg: Option<WindowConfig>, fill: real, hour: int): (r: Result<bool>)
    ensures cfg.None? ==> r == Ok(true)
    ensures cfg.Some? && !cfg.value.threshold.Number? ==> r.Err?
    ensures cfg.Some? && cfg.value.threshold.Number? && fill <= cfg.value.threshold.value ==> r == Ok(true)
    ensures cfg.Some? && cfg.value.threshold.Number? && fill > cfg.value.threshold.value ==>
      cfg.value.windows.None? ==> r == Err(UnknownKey)
    ensures WellFormedConfig(cfg) ==>
      r == Ok(cfg.None? || fill <= cfg.value.threshold.value || SomeWindowContains(cfg.value.windows.value, hour))
  {
    if cfg.None? then Ok(true)
    else match ReadNumber(cfg.value.threshold)
      case Err(e) => Err(e)
      case Ok(threshold) =>
        if !(fill > threshold) then Ok(true)
        else if cfg.value.windows.None? then Err(UnknownKey)
        else WindowsAllow(cfg.value.windows.value, hour)
  }

  /** Whether the node may discharge: the mirror image, disallowed below the threshold. */
  function DischargeAllowed(cfg: Option<WindowConfig>, fill: real, hour: int): (r: Result<bool>)
    ensures cfg.None? ==> r == Ok(true)
    ensures cfg.Some? && !cfg.value.threshold.Number? ==> r.Err?
    ensures cfg.Some? && cfg.value.threshold.Number? && fill >= cfg.value.threshold.value ==> r == Ok(true)
    ensures cfg.Some? && cfg.value.threshold.Number? && fill < cfg.value.threshold.value ==>
      cfg.value.windows.None? ==> r == Err(UnknownKey)
    ensures WellFormedConfig(cfg) ==>
      r == Ok(cfg.None? || fill >= cfg.value.threshold.value || SomeWindowContains(cfg.value.windows.value, hour))
  {
    if cfg.None? then Ok(true)
    else match ReadNumber(cfg.value.threshold)
      case Err(e) => Err(e)
      case Ok(threshold) =>
        if !(fill < threshold) then Ok(true)
        else if cfg.value.windows.None? then Err(UnknownKey)
        else WindowsAllow(cfg.value.windows.value, hour)
  }

  method ChargePermission(cfg: Option<WindowConfig>, fill: real, hour: int) returns (r: Result<bool>)
    ensures r == ChargeAllowed(cfg, fill, hour)
  {
    r := Ok(true);
    if cfg.Some? {
      var threshold := ReadNumber(cfg.value.threshold);
      if threshold.Err? {
        return Err(threshold.error);
      }
      if fill > threshold.value {
        if cfg.value.windows.None? {
          return Err(UnknownKey);
        }
        r := ScanWindows(cfg.value.windows.value, hour);
      }
    }
  }

  method DischargePermission(cfg: Option<WindowConfig>, fill: real, hour: int) returns (r: Result<bool>)
    ensures r == DischargeAllowed(cfg, fill, hour)
  {
    r := Ok(true);
    if cfg.Some? {
      var threshold := ReadNumber(cfg.value.threshold);
      if threshold.Err? {
        return Err(threshold.error);
      }
      if fill < threshold.value {
        if cfg.value.windows.None? {
          return Err(UnknownKey);
        }
        r := ScanWindows(cfg.value.windows.value, hour);
      }
    }
  }

  /** Past the threshold with an empty window list, the direction is not allowed. */
  lemma EmptyWindowsForbid(threshold: real, fill: real, hour: int)
    ensures fill > threshold ==> ChargeAllowed(Some(WindowConfig(Number(threshold), Some([]))), fill, hour) == Ok(false)
    ensures fill < threshold ==> DischargeAllowed(Some(WindowConfig(Number(threshold), Some([]))), fill, hour) == Ok(false)
  {
  }

  /** Joules that may be added this step: the smaller of rate x duration and the room left. */
  function MaxChargeEnergy(allow: bool, rate: real, duration: real, capacity: real, soc: real): (e: real)
    ensures !allow ==> e == 0.0
    ensures allow ==> e <= rate * duration && e <= capacity - soc
    ensures allow ==> e == rate * duration || e == capacity - soc
  {
    if allow then (if rate * duration <= capacity - soc then rate * duration else capacity - soc) else 0.0
  }

  /** Joules that may be taken this step: the smaller of rate x duration and the charge held. */
  function MaxDischargeEnergy(allow: bool, rate: real, duration: real, soc: real): (e: real)
    ensures !allow ==> e == 0.0
    ensures allow ==> e <= rate * duration && e <= soc
    ensures allow ==> e == rate * duration || e == soc
  {
    if allow then (if rate * duration <= soc then rate * duration else soc) else 0.0
  }

  lemma MaxEnergiesWithinCapacity(allowCharge: bool, allowDischarge: bool, chargeRate: real,
                                  dischargeRate: real, duration: real, capacity: real, soc: real)
    requires 0.0 <= soc <= capacity
    requires 0.0 <= chargeRate && 0.0 <= dischargeRate && 0.0 <= duration
    ensures 0.0 <= MaxChargeEnergy(allowCharge, chargeRate, duration, capacity, soc) <= capacity - soc
    ensures 0.0 <= MaxDischargeEnergy(allowDischarge, dischargeRate, duration, soc) <= soc
  {
    assert 0.0 <= chargeRate * duration;
    assert 0.0 <= dischargeRate * duration;
  }

  /** The energy magnitude of a cost point for a headroom: Delta / 2, or half the headroom
      when that is smaller; the mcc point charges it and the mdc point discharges it. */
  function Epsilon(headroom: real): (e: real)
    ensures headroom > 0.0 ==> 0.0 < e < headroom && e <= Delta / 2.0
    ensures e == Delta / 2.0 || e == headroom / 2.0
  {
    if Delta / 2.0 < headroom then Delta / 2.0 else headroom / 2.0
  }

  /** The bid curve the node sends: the four points
      (minPrice, maxCharge), (mcc, eps_c), (mdc, -eps_d), (maxPrice, -maxDischarge),
      without the mdc point when maxDischarge is 0 and without the mcc point when
      maxCharge is 0; when both are 0, the last energy is -Delta. */
  function BidCurveFor(minPrice: real, maxPrice: real, mcc: real, mdc: real,
                       maxCharge: real, maxDischarge: real): (c: Curve)
    ensures 2 <= |c| <= 4
    ensures c[0] == Point(minPrice, maxCharge) && c[|c| - 1].price == maxPrice
  {
    var first := Point(minPrice, maxCharge);
    var chargePoint := Point(mcc, Epsilon(maxCharge));
    var dischargePoint := Point(mdc, -Epsilon(maxDischarge));
    var last := Point(maxPrice, -maxDischarge);
    if maxCharge != 0.0 && maxDischarge != 0.0 then [first, chargePoint, dischargePoint, last]
    else if maxCharge != 0.0 then [first, chargePoint, last]
    else if maxDischarge != 0.0 then [first, dischargePoint, last]
    else [first, Point(maxPrice, -Delta)]
  }

  lemma BidCurveShape(minPrice: real, maxPrice: real, mcc: real, mdc: real,
                      maxCharge: real, maxDischarge: real)
    ensures var c := BidCurveFor(minPrice, maxPrice, mcc, mdc, maxCharge, maxDischarge);
      && 2 <= |c| <= 4
      && |c| == 2 + (if maxCharge != 0.0 then 1 else 0) + (if maxDischarge != 0.0 then 1 else 0)
      && c[0] == Point(minPrice, maxCharge)
      && c[|c| - 1].price == maxPrice
      && (maxCharge != 0.0 ==> c[1] == Point(mcc, Epsilon(maxCharge)))
      && (maxDischarge != 0.0 ==> c[|c| - 2] == Point(mdc, -Epsilon(maxDischarge)))
      && (maxCharge == 0.0 && maxDischarge == 0.0 ==> c == [Point(minPrice, 0.0), Point(maxPrice, -Delta)])
      && (maxCharge != 0.0 || maxDischarge != 0.0 ==> c[|c| - 1] == Point(maxPrice, -maxDischarge))
  {
  }

  ghost predicate StrictlyDecreasingEnergy(c: Curve) {
    forall i, j :: 0 <= i < j < |c| ==> c[i].energy > c[j].energy
  }

  ghost predicate NondecreasingPrices(c: Curve) {
    forall i, j :: 0 <= i < j < |c| ==> c[i].price <= c[j].price
  }

  ghost predicate StrictlyIncreasingPrices(c: Curve) {
    forall i, j :: 0 <= i < j < |c| ==> c[i].price < c[j].price
  }

  /** With non-negative headroom in both directions the energies strictly decrease. */
  lemma BidCurveStrictlyDecreasing(minPrice: real, maxPrice: real, mcc: real, mdc: real,
                                   maxCharge: real, maxDischarge: real)
    requires 0.0 <= maxCharge && 0.0 <= maxDischarge
    ensures StrictlyDecreasingEnergy(BidCurveFor(minPrice, maxPrice, mcc, mdc, maxCharge, maxDischarge))
  {
  }

  /** Prices follow the order of minPrice, mcc, mdc and maxPrice. */
  lemma BidCurvePricesOrdered(minPrice: real, maxPrice: real, mcc: real, mdc: real,
                              maxCharge: real, maxDischarge: real)
    ensures minPrice <= mcc <= mdc <= maxPrice ==>
      NondecreasingPrices(BidCurveFor(minPrice, maxPrice, mcc, mdc, maxCharge, maxDischarge))
    ensures minPrice < mcc < mdc < maxPrice ==>
      StrictlyIncreasingPrices(BidCurveFor(minPrice, maxPrice, mcc, mdc, maxCharge, maxDischarge))
  {
  }

  /** Linear interpolation of the energy at `price` on the segment from `a` to `b`. */
  function Lerp(a: Point, b: Point, price: real): real
    requires a.price != b.price
  {
    a.energy + (price - a.price) * (b.energy - a.energy) / (b.price - a.price)
  }

  /** Strictly inside a segment whose energy falls, the interpolated energy lies between its ends. */
  lemma LerpBetween(a: Point, b: Point, price: real)
    requires a.price < price <= b.price
    requires b.energy <= a.energy
    ensures b.energy <= Lerp(a, b, price) <= a.energy
  {
    var t := (price - a.price) / (b.price - a.price);
    assert 0.0 < t <= 1.0;
    var d := b.energy - a.energy;
    assert Lerp(a, b, price) == a.energy + t * d;
    assert d <= t * d <= 0.0;
  }

  /** At the right end of a segment, interpolation gives that end's energy exactly. */
  lemma LerpAtRightEnd(a: Point, b: Point)
    requires a.price != b.price
    ensures Lerp(a, b, b.price) == b.energy
  {
    var w := b.price - a.price;
    assert (b.price - a.price) * (b.energy - a.energy) / w == b.energy - a.energy;
  }

  /** The first segment `(i, i+1)` whose right-hand price is at least `price`. */
  function FirstSegment(c: Curve, price: real): (r: Option<nat>)
    ensures r.Some? ==> r.value + 1 < |c| && c[r.value + 1].price >= price
    ensures r.Some? ==> forall j :: 1 <= j <= r.value ==> c[j].price < price
    ensures r.None? ==> forall j :: 1 <= j < |c| ==> c[j].price < price
    decreases |c|
  {
    if |c| < 2 then None
    else if c[1].price >= price then Some(0)
    else match FirstSegment(c[1..], price)
      case None => None
      case Some(k) => Some(k + 1)
  }

  /** The energy allocated for a cleared `price` on curve `c`, given the stored `minPrice`:
      below minPrice + Delta the first point's energy, otherwise the interpolation on the
      first segment reaching `price`; no such segment raises. */
  function Allocation(c: Curve, minPrice: real, price: real): (r: Result<real>)
    ensures price < minPrice + Delta ==> (r.Ok? <==> |c| > 0)
    ensures r == Err(NoAllocationFound) <==>
      price >= minPrice + Delta && forall j :: 1 <= j < |c| ==> c[j].price < price
    ensures r == Err(ZeroDivision) ==>
      exists i :: 0 <= i < |c| - 1 && c[i].price == c[i + 1].price >= price
  {
    if price < minPrice + Delta then
      (if |c| == 0 then Err(IndexOutOfRange) else Ok(c[0].energy))
    else match FirstSegment(c, price)
      case None => Err(NoAllocationFound)
      case Some(i) =>
        if c[i + 1].price == c[i].price then Err(ZeroDivision) else Ok(Lerp(c[i], c[i + 1], price))
  }

  /** The segment scan with `break`, as the node runs it. */
  method ResolveAllocation(c: Curve, minPrice: real, price: real) returns (r: Result<real>)
    ensures r == Allocation(c, minPrice, price)
  {
    if price < minPrice + Delta {
      if |c| == 0 {
        return Err(IndexOutOfRange);
      }
      return Ok(c[0].energy);
    }
    var i := 0;
    while i < |c| - 1
      invariant 0 <= i <= if |c| == 0 then 0 else |c| - 1
      invariant forall j :: 1 <= j <= i ==> c[j].price < price
    {
      if c[i + 1].price >= price {
        if c[i + 1].price == c[i].price {
          return Err(ZeroDivision);
        }
        return Ok(Lerp(c[i], c[i + 1], price));
      }
      i := i + 1;
    }
    return Err(NoAllocationFound);
  }

  /** Any price below the stored minPrice + Delta resolves to the first point's energy,
      whatever bid stored that minPrice; resolving exactly at the curve's own minimum price
      is the case minPrice == c[0].price. */
  lemma AllocationAtMinPrice(c: Curve, minPrice: real, price: real)
    requires |c| > 0 && price < minPrice + Delta
    ensures Allocation(c, minPrice, price) == Ok(c[0].energy)
    ensures Allocation(c, c[0].price, c[0].price) == Ok(c[0].energy)
  {
  }

  /** On a curve with strictly increasing prices, a breakpoint price resolves to that
      breakpoint's energy exactly. */
  lemma AllocationAtBreakpoint(c: Curve, minPrice: real, k: nat)
    requires StrictlyIncreasingPrices(c)
    requires 1 <= k < |c| && c[k].price >= minPrice + Delta
    ensures Allocation(c, minPrice, c[k].price) == Ok(c[k].energy)
  {
    var price := c[k].price;
    assert FirstSegment(c, price) == Some(k - 1);
    var i := k - 1;
    LerpAtRightEnd(c[i], c[i + 1]);
  }

  /** The value the node appends to its state-of-charge history. */
  function NewStateOfCharge(soc: real, allocation: real): (r: real)
    ensures r >= 0.0
    ensures soc + allocation >= 0.0 ==> r == soc + allocation
  {
    if soc + allocation < 0.0 then 0.0 else soc + allocation
  }

  /** On a curve of falling energy that starts at `minPrice`, a resolved allocation lies
      between the last and the first energy of the curve. */
  lemma AllocationWithinCurve(c: Curve, minPrice: real, price: real)
    requires StrictlyDecreasingEnergy(c)
    requires |c| > 0 && c[0].price == minPrice
    requires Allocation(c, minPrice, price).Ok?
    ensures c[|c| - 1].energy <= Allocation(c, minPrice, price).value <= c[0].energy
  {
    if price >= minPrice + Delta {
      var i := FirstSegment(c, price).value;
      assert c[i].price < price by {
        if i > 0 {
          assert c[i].price < price;
        }
      }
      LerpBetween(c[i], c[i + 1], price);
      assert c[|c| - 1].energy <= c[i + 1].energy;
      assert c[i].energy <= c[0].energy;
    }
  }

  /** Resolving any price against the curve built from a state of charge within
      [0, capacity] keeps the new state of charge within [0, capacity]. */
  lemma AllocationKeepsChargeInRange(soc: real, capacity: real, allowCharge: bool, allowDischarge: bool,
                                     chargeRate: real, dischargeRate: real, duration: real,
                                     minPrice: real, maxPrice: real, mcc: real, mdc: real, price: real)
    requires 0.0 <= soc <= capacity
    requires 0.0 <= chargeRate && 0.0 <= dischargeRate && 0.0 <= duration
    requires Allocation(BidCurveFor(minPrice, maxPrice, mcc, mdc,
                                    MaxChargeEnergy(allowCharge, chargeRate, duration, capacity, soc),
                                    MaxDischargeEnergy(allowDischarge, dischargeRate, duration, soc)),
                        minPrice, price).Ok?
    ensures var c := BidCurveFor(minPrice, maxPrice, mcc, mdc,
                                 MaxChargeEnergy(allowCharge, chargeRate, duration, capacity, soc),
                                 MaxDischargeEnergy(allowDischarge, dischargeRate, duration, soc));
      0.0 <= NewStateOfCharge(soc, Allocation(c, minPrice, price).value) <= capacity
  {
    var maxCharge := MaxChargeEnergy(allowCharge, chargeRate, duration, capacity, soc);
    var maxDischarge := MaxDischargeEnergy(allowDischarge, dischargeRate, duration, soc);
    MaxEnergiesWithinCapacity(allowCharge, allowDischarge, chargeRate, dischargeRate, duration, capacity, soc);
    var c := BidCurveFor(minPrice, maxPrice, mcc, mdc, maxCharge, maxDischarge);
    BidCurveShape(minPrice, maxPrice, mcc, mdc, maxCharge, maxDischarge);
    BidCurveStrictlyDecreasing(minPrice, maxPrice, mcc, mdc, maxCharge, maxDischarge);
    AllocationWithinCurve(c, minPrice, price);
  }

  /** One hour of a 10 kWh battery half full, 5 kW both ways, costs 0.1 / 0.2 on prices
      [0, 1]: the plateaus are full rate, the cost points carry Delta / 2, and a cleared
      price of 0.15 allocates nothing. */
  lemma HalfFullHourScenario()
    ensures var soc := 36000000.0 * 0.5;
      var maxCharge := MaxChargeEnergy(true, 5000.0, 3600.0, 36000000.0, soc);
      var maxDischarge := MaxDischargeEnergy(true, 5000.0, 3600.0, soc);
      var c := BidCurveFor(0.0, 1.0, 0.1, 0.2, maxCharge, maxDischarge);
      && c == [Point(0.0, 18000000.0), Point(0.1, Delta / 2.0), Point(0.2, -Delta / 2.0), Point(1.0, -18000000.0)]
      && Allocation(c, 0.0, 0.15) == Ok(0.0)
  {
    var c := [Point(0.0, 18000000.0), Point(0.1, Delta / 2.0), Point(0.2, -Delta / 2.0), Point(1.0, -18000000.0)];
    assert FirstSegment(c, 0.15) == Some(1) by {
      assert FirstSegment(c[1..], 0.15) == Some(0);
    }
  }
}
