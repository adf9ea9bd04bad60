/** Step arithmetic of the protocol client (tno/essim_battery/essim_mqtt_client.py): the
    step number of a message, the number of simulation steps between the configured dates,
    the simulation info handed to the battery node, and the expansion of a profile over
    the steps. Dates are whole seconds since the epoch; every step is one hour. */
module SimulationSteps {
  import opened Common

  /** The client assumes hourly steps everywhere. */
  const SecondsPerStep: int := 3600

  /** `int((timestamp - start) / 3600)`: the hours elapsed since the run's origin, truncated
      toward zero; it does not depend on the step length a bid request announces. */
  function StepNumber(timestamp: int, start: int): (n: int)
    ensures timestamp >= start ==> n >= 0 && SecondsPerStep * n <= timestamp - start < SecondsPerStep * (n + 1)
    ensures timestamp < start ==> n <= 0 && SecondsPerStep * (n - 1) < timestamp - start <= SecondsPerStep * n
  {
    var d := timestamp - start;
    if d >= 0 then d / SecondsPerStep else -((-d) / SecondsPerStep)
  }

  /** Whole hours from the start date to the end date (rounded down), plus one; it raises
      when either date is missing. */
  function NumberOfSimulationSteps(startDate: Option<int>, endDate: Option<int>): (r: Result<int>)
    ensures r.Ok? <==> startDate.Some? && endDate.Some?
    ensures r.Err? ==> r.error == NoSimulationDates
    ensures r.Ok? ==>
      SecondsPerStep * (r.value - 1) <= endDate.value - startDate.value < SecondsPerStep * r.value
  {
    if startDate.Some? && endDate.Some? then
      Ok((endDate.value - startDate.value) / SecondsPerStep + 1)
    else Err(NoSimulationDates)
  }

  /** The `simulation_info` dictionary; the dates stand for their formatted strings. */
  datatype SimulationInfo = SimulationInfo(stepSeconds: int, startDate: int, endDate: int, numberOfSteps: int)

  /** Formatting a missing date raises before the step count is computed; otherwise the
      number of steps is one more than the number of simulation steps. */
  function CreateSimulationInfo(startDate: Option<int>, endDate: Option<int>): (r: Result<SimulationInfo>)
    ensures r.Ok? <==> startDate.Some? && endDate.Some?
    ensures r.Ok? ==> r.value.stepSeconds == SecondsPerStep
    ensures r.Ok? ==> r.value.startDate == startDate.value && r.value.endDate == endDate.value
    ensures r.Ok? ==> r.value.numberOfSteps == NumberOfSimulationSteps(startDate, endDate).value + 1
    ensures r.Ok? ==>
      SecondsPerStep * (r.value.numberOfSteps - 2) <= endDate.value - startDate.value
        < SecondsPerStep * (r.value.numberOfSteps - 1)
  {
    if startDate.None? || endDate.None? then Err(NoneValue)
    else
      Ok(SimulationInfo(SecondsPerStep, startDate.value, endDate.value,
                        NumberOfSimulationSteps(startDate, endDate).value + 1))
  }

  /** A profile over the simulation steps: a single value repeated once per step, a series
      returned as it is; the step count is computed (and may raise) first, whatever the type. */
  method GetProfile(info: ProfileInfo, startDate: Option<int>, endDate: Option<int>)
    returns (r: Result<seq<real>>)
    ensures NumberOfSimulationSteps(startDate, endDate).Err? ==> r == Err(NoSimulationDates)
    ensures NumberOfSimulationSteps(startDate, endDate).Ok? ==>
      var n := NumberOfSimulationSteps(startDate, endDate).value;
      match info
      case SingleValue(v) =>
        && r.Ok?
        && |r.value| == (if n < 0 then 0 else n)
        && forall i :: 0 <= i < |r.value| ==> r.value[i] == v
      case InfluxDBProfile(stored) => r == Ok(stored)
      case TimeSeriesProfile(values) => r == Ok(values)
      case UntypedProfile => r == Err(UnknownKey)
  {
    var steps := NumberOfSimulationSteps(startDate, endDate);
    if steps.Err? {
      return Err(steps.error);
    }
    match info
    case SingleValue(v) =>
      var profile: seq<real> := [];
      for s := 0 to (if steps.value < 0 then 0 else steps.value)
        invariant |profile| == s
        invariant forall i :: 0 <= i < s ==> profile[i] == v
      {
        profile := profile + [v];
      }
      return Ok(profile);
    case InfluxDBProfile(stored) =>
      return Ok(stored);
    case TimeSeriesProfile(values) =>
      return Ok(values);
    case UntypedProfile =>
      return Err(UnknownKey);
  }
}
