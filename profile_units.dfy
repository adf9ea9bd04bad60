/** Unit conversion of profiles (tno/essim_battery/esdl_profile_processor.py): the
    factor that turns a profile's values into joules per time step, and the
    classification of a profile as energy or power. The energy-system vocabulary
    (profile types, quantities, units, multipliers) is given as datatypes; a profile
    type other than UNDEFINED is known by its literal's name and ordinal. */
module ProfileUnits {
  import opened Common

  datatype ProfileType = UNDEFINED | ProfileTypeLiteral(name: string, ordinal: int)

  datatype PhysicalQuantity = ENERGY | POWER | OtherQuantity(name: string)

  datatype Unit = JOULE | WATTHOUR | WATT | OtherUnit(name: string)

  datatype Multiplier =
    | NONE | KILO | MEGA | GIGA | TERRA | TERA | PETA | MILLI | MICRO | NANO | PICO
    | OtherMultiplier(name: string)
  {
    function Name(): string {
      match this
      case NONE => "NONE"
      case KILO => "KILO"
      case MEGA => "MEGA"
      case GIGA => "GIGA"
      case TERRA => "TERRA"
      case TERA => "TERA"
      case PETA => "PETA"
      case MILLI => "MILLI"
      case MICRO => "MICRO"
      case NANO => "NANO"
      case PICO => "PICO"
      case OtherMultiplier(n) => n
    }
  }

  datatype QuantityAndUnit = QuantityAndUnit(physicalQuantity: PhysicalQuantity, unit: Unit, multiplier: Multiplier)

  /** A profile's quantity and unit: a reference (whose target may be missing) or inline. */
  datatype QuantityAndUnitSlot =
    | QuantityAndUnitReference(reference: Option<QuantityAndUnit>)
    | QuantityAndUnitType(quantityAndUnit: QuantityAndUnit)

  datatype Profile = Profile(profileType: Option<ProfileType>, profileQuantityAndUnit: Option<QuantityAndUnitSlot>)

  /** The `factor` table: joules per unit of an energy profile, and joules per time step of a
      power profile, whose factors scale with the step length in seconds. */
  function Factors(timeStepSeconds: real): map<string, real> {
    map[
      "ENERGY_IN_WH" := 3600.0,
      "ENERGY_IN_KWH" := 3600000.0,
      "ENERGY_IN_MWH" := 3600000000.0,
      "ENERGY_IN_GWH" := 3600000000000.0,
      "ENERGY_IN_TWH" := 3600000000000000.0,
      "ENERGY_IN_PWH" := 3600000000000000000.0,
      "ENERGY_IN_J" := 1.0,
      "ENERGY_IN_KJ" := 1000.0,
      "ENERGY_IN_MJ" := 1000000.0,
      "ENERGY_IN_GJ" := 1000000000.0,
      "ENERGY_IN_TJ" := 1000000000000.0,
      "ENERGY_IN_PJ" := 1000000000000000.0,
      "POWER_IN_W" := 1.0 * timeStepSeconds,
      "POWER_IN_KW" := 1000.0 * timeStepSeconds,
      "POWER_IN_MW" := 1000000.0 * timeStepSeconds,
      "POWER_IN_GW" := 1000000000.0 * timeStepSeconds,
      "POWER_IN_TW" := 1000000000000.0 * timeStepSeconds,
      "POWER_IN_PW" := 1000000000000000.0 * timeStepSeconds
    ]
  }

  /** The `mult_suffix` table: the letter a multiplier adds to a factor key; "-" marks the
      sub-unit multipliers, which are not supported. */
  const MultSuffix: map<string, string> := map[
    "NONE" := "",
    "KILO" := "K",
    "MEGA" := "M",
    "GIGA" := "G",
    "TERRA" := "T",
    "TERA" := "T",
    "PETA" := "P",
    "MILLI" := "-",
    "MICRO" := "-",
    "NANO" := "-",
    "PICO" := "-"
  ]

  predicate HasDefinedType(p: Profile) {
    p.profileType.Some? && p.profileType.value != UNDEFINED
  }

  /** The quantity and unit a profile names, following a reference. */
  function QuantityAndUnitOf(p: Profile): Option<QuantityAndUnit> {
    match p.profileQuantityAndUnit
    case None => None
    case Some(QuantityAndUnitReference(target)) => target
    case Some(QuantityAndUnitType(q)) => Some(q)
  }

  /** The SI multiplier of a profile: the factor of its type's name (0 for a name without
      one); without a defined type, the factor of its unit and multiplier, 0 for another unit
      or a sub-unit multiplier. A profile with neither raises. */
  function ToJoules(p: Profile, timeStepSeconds: real): (r: Result<real>)
    ensures HasDefinedType(p) ==> r.Ok?
    ensures r == Err(NoQuantityAndUnit) <==> !HasDefinedType(p) && QuantityAndUnitOf(p).None?
    ensures r.Err? ==> r.error in {NoQuantityAndUnit, UnknownKey}
  {
    var factor := Factors(timeStepSeconds);
    if HasDefinedType(p) then
      var name := p.profileType.value.name;
      if name !in factor then Ok(0.0) else Ok(factor[name])
    else
      match QuantityAndUnitOf(p)
      case None => Err(NoQuantityAndUnit)
      case Some(q) =>
        if !(q.unit.JOULE? || q.unit.WATTHOUR? || q.unit.WATT?) then Ok(0.0)
        else
          var quantity := if q.unit.WATT? then "POWER_IN_" else "ENERGY_IN_";
          var suffix := if q.unit.JOULE? then "J" else if q.unit.WATTHOUR? then "WH" else "W";
          if q.multiplier.Name() !in MultSuffix then Err(UnknownKey)
          else
            var prefix := MultSuffix[q.multiplier.Name()];
            if prefix == "-" then Ok(0.0)
            else
              var key := quantity + prefix + suffix;
              if key in factor then Ok(factor[key]) else Err(UnknownKey)
  }

  /** The power of ten a supported multiplier stands for. */
  function Scale(m: Multiplier): real
    requires m in {NONE, KILO, MEGA, GIGA, TERA, TERRA, PETA}
  {
    match m
    case NONE => 1.0
    case KILO => 1000.0
    case MEGA => 1000000.0
    case GIGA => 1000000000.0
    case TERA => 1000000000000.0
    case TERRA => 1000000000000.0
    case PETA => 1000000000000000.0
  }

  /** Watt-hours: 3600 joules times the multiplier (TERRA counts as TERA). */
  lemma WattHourFactor(q: QuantityAndUnit, timeStepSeconds: real)
    requires q.unit == WATTHOUR
    requires q.multiplier in {NONE, KILO, MEGA, GIGA, TERA, TERRA, PETA}
    ensures ToJoules(Profile(None, Some(QuantityAndUnitType(q))), timeStepSeconds) == Ok(3600.0 * Scale(q.multiplier))
  {
    match q.multiplier
    case NONE =>
      assert MultSuffix["NONE"] == "";
      assert "ENERGY_IN_" + "" + "WH" == "ENERGY_IN_WH";
    case KILO =>
      assert MultSuffix["KILO"] == "K";
      assert "ENERGY_IN_" + "K" + "WH" == "ENERGY_IN_KWH";
    case MEGA =>
      assert MultSuffix["MEGA"] == "M";
      assert "ENERGY_IN_" + "M" + "WH" == "ENERGY_IN_MWH";
    case GIGA =>
      assert MultSuffix["GIGA"] == "G";
      assert "ENERGY_IN_" + "G" + "WH" == "ENERGY_IN_GWH";
    case TERA =>
      assert MultSuffix["TERA"] == "T";
      assert "ENERGY_IN_" + "T" + "WH" == "ENERGY_IN_TWH";
    case TERRA =>
      assert MultSuffix["TERRA"] == "T";
      assert "ENERGY_IN_" + "T" + "WH" == "ENERGY_IN_TWH";
    case PETA =>
      assert MultSuffix["PETA"] == "P";
      assert "ENERGY_IN_" + "P" + "WH" == "ENERGY_IN_PWH";
  }

  /** Joules: the multiplier itself (TERRA counts as TERA). */
  lemma JouleFactor(q: QuantityAndUnit, timeStepSeconds: real)
    requires q.unit == JOULE
    requires q.multiplier in {NONE, KILO, MEGA, GIGA, TERA, TERRA, PETA}
    ensures ToJoules(Profile(None, Some(QuantityAndUnitType(q))), timeStepSeconds) == Ok(Scale(q.multiplier))
  {
    match q.multiplier
    case NONE => assert "ENERGY_IN_" + "" + "J" == "ENERGY_IN_J";
    case KILO => assert "ENERGY_IN_" + "K" + "J" == "ENERGY_IN_KJ";
    case MEGA => assert "ENERGY_IN_" + "M" + "J" == "ENERGY_IN_MJ";
    case GIGA => assert "ENERGY_IN_" + "G" + "J" == "ENERGY_IN_GJ";
    case TERA => assert "ENERGY_IN_" + "T" + "J" == "ENERGY_IN_TJ";
    case TERRA => assert "ENERGY_IN_" + "T" + "J" == "ENERGY_IN_TJ";
    case PETA => assert "ENERGY_IN_" + "P" + "J" == "ENERGY_IN_PJ";
  }

  /** Watts: the multiplier times the length of a time step in seconds (TERRA counts as TERA). */
  lemma WattFactor(q: QuantityAndUnit, timeStepSeconds: real)
    requires q.unit == WATT
    requires q.multiplier in {NONE, KILO, MEGA, GIGA, TERA, TERRA, PETA}
    ensures ToJoules(Profile(None, Some(QuantityAndUnitType(q))), timeStepSeconds) == Ok(Scale(q.multiplier) * timeStepSeconds)
  {
    match q.multiplier
    case NONE => assert "POWER_IN_" + "" + "W" == "POWER_IN_W";
    case KILO => assert "POWER_IN_" + "K" + "W" == "POWER_IN_KW";
    case MEGA => assert "POWER_IN_" + "M" + "W" == "POWER_IN_MW";
    case GIGA => assert "POWER_IN_" + "G" + "W" == "POWER_IN_GW";
    case TERA => assert "POWER_IN_" + "T" + "W" == "POWER_IN_TW";
    case TERRA => assert "POWER_IN_" + "T" + "W" == "POWER_IN_TW";
    case PETA => assert "POWER_IN_" + "P" + "W" == "POWER_IN_PW";
  }

  /** Through the two tables, a power unit converts to the energy its watt-hour
      counterpart holds over one time step: W per step is Wh x (step seconds / 3600). */
  lemma PowerIsEnergyPerStep(m: Multiplier, quantity: PhysicalQuantity, timeStepSeconds: real)
    requires m in {NONE, KILO, MEGA, GIGA, TERA, TERRA, PETA}
    ensures var watt := Profile(None, Some(QuantityAndUnitType(QuantityAndUnit(quantity, WATT, m))));
      var wattHour := Profile(None, Some(QuantityAndUnitType(QuantityAndUnit(quantity, WATTHOUR, m))));
      && ToJoules(watt, timeStepSeconds).Ok? && ToJoules(wattHour, timeStepSeconds).Ok?
      && ToJoules(watt, timeStepSeconds).value * 3600.0 == ToJoules(wattHour, timeStepSeconds).value * timeStepSeconds
  {
    WattFactor(QuantityAndUnit(quantity, WATT, m), timeStepSeconds);
    WattHourFactor(QuantityAndUnit(quantity, WATTHOUR, m), timeStepSeconds);
  }

  /** A multiplier outside the listed literals does not carry the name of one of them
      (the names of an enumeration's literals are distinct). */
  predicate DistinctName(m: Multiplier) {
    m.OtherMultiplier? ==> m.name !in MultSuffix
  }

  /** Without a defined type, the conversion raises exactly when the profile has no
      quantity and unit, or when a supported unit comes with a multiplier outside the
      multiplier table: every supported unit with every listed multiplier names a factor. */
  lemma UnitPathRaisesOnlyOnUnknownMultiplier(p: Profile, timeStepSeconds: real)
    requires !HasDefinedType(p)
    requires QuantityAndUnitOf(p).Some? ==> DistinctName(QuantityAndUnitOf(p).value.multiplier)
    ensures QuantityAndUnitOf(p).None? ==> ToJoules(p, timeStepSeconds) == Err(NoQuantityAndUnit)
    ensures QuantityAndUnitOf(p).Some? ==>
      var q := QuantityAndUnitOf(p).value;
      (ToJoules(p, timeStepSeconds).Err? <==>
         q.unit in {JOULE, WATTHOUR, WATT} && q.multiplier.Name() !in MultSuffix)
      && (q.multiplier.Name() !in MultSuffix <==> q.multiplier.OtherMultiplier?)
  {
    if QuantityAndUnitOf(p).Some? {
      var q := QuantityAndUnitOf(p).value;
      if q.unit in {JOULE, WATTHOUR, WATT} && q.multiplier in {NONE, KILO, MEGA, GIGA, TERA, TERRA, PETA} {
        assert ToJoules(p, timeStepSeconds) == ToJoules(Profile(None, Some(QuantityAndUnitType(q))), timeStepSeconds);
        match q.unit
        case WATTHOUR => WattHourFactor(q, timeStepSeconds);
        case JOULE => JouleFactor(q, timeStepSeconds);
        case WATT => WattFactor(q, timeStepSeconds);
      }
    }
  }

  /** TERA and its misspelling TERRA give the same factor; sub-unit multipliers and other
      units give 0. */
  lemma MultiplierSpellingsAndUnsupported(p: Profile, timeStepSeconds: real)
    requires !HasDefinedType(p) && QuantityAndUnitOf(p).Some?
    ensures var q := QuantityAndUnitOf(p).value;
      q.multiplier in {MILLI, MICRO, NANO, PICO} || q.unit !in {JOULE, WATTHOUR, WATT} ==>
        ToJoules(p, timeStepSeconds) == Ok(0.0)
    ensures var q := QuantityAndUnitOf(p).value;
      var other := Profile(None, Some(QuantityAndUnitType(QuantityAndUnit(q.physicalQuantity, q.unit, TERRA))));
      q.multiplier == TERA ==> ToJoules(p, timeStepSeconds) == ToJoules(other, timeStepSeconds)
  {
  }

  /** A defined profile type decides alone: its factor, or 0 when its name has none. */
  lemma DefinedTypeDecides(p: Profile, timeStepSeconds: real)
    requires HasDefinedType(p)
    ensures var name := p.profileType.value.name;
      ToJoules(p, timeStepSeconds) == Ok(if name in Factors(timeStepSeconds) then Factors(timeStepSeconds)[name] else 0.0)
    ensures forall q :: ToJoules(p, timeStepSeconds) == ToJoules(p.(profileQuantityAndUnit := q), timeStepSeconds)
  {
  }

  /** A profile measures energy when its defined type has ordinal 4 to 13, or when it has
      no defined type and its quantity is ENERGY. */
  function IsEnergy(p: Profile): (r: bool)
    ensures r <==> (HasDefinedType(p) && 4 <= p.profileType.value.ordinal <= 13)
                   || (!HasDefinedType(p) && QuantityAndUnitOf(p).Some?
                       && QuantityAndUnitOf(p).value.physicalQuantity == ENERGY)
  {
    if HasDefinedType(p) then
      4 <= p.profileType.value.ordinal <= 13
    else if p.profileQuantityAndUnit.Some? then
      match p.profileQuantityAndUnit.value
      case QuantityAndUnitReference(target) => target.Some? && target.value.physicalQuantity == ENERGY
      case QuantityAndUnitType(q) => q.physicalQuantity == ENERGY
    else false
  }

  /** A profile measures power when its defined type has ordinal 16 to 20, or when it has
      no defined type and its quantity is POWER. */
  function IsPower(p: Profile): (r: bool)
    ensures r <==> (HasDefinedType(p) && 16 <= p.profileType.value.ordinal <= 20)
                   || (!HasDefinedType(p) && QuantityAndUnitOf(p).Some?
                       && QuantityAndUnitOf(p).value.physicalQuantity == POWER)
  {
    if HasDefinedType(p) then
      16 <= p.profileType.value.ordinal <= 20
    else if p.profileQuantityAndUnit.Some? then
      match p.profileQuantityAndUnit.value
      case QuantityAndUnitReference(target) => target.Some? && target.value.physicalQuantity == POWER
      case QuantityAndUnitType(q) => q.physicalQuantity == POWER
    else false
  }

  lemma EnergyAndPowerExclusive(p: Profile)
    ensures !(IsEnergy(p) && IsPower(p))
  {
  }
}
