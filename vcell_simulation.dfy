/**
 * The bookkeeping of vcell_simulation.py: the species, reaction and
 * parameter tables of `VirtualCellModel`, the lead-exposed endothelial model
 * built on it, the right-hand sides of both ODE systems over the reals, and
 * the parameter sweep of `sensitivity_analysis`. The ODE integration itself
 * is a function parameter that maps the parameter table and the lead
 * concentration to the final blood pressure, or to `None` when the run fails.
 */
module VcellSimulation {
  import opened Common
  import opened Strings

  /** One value of `species`: `{"initial": ..., "unit": ...}`. */
  datatype SpeciesInfo = SpeciesInfo(initial: real, unit: string)

  /** One record of `reactions`. */
  datatype Reaction = Reaction(name: string, equation: string, k: real)

  /**
   * `VirtualCellModel`. The dicts `species` and `initial_conditions` share
   * their key order, which `order` records: a new key is appended, an
   * existing one keeps its place.
   */
  class VirtualCellModel {
    var modelName: string
    var order: seq<string>
    var species: map<string, SpeciesInfo>
    var reactions: seq<Reaction>
    var parameters: map<string, real>
    var initialConditions: map<string, real>

    /** The key order lists each species once, and both dicts have exactly those keys. */
    predicate Valid()
      reads this
    {
      && Distinct(order)
      && ToSet(order) == species.Keys
      && initialConditions.Keys == species.Keys
    }

    constructor (name: string)
      ensures Valid()
      ensures modelName == name && order == [] && species == map[] && reactions == []
      ensures parameters == map[] && initialConditions == map[]
    {
      modelName := name;
      order := [];
      species := map[];
      reactions := [];
      parameters := map[];
      initialConditions := map[];
    }

    /** `add_species`: sets both `species[name]` and `initial_conditions[name]`. */
    method AddSpecies(name: string, initialValue: real, unit: string)
      requires Valid()
      modifies this
      ensures Valid()
      ensures species == old(species)[name := SpeciesInfo(initialValue, unit)]
      ensures initialConditions == old(initialConditions)[name := initialValue]
      ensures order == if name in old(order) then old(order) else old(order) + [name]
      ensures modelName == old(modelName) && reactions == old(reactions) && parameters == old(parameters)
    {
      if name !in order {
        assert name !in ToSet(order);
        order := order + [name];
        assert ToSet(order) == ToSet(old(order)) + {name};
      }
      species := species[name := SpeciesInfo(initialValue, unit)];
      initialConditions := initialConditions[name := initialValue];
    }

    /** `add_reaction`: appends one record and sets `parameters[name] = k`. */
    method AddReaction(name: string, equation: string, rateConstant: real)
      requires Valid()
      modifies this
      ensures Valid()
      ensures reactions == old(reactions) + [Reaction(name, equation, rateConstant)]
      ensures parameters == old(parameters)[name := rateConstant]
      ensures modelName == old(modelName) && order == old(order) && species == old(species)
      ensures initialConditions == old(initialConditions)
    {
      reactions := reactions + [Reaction(name, equation, rateConstant)];
      parameters := parameters[name := rateConstant];
    }

    /** `list(self.initial_conditions.values())`, the start vector of `simulate`. */
    function InitialValues(): (y0: seq<real>)
      reads this
      requires Valid()
      ensures |y0| == |order|
      ensures forall k :: 0 <= k < |order| ==> y0[k] == initialConditions[order[k]]
    {
      var o := order;
      var ic := initialConditions;
      assert forall k :: 0 <= k < |o| ==> o[k] in ToSet(o);
      seq(|o|, k requires 0 <= k < |o| && o[k] in ic => ic[o[k]])
    }
  }

  // ------------------------------------------- the base model's right-hand side

  /**
   * The rate of species `name` in the base `deriv`: the first matching
   * prefix among ROS, SOD, CAT, NO and BP decides, and any other species
   * stays constant. `first` is `y[0]`, whatever species comes first.
   */
  function BaseRate(name: string, hasRos: bool, t: real, yi: real, first: real): real {
    if StartsWith(name, "ROS") then 0.1 * (1.0 + 0.05 * t) - 0.02 * yi
    else if StartsWith(name, "SOD") then -0.01 * yi * (if hasRos then first else 1.0)
    else if StartsWith(name, "CAT") then -0.01 * yi
    else if StartsWith(name, "NO") then 0.1 - 0.05 * yi
    else if StartsWith(name, "BP") then 100.0 + 0.5 * t + 0.1 * first
    else 0.0
  }

  /** The whole derivative vector of the base `deriv`; `names` are the species keys in order. */
  function BaseDeriv(names: seq<string>, t: real, y: seq<real>): (dy: seq<real>)
    requires |names| == |y|
    ensures |dy| == |y|
  {
    seq(|y|, i requires 0 <= i < |y| => BaseRate(names[i], "ROS" in names, t, y[i], y[0]))
  }

  /** The base `deriv`: fills a zero vector species by species in key order. */
  method Deriv(names: seq<string>, t: real, y: seq<real>) returns (dy: array<real>)
    requires |names| == |y|
    ensures fresh(dy) && dy[..] == BaseDeriv(names, t, y)
  {
    var hasRos := "ROS" in names;
    dy := new real[|y|](_ => 0.0);
    for i := 0 to |y|
      invariant forall k :: 0 <= k < i ==> dy[k] == BaseRate(names[k], hasRos, t, y[k], y[0])
      invariant forall k :: i <= k < |y| ==> dy[k] == 0.0
    {
      var r := 0.0;
      if StartsWith(names[i], "ROS") {
        r := 0.1 * (1.0 + 0.05 * t);
        r := r - 0.02 * y[i];
      } else if StartsWith(names[i], "SOD") {
        r := -0.01 * y[i] * (if hasRos then y[0] else 1.0);
      } else if StartsWith(names[i], "CAT") {
        r := -0.01 * y[i];
      } else if StartsWith(names[i], "NO") {
        r := 0.1 - 0.05 * y[i];
      } else if StartsWith(names[i], "BP") {
        r := 100.0 + 0.5 * t + 0.1 * y[0];
      }
      dy[i] := r;
    }
  }

  /** Each prefix rule applies to the species named by the prefix itself. */
  lemma BaseRateRules(hasRos: bool, t: real, yi: real, first: real)
    ensures BaseRate("ROS", hasRos, t, yi, first) == 0.1 * (1.0 + 0.05 * t) - 0.02 * yi
    ensures BaseRate("SOD", hasRos, t, yi, first) == -0.01 * yi * (if hasRos then first else 1.0)
    ensures BaseRate("CAT", hasRos, t, yi, first) == -0.01 * yi
    ensures BaseRate("NO", hasRos, t, yi, first) == 0.1 - 0.05 * yi
    ensures BaseRate("BP", hasRos, t, yi, first) == 100.0 + 0.5 * t + 0.1 * first
  {
    Mismatch("SOD", "ROS", 0);
    Mismatch("CAT", "ROS", 0);
    Mismatch("CAT", "SOD", 0);
    Mismatch("NO", "ROS", 0);
    Mismatch("NO", "SOD", 0);
    Mismatch("NO", "CAT", 0);
    Mismatch("BP", "ROS", 0);
    Mismatch("BP", "SOD", 0);
    Mismatch("BP", "CAT", 0);
    Mismatch("BP", "NO", 0);
  }

  /** "NOS3" starts with "NO", so eNOS takes the NO rule of the base model. */
  lemma BaseRateNos3(hasRos: bool, t: real, yi: real, first: real)
    ensures BaseRate("NOS3", hasRos, t, yi, first) == 0.1 - 0.05 * yi
  {
    Mismatch("NOS3", "ROS", 0);
    Mismatch("NOS3", "SOD", 0);
    Mismatch("NOS3", "CAT", 0);
    assert "NOS3"[..2] == "NO";
  }

  /** A name whose first two characters rule out every prefix has rate 0. */
  lemma NoRule(name: string, hasRos: bool, t: real, yi: real, first: real)
    requires |name| >= 2 && name[0] != 'R' && name[0] != 'S' && name[0] != 'C' && name[0] != 'N'
    requires name[0] != 'B' || name[1] != 'P'
    ensures BaseRate(name, hasRos, t, yi, first) == 0.0
  {
    Mismatch(name, "ROS", 0);
    Mismatch(name, "SOD", 0);
    Mismatch(name, "CAT", 0);
    Mismatch(name, "NO", 0);
    if name[0] != 'B' {
      Mismatch(name, "BP", 0);
    } else {
      Mismatch(name, "BP", 1);
    }
  }

  /**
   * "BloodPressure" does not start with "BP", so under the base rules the
   * endothelial model's blood pressure stays constant, as do Lead, GPx,
   * ACE, AngII and VascularTone.
   */
  lemma BaseRateConstant(hasRos: bool, t: real, yi: real, first: real)
    ensures BaseRate("BloodPressure", hasRos, t, yi, first) == 0.0
    ensures BaseRate("Lead", hasRos, t, yi, first) == 0.0
    ensures BaseRate("GPx", hasRos, t, yi, first) == 0.0
    ensures BaseRate("ACE", hasRos, t, yi, first) == 0.0
    ensures BaseRate("AngII", hasRos, t, yi, first) == 0.0
    ensures BaseRate("VascularTone", hasRos, t, yi, first) == 0.0
  {
    NoRule("BloodPressure", hasRos, t, yi, first);
    NoRule("Lead", hasRos, t, yi, first);
    NoRule("GPx", hasRos, t, yi, first);
    NoRule("ACE", hasRos, t, yi, first);
    NoRule("AngII", hasRos, t, yi, first);
    NoRule("VascularTone", hasRos, t, yi, first);
  }

  /** A string differing from `p` at a position of both is not prefixed by `p`. */
  lemma Mismatch(s: string, p: string, i: nat)
    requires i < |p| && i < |s| && s[i] != p[i]
    ensures !StartsWith(s, p)
  {
    if |p| <= |s| {
      assert s[..|p|][i] == s[i];
    }
  }

  /** A species matching none of the prefixes keeps its value. */
  lemma BaseRateUnmatched(name: string, hasRos: bool, t: real, yi: real, first: real)
    requires !StartsWith(name, "ROS") && !StartsWith(name, "SOD") && !StartsWith(name, "CAT")
    requires !StartsWith(name, "NO") && !StartsWith(name, "BP")
    ensures BaseRate(name, hasRos, t, yi, first) == 0.0
  {
  }

  // ------------------------------------------------ lead endothelial model

  const SpeciesNames: seq<string> :=
    ["Lead", "ROS", "SOD", "CAT", "GPx", "NOS3", "NO", "ACE", "AngII", "VascularTone", "BloodPressure"]

  const SpeciesInitials: seq<real> := [0.0, 1.0, 100.0, 100.0, 80.0, 100.0, 10.0, 50.0, 1.0, 10.0, 120.0]

  const SpeciesUnits: seq<string> :=
    ["μM", "a.u.", "a.u.", "a.u.", "a.u.", "a.u.", "a.u.", "a.u.", "a.u.", "a.u.", "mmHg"]

  /** The parameter table the endothelial model assigns after adding its species. */
  const DefaultParameters: map<string, real> := map[
    "lead_ros" := 0.1, "ros_sod" := 0.01, "ros_cat" := 0.01, "ros_gpx" := 0.015, "nos_ros" := 0.05,
    "nos_no" := 0.1, "lead_ace" := 0.05, "ace_angii" := 0.1, "angii_tone" := 0.1, "tone_bp" := 2.0]

  /** The ten rate constants the endothelial right-hand side reads. */
  const RateNames: set<string> :=
    {"lead_ros", "ros_sod", "ros_cat", "ros_gpx", "nos_ros", "nos_no", "lead_ace", "ace_angii", "angii_tone", "tone_bp"}

  /** `getattr(self, 'lead_concentration', 5)`. */
  const DefaultLeadConcentration: real := 5.0

  /**
   * `LeadEndothelialModel`, a `VirtualCellModel` (held in `base`) together
   * with the exposure that `set_lead_exposure` stores; `None` until it is called.
   */
  class LeadEndothelialModel {
    const base: VirtualCellModel
    var leadConcentration: Option<real>
    var exposureDuration: Option<real>

    constructor ()
      ensures fresh(base) && base.Valid()
      ensures base.modelName == "lead_endothelial"
      ensures base.order == SpeciesNames
      ensures forall k :: 0 <= k < |SpeciesNames| ==>
        base.species[SpeciesNames[k]] == SpeciesInfo(SpeciesInitials[k], SpeciesUnits[k])
      ensures base.InitialValues() == SpeciesInitials
      ensures base.parameters == DefaultParameters && base.reactions == []
      ensures leadConcentration == None && exposureDuration == None
    {
      var b := new VirtualCellModel("lead_endothelial");
      AddAll(b);
      b.parameters := DefaultParameters;
      base := b;
      leadConcentration := None;
      exposureDuration := None;
    }

    /** `set_lead_exposure(concentration, exposure_duration=24)`. */
    method SetLeadExposure(concentration: real, exposureDuration': real := 24.0)
      modifies this
      ensures leadConcentration == Some(concentration) && exposureDuration == Some(exposureDuration')
    {
      leadConcentration := Some(concentration);
      exposureDuration := Some(exposureDuration');
    }

    /** The concentration a run uses: the stored one, or 5 when none was set. */
    function LeadConc(): (c: real)
      reads this
      ensures leadConcentration.Some? ==> c == leadConcentration.value
      ensures leadConcentration.None? ==> c == DefaultLeadConcentration
    {
      leadConcentration.GetOr(DefaultLeadConcentration)
    }
  }

  /** The eleven `add_species` calls of the endothelial model's constructor, in source order. */
  method AddAll(b: VirtualCellModel)
    requires b.Valid() && b.order == [] && b.species == map[] && b.initialConditions == map[]
    modifies b
    ensures b.Valid() && b.order == SpeciesNames
    ensures forall k :: 0 <= k < |SpeciesNames| ==>
      b.species[SpeciesNames[k]] == SpeciesInfo(SpeciesInitials[k], SpeciesUnits[k])
    ensures b.InitialValues() == SpeciesInitials
    ensures b.modelName == old(b.modelName) && b.reactions == old(b.reactions) && b.parameters == old(b.parameters)
  {
    SpeciesNamesDistinct();
    for i := 0 to |SpeciesNames|
      invariant b.Valid() && b.order == SpeciesNames[..i]
      invariant forall k :: 0 <= k < i ==> SpeciesNames[k] in b.species && SpeciesNames[k] in b.initialConditions
      invariant forall k :: 0 <= k < i ==> b.species[SpeciesNames[k]] == SpeciesInfo(SpeciesInitials[k], SpeciesUnits[k])
      invariant forall k :: 0 <= k < i ==> b.initialConditions[SpeciesNames[k]] == SpeciesInitials[k]
      invariant b.modelName == old(b.modelName) && b.reactions == old(b.reactions) && b.parameters == old(b.parameters)
    {
      NameIsNew(i);
      b.AddSpecies(SpeciesNames[i], SpeciesInitials[i], SpeciesUnits[i]);
      assert SpeciesNames[..i + 1] == SpeciesNames[..i] + [SpeciesNames[i]];
    }
    assert SpeciesNames[..|SpeciesNames|] == SpeciesNames;
  }

  /** The species added at step `i` is not among those added before it. */
  lemma NameIsNew(i: nat)
    requires i < |SpeciesNames| && Distinct(SpeciesNames)
    ensures SpeciesNames[i] !in SpeciesNames[..i]
    ensures forall k :: 0 <= k < i ==> SpeciesNames[k] != SpeciesNames[i]
  {
    assert forall j :: 0 <= j < i ==> SpeciesNames[..i][j] == SpeciesNames[j];
  }

  /** The eleven species names differ from each other. */
  lemma SpeciesNamesDistinct()
    ensures Distinct(SpeciesNames)
  {
  }

  // ---------------------------------------- the endothelial right-hand side

  /**
   * The `deriv` of `_run_scipy` for the state vector
   * `[Lead, ROS, SOD, CAT, GPx, NOS3, NO, ACE, AngII, VT, BP]`. Lead is held
   * at the exposure concentration, so its entry stays 0. A rate constant
   * missing from `p` is a `KeyError` in the source, hence the precondition.
   */
  function LeadDeriv(p: map<string, real>, lead: real, y: seq<real>): (dy: seq<real>)
    requires RateNames <= p.Keys && |y| == 11
    ensures |dy| == 11
  {
    var ros := y[1];
    var sod := y[2];
    var cat := y[3];
    var gpx := y[4];
    var nos3 := y[5];
    var no := y[6];
    var ace := y[7];
    var angii := y[8];
    var vt := y[9];
    [ 0.0,
      p["lead_ros"] * lead - p["ros_sod"] * ros * sod - p["ros_cat"] * ros * cat - p["ros_gpx"] * ros * gpx,
      -p["ros_sod"] * ros * sod,
      -p["ros_cat"] * ros * cat,
      -p["ros_gpx"] * ros * gpx,
      -p["nos_ros"] * nos3 * ros,
      p["nos_no"] * nos3 - 0.01 * no,
      p["lead_ace"] * lead * ace,
      p["ace_angii"] * ace * angii,
      p["angii_tone"] * angii * vt,
      p["tone_bp"] * vt - 0.1 * (y[10] - 120.0) ]
  }

  /** `y0` of `_run_scipy`: the fixed start values with the exposure in front. */
  function LeadInitialState(lead: real): (y0: seq<real>)
    ensures |y0| == 11 && y0[0] == lead && y0[1..] == SpeciesInitials[1..]
  {
    [lead, 1.0, 100.0, 100.0, 80.0, 100.0, 10.0, 50.0, 1.0, 10.0, 120.0]
  }

  /** The lead level never changes. */
  lemma LeadConstant(p: map<string, real>, lead: real, y: seq<real>)
    requires RateNames <= p.Keys && |y| == 11
    ensures LeadDeriv(p, lead, y)[0] == 0.0
  {
  }

  predicate NonNegativeRates(p: map<string, real>)
    requires RateNames <= p.Keys
  {
    forall n :: n in RateNames ==> p[n] >= 0.0
  }

  lemma MulNonNeg(a: real, b: real, c: real)
    requires a >= 0.0 && b >= 0.0 && c >= 0.0
    ensures a * b * c >= 0.0
  {
  }

  /**
   * With a non-negative state, exposure and rates, the antioxidant enzymes
   * and eNOS can only fall, and ACE, angiotensin II and vascular tone can only rise.
   */
  lemma LeadDerivSigns(p: map<string, real>, lead: real, y: seq<real>)
    requires RateNames <= p.Keys && |y| == 11 && NonNegativeRates(p) && lead >= 0.0
    requires forall i :: 0 <= i < 11 ==> y[i] >= 0.0
    ensures LeadDeriv(p, lead, y)[2] <= 0.0 && LeadDeriv(p, lead, y)[3] <= 0.0
    ensures LeadDeriv(p, lead, y)[4] <= 0.0 && LeadDeriv(p, lead, y)[5] <= 0.0
    ensures LeadDeriv(p, lead, y)[7] >= 0.0 && LeadDeriv(p, lead, y)[8] >= 0.0 && LeadDeriv(p, lead, y)[9] >= 0.0
  {
    assert "ros_sod" in RateNames && "ros_cat" in RateNames && "ros_gpx" in RateNames && "nos_ros" in RateNames;
    assert "lead_ace" in RateNames && "ace_angii" in RateNames && "angii_tone" in RateNames;
    MulNonNeg(p["ros_sod"], y[1], y[2]);
    MulNonNeg(p["ros_cat"], y[1], y[3]);
    MulNonNeg(p["ros_gpx"], y[1], y[4]);
    MulNonNeg(p["nos_ros"], y[5], y[1]);
    MulNonNeg(p["lead_ace"], lead, y[7]);
    MulNonNeg(p["ace_angii"], y[7], y[8]);
    MulNonNeg(p["angii_tone"], y[8], y[9]);
  }

  /** Blood pressure is driven by vascular tone and relaxes toward 120; with no tone it falls whenever it is above 120. */
  lemma BloodPressureRate(p: map<string, real>, lead: real, y: seq<real>)
    requires RateNames <= p.Keys && |y| == 11
    ensures LeadDeriv(p, lead, y)[10] == p["tone_bp"] * y[9] - 0.1 * (y[10] - 120.0)
    ensures y[9] == 0.0 && y[10] > 120.0 ==> LeadDeriv(p, lead, y)[10] < 0.0
    ensures y[9] == 0.0 && y[10] == 120.0 ==> LeadDeriv(p, lead, y)[10] == 0.0
  {
  }

  // --------------------------------------------------- sensitivity analysis

  /** The run's result: the final blood pressure, or `None` (NaN in the output) when the run fails. */
  type Run = (map<string, real>, real) -> Option<real>

  /**
   * `sensitivity_analysis`: for each value, sets the parameter, runs the model
   * and restores the value read before the change (0.1 when there was none).
   */
  method SensitivityAnalysis(model: LeadEndothelialModel, paramName: string, paramRange: seq<real>, run: Run)
    returns (results: seq<Option<real>>)
    modifies model.base
    ensures |results| == |paramRange|
    ensures forall k :: 0 <= k < |paramRange| ==>
      results[k] == run(old(model.base.parameters)[paramName := paramRange[k]], model.LeadConc())
    ensures model.base.parameters == if paramRange == [] then old(model.base.parameters)
      else old(model.base.parameters)[paramName := Restored(old(model.base.parameters), paramName)]
    ensures model.base.order == old(model.base.order) && model.base.species == old(model.base.species)
    ensures model.base.initialConditions == old(model.base.initialConditions)
    ensures model.base.reactions == old(model.base.reactions)
  {
    results := [];
    ghost var p0 := model.base.parameters;
    for k := 0 to |paramRange|
      invariant |results| == k
      invariant forall m :: 0 <= m < k ==> results[m] == run(p0[paramName := paramRange[m]], model.LeadConc())
      invariant model.base.parameters == if k == 0 then p0 else p0[paramName := Restored(p0, paramName)]
      invariant model.base.order == old(model.base.order) && model.base.species == old(model.base.species)
      invariant model.base.initialConditions == old(model.base.initialConditions)
      invariant model.base.reactions == old(model.base.reactions)
    {
      var originalValue := if paramName in model.base.parameters then model.base.parameters[paramName] else 0.1;
      assert originalValue == Restored(p0, paramName);
      model.base.parameters := model.base.parameters[paramName := paramRange[k]];
      assert model.base.parameters == p0[paramName := paramRange[k]];
      var result := run(model.base.parameters, model.LeadConc());
      results := results + [result];
      model.base.parameters := model.base.parameters[paramName := originalValue];
    }
  }

  /** `model.parameters.get(param_name, 0.1)`, the value restored after each run. */
  function Restored(p: map<string, real>, name: string): (v: real)
    ensures name in p ==> v == p[name]
    ensures name !in p ==> v == 0.1
  {
    if name in p then p[name] else 0.1
  }

  /** Restoring leaves a present parameter exactly as it was. */
  lemma RestorePresent(p: map<string, real>, name: string)
    requires name in p
    ensures p[name := Restored(p, name)] == p
  {
  }
}
