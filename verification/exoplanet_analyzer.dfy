/**
 * The form logic of frontend/src/components/ExoplanetAnalyzer.tsx: the
 * feature tables, the component state and its handlers, assembly and
 * validation of the prediction request, and the `canAnalyze` gate.
 *
 * `parseFloat` is a parameter of type `Parser`, with `None` standing for NaN.
 * The request itself is not sent: `HandleAnalyze` returns the payload it would
 * POST, or `None` when it sends nothing.
 */
module ExoplanetAnalyzer {
  import opened Wrappers
  import opened JsObject
  import ConfidenceMeter

  datatype Mode = Simple | Advanced

  /** A value of the request payload: a number, NaN or undefined. */
  datatype FeatureValue = Undefined | NaN | Number(value: real)

  /** The prediction service's answer. */
  datatype ApiPrediction = ApiPrediction(prediction: string, probability: real)

  /** What a slider reports: one value, or an array of values for a range slider. */
  datatype SliderValue = Single(v: real) | Multiple(vs: seq<real>)

  /** `parseFloat`: the number a string starts with, or `None` for NaN. */
  type Parser = string -> Option<real>

  /** The 14 model features, in form and payload order. */
  const Features: seq<string> := [
    "koi_period", "koi_time0bk", "koi_impact", "koi_duration",
    "koi_depth", "koi_prad", "koi_teq", "koi_insol",
    "koi_model_snr", "koi_steff", "koi_slogg", "koi_srad", "ra", "dec"
  ]

  /** `featureDefaults`, in declaration order. */
  const FeatureDefaults: seq<Prop<real>> := [
    Prop("koi_period", 18.2), Prop("koi_time0bk", 140.0), Prop("koi_impact", 0.5),
    Prop("koi_duration", 4.5), Prop("koi_depth", 1500.0), Prop("koi_prad", 2.5),
    Prop("koi_teq", 900.0), Prop("koi_insol", 1.0), Prop("koi_model_snr", 25.0),
    Prop("koi_steff", 5800.0), Prop("koi_slogg", 4.4), Prop("koi_srad", 1.0),
    Prop("ra", 290.0), Prop("dec", 44.0)
  ]

  /** The four features the simple tab sets with sliders, in `simpleInputs` order. */
  const SimpleKeys: seq<string> := ["koi_model_snr", "koi_prad", "koi_period", "koi_duration"]

  const MissingPrefix: string := "Please fill in all feature fields. Missing: "

  /** The label the service uses for a negative answer. */
  const FalsePositive: string := "False Positive"

  /** The shape of `simpleInputs`: exactly the four slider keys, in order. */
  predicate IsSimpleInputs(simple: seq<Prop<real>>) {
    Keys(simple) == SimpleKeys
  }

  /** No feature name repeats. */
  lemma FeaturesDistinct()
    ensures forall i, j :: 0 <= i < j < |Features| ==> Features[i] != Features[j]
  {
  }

  /** `featureDefaults` covers exactly the features, in the same order, and every slider key is a feature. */
  lemma FeatureTables()
    ensures Keys(FeatureDefaults) == Features
    ensures DistinctKeys(FeatureDefaults)
    ensures forall i :: 0 <= i < |SimpleKeys| ==> SimpleKeys[i] in Features
    ensures forall i, j :: 0 <= i < j < |SimpleKeys| ==> SimpleKeys[i] != SimpleKeys[j]
  {
    assert Keys(FeatureDefaults) == Features;
    FeaturesDistinct();
    assert SimpleKeys == [Features[8], Features[5], Features[0], Features[3]];
  }

  /**
   * The initial (and reset) `simpleInputs`: the defaults of the four slider
   * features (`FeatureDefaults` holds them at positions 8, 5, 0 and 3).
   */
  function InitialSimpleInputs(): seq<Prop<real>> {
    [ Prop("koi_model_snr", FeatureDefaults[8].value), Prop("koi_prad", FeatureDefaults[5].value),
      Prop("koi_period", FeatureDefaults[0].value), Prop("koi_duration", FeatureDefaults[3].value) ]
  }

  /**
   * The initial (and reset) `advancedInputs`,
   * `Object.fromEntries(features.map(f => [f, '']))`: every feature mapped to
   * the empty string, in `features` order (see `EmptyAdvancedInputsFields`).
   */
  function EmptyAdvancedInputs(): seq<Prop<string>> {
    seq(|Features|, i requires 0 <= i < |Features| => Prop(Features[i], ""))
  }

  // ---------------------------------------------------------------------
  // Payload assembly and validation
  // ---------------------------------------------------------------------

  /** A text field is ready when it is present, non-empty and parses to a number. */
  predicate FieldReady(field: Option<string>, parse: Parser) {
    field.Some? && field.value != "" && parse(field.value).Some?
  }

  /** The payload value of one advanced field: undefined when empty, else `parseFloat` of it. */
  function FieldValue(field: Option<string>, parse: Parser): FeatureValue {
    if field.None? || field.value == "" then Undefined
    else match parse(field.value)
      case Some(v) => Number(v)
      case None => NaN
  }

  predicate IsMissing(v: FeatureValue) {
    v.Undefined? || v.NaN?
  }

  function AsNumbers(obj: seq<Prop<real>>): seq<Prop<FeatureValue>> {
    seq(|obj|, i requires 0 <= i < |obj| => Prop(obj[i].key, Number(obj[i].value)))
  }

  /** The entries `features.map(f => [f, <field value>])`. */
  function FieldEntries(fs: seq<string>, adv: seq<Prop<string>>, parse: Parser): seq<Prop<FeatureValue>> {
    seq(|fs|, i requires 0 <= i < |fs| => Prop(fs[i], FieldValue(Get(adv, fs[i]), parse)))
  }

  /**
   * The simple-mode payload `{ ...featureDefaults, ...simpleInputs }`: all 14
   * features in order, the slider values for the four slider keys and the
   * defaults for the rest.
   */
  function SimplePayload(simple: seq<Prop<real>>): (payload: seq<Prop<FeatureValue>>)
    requires IsSimpleInputs(simple)
    ensures Keys(payload) == Features
    ensures forall i :: 0 <= i < |payload| ==>
              payload[i].value == Number(if Features[i] in SimpleKeys then Get(simple, Features[i]).value
                                         else FeatureDefaults[i].value)
  {
    FeatureTables();
    var merged := Spread(FeatureDefaults, simple);
    assert forall i :: 0 <= i < |simple| ==> simple[i].key in Keys(FeatureDefaults) by {
      assert forall i :: 0 <= i < |simple| ==> simple[i].key == SimpleKeys[i];
    }
    KeysSpread(FeatureDefaults, simple);
    assert Keys(AsNumbers(merged)) == Keys(merged);
    FeaturesDistinct();
    assert DistinctKeys(merged) by {
      assert forall a :: 0 <= a < |merged| ==> merged[a].key == Features[a];
    }
    assert DistinctKeys(simple) by {
      assert forall a :: 0 <= a < |simple| ==> simple[a].key == SimpleKeys[a];
    }
    forall i | 0 <= i < |merged|
      ensures merged[i].value == if Features[i] in SimpleKeys then Get(simple, Features[i]).value
                                 else FeatureDefaults[i].value
    {
      assert merged[i].key == Keys(merged)[i] == Features[i];
      GetAt(merged, i);
      GetSpread(FeatureDefaults, simple, Features[i]);
      assert FeatureDefaults[i].key == Features[i];
      GetAt(FeatureDefaults, i);
    }
    AsNumbers(merged)
  }

  /**
   * The advanced-mode payload `Object.fromEntries(features.map(...))`: each
   * feature in order, undefined for an empty field, else its parsed value.
   */
  function AdvancedPayload(adv: seq<Prop<string>>, parse: Parser): seq<Prop<FeatureValue>> {
    FromEntries(FieldEntries(Features, adv, parse))
  }

  /** `features_to_send` for the current mode. */
  function Payload(mode: Mode, simple: seq<Prop<real>>, adv: seq<Prop<string>>, parse: Parser): seq<Prop<FeatureValue>>
    requires IsSimpleInputs(simple)
  {
    if mode == Simple then SimplePayload(simple) else AdvancedPayload(adv, parse)
  }

  /** The keys whose values are undefined or NaN, in entry order. */
  function MissingFeatures(payload: seq<Prop<FeatureValue>>): (names: seq<string>)
    ensures forall k :: k in names ==> k in Keys(payload)
    ensures forall i :: 0 <= i < |payload| && IsMissing(payload[i].value) ==> payload[i].key in names
    ensures names == [] <==> forall i :: 0 <= i < |payload| ==> !IsMissing(payload[i].value)
    ensures forall k :: k in names <==>
      exists i :: 0 <= i < |payload| && payload[i].key == k && IsMissing(payload[i].value)
  {
    if |payload| == 0 then []
    else
      assert Keys(payload) == [payload[0].key] + Keys(payload[1..]);
      var rest := MissingFeatures(payload[1..]);
      assert forall k :: k in rest ==> exists i :: 0 <= i < |payload| && payload[i].key == k && IsMissing(payload[i].value) by {
        forall k | k in rest
          ensures exists i :: 0 <= i < |payload| && payload[i].key == k && IsMissing(payload[i].value)
        {
          var j :| 0 <= j < |payload[1..]| && payload[1..][j].key == k && IsMissing(payload[1..][j].value);
          assert payload[j + 1] == payload[1..][j];
        }
      }
      (if IsMissing(payload[0].value) then [payload[0].key] else []) + rest
  }

  /** `names.join(sep)`: the names with `sep` between neighbours. */
  function Join(names: seq<string>, sep: string): string {
    if |names| == 0 then ""
    else if |names| == 1 then names[0]
    else names[0] + sep + Join(names[1..], sep)
  }

  /** Joining two non-empty lists puts one separator between their joins. */
  lemma {:induction false} JoinAppend(ns: seq<string>, ms: seq<string>, sep: string)
    requires |ns| > 0 && |ms| > 0
    ensures Join(ns + ms, sep) == Join(ns, sep) + sep + Join(ms, sep)
  {
    if |ns| == 1 {
      assert (ns + ms)[1..] == ms;
    } else {
      assert (ns + ms)[1..] == ns[1..] + ms;
      JoinAppend(ns[1..], ms, sep);
    }
  }

  /** The error text: the fixed prefix, then the missing names joined by ", ". */
  function MissingMessage(names: seq<string>): (msg: string)
    ensures |msg| >= |MissingPrefix| && msg[..|MissingPrefix|] == MissingPrefix
    ensures |names| == 1 ==> msg[|MissingPrefix|..] == names[0]
    ensures |names| == 0 ==> msg == MissingPrefix
  {
    MissingPrefix + Join(names, ", ")
  }

  /** The message for two runs of missing names lists the first run, ", ", then the second. */
  lemma MissingMessageAppend(ns: seq<string>, ms: seq<string>)
    requires |ns| > 0 && |ms| > 0
    ensures MissingMessage(ns + ms) == MissingMessage(ns) + ", " + Join(ms, ", ")
  {
    JoinAppend(ns, ms, ", ");
  }

  /** The features of `fs` whose advanced field is not ready, in order. */
  function NotReady(fs: seq<string>, adv: seq<Prop<string>>, parse: Parser): (names: seq<string>)
    ensures names == [] <==> forall i :: 0 <= i < |fs| ==> FieldReady(Get(adv, fs[i]), parse)
    ensures forall f :: f in names <==> f in fs && !FieldReady(Get(adv, f), parse)
  {
    if |fs| == 0 then []
    else
      assert forall f :: f in fs <==> f == fs[0] || f in fs[1..];
      (if FieldReady(Get(adv, fs[0]), parse) then [] else [fs[0]]) + NotReady(fs[1..], adv, parse)
  }

  /** `canAnalyze()`: always in simple mode; in advanced mode every field must be ready. */
  predicate CanAnalyzeWith(mode: Mode, adv: seq<Prop<string>>, parse: Parser) {
    mode == Advanced ==> forall i :: 0 <= i < |Features| ==> FieldReady(Get(adv, Features[i]), parse)
  }

  /** One advanced field: empty is undefined, a parse failure NaN, anything else its number. */
  lemma FieldValueCases(field: Option<string>, parse: Parser)
    ensures FieldValue(field, parse) == Undefined <==> field.None? || field.value == ""
    ensures FieldValue(field, parse) == NaN <==> field.Some? && field.value != "" && parse(field.value).None?
    ensures forall v :: FieldValue(field, parse) == Number(v) <==>
              field.Some? && field.value != "" && parse(field.value) == Some(v)
    ensures IsMissing(FieldValue(field, parse)) <==> !FieldReady(field, parse)
  {
  }

  /** The advanced payload holds exactly the 14 features, in order, each the value of its field. */
  lemma AdvancedPayloadFields(adv: seq<Prop<string>>, parse: Parser)
    ensures Keys(AdvancedPayload(adv, parse)) == Features
    ensures forall i :: 0 <= i < |Features| ==>
              AdvancedPayload(adv, parse)[i] == Prop(Features[i], FieldValue(Get(adv, Features[i]), parse))
  {
    FeatureTables();
    FromDistinctEntries(FieldEntries(Features, adv, parse));
  }

  /** Filtering concatenated payloads filters each part, so the missing names keep entry order. */
  lemma {:induction false} MissingAppend(p: seq<Prop<FeatureValue>>, q: seq<Prop<FeatureValue>>)
    ensures MissingFeatures(p + q) == MissingFeatures(p) + MissingFeatures(q)
  {
    if |p| > 0 {
      assert (p + q)[1..] == p[1..] + q;
      MissingAppend(p[1..], q);
    } else {
      assert p + q == q;
    }
  }

  lemma {:induction false} MissingOfFields(fs: seq<string>, adv: seq<Prop<string>>, parse: Parser)
    ensures MissingFeatures(FieldEntries(fs, adv, parse)) == NotReady(fs, adv, parse)
  {
    if |fs| > 0 {
      assert FieldEntries(fs, adv, parse)[1..] == FieldEntries(fs[1..], adv, parse);
      MissingOfFields(fs[1..], adv, parse);
      FieldValueCases(Get(adv, fs[0]), parse);
    }
  }

  /** In advanced mode the error lists exactly the features whose fields are not ready, in `features` order. */
  lemma AdvancedMissingAreNotReady(adv: seq<Prop<string>>, parse: Parser)
    ensures MissingFeatures(AdvancedPayload(adv, parse)) == NotReady(Features, adv, parse)
  {
    FeatureTables();
    FromDistinctEntries(FieldEntries(Features, adv, parse));
    MissingOfFields(Features, adv, parse);
  }

  /** In simple mode nothing is ever missing. */
  lemma SimpleNeverMissing(simple: seq<Prop<real>>)
    requires IsSimpleInputs(simple)
    ensures MissingFeatures(SimplePayload(simple)) == []
  {
  }

  /** The `canAnalyze` gate agrees with the validation in `handleAnalyze`, in both modes. */
  lemma GateMatchesValidation(mode: Mode, simple: seq<Prop<real>>, adv: seq<Prop<string>>, parse: Parser)
    requires IsSimpleInputs(simple)
    ensures mode == Simple ==> CanAnalyzeWith(mode, adv, parse)
    ensures CanAnalyzeWith(mode, adv, parse) <==> MissingFeatures(Payload(mode, simple, adv, parse)) == []
  {
    if mode == Advanced {
      AdvancedMissingAreNotReady(adv, parse);
    } else {
      SimpleNeverMissing(simple);
    }
  }

  /** The reset advanced inputs are `Object.fromEntries` of the empty fields: every feature, in order, empty. */
  lemma EmptyAdvancedInputsFields()
    ensures FromEntries(EmptyAdvancedInputs()) == EmptyAdvancedInputs()
    ensures Keys(EmptyAdvancedInputs()) == Features
    ensures forall i :: 0 <= i < |Features| ==> Get(EmptyAdvancedInputs(), Features[i]) == Some("")
  {
    FeatureTables();
    var entries := EmptyAdvancedInputs();
    assert Keys(entries) == Features;
    FromDistinctEntries(entries);
    forall i | 0 <= i < |Features|
      ensures Get(entries, Features[i]) == Some("")
    {
      GetAt(entries, i);
    }
  }

  /** After a reset the advanced form cannot be submitted, whatever `parseFloat` does. */
  lemma ResetBlocksAdvanced(parse: Parser)
    ensures !CanAnalyzeWith(Advanced, EmptyAdvancedInputs(), parse)
  {
    EmptyAdvancedInputsFields();
    assert !FieldReady(Get(EmptyAdvancedInputs(), Features[0]), parse);
  }

  /** The reset simple inputs are the four slider keys, each holding its default. */
  lemma InitialSimpleInputsDefaults()
    ensures IsSimpleInputs(InitialSimpleInputs())
    ensures forall i :: 0 <= i < |SimpleKeys| ==> Get(InitialSimpleInputs(), SimpleKeys[i]) == Get(FeatureDefaults, SimpleKeys[i])
  {
    FeatureTables();
    var s := InitialSimpleInputs();
    assert Keys(s) == SimpleKeys;
    assert DistinctKeys(s);
    var at := [8, 5, 0, 3];
    forall i | 0 <= i < |SimpleKeys|
      ensures Get(s, SimpleKeys[i]) == Get(FeatureDefaults, SimpleKeys[i])
    {
      GetAt(s, i);
      GetAt(FeatureDefaults, at[i]);
    }
  }

  /** Slider values that all equal their defaults give exactly `featureDefaults` as the payload. */
  lemma DefaultSlidersGiveDefaults(simple: seq<Prop<real>>)
    requires IsSimpleInputs(simple)
    requires forall i :: 0 <= i < |SimpleKeys| ==> Get(simple, SimpleKeys[i]) == Get(FeatureDefaults, SimpleKeys[i])
    ensures SimplePayload(simple) == AsNumbers(FeatureDefaults)
  {
    FeatureTables();
    var p := SimplePayload(simple);
    forall i | 0 <= i < |Features| ensures p[i] == AsNumbers(FeatureDefaults)[i] {
      assert p[i].key == Keys(p)[i] == Features[i];
      GetAt(FeatureDefaults, i);
      if Features[i] in SimpleKeys {
        var j :| 0 <= j < |SimpleKeys| && SimpleKeys[j] == Features[i];
      }
    }
  }

  /** After a reset the simple-mode payload is exactly `featureDefaults`. */
  lemma ResetPayloadIsDefaults()
    ensures IsSimpleInputs(InitialSimpleInputs())
    ensures SimplePayload(InitialSimpleInputs()) == AsNumbers(FeatureDefaults)
  {
    InitialSimpleInputsDefaults();
    DefaultSlidersGiveDefaults(InitialSimpleInputs());
  }

  // ---------------------------------------------------------------------
  // Derived display values
  // ---------------------------------------------------------------------

  /** `isPlanet`: a prediction exists and is not labelled "False Positive". */
  function IsPlanet(prediction: Option<ApiPrediction>): bool {
    prediction.Some? && prediction.value.prediction != FalsePositive
  }

  /** `confidence`: the prediction's probability, 0 when there is none. */
  function Confidence(prediction: Option<ApiPrediction>): real {
    if prediction.Some? then prediction.value.probability else 0.0
  }

  /**
   * The verdict the gauge would show if given the derived `isPlanet`: "False Positive"
   * with no prediction or a "False Positive" answer, "Planet Detected"
   * otherwise; with no prediction the confidence is 0.
   */
  lemma DisplayedVerdict(prediction: Option<ApiPrediction>)
    ensures ConfidenceMeter.Label(IsPlanet(prediction)) == FalsePositive <==>
              prediction.None? || prediction.value.prediction == FalsePositive
    ensures prediction.None? ==> Confidence(prediction) == 0.0 && ConfidenceMeter.Percentage(Confidence(prediction)) == 0
    ensures prediction.Some? ==> Confidence(prediction) == prediction.value.probability
  {
  }

  // ---------------------------------------------------------------------
  // The component
  // ---------------------------------------------------------------------

  /** The state of one `ExoplanetAnalyzer` component. */
  class Analyzer {
    var mode: Mode
    var tabValue: int
    var isAnalyzing: bool
    var prediction: Option<ApiPrediction>
    var error: Option<string>
    var advancedInputs: seq<Prop<string>>
    var simpleInputs: seq<Prop<real>>

    /** The tab shown and the mode agree, and `simpleInputs` keeps its four keys. */
    ghost predicate Valid()
      reads this
    {
      (mode == Simple <==> tabValue == 0) && IsSimpleInputs(simpleInputs)
    }

    constructor ()
      ensures Valid()
      ensures mode == Simple && tabValue == 0 && !isAnalyzing
      ensures prediction == None && error == None
      ensures advancedInputs == EmptyAdvancedInputs() && simpleInputs == InitialSimpleInputs()
    {
      mode := Simple;
      tabValue := 0;
      isAnalyzing := false;
      prediction := None;
      error := None;
      advancedInputs := EmptyAdvancedInputs();
      simpleInputs := InitialSimpleInputs();
      InitialSimpleInputsDefaults();
    }

    predicate CanAnalyze(parse: Parser)
      reads this
    {
      CanAnalyzeWith(mode, advancedInputs, parse)
    }

    /**
     * `handleAnalyze` up to the request: clears the old result, assembles the
     * payload and either returns it (the request goes out, analysis pending)
     * or records which features are missing and stops.
     */
    method HandleAnalyze(parse: Parser) returns (request: Option<seq<Prop<FeatureValue>>>)
      requires Valid()
      modifies this
      ensures Valid()
      ensures var payload := Payload(old(mode), old(simpleInputs), old(advancedInputs), parse);
              var missing := MissingFeatures(payload);
              && (request.Some? <==> missing == [])
              && (request.Some? ==> request.value == payload && error == None && isAnalyzing)
              && (request.None? ==> error == Some(MissingMessage(missing)) && !isAnalyzing)
      ensures request.Some? <==> old(CanAnalyze(parse))
      ensures prediction == None
      ensures mode == old(mode) && tabValue == old(tabValue)
      ensures advancedInputs == old(advancedInputs) && simpleInputs == old(simpleInputs)
    {
      error := None;
      isAnalyzing := true;
      prediction := None;
      var featuresToSend;
      if mode == Simple {
        featuresToSend := SimplePayload(simpleInputs);
      } else {
        featuresToSend := AdvancedPayload(advancedInputs, parse);
      }
      var missing := MissingFeatures(featuresToSend);
      GateMatchesValidation(mode, simpleInputs, advancedInputs, parse);
      if |missing| > 0 {
        error := Some(MissingMessage(missing));
        isAnalyzing := false;
        return None;
      }
      request := Some(featuresToSend);
    }

    /** `handleReset`: clears the result and error and restores every input. */
    method HandleReset()
      requires Valid()
      modifies this
      ensures Valid()
      ensures !isAnalyzing && prediction == None && error == None
      ensures advancedInputs == EmptyAdvancedInputs() && simpleInputs == InitialSimpleInputs()
      ensures mode == old(mode) && tabValue == old(tabValue)
    {
      isAnalyzing := false;
      prediction := None;
      error := None;
      advancedInputs := EmptyAdvancedInputs();
      simpleInputs := InitialSimpleInputs();
      InitialSimpleInputsDefaults();
    }

    /** `handleTabChange`: tab 0 is simple mode, every other tab advanced mode. */
    method HandleTabChange(newValue: int)
      requires Valid()
      modifies this
      ensures Valid()
      ensures tabValue == newValue && mode == (if newValue == 0 then Simple else Advanced)
      ensures isAnalyzing == old(isAnalyzing) && prediction == old(prediction) && error == old(error)
      ensures advancedInputs == old(advancedInputs) && simpleInputs == old(simpleInputs)
    {
      tabValue := newValue;
      mode := if newValue == 0 then Simple else Advanced;
    }

    /** `handleAdvancedInputChange`: only the named field changes. */
    method HandleAdvancedInputChange(feature: string, value: string)
      requires Valid()
      modifies this
      ensures Valid()
      ensures advancedInputs == Set(old(advancedInputs), feature, value)
      ensures Get(advancedInputs, feature) == Some(value)
      ensures forall f :: f != feature ==> Get(advancedInputs, f) == Get(old(advancedInputs), f)
      ensures mode == old(mode) && tabValue == old(tabValue) && isAnalyzing == old(isAnalyzing)
      ensures prediction == old(prediction) && error == old(error) && simpleInputs == old(simpleInputs)
    {
      advancedInputs := Set(advancedInputs, feature, value);
      forall f ensures Get(advancedInputs, f) == if f == feature then Some(value) else Get(old(advancedInputs), f) {
        GetSet(old(advancedInputs), feature, value, f);
      }
    }

    /** `handleSimpleSliderChange`: only the named slider changes; an array value contributes its first element. */
    method HandleSimpleSliderChange(feature: string, value: SliderValue)
      requires Valid()
      requires feature in SimpleKeys
      requires value.Multiple? ==> |value.vs| > 0
      modifies this
      ensures Valid()
      ensures var newValue := if value.Multiple? then value.vs[0] else value.v;
              && simpleInputs == Set(old(simpleInputs), feature, newValue)
              && Get(simpleInputs, feature) == Some(newValue)
              && forall f :: f != feature ==> Get(simpleInputs, f) == Get(old(simpleInputs), f)
      ensures mode == old(mode) && tabValue == old(tabValue) && isAnalyzing == old(isAnalyzing)
      ensures prediction == old(prediction) && error == old(error) && advancedInputs == old(advancedInputs)
    {
      var newValue := if value.Multiple? then value.vs[0] else value.v;
      KeysSet(simpleInputs, feature, newValue);
      simpleInputs := Set(simpleInputs, feature, newValue);
      forall f ensures Get(simpleInputs, f) == if f == feature then Some(newValue) else Get(old(simpleInputs), f) {
        GetSet(old(simpleInputs), feature, newValue, f);
      }
    }
  }
}
