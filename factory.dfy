/** `get_loss_criterion` and `_create_loss` of CNN-Baseline/losses.py: the
    closed table from a configured name to a loss, and the rule deciding which
    wrappers are put around it. The configuration is a dictionary the factory
    `pop`s its own keys out of. */
module LossFactory {
  import opened Results
  import opened DiceLosses
  import opened WeightedLosses
  import opened PixelWise
  import opened LossWrappers

  // ---------------------------------------------------------------- configuration values

  /** A configuration value; `Nothing` is Python's `None`. */
  datatype Value = Str(s: string) | Number(x: real) | Integer(i: int) | Flag(b: bool) | Numbers(xs: seq<real>) | Nothing

  /** Python truthiness of a value. */
  predicate Truthy(v: Value)
  {
    match v
    case Str(s) => |s| > 0
    case Number(x) => x != 0.0
    case Integer(i) => i != 0
    case Flag(b) => b
    case Numbers(xs) => |xs| > 0
    case Nothing => false
  }

  function Lookup(m: map<string, Value>, key: string): (r: Option<Value>)
    ensures r.Some? <==> key in m
    ensures r.Some? ==> r.value == m[key]
  {
    if key in m then Some(m[key]) else None
  }

  /** `d.get(key, default)` read as a truth value. */
  predicate TruthOr(v: Option<Value>, default: bool)
  {
    match v
    case None => default
    case Some(x) => Truthy(x)
  }

  /** `pop(key, None)` of a list of numbers then `torch.tensor(...)`. */
  function OptionalReals(v: Option<Value>): (r: Result<Option<seq<real>>>)
    ensures r.Ok? <==> v.None? || v.value.Nothing? || v.value.Numbers?
    ensures r.Ok? && r.value.Some? ==> v == Some(Numbers(r.value.value))
    ensures r.Err? ==> r.error == TypeMismatch
  {
    match v
    case None => Ok(None)
    case Some(Nothing) => Ok(None)
    case Some(Numbers(xs)) => Ok(Some(xs))
    case Some(_) => Err(TypeMismatch)
  }

  /** `pop('ignore_index', None)`, an integer class or nothing. */
  function OptionalInt(v: Option<Value>): (r: Result<Option<int>>)
    ensures r.Ok? <==> v.None? || v.value.Nothing? || v.value.Integer?
    ensures r.Ok? && r.value.Some? ==> v == Some(Integer(r.value.value))
    ensures r.Err? ==> r.error == TypeMismatch
  {
    match v
    case None => Ok(None)
    case Some(Nothing) => Ok(None)
    case Some(Integer(i)) => Ok(Some(i))
    case Some(_) => Err(TypeMismatch)
  }

  /** A number read with `get(key, default)`. */
  function RealOr(v: Option<Value>, default: real): (r: Result<real>)
    ensures v.None? ==> r == Ok(default)
    ensures v.Some? && v.value.Number? ==> r == Ok(v.value.x)
    ensures v.Some? && v.value.Integer? ==> r == Ok(v.value.i as real)
    ensures r.Err? <==> v.Some? && !v.value.Number? && !v.value.Integer?
  {
    match v
    case None => Ok(default)
    case Some(Number(x)) => Ok(x)
    case Some(Integer(i)) => Ok(i as real)
    case Some(_) => Err(TypeMismatch)
  }

  /** A number read with `d[key]`: a missing key raises. */
  function RequiredReal(v: Option<Value>): (r: Result<real>)
    ensures v.None? ==> r == Err(ConfigurationError)
    ensures v.Some? ==> r == RealOr(v, 0.0)
  {
    if v.None? then Err(ConfigurationError) else RealOr(v, 0.0)
  }

  /** The normalization name read with `get('normalization', 'sigmoid')`; a
      value that is not a string fails the constructors' membership assertion. */
  function NormalizationOr(v: Option<Value>): (r: Result<string>)
    ensures v.None? ==> r == Ok("sigmoid")
    ensures v.Some? && v.value.Str? ==> r == Ok(v.value.s)
    ensures r.Err? <==> v.Some? && !v.value.Str?
    ensures r.Err? ==> r.error == ConfigurationError
  {
    match v
    case None => Ok("sigmoid")
    case Some(Str(s)) => Ok(s)
    case Some(_) => Err(ConfigurationError)
  }

  // ---------------------------------------------------------------- the losses built

  /** A loss the factory returns. The library losses of `torch.nn` carry only
      their configuration. */
  datatype Criterion =
    | BCEWithLogitsLoss(posWeight: Option<seq<real>>)
    | BCEDice(bceDice: BceDiceLoss)
    | CrossEntropyLoss(weight: Option<seq<real>>, ignoreIndex: int)
    | WeightedCrossEntropy(wce: WeightedCrossEntropyLoss)
    | PixelWiseCrossEntropy(pixelWise: PixelWiseCrossEntropyLoss)
    | GeneralizedDice(gdl: GeneralizedDiceLoss)
    | Dice(dice: DiceLoss)
    | MSELoss
    | SmoothL1Loss
    | L1Loss
    | WeightedSmoothL1(smoothL1: WeightedSmoothL1Loss)
    | Masked(masking: MaskingLossWrapper<Criterion>)
    | SkipLast(skipping: SkipLastTargetChannelWrapper<Criterion>)

  /** The entries of the table in `_create_loss`. */
  datatype LossKind =
    | BCEWithLogitsKind | BCEDiceKind | CrossEntropyKind | WeightedCrossEntropyKind
    | PixelWiseCrossEntropyKind | GeneralizedDiceKind | DiceKind | MSEKind
    | SmoothL1Kind | L1Kind | WeightedSmoothL1Kind

  /** The configuration name of each entry. */
  function KindName(k: LossKind): string
  {
    match k
    case BCEWithLogitsKind => "BCEWithLogitsLoss"
    case BCEDiceKind => "BCEDiceLoss"
    case CrossEntropyKind => "CrossEntropyLoss"
    case WeightedCrossEntropyKind => "WeightedCrossEntropyLoss"
    case PixelWiseCrossEntropyKind => "PixelWiseCrossEntropyLoss"
    case GeneralizedDiceKind => "GeneralizedDiceLoss"
    case DiceKind => "DiceLoss"
    case MSEKind => "MSELoss"
    case SmoothL1Kind => "SmoothL1Loss"
    case L1Kind => "L1Loss"
    case WeightedSmoothL1Kind => "WeightedSmoothL1Loss"
  }

  /** The entry a configured name selects, if any. */
  function ParseKind(name: Value): (r: Option<LossKind>)
    ensures r.Some? ==> name == Str(KindName(r.value))
  {
    if !name.Str? then None
    else
      match name.s
      case "BCEWithLogitsLoss" => Some(BCEWithLogitsKind)
      case "BCEDiceLoss" => Some(BCEDiceKind)
      case "CrossEntropyLoss" => Some(CrossEntropyKind)
      case "WeightedCrossEntropyLoss" => Some(WeightedCrossEntropyKind)
      case "PixelWiseCrossEntropyLoss" => Some(PixelWiseCrossEntropyKind)
      case "GeneralizedDiceLoss" => Some(GeneralizedDiceKind)
      case "DiceLoss" => Some(DiceKind)
      case "MSELoss" => Some(MSEKind)
      case "SmoothL1Loss" => Some(SmoothL1Kind)
      case "L1Loss" => Some(L1Kind)
      case "WeightedSmoothL1Loss" => Some(WeightedSmoothL1Kind)
      case _ => None
  }

  /** Every entry is found under its own name, so a name selects nothing
      exactly when it is no entry's name. */
  lemma ParseKindName(k: LossKind)
    ensures ParseKind(Str(KindName(k))) == Some(k)
  {
  }

  lemma ParseKindUnknown(name: Value)
    ensures ParseKind(name).None? <==> forall k: LossKind :: name != Str(KindName(k))
  {
    if ParseKind(name).None? {
      forall k: LossKind ensures name != Str(KindName(k)) {
        ParseKindName(k);
      }
    }
  }

  /** The entry a loss built by the table belongs to; the wrappers belong to none. */
  function KindOf(c: Criterion): Option<LossKind>
  {
    match c
    case BCEWithLogitsLoss(_) => Some(BCEWithLogitsKind)
    case BCEDice(_) => Some(BCEDiceKind)
    case CrossEntropyLoss(_, _) => Some(CrossEntropyKind)
    case WeightedCrossEntropy(_) => Some(WeightedCrossEntropyKind)
    case PixelWiseCrossEntropy(_) => Some(PixelWiseCrossEntropyKind)
    case GeneralizedDice(_) => Some(GeneralizedDiceKind)
    case Dice(_) => Some(DiceKind)
    case MSELoss => Some(MSEKind)
    case SmoothL1Loss => Some(SmoothL1Kind)
    case L1Loss => Some(L1Kind)
    case WeightedSmoothL1(_) => Some(WeightedSmoothL1Kind)
    case Masked(_) => None
    case SkipLast(_) => None
  }

  /** The two cross-entropy losses take `ignore_index` themselves. */
  predicate HandlesIgnoreIndex(name: Value)
  {
    name == Str("CrossEntropyLoss") || name == Str("WeightedCrossEntropyLoss")
  }

  /** `ignore_index` of the cross-entropy losses: −100 when none is configured. */
  function IgnoreOrDefault(ignoreIndex: Option<int>): int
  {
    if ignoreIndex.None? then -100 else ignoreIndex.value
  }

  /** One entry of `_create_loss(name, loss_config, weight, ignore_index, pos_weight)`:
      it builds a loss of its own kind or fails on its configuration. */
  function CreateKind(kind: LossKind, config: map<string, Value>, weight: Option<seq<real>>,
                      ignoreIndex: Option<int>, posWeight: Option<seq<real>>): (r: Result<Criterion>)
    ensures r.Ok? ==> KindOf(r.value) == Some(kind)
    ensures r.Err? ==> r.error == ConfigurationError || r.error == TypeMismatch
  {
    match kind
    case BCEWithLogitsKind => Ok(BCEWithLogitsLoss(posWeight))
    case BCEDiceKind =>
      var alpha :- RealOr(Lookup(config, "alpha"), 1.0);
      var beta :- RealOr(Lookup(config, "beta"), 1.0);
      Ok(BCEDice(BceDiceLoss(alpha, beta)))
    case CrossEntropyKind => Ok(CrossEntropyLoss(weight, IgnoreOrDefault(ignoreIndex)))
    case WeightedCrossEntropyKind => Ok(WeightedCrossEntropy(WeightedCrossEntropyLoss(IgnoreOrDefault(ignoreIndex))))
    case PixelWiseCrossEntropyKind => Ok(PixelWiseCrossEntropy(PixelWiseCrossEntropyLoss(ignoreIndex)))
    case GeneralizedDiceKind =>
      var n :- NormalizationOr(Lookup(config, "normalization"));
      var gdl :- NewGeneralizedDiceLoss(n);
      Ok(GeneralizedDice(gdl))
    case DiceKind =>
      var n :- NormalizationOr(Lookup(config, "normalization"));
      var dice :- NewDiceLoss(weight, n);
      Ok(Dice(dice))
    case MSEKind => Ok(MSELoss)
    case SmoothL1Kind => Ok(SmoothL1Loss)
    case L1Kind => Ok(L1Loss)
    case WeightedSmoothL1Kind =>
      var threshold :- RequiredReal(Lookup(config, "threshold"));
      var initialWeight :- RequiredReal(Lookup(config, "initial_weight"));
      Ok(WeightedSmoothL1(WeightedSmoothL1Loss(threshold, initialWeight,
                                               TruthOr(Lookup(config, "apply_below_threshold"), true))))
  }

  /** `_create_loss`: an unknown name raises `RuntimeError`. */
  function CreateLoss(name: Value, config: map<string, Value>, weight: Option<seq<real>>,
                      ignoreIndex: Option<int>, posWeight: Option<seq<real>>): (r: Result<Criterion>)
    ensures r == Err(UnsupportedLoss) <==> forall k: LossKind :: name != Str(KindName(k))
    ensures r.Ok? ==> KindOf(r.value).Some? && name == Str(KindName(KindOf(r.value).value))
  {
    ParseKindUnknown(name);
    match ParseKind(name)
    case None => Err(UnsupportedLoss)
    case Some(kind) => CreateKind(kind, config, weight, ignoreIndex, posWeight)
  }

  // ---------------------------------------------------------------- get_loss_criterion

  /** The keys `get_loss_criterion` pops before building the loss. */
  const POPPED: set<string> := {"name", "ignore_index", "skip_last_target", "weight", "pos_weight"}

  /** The loss configuration after `get_loss_criterion`: nothing is popped when
      `name` is missing, and `pos_weight` stays when converting `weight` fails. */
  function AfterPops(m: map<string, Value>): (r: map<string, Value>)
    ensures "name" !in m ==> r == m
    ensures "name" in m && OptionalReals(Lookup(m, "weight")).Err? ==>
      r == m - {"name", "ignore_index", "skip_last_target", "weight"}
    ensures "name" in m && OptionalReals(Lookup(m, "weight")).Ok? ==> r == m - POPPED
  {
    if "name" !in m then m
    else if OptionalReals(Lookup(m, "weight")).Err? then m - {"name", "ignore_index", "skip_last_target", "weight"}
    else m - POPPED
  }

  /** `get_loss_criterion(config)` on the entries of `config['loss']` (None when
      there is no such key). */
  function LossCriterion(lossConfig: Option<map<string, Value>>): (r: Result<Criterion>)
  {
    match lossConfig
    case None => Err(ConfigurationError)
    case Some(m) =>
      if "name" !in m then Err(ConfigurationError)
      else
        var name := m["name"];
        var weight :- OptionalReals(Lookup(m, "weight"));
        var posWeight :- OptionalReals(Lookup(m, "pos_weight"));
        var ignoreIndex :- OptionalInt(Lookup(m, "ignore_index"));
        var rest := m - POPPED;
        var loss :- CreateLoss(name, rest, weight, ignoreIndex, posWeight);
        Ok(Wrap(loss, name, ignoreIndex, TruthOr(Lookup(m, "skip_last_target"), false),
                TruthOr(Lookup(rest, "squeeze_channel"), false)))
  }

  /** The wrappers `get_loss_criterion` puts around the loss `_create_loss` built. */
  function Wrap(loss: Criterion, name: Value, ignoreIndex: Option<int>, skip: bool, squeeze: bool): Criterion
  {
    var masked := if ignoreIndex.Some? && !HandlesIgnoreIndex(name)
                  then Masked(MaskingLossWrapper(loss, ignoreIndex.value)) else loss;
    if skip then SkipLast(SkipLastTargetChannelWrapper(masked, squeeze)) else masked
  }

  /** Around a table loss, the skip wrapper is outermost iff asked for, and the
      masking wrapper is next iff an index is configured for a loss that does
      not take it itself; unwrapping gives the table loss back. */
  lemma WrapLayers(loss: Criterion, name: Value, ignoreIndex: Option<int>, skip: bool, squeeze: bool)
    requires KindOf(loss).Some?
    ensures
      var c := Wrap(loss, name, ignoreIndex, skip, squeeze);
      var inner := if c.SkipLast? then c.skipping.loss else c;
      (c.SkipLast? <==> skip) &&
      (inner.Masked? <==> ignoreIndex.Some? && !HandlesIgnoreIndex(name)) &&
      (inner.Masked? ==> inner.masking.ignoreIndex == ignoreIndex.value) &&
      (c.SkipLast? ==> c.skipping.squeezeChannel == squeeze) &&
      BaseLoss(c) == loss
  {
  }

  /** The loss `_create_loss` builds for a configuration, inside the wrappers. */
  function BaseLoss(c: Criterion): Criterion
  {
    match c
    case SkipLast(w) => if w.loss.Masked? then w.loss.masking.loss else w.loss
    case Masked(w) => w.loss
    case _ => c
  }

  /** A missing `loss` section or a missing name is a configuration error. */
  lemma MissingConfiguration(m: map<string, Value>)
    ensures LossCriterion(None) == Err(ConfigurationError)
    ensures "name" !in m ==> LossCriterion(Some(m)) == Err(ConfigurationError)
  {
  }

  /** The wrapping rule: the skip wrapper is outermost iff `skip_last_target` is
      truthy, and the masking wrapper sits inside it iff an `ignore_index` is
      configured and the loss is not one of the two cross-entropy losses. The
      loss inside is the one the table builds for the name. */
  lemma WrappingRule(m: map<string, Value>)
    requires LossCriterion(Some(m)).Ok?
    ensures "name" in m && ParseKind(m["name"]).Some?
    ensures
      var c := LossCriterion(Some(m)).value;
      var ignoreIndex := OptionalInt(Lookup(m, "ignore_index")).value;
      var inner := if c.SkipLast? then c.skipping.loss else c;
      (c.SkipLast? <==> TruthOr(Lookup(m, "skip_last_target"), false)) &&
      (inner.Masked? <==> ignoreIndex.Some? && !HandlesIgnoreIndex(m["name"])) &&
      (inner.Masked? ==> inner.masking.ignoreIndex == ignoreIndex.value) &&
      (c.SkipLast? ==> c.skipping.squeezeChannel == TruthOr(Lookup(m - POPPED, "squeeze_channel"), false)) &&
      BaseLoss(c) == CreateLoss(m["name"], m - POPPED, OptionalReals(Lookup(m, "weight")).value,
                                ignoreIndex, OptionalReals(Lookup(m, "pos_weight")).value).value &&
      KindOf(BaseLoss(c)) == ParseKind(m["name"])
  {
    var name := m["name"];
    var ignoreIndex := OptionalInt(Lookup(m, "ignore_index")).value;
    var loss := CreateLoss(name, m - POPPED, OptionalReals(Lookup(m, "weight")).value,
                           ignoreIndex, OptionalReals(Lookup(m, "pos_weight")).value);
    assert loss.Ok?;
    var skip, squeeze := TruthOr(Lookup(m, "skip_last_target"), false), TruthOr(Lookup(m - POPPED, "squeeze_channel"), false);
    assert LossCriterion(Some(m)).value == Wrap(loss.value, name, ignoreIndex, skip, squeeze);
    WrapLayers(loss.value, name, ignoreIndex, skip, squeeze);
    ParseKindName(KindOf(loss.value).value);
  }

  /** Both cross-entropy losses default `ignore_index` to −100 and otherwise keep
      the configured one. */
  lemma CrossEntropyIgnoreIndex(config: map<string, Value>, weight: Option<seq<real>>,
                                ignoreIndex: Option<int>, posWeight: Option<seq<real>>)
    ensures CreateLoss(Str("CrossEntropyLoss"), config, weight, ignoreIndex, posWeight)
            == Ok(CrossEntropyLoss(weight, if ignoreIndex.None? then -100 else ignoreIndex.value))
    ensures CreateLoss(Str("WeightedCrossEntropyLoss"), config, weight, ignoreIndex, posWeight)
            == Ok(WeightedCrossEntropy(WeightedCrossEntropyLoss(if ignoreIndex.None? then -100 else ignoreIndex.value)))
  {
  }

  /** A name outside the table raises once the shared keys have been read. */
  lemma UnknownNameRejected(m: map<string, Value>)
    requires "name" in m && forall k: LossKind :: m["name"] != Str(KindName(k))
    requires OptionalReals(Lookup(m, "weight")).Ok? && OptionalReals(Lookup(m, "pos_weight")).Ok?
    requires OptionalInt(Lookup(m, "ignore_index")).Ok?
    ensures LossCriterion(Some(m)) == Err(UnsupportedLoss)
  {
  }

  /** `WeightedSmoothL1Loss` needs `threshold` and `initial_weight`. */
  lemma SmoothL1NeedsThresholdAndWeight(config: map<string, Value>, weight: Option<seq<real>>,
                                        ignoreIndex: Option<int>, posWeight: Option<seq<real>>)
    requires "threshold" !in config || "initial_weight" !in config
    ensures CreateLoss(Str("WeightedSmoothL1Loss"), config, weight, ignoreIndex, posWeight).Err?
  {
  }

  // ---------------------------------------------------------------- the mutable dictionary

  /** The pops of `get_loss_criterion`, one key after the other, read the
      original entries and leave the configuration without the popped keys. */
  lemma PopSequence(m: map<string, Value>)
    ensures var m1 := m - {"name"};
            var m2 := m1 - {"ignore_index"};
            var m3 := m2 - {"skip_last_target"};
            var m4 := m3 - {"weight"};
            Lookup(m1, "ignore_index") == Lookup(m, "ignore_index") &&
            Lookup(m2, "skip_last_target") == Lookup(m, "skip_last_target") &&
            Lookup(m3, "weight") == Lookup(m, "weight") &&
            Lookup(m4, "pos_weight") == Lookup(m, "pos_weight") &&
            m4 == m - {"name", "ignore_index", "skip_last_target", "weight"} &&
            m4 - {"pos_weight"} == m - POPPED
  {
  }

  class ConfigDict {
    var entries: map<string, Value>

    constructor (entries: map<string, Value>)
      ensures this.entries == entries
    {
      this.entries := entries;
    }

    /** `d.pop(key, default)`: the value if present (None otherwise), and the key removed. */
    method Pop(key: string) returns (v: Option<Value>)
      modifies this
      ensures v == Lookup(old(entries), key)
      ensures entries == old(entries) - {key}
    {
      v := Lookup(entries, key);
      entries := entries - {key};
    }
  }

  /** `get_loss_criterion(config)`: pops its keys out of `config['loss']`, in
      the order of the source, and builds the loss. */
  method GetLossCriterion(config: map<string, ConfigDict>) returns (r: Result<Criterion>)
    modifies if "loss" in config then {config["loss"]} else {}
    ensures "loss" !in config ==> r == Err(ConfigurationError)
    ensures "loss" in config ==> r == LossCriterion(Some(old(config["loss"].entries)))
    ensures "loss" in config ==> config["loss"].entries == AfterPops(old(config["loss"].entries))
  {
    if "loss" !in config {
      return Err(ConfigurationError);
    }
    var lossConfig := config["loss"];
    ghost var m := lossConfig.entries;
    var name := lossConfig.Pop("name");
    if name.None? {
      return Err(ConfigurationError);
    }
    var ignoreValue := lossConfig.Pop("ignore_index");
    var skipValue := lossConfig.Pop("skip_last_target");
    var weightValue := lossConfig.Pop("weight");
    PopSequence(m);
    var weight :- OptionalReals(weightValue);
    var posValue := lossConfig.Pop("pos_weight");
    var posWeight :- OptionalReals(posValue);
    var ignoreIndex :- OptionalInt(ignoreValue);
    var loss :- CreateLoss(name.value, lossConfig.entries, weight, ignoreIndex, posWeight);
    ghost var base := loss;
    if ignoreIndex.Some? && !HandlesIgnoreIndex(name.value) {
      loss := Masked(MaskingLossWrapper(loss, ignoreIndex.value));
    }
    if TruthOr(skipValue, false) {
      loss := SkipLast(SkipLastTargetChannelWrapper(loss, TruthOr(Lookup(lossConfig.entries, "squeeze_channel"), false)));
    }
    assert loss == Wrap(base, name.value, ignoreIndex, TruthOr(skipValue, false),
                        TruthOr(Lookup(lossConfig.entries, "squeeze_channel"), false));
    return Ok(loss);
  }
}
