/**
 Configuration composer: the three key sets that a configuration shape and a
 defaults shape determine (required, omittable, optional), the user
 configuration they admit, and the shallow merge of a user configuration over
 a defaults object.

 A configuration shape lists every recognised option with its declared type;
 of that type the model keeps one fact, whether it admits `undefined`.
 Records (the user configuration, the defaults object and the merged result)
 are finite maps from option names to values.
 */
module UserConfig {

  type Key = string

  /** A runtime value; `Undefined` is a value that can be supplied explicitly. */
  datatype Value =
    | Undefined
    | Null
    | Bool(b: bool)
    | Num(n: int)
    | Str(s: string)
    | Obj(fields: map<Key, Value>)

  /** The declared type of one option, reduced to whether `undefined` is one of its members. */
  datatype Field = Field(admitsUndefined: bool)

  /** The configuration type: every recognised option name and its declared type. */
  type ConfigShape = map<Key, Field>

  /** A record value: the user configuration, the defaults object or the merged result. */
  type Record = map<Key, Value>

  // ---------------------------------------------------------------------------
  // Key-set derivations

  /** Options whose declared type admits `undefined`; defaulted options are kept. */
  function Omittable(shape: ConfigShape): (om: set<Key>)
    ensures om <= shape.Keys
    ensures forall k :: k in shape ==> (k in om <==> shape[k].admitsUndefined)
  {
    set k | k in shape && shape[k].admitsUndefined
  }

  /** Options with neither a default nor a declared type admitting `undefined`. */
  function Required(shape: ConfigShape, defaults: set<Key>): (req: set<Key>)
    ensures req <= shape.Keys
    ensures req !! defaults && req !! Omittable(shape)
    ensures forall k :: k in shape && k !in defaults && !shape[k].admitsUndefined ==> k in req
  {
    (shape.Keys - defaults) - Omittable(shape)
  }

  /** Options that also name a default; defaults' own keys outside the shape are never selected. */
  function Optional(shape: ConfigShape, defaults: set<Key>): (opt: set<Key>)
    ensures opt <= shape.Keys && opt <= defaults
    ensures forall k :: k in shape && k in defaults ==> k in opt
  {
    set k | k in shape && k in defaults
  }

  /**
   The user configuration type as written: the required options are mandatory
   and must hold a value of their declared type (which excludes `undefined`);
   optional and omittable options may be left out, and, being wrapped in
   `Partial`, may also be given an explicit `undefined`; no other key is
   permitted.
   */
  function IsUserConfig(shape: ConfigShape, defaults: set<Key>, config: Record): (ok: bool)
    ensures ok ==> Required(shape, defaults) <= config.Keys <= shape.Keys
  {
    && Required(shape, defaults) <= config.Keys
    && config.Keys <= Required(shape, defaults) + Optional(shape, defaults) + Omittable(shape)
    && forall k :: k in config && k in Required(shape, defaults) ==> config[k] != Undefined
  }

  /**
   The user configuration type read with exact optional properties: as
   `IsUserConfig`, and `undefined` may be supplied only for an option whose
   declared type admits it.
   */
  function IsExactUserConfig(shape: ConfigShape, defaults: set<Key>, config: Record): (ok: bool)
    ensures ok ==> forall k :: k in config ==> k in shape && (config[k] == Undefined ==> shape[k].admitsUndefined)
    ensures IsUserConfig(shape, defaults, config) && !ok ==>
      exists k :: k in config && config[k] == Undefined && k in Optional(shape, defaults) && k !in Omittable(shape)
  {
    && IsUserConfig(shape, defaults, config)
    && forall k :: k in config && config[k] == Undefined ==> k in Omittable(shape)
  }

  /** A defaults object is fully concrete: none of its values is `undefined`. */
  function IsConcrete(defaults: Record): (ok: bool)
    ensures ok <==> Undefined !in defaults.Values
  {
    forall k :: k in defaults ==> defaults[k] != Undefined
  }

  /**
   A record seen as the configuration type: every option whose declared type
   excludes `undefined` is present with a value other than `undefined`.
   Keys outside the shape are tolerated, as structural typing tolerates them.
   */
  function ConformsTo(shape: ConfigShape, final: Record): (ok: bool)
    ensures ok ==> shape.Keys - Omittable(shape) <= final.Keys
  {
    forall k :: k in shape && !shape[k].admitsUndefined ==> k in final && final[k] != Undefined
  }

  // ---------------------------------------------------------------------------
  // Merge

  /**
   `{ ...defaults, ...config }`: a shallow union in which every key the user
   configuration holds, even one holding `Undefined`, overrides the default.
   */
  function Flatten(config: Record, defaults: Record): (final: Record)
    ensures final.Keys == defaults.Keys + config.Keys
    ensures forall k :: k in config ==> final[k] == config[k]
    ensures forall k :: k in defaults && k !in config ==> final[k] == defaults[k]
  {
    defaults + config
  }

  // ---------------------------------------------------------------------------
  // Properties of the key sets

  /** Every option is required, optional or omittable, and a required option is neither of the others. */
  lemma KeySetsPartition(shape: ConfigShape, defaults: set<Key>)
    ensures Required(shape, defaults) + Optional(shape, defaults) + Omittable(shape) == shape.Keys
    ensures Required(shape, defaults) !! Optional(shape, defaults)
    ensures Required(shape, defaults) !! Omittable(shape)
    ensures |shape.Keys| == |Required(shape, defaults)| + |Optional(shape, defaults) + Omittable(shape)|
  {
    var req, opt, om := Required(shape, defaults), Optional(shape, defaults), Omittable(shape);
    assert req + (opt + om) == shape.Keys;
    assert req !! (opt + om);
  }

  /** An option may be left out exactly when it is defaulted, omittable, or both. */
  lemma MayBeLeftOutIffDefaultedOrOmittable(shape: ConfigShape, defaults: set<Key>, k: Key)
    requires k in shape
    ensures k in Optional(shape, defaults) + Omittable(shape) <==> k in defaults || shape[k].admitsUndefined
    ensures k in Required(shape, defaults) <==> !(k in defaults || shape[k].admitsUndefined)
  {
  }

  /**
   An option is both optional and omittable exactly when it has a default and
   its declared type admits `undefined`: the omittable set does not drop
   defaulted options.
   */
  lemma OptionalOmittableOverlap(shape: ConfigShape, defaults: set<Key>, k: Key)
    ensures k in Optional(shape, defaults) * Omittable(shape) <==>
      k in shape && k in defaults && shape[k].admitsUndefined
  {
  }

  /**
   Removing the defaulted options from the omittable set, as the comment on
   the omittable derivation describes, changes neither the required set nor
   the user configurations that are accepted.
   */
  lemma OmittableWithoutDefaultsSameUserConfig(shape: ConfigShape, defaults: set<Key>, config: Record)
    ensures (shape.Keys - defaults) - (Omittable(shape) - defaults) == Required(shape, defaults)
    ensures Required(shape, defaults) + Optional(shape, defaults) + (Omittable(shape) - defaults)
         == Required(shape, defaults) + Optional(shape, defaults) + Omittable(shape)
    ensures
      var required := (shape.Keys - defaults) - (Omittable(shape) - defaults);
      IsUserConfig(shape, defaults, config) <==>
        && required <= config.Keys
        && config.Keys <= required + Optional(shape, defaults) + (Omittable(shape) - defaults)
        && forall k :: k in config && k in required ==> config[k] != Undefined
  {
  }

  /**
   A user configuration is accepted exactly when it holds every required
   option, with a value other than `undefined`, and no key outside the shape.
   */
  lemma UserConfigIff(shape: ConfigShape, defaults: set<Key>, config: Record)
    ensures IsUserConfig(shape, defaults, config) <==>
      && Required(shape, defaults) <= config.Keys
      && config.Keys <= shape.Keys
      && forall k :: k in Required(shape, defaults) ==> config[k] != Undefined
  {
  }

  // ---------------------------------------------------------------------------
  // Properties of the merge

  /** A key that is in neither input is absent from the result. */
  lemma FlattenAbsentKey(config: Record, defaults: Record, k: Key)
    requires k !in config && k !in defaults
    ensures k !in Flatten(config, defaults)
  {
  }

  /** An explicit `Undefined` in the user configuration replaces the default. */
  lemma FlattenUndefinedOverrides(config: Record, defaults: Record, k: Key)
    requires k in config && config[k] == Undefined
    ensures k in Flatten(config, defaults) && Flatten(config, defaults)[k] == Undefined
  {
  }

  /** The merge is shallow: an object value supplied by the user replaces an object default whole. */
  lemma FlattenIsShallow(config: Record, defaults: Record, k: Key, inner: Key)
    requires k in config && k in defaults && config[k].Obj? && defaults[k].Obj?
    requires inner in defaults[k].fields && inner !in config[k].fields
    ensures inner !in Flatten(config, defaults)[k].fields
  {
  }

  /** Keys of the defaults object outside the shape are copied into the result all the same. */
  lemma FlattenKeepsDefaultsOutsideShape(shape: ConfigShape, config: Record, defaults: Record, k: Key)
    requires IsUserConfig(shape, defaults.Keys, config)
    requires k in defaults && k !in shape
    ensures k in Flatten(config, defaults) && Flatten(config, defaults)[k] == defaults[k]
  {
  }

  /** Re-merging the result with no defaults, or with the same defaults, changes nothing. */
  lemma FlattenIdempotent(config: Record, defaults: Record)
    ensures Flatten(Flatten(config, defaults), map[]) == Flatten(config, defaults)
    ensures Flatten(Flatten(config, defaults), defaults) == Flatten(config, defaults)
  {
  }

  /** For an accepted user configuration, every required option keeps the user's value. */
  lemma FlattenKeepsRequired(shape: ConfigShape, config: Record, defaults: Record)
    requires IsUserConfig(shape, defaults.Keys, config)
    ensures Required(shape, defaults.Keys) <= Flatten(config, defaults).Keys
    ensures forall k :: k in Required(shape, defaults.Keys) ==>
      Flatten(config, defaults)[k] == config[k] && config[k] != Undefined
  {
  }

  /**
   With exact optional properties and a concrete defaults object, the result
   conforms to the configuration type: every option whose type excludes
   `undefined` is present and defined.
   */
  lemma FlattenConforms(shape: ConfigShape, config: Record, defaults: Record)
    requires IsExactUserConfig(shape, defaults.Keys, config)
    requires IsConcrete(defaults)
    ensures ConformsTo(shape, Flatten(config, defaults))
  {
  }

  /**
   As written, the user configuration type admits an explicit `undefined` for
   a defaulted option whose type excludes it, and the merge then yields a
   result that does not conform to the configuration type.
   */
  lemma FlattenUndefinedBreaksConformance()
    ensures var shape := map["port" := Field(false)];
            var defaults := map["port" := Num(8080)];
            var config := map["port" := Undefined];
            && IsUserConfig(shape, defaults.Keys, config)
            && IsConcrete(defaults)
            && !IsExactUserConfig(shape, defaults.Keys, config)
            && !ConformsTo(shape, Flatten(config, defaults))
  {
    var shape := map["port" := Field(false)];
    var defaults := map["port" := Num(8080)];
    var config := map["port" := Undefined];
    assert Omittable(shape) == {} by {
      assert !shape["port"].admitsUndefined;
    }
    assert Required(shape, defaults.Keys) == {};
    assert Optional(shape, defaults.Keys) == {"port"} by {
      assert "port" in shape && "port" in defaults.Keys;
    }
    assert "port" in config && config["port"] == Undefined && "port" !in Omittable(shape);
    assert Flatten(config, defaults)["port"] == Undefined;
  }

  /**
   The defaults type is unconstrained, so a defaults object may hold
   `undefined` for an option whose type excludes it; an exact user
   configuration that leaves that option out then yields a non-conforming
   result. `FlattenConforms` needs the defaults to be concrete.
   */
  lemma FlattenUndefinedDefaultBreaksConformance()
    ensures var shape := map["port" := Field(false)];
            var defaults := map["port" := Undefined];
            var config: Record := map[];
            && IsExactUserConfig(shape, defaults.Keys, config)
            && !IsConcrete(defaults)
            && !ConformsTo(shape, Flatten(config, defaults))
  {
    var shape := map["port" := Field(false)];
    var defaults := map["port" := Undefined];
    var config: Record := map[];
    assert Omittable(shape) == {} by {
      assert !shape["port"].admitsUndefined;
    }
    assert Required(shape, defaults.Keys) == {};
    assert Flatten(config, defaults)["port"] == Undefined;
  }
}
