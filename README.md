# Configuration composer, modelled in Dafny

The library composes a configuration type with a defaults type. From a
configuration shape (every recognised option and its declared type) and the
keys of a defaults object it derives three key sets:

- **required** options: neither defaulted nor declared with a type that admits `undefined`;
- **omittable** options: declared with a type that admits `undefined`;
- **optional** options: configuration options that also name a default.

A user configuration must hold every required option and may hold optional
and omittable ones; no other key is allowed. `FlattenConfig` then merges the
user configuration over the defaults object with a shallow object spread
(`{ ...defaults, ...config }`): every key the user supplies wins, even one
supplied as `undefined`, and every other default is copied through.

The model (module `UserConfig`, file `user_config.dfy`) represents the
configuration shape as a map from option names to a `Field` that records
whether the declared type admits `undefined`, the defaults type by its key
set, and every record value as a `map<Key, Value>` whose `Value` has an
explicit `Undefined`. The merge is a map union. Module `Scenarios`
(`scenarios.dfy`) works through a server configuration (`host: string`,
`port: number`, `timeout?: number`, default port 8080) and a one-option
configuration with no defaults.

The comment on the omittable derivation (src/index.ts:11-13) says defaulted
options are excluded from it; the code (src/index.ts:17-18) does not exclude
them. The model follows the code, and `OmittableWithoutDefaultsSameUserConfig`
shows that the difference changes neither the required set, nor the permitted
keys, nor which user configurations `IsUserConfig` accepts.

The user configuration type is read with strict null checks on (they are on
under the compiler's `strict` setting; with them off every option admits
`undefined`, which the per-option flag expresses by marking every option
omittable) and with exact optional property types off, which is the compiler's
default. `Partial<...>` then admits an explicit `undefined` for every optional
and omittable option. `IsUserConfig`
models that reading. `IsExactUserConfig` models the reading with exact
optional properties (see Findings).

## Model

| member | source | states |
|---|---|---|
| `UserConfig.Omittable` | src/index.ts:17-18 | the omittable set is exactly the configuration options whose declared type admits `undefined`, and lies inside the configuration's keys |
| `UserConfig.Required` | src/index.ts:8-9 | the required set lies inside the configuration's keys, is disjoint from the defaults' keys and from the omittable set, and holds every option that is neither defaulted nor omittable |
| `UserConfig.Optional` | src/index.ts:26-27 | the optional set lies inside both the configuration's keys and the defaults' keys and holds every key they share; defaults' keys outside the configuration are never selected |
| `UserConfig.KeySetsPartition` | src/index.ts:8-45 | required, optional and omittable together cover exactly the configuration's keys, required overlaps neither of the others, and the key count splits accordingly |
| `UserConfig.MayBeLeftOutIffDefaultedOrOmittable` | src/index.ts:42-45 | an option may be left out of a user configuration exactly when it is defaulted or omittable, and is required exactly when it is neither |
| `UserConfig.OptionalOmittableOverlap` | src/index.ts:11-27 | an option is both optional and omittable exactly when it is in the shape, has a default and its type admits `undefined`: defaulted options are not removed from the omittable set |
| `UserConfig.OmittableWithoutDefaultsSameUserConfig` | src/index.ts:11-18 | removing defaulted options from the omittable set, as its comment describes, leaves the required set, the set of permitted keys and the accepted user configurations unchanged |
| `UserConfig.IsUserConfig` | src/index.ts:42-45 | the user configuration type as written: an accepted configuration holds every required option and no key outside the shape |
| `UserConfig.UserConfigIff` | src/index.ts:32-45 | a user configuration is accepted exactly when it holds every required option with a defined value and no key outside the configuration |
| `UserConfig.IsExactUserConfig` | src/index.ts:42-45 | the corrected reading (exact optional properties): every supplied key is in the shape and holds `undefined` only where its type admits it; it rejects an as-written configuration only when a defaulted option whose type excludes `undefined` is given `undefined` |
| `UserConfig.IsConcrete` | src/index.ts:51-56 | the obligation assumed of the caller's defaults object, not checked by the source: no default value is `undefined` |
| `UserConfig.ConformsTo` | src/index.ts:52-57 | what the `TConfig` return type promises: every option whose type excludes `undefined` is a key of the result |
| `UserConfig.Flatten` | src/index.ts:54-57 | the result's keys are the union of the defaults' and the user configuration's keys; a supplied key takes the user's value; any other default key takes the default |
| `UserConfig.FlattenAbsentKey` | src/index.ts:57 | a key in neither input is absent from the result |
| `UserConfig.FlattenUndefinedOverrides` | src/index.ts:47-57 | an explicit `undefined` in the user configuration replaces the default |
| `UserConfig.FlattenIsShallow` | src/index.ts:57 | an object supplied by the user replaces an object default whole; fields only the default has do not survive |
| `UserConfig.FlattenKeepsDefaultsOutsideShape` | src/index.ts:54-57 | a defaults key outside the configuration shape is still copied into the result with its default value |
| `UserConfig.FlattenIdempotent` | src/index.ts:57 | merging the result again with no defaults, or with the same defaults, gives the same result |
| `UserConfig.FlattenKeepsRequired` | src/index.ts:42-57 | for an accepted user configuration, every required option is in the result with the user's defined value |
| `UserConfig.FlattenConforms` | src/index.ts:47-57 | for a user configuration with exact optional properties and a concrete defaults object, every option whose type excludes `undefined` is present and defined in the result |
| `UserConfig.FlattenUndefinedBreaksConformance` | src/index.ts:42-57 | the user configuration type as written accepts `{port: undefined}` against defaults `{port: 8080}` for a `port: number` option, and the merged result then has `port` undefined |
| `UserConfig.FlattenUndefinedDefaultBreaksConformance` | src/index.ts:54-57 | a defaults object `{port: undefined}` for a `port: number` option, with an exact, empty user configuration, yields a result with `port` undefined: concreteness of the defaults is needed and not enforced |
| `Scenarios.ServerKeySets` | src/index.ts:8-27 | for host/port/timeout with a default port, host is required, port optional and timeout omittable |
| `Scenarios.ServerUserConfigs` | src/index.ts:32-45 | `{host}` is accepted; a configuration without host, or with an unknown key, is rejected |
| `Scenarios.ServerHostOnly` | src/index.ts:54-57 | merging `{host: "x"}` gives `{host: "x", port: 8080}` with no timeout key |
| `Scenarios.ServerAllSupplied` | src/index.ts:54-57 | merging a configuration that supplies host, port 9090 and timeout 30 keeps all three user values |
| `Scenarios.NoDefaults` | src/index.ts:8-9 | with no defaults, the single option is required and passes through the merge unchanged |

## Findings

| source | as written | input that shows it | evidently intended | confidence | as-written member | corrected member |
|---|---|---|---|---|---|---|
| src/index.ts:42-57 | `Partial<...>` over the optional options admits an explicit `undefined` even when the option's declared type excludes it, and the spread copies that `undefined` over the default | options `{port: number}`, defaults `{port: 8080}`, user configuration `{port: undefined}` gives `{port: undefined}`, returned as the configuration type | the result is a configuration "with every value represented" (src/index.ts:48, 52), so `undefined` should only reach options whose type admits it | medium, not executed; it holds when exact optional property types are off, the compiler default | `UserConfig.FlattenUndefinedBreaksConformance` | `UserConfig.FlattenConforms` (over `UserConfig.IsExactUserConfig`) |

## Left out

- The type-level machinery (conditional and mapped types, `keyof`, and the structural test `undefined extends TConfig[k]`): each option's declared type is reduced to a flag saying whether it admits `undefined`.
- Value types other than `undefined`: no check that a supplied value has its option's declared type; `Value` is a plain tagged union, and numbers are integers.
- The keys of the defaults type are taken to be the keys of the defaults object passed to the merge.
- The `as unknown as TConfig` cast on the merge result: it has no runtime effect; `ConformsTo` states what the cast claims, and `FlattenKeepsDefaultsOutsideShape` shows the extra keys it hides.
- Excess-key rejection is a compile-time check in the source, and it applies only to a fresh object literal; a configuration passed in through a variable can carry extra keys, and the spread copies them into the result. The model states the rule as part of the `IsUserConfig` predicate only; the merge does not enforce it.
- FlattenConforms: assumes the defaults object is concrete (`IsConcrete`) and that its keys are the defaults type's keys; `TDefaults extends {}` enforces neither, and `FlattenUndefinedDefaultBreaksConformance` shows a non-conforming result when a default is `undefined`.
- Details of the object spread: own versus inherited and enumerable properties, getters, symbol keys and key order.
- Non-mutation of the inputs: records are values in the model, so the merge cannot change them and no member states it.
