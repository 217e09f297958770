# Web Bundle webpack plugin: options validation and bundle orchestration

This project models two parts of the webpack Web Bundle plugin.

1. **The runtime validation of plugin options.** This is `packages/shared/types.ts`, in module `SharedTypes` (`types.dfy`).
   - A configuration is either unsigned or signed with an integrity block. Signed means `integrityBlockSign` holds a value: the key is present and its value is not `undefined`.
   - Three predicates check it:
     - `isIbSignPluginOptions` picks the variant.
     - `isValidNonIbSignPluginOptions` validates an unsigned configuration.
     - `isValidIbSignPluginOptions` validates a signed one.
   - Each validator first rejects any object that carries *every* property on its "unwanted" list. It does this with `every((p) => p in opts)`. It then requires certain fields to be `!== undefined`.
2. **The `WebBundlePlugin` class.** This is `packages/webbundle-webpack-plugin/src/index.ts`, in module `Plugin` (`plugin.dfy`).
   - The constructor merges the caller's options over `defaults` with `Object.assign({}, defaults, opts)`. It then validates the merged object.
   - `process` does four things, in this order:
     1. Creates a bundle builder with the merged format version.
     2. Sets the primary URL if it is truthy.
     3. Adds the static directory, then every compilation asset in iteration order.
     4. Writes the bytes of `maybeSignWebBundle(builder.createBundle(), …)` into `compilation.assets[opts.output]`.

An options object is a record of `Field<T>` values. Each field is in one of three states: `Absent`, `PresentUndefined` or `Val(v)`. JavaScript's `key in obj` is `!Absent?`, and `obj.key !== undefined` is `Val?`. The source uses both notions, and the model keeps them apart. `HasKey(o, name)` gives `name in o` for a property name written as a string. This lets the `every` over the constant lists `IbSignUnwantedProps` and `NonIbSignUnwantedProps` be modelled as written. The property `static` is named `staticOpts`, because `static` is a Dafny keyword.

Some collaborators are abstract:
- **`BundleBuilder`** records the calls made on it as a sequence of `BuilderCall` values. The same goes for the helpers `addFilesRecursively` and `addAsset`.
- **`createBundle` and `maybeSignWebBundle`** are function-typed fields of a `Collaborators` value. Their code is not part of this model.
- **`validateOptions`** is a predicate passed to `WebBundlePlugin.New`. Its code is not part of this model.

`compilation.assets` is a `Compilation` object. It has two fields:
- `assetNames`: the property order, which is the order `Object.entries` iterates in;
- `assets`: the bytes of each asset.

A JavaScript property write `assets[key] = v` keeps an existing key in its place and appends a new key at the end (string keys; see `SetKeyOrder` under "## Left out").

`process` is total: it does not assume that validation passed. A field that is `undefined` flows on as JavaScript would pass it; this includes `static.dir`, which no validator reads, so `static: {}` reaches `addFilesRecursively` with an `undefined` directory. For example, `compilation.assets[undefined]` writes under the key `"undefined"` (`OutputKey`). The lemma `ValidOptionsWriteConfiguredOutput` shows that for validated options the key is the configured output name.

Two consequences of the code are worth stating:
- **An empty base URL is valid.** The validators only require `baseURL !== undefined`, and the default is `''` (`EmptyOptionsValidOnlyAfterMerge`).
- **`integrityBlockSign: undefined` matches no variant.** The variant is selected with `!== undefined`, but the unsigned validator excludes the key with `in`. So such an object is neither a signed configuration nor a valid unsigned one (`UndefinedSigningKeyMatchesNoVariant`).

## Model

| member | source | states |
|---|---|---|
| `SharedTypes.IsIbSignPluginOptions` | packages/shared/types.ts:80-84 | the signed variant is chosen exactly when the key `integrityBlockSign` is present and its value is not `undefined` |
| `SharedTypes.IsValidNonIbSignPluginOptions` | packages/shared/types.ts:86-99 | true iff the key `integrityBlockSign` is absent and `baseURL`, `output` and `formatVersion` hold values; `primaryURL` plays no part |
| `SharedTypes.IsValidIbSignPluginOptions` | packages/shared/types.ts:101-117 | true iff the key `primaryURL` is absent and `integrityBlockSign`, its `key`, `baseURL`, `output` and `formatVersion` all hold values |
| `SharedTypes.EveryInMeansAllPresent` | packages/shared/types.ts:89-91 | the `every((p) => p in opts)` test holds iff every listed property is present, so a configuration is rejected only when all unwanted properties are present |
| `SharedTypes.UnwantedListsAreSingleKeyTests` | packages/shared/types.ts:62-63 | with the one-element lists `['primaryURL']` and `['integrityBlockSign']`, the `every` test is a single key-membership test |
| `SharedTypes.UndefinedSigningKeyMatchesNoVariant` | packages/shared/types.ts:80-117 | `integrityBlockSign: undefined` is not a signed configuration and is rejected by both validators |
| `SharedTypes.NonIbSignRejectsSigningKey` | packages/shared/types.ts:89-91 | the unsigned validator rejects any object with the key `integrityBlockSign`, even when its value is `undefined` |
| `SharedTypes.IbSignRejectsPrimaryURL` | packages/shared/types.ts:104-106 | the signed validator rejects any object with the key `primaryURL`, whatever its value |
| `SharedTypes.ValidVariantsAreExclusive` | packages/shared/types.ts:86-117 | no object satisfies both validators |
| `SharedTypes.ValidVariantAgreesWithDiscriminant` | packages/shared/types.ts:80-117 | a valid signed configuration is signed; a valid unsigned configuration is not signed |
| `SharedTypes.PrimaryURLWithSigningKeyRejected` | packages/shared/types.ts:86-117 | an object with both `primaryURL` and `integrityBlockSign` keys fails both validators |
| `SharedTypes.MissingRequiredFieldRejected` | packages/shared/types.ts:94-116 | an undefined `baseURL`, `output` or `formatVersion` fails both validators; a signed object without a key fails the signed validator |
| `Plugin.ObjectAssign` | packages/webbundle-webpack-plugin/src/index.ts:46 | the properties of `Object.assign(target, source)` are exactly those of the target and of the source; a property the source has, even one holding `undefined`, takes the source's value, and every other property keeps the target's |
| `Plugin.MergeWithDefaults` | packages/webbundle-webpack-plugin/src/index.ts:31-46 | an omitted `formatVersion`, `output` or `baseURL` becomes `'b2'`, `'out.wbn'` or `''`; a supplied one, even `undefined`, replaces the default; every other option is the caller's |
| `Plugin.MergedHasDefaultKeys` | packages/webbundle-webpack-plugin/src/index.ts:31-46 | after the merge, `formatVersion`, `output` and `baseURL` are always present |
| `Plugin.MergeIsIdempotent` | packages/webbundle-webpack-plugin/src/index.ts:46 | merging the defaults into merged options changes nothing |
| `Plugin.MergedUnsignedOptionsValid` | packages/webbundle-webpack-plugin/src/index.ts:46-47 | an unsigned caller object that does not set a defaulted field to `undefined` passes the unsigned validator once merged |
| `Plugin.MergedSignedOptionsValid` | packages/webbundle-webpack-plugin/src/index.ts:46-47 | a signed caller object with a key, no `primaryURL` and no defaulted field set to `undefined` passes the signed validator once merged |
| `Plugin.EmptyOptionsValidOnlyAfterMerge` | packages/webbundle-webpack-plugin/src/index.ts:46-47 | `{}` fails the unsigned validator as given and passes it once merged, so it matters that the merged object is validated |
| `Plugin.MergePreservesValidity` | packages/webbundle-webpack-plugin/src/index.ts:46-47 | merging never turns an object accepted by either validator into a rejected one |
| `Plugin.ExplicitUndefinedDefeatsDefault` | packages/webbundle-webpack-plugin/src/index.ts:46 | a defaulted field explicitly set to `undefined` stays `undefined`, and both validators reject the merged object |
| `Plugin.AssetCalls` | packages/webbundle-webpack-plugin/src/index.ts:65-78 | one `addAsset` call per asset name, the k-th with the k-th name, that asset's bytes and the given base URL |
| `Plugin.ProcessCalls` | packages/webbundle-webpack-plugin/src/index.ts:52-78 | the calls of `process` number one per asset, plus one if the primary URL is truthy, plus one if `static` is set (their order is stated by `ProcessCallsLayout`) |
| `Plugin.ProcessCallsLayout` | packages/webbundle-webpack-plugin/src/index.ts:52-78 | the calls of `process` are the primary-URL and static calls (none of them an asset addition), then one asset addition per asset in iteration order |
| `Plugin.PrimaryURLSetOnceAndFirst` | packages/webbundle-webpack-plugin/src/index.ts:53-55 | `setPrimaryURL` is called exactly once, first, with the configured URL, iff `opts.primaryURL` is truthy (an empty string is skipped) |
| `Plugin.StaticFilesBeforeAssets` | packages/webbundle-webpack-plugin/src/index.ts:56-63 | static files are added exactly once iff `opts.static` is set, under `opts.static.baseURL` if truthy and `opts.baseURL` otherwise, and before every asset addition |
| `Plugin.EachAssetAddedOnceInOrder` | packages/webbundle-webpack-plugin/src/index.ts:65-78 | each pre-existing asset is added exactly once, in iteration order, with its name as relative path and `opts.baseURL` as base |
| `Plugin.OutputNotAmongAddedAssets` | packages/webbundle-webpack-plugin/src/index.ts:65-100 | an output name not already among the assets is never passed to `addAsset`, and every added asset carries content already in the compilation |
| `Plugin.ValidOptionsWriteConfiguredOutput` | packages/webbundle-webpack-plugin/src/index.ts:100 | for options either validator accepts, the bundle is written under the configured `output` name; an `output` that holds no value is written under the key `"undefined"`, as JavaScript coerces it (computed by `OutputKey`), and such options fail both validators |
| `Plugin.SetKeyOrder` | packages/webbundle-webpack-plugin/src/index.ts:100 | after `assets[key] = v`, the keys are the old keys in the old order, followed by `key` exactly when it was not already a key; distinct keys stay distinct |
| `Plugin.Compilation.SetAsset` | packages/webbundle-webpack-plugin/src/index.ts:100-103 | the property write changes only the entry under `key`, and the key order follows `SetKeyOrder` |
| `Plugin.BundleBuilder.constructor` | packages/webbundle-webpack-plugin/src/index.ts:52 | a new builder has the given format version and no calls |
| `Plugin.BundleBuilder.SetPrimaryURL` | packages/webbundle-webpack-plugin/src/index.ts:54 | records one `setPrimaryURL` call with the URL |
| `Plugin.AddFilesRecursively` | packages/webbundle-webpack-plugin/src/index.ts:57-62 | records one static-directory call with its base URL and directory |
| `Plugin.AddAsset` | packages/webbundle-webpack-plugin/src/index.ts:71-77 | records one asset addition with its base URL, relative path and bytes |
| `Plugin.AddCompilationAssets` | packages/webbundle-webpack-plugin/src/index.ts:65-78 | the `for … of Object.entries` loop appends exactly `AssetCalls` to the builder's calls |
| `Plugin.WebBundlePlugin.constructor` | packages/webbundle-webpack-plugin/src/index.ts:45-46 | the merge half of the constructor only: the plugin's options are the caller's options merged over the defaults, not yet validated |
| `Plugin.WebBundlePlugin.New` | packages/webbundle-webpack-plugin/src/index.ts:45-48 | construction succeeds iff `validateOptions` accepts the merged options, not the caller's, and the plugin then holds the merged options |
| `Plugin.WebBundlePlugin.Process` | packages/webbundle-webpack-plugin/src/index.ts:50-105 | the builder gets the merged format version and exactly the calls of `ProcessCalls`; `compilation.assets[opts.output]` then holds `maybeSignWebBundle(createBundle(...), opts)` and every other asset is unchanged |

## Left out

- `apply` and `isWebpackMajorV4`: hook registration and the webpack v4/v5 branching are adapter code. Both branches write the same bytes under `opts.output`, and the model writes those bytes directly.
- Logger selection and the `WebBundleId` callback passed to `maybeSignWebBundle`: these are logging side effects, and the identifier is derived inside the signing library. `Collaborators.maybeSignWebBundle` takes only the bundle and the options.
- Turning an asset's source into a `Buffer`, and the `RawSource` wrapper: these are runtime types of the host. An asset is modelled by its bytes.
- The internals of `addFilesRecursively`, `addAsset`, `validateOptions` and `maybeSignWebBundle` (shared/utils, which is not part of this model), and of `BundleBuilder` (the bundle-format library). They are modelled as recorded calls or as parameters. So the model says nothing about:
  - which path wins when two entries share a path;
  - how header overrides are applied;
  - the order in which the directory is walked;
  - whether signing happens.
- The options object passed along to `addFilesRecursively` and `addAsset`: it is always the plugin's own merged options, so the recorded calls omit it.
- The Web Bundle byte layout and integrity-block signing: external libraries and cryptography.
- `isIwa` and the commented-out strategy-based signing options: no visible logic reads them.
- `null` property values: a property is absent, `undefined` or a value. In JavaScript, `integrityBlockSign: null` would pass `!== undefined` and then fail on `.key`. The model does not represent that case.
- Properties inherited through the prototype chain (`'toString' in opts`): `HasKey` knows only the options' own properties. The unwanted-property lists name only own properties.
- `SetKeyOrder` and `Compilation.SetAsset`: JavaScript lists integer-like keys first, in ascending order, so a new integer-like output name such as `"0"` would be placed before the other assets rather than last. The model treats every key as a string key, appends a new key at the end, and takes the initial `Compilation.assetNames` as `Object.entries`' iteration order.
- `WebBundlePlugin.Process`: failures of the collaborators are not modelled. In the source a throw from `addFilesRecursively` (a missing directory, say), from reading an asset's source, from `createBundle` or from `maybeSignWebBundle` (an unusable key, say) ends the pass before the write, leaving `compilation.assets` as it was. The contract covers the run in which every collaborator returns. Only the throw of `validateOptions` is modelled, as `Err` from `WebBundlePlugin.New`.
- `MergeWithDefaults` / `WebBundlePlugin.opts`: `Object.assign` copies only the top level, so the nested `static` and `integrityBlockSign` objects stay shared with the caller. A caller that changes them after construction (say, `opts.integrityBlockSign.key = undefined`) changes what `process` later passes on, past validation. The model holds the options as an immutable value and assumes the caller does not change them after construction.
