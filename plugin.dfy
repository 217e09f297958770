/** Model of `WebBundlePlugin` in packages/webbundle-webpack-plugin/src/index.ts:
    the constructor's default merge and validation, and `process`, which feeds
    a bundle builder in a fixed order and registers the (maybe signed) bundle
    as a compilation asset.

    The collaborators whose code is not part of this model (`BundleBuilder`
    from the bundle-format library, and `addFilesRecursively`, `addAsset`,
    `validateOptions` and `maybeSignWebBundle` from the shared utilities) are
    abstract: the builder records the calls made on it, and the functions that
    produce bytes or accept options are parameters. */
module Plugin {
  import opened SharedTypes

  type Bytes = seq<bv8>

  datatype ConfigError = InvalidConfiguration

  datatype Result<T> = Ok(value: T) | Err(error: ConfigError)

  // ---------------------------------------------------------------------------
  // Defaults and `Object.assign`

  /** An object with no properties: `{}`. */
  const EmptyObject: PluginOptions :=
    PluginOptions(Absent, Absent, Absent, Absent, Absent, Absent, Absent)

  /** `defaults`: format version 'b2', output 'out.wbn', base URL ''. */
  const Defaults: PluginOptions :=
    PluginOptions(Absent, Val(""), Val("out.wbn"), Val("b2"), Absent, Absent, Absent)

  /** `Object.assign` on one property: a property the source has, even with
      value `undefined`, is copied over the target's. */
  function AssignField<T>(target: Field<T>, source: Field<T>): Field<T>
  {
    if source.Absent? then target else source
  }

  /** `Object.assign(target, source)` on options objects: the result has the
      properties of both; where the source has a property, even one holding
      `undefined`, its value wins, and elsewhere the target's value stays. */
  function ObjectAssign(target: PluginOptions, source: PluginOptions): (r: PluginOptions)
    ensures forall name :: HasKey(r, name) <==> HasKey(target, name) || HasKey(source, name)
    ensures forall name | HasKey(source, name) :: SameProp(r, source, name)
    ensures forall name | !HasKey(source, name) :: SameProp(r, target, name)
  {
    PluginOptions(
      AssignField(target.staticOpts, source.staticOpts),
      AssignField(target.baseURL, source.baseURL),
      AssignField(target.output, source.output),
      AssignField(target.formatVersion, source.formatVersion),
      AssignField(target.headerOverride, source.headerOverride),
      AssignField(target.primaryURL, source.primaryURL),
      AssignField(target.integrityBlockSign, source.integrityBlockSign))
  }

  /** `Object.assign({}, defaults, opts)`: an option the caller omitted takes
      its default; any option the caller supplied replaces the default, even
      when its value is `undefined`; every other option is the caller's. */
  function MergeWithDefaults(opts: PluginOptions): (r: PluginOptions)
    ensures r.formatVersion == (if opts.formatVersion.Absent? then Val("b2") else opts.formatVersion)
    ensures r.output == (if opts.output.Absent? then Val("out.wbn") else opts.output)
    ensures r.baseURL == (if opts.baseURL.Absent? then Val("") else opts.baseURL)
    ensures r.staticOpts == opts.staticOpts && r.headerOverride == opts.headerOverride
    ensures r.primaryURL == opts.primaryURL && r.integrityBlockSign == opts.integrityBlockSign
  {
    ObjectAssign(ObjectAssign(EmptyObject, Defaults), opts)
  }

  /** After the merge, the keys of `defaults` are always present. */
  lemma MergedHasDefaultKeys(opts: PluginOptions)
    ensures var m := MergeWithDefaults(opts);
      HasKey(m, "formatVersion") && HasKey(m, "output") && HasKey(m, "baseURL")
  {
  }

  /** Merging twice changes nothing more. */
  lemma MergeIsIdempotent(opts: PluginOptions)
    ensures MergeWithDefaults(MergeWithDefaults(opts)) == MergeWithDefaults(opts)
  {
  }

  /** Validation sees the defaulted fields: an unsigned caller object that
      does not set `baseURL`, `output` or `formatVersion` to `undefined` is
      valid after the merge, whether or not it was before. */
  lemma MergedUnsignedOptionsValid(opts: PluginOptions)
    requires opts.integrityBlockSign.Absent?
    requires opts.baseURL != PresentUndefined && opts.output != PresentUndefined
    requires opts.formatVersion != PresentUndefined
    ensures IsValidNonIbSignPluginOptions(MergeWithDefaults(opts))
  {
  }

  /** The same for a signed caller object that has a key and no `primaryURL`. */
  lemma MergedSignedOptionsValid(opts: PluginOptions)
    requires opts.primaryURL.Absent?
    requires opts.integrityBlockSign.Val? && opts.integrityBlockSign.value.key.Val?
    requires opts.baseURL != PresentUndefined && opts.output != PresentUndefined
    requires opts.formatVersion != PresentUndefined
    ensures IsValidIbSignPluginOptions(MergeWithDefaults(opts))
  {
  }

  /** The empty caller object is invalid as given and valid once merged, so it
      matters that the merged object is the one validated. */
  lemma EmptyOptionsValidOnlyAfterMerge()
    ensures !IsValidNonIbSignPluginOptions(EmptyObject)
    ensures IsValidNonIbSignPluginOptions(MergeWithDefaults(EmptyObject))
  {
  }

  /** Merging never turns a valid object invalid. */
  lemma MergePreservesValidity(opts: PluginOptions)
    ensures IsValidNonIbSignPluginOptions(opts) ==> IsValidNonIbSignPluginOptions(MergeWithDefaults(opts))
    ensures IsValidIbSignPluginOptions(opts) ==> IsValidIbSignPluginOptions(MergeWithDefaults(opts))
  {
  }

  /** An option explicitly set to `undefined` defeats its default, and both
      validators then reject the merged object. */
  lemma ExplicitUndefinedDefeatsDefault(opts: PluginOptions)
    requires opts.baseURL == PresentUndefined || opts.output == PresentUndefined
             || opts.formatVersion == PresentUndefined
    ensures !IsValidNonIbSignPluginOptions(MergeWithDefaults(opts))
    ensures !IsValidIbSignPluginOptions(MergeWithDefaults(opts))
  {
  }

  // ---------------------------------------------------------------------------
  // Calls made on the bundle builder, and the order `process` makes them in

  /** One call on the builder, with the arguments that reach it. */
  datatype BuilderCall =
    | SetPrimaryURLCall(url: string)
    | AddFilesRecursivelyCall(baseURL: Field<string>, dir: Field<string>)
    | AddAssetCall(baseURL: Field<string>, relativePath: string, content: Bytes)

  /** `opts.static.baseURL || opts.baseURL`. */
  function StaticBaseURL(o: PluginOptions): Field<string>
    requires o.staticOpts.Val?
  {
    if IsTruthy(o.staticOpts.value.baseURL) then o.staticOpts.value.baseURL else o.baseURL
  }

  /** The primary URL is set only when `opts.primaryURL` is truthy. */
  function PrimaryURLCalls(o: PluginOptions): seq<BuilderCall>
  {
    if IsTruthy(o.primaryURL) then [SetPrimaryURLCall(o.primaryURL.value)] else []
  }

  /** Static files are added only when `opts.static` is set. */
  function StaticCalls(o: PluginOptions): seq<BuilderCall>
  {
    if o.staticOpts.Val? then [AddFilesRecursivelyCall(StaticBaseURL(o), o.staticOpts.value.dir)] else []
  }

  /** One `addAsset` per asset name, in the order given, under `baseURL`. */
  function AssetCalls(baseURL: Field<string>, names: seq<string>, assets: map<string, Bytes>): (r: seq<BuilderCall>)
    requires forall n <- names :: n in assets
    ensures |r| == |names|
    ensures forall k | 0 <= k < |names| :: r[k] == AddAssetCall(baseURL, names[k], assets[names[k]])
  {
    if names == [] then []
    else
      var last := names[|names| - 1];
      AssetCalls(baseURL, names[..|names| - 1], assets) + [AddAssetCall(baseURL, last, assets[last])]
  }

  /** Every call `process` makes on the builder, in order, for options `o` and
      compilation assets `names` (iteration order) and `assets` (contents). */
  function ProcessCalls(o: PluginOptions, names: seq<string>, assets: map<string, Bytes>): (r: seq<BuilderCall>)
    requires forall n <- names :: n in assets
    ensures |r| == (if IsTruthy(o.primaryURL) then 1 else 0) + (if o.staticOpts.Val? then 1 else 0) + |names|
  {
    PrimaryURLCalls(o) + StaticCalls(o) + AssetCalls(o.baseURL, names, assets)
  }

  /** The layout of `ProcessCalls`: the primary URL and static calls, then
      one `addAsset` call per asset name. */
  lemma ProcessCallsLayout(o: PluginOptions, names: seq<string>, assets: map<string, Bytes>)
    requires forall n <- names :: n in assets
    ensures var t := ProcessCalls(o, names, assets); var p := |PrimaryURLCalls(o)| + |StaticCalls(o)|;
      && |t| == p + |names|
      && (forall i | 0 <= i < p :: !t[i].AddAssetCall?)
      && (forall i | p <= i < |t| :: t[i] == AddAssetCall(o.baseURL, names[i - p], assets[names[i - p]]))
  {
    var t := ProcessCalls(o, names, assets);
    var p := |PrimaryURLCalls(o)| + |StaticCalls(o)|;
    var head := PrimaryURLCalls(o) + StaticCalls(o);
    var a := AssetCalls(o.baseURL, names, assets);
    assert t == head + a;
    assert forall i | 0 <= i < |head| :: !head[i].AddAssetCall? by {
      if IsTruthy(o.primaryURL) {
        assert head == [SetPrimaryURLCall(o.primaryURL.value)] + StaticCalls(o);
      } else {
        assert head == StaticCalls(o);
      }
    }
    forall i | 0 <= i < p ensures !t[i].AddAssetCall? {
      assert t[i] == head[i];
    }
    forall i | p <= i < |t| ensures t[i] == AddAssetCall(o.baseURL, names[i - p], assets[names[i - p]]) {
      assert t[i] == a[i - p];
    }
  }

  /** `setPrimaryURL` is called exactly once, with the configured URL and
      before any entry is added, iff `opts.primaryURL` is truthy; an empty
      string is skipped. */
  lemma PrimaryURLSetOnceAndFirst(o: PluginOptions, names: seq<string>, assets: map<string, Bytes>)
    requires forall n <- names :: n in assets
    ensures var t := ProcessCalls(o, names, assets);
      forall i | 0 <= i < |t| :: t[i].SetPrimaryURLCall? <==> (i == 0 && IsTruthy(o.primaryURL))
    ensures var t := ProcessCalls(o, names, assets);
      IsTruthy(o.primaryURL) ==> t[0] == SetPrimaryURLCall(o.primaryURL.value)
  {
    ProcessCallsLayout(o, names, assets);
  }

  /** Static files are added once iff `opts.static` is set, right after the
      primary URL, under `opts.static.baseURL` when truthy and `opts.baseURL`
      otherwise; every static addition precedes every asset addition. */
  lemma StaticFilesBeforeAssets(o: PluginOptions, names: seq<string>, assets: map<string, Bytes>)
    requires forall n <- names :: n in assets
    ensures var t := ProcessCalls(o, names, assets);
      forall i | 0 <= i < |t| :: t[i].AddFilesRecursivelyCall? <==> (o.staticOpts.Val? && i == |PrimaryURLCalls(o)|)
    ensures var t := ProcessCalls(o, names, assets);
      o.staticOpts.Val? ==>
        t[|PrimaryURLCalls(o)|] == AddFilesRecursivelyCall(
          if IsTruthy(o.staticOpts.value.baseURL) then o.staticOpts.value.baseURL else o.baseURL,
          o.staticOpts.value.dir)
    ensures var t := ProcessCalls(o, names, assets);
      forall i, j | 0 <= i < |t| && 0 <= j < |t| && t[i].AddFilesRecursivelyCall? && t[j].AddAssetCall? :: i < j
  {
    ProcessCallsLayout(o, names, assets);
  }

  /** Each compilation asset is added exactly once, in iteration order, with
      its name as relative path, its own content and `opts.baseURL` as base;
      nothing before the asset additions is an asset addition. */
  lemma EachAssetAddedOnceInOrder(o: PluginOptions, names: seq<string>, assets: map<string, Bytes>)
    requires forall n <- names :: n in assets
    requires Distinct(names)
    ensures var t := ProcessCalls(o, names, assets);
      |names| <= |t| &&
      forall k | 0 <= k < |names| :: t[|t| - |names| + k] == AddAssetCall(o.baseURL, names[k], assets[names[k]])
    ensures var t := ProcessCalls(o, names, assets);
      forall i | 0 <= i < |t| - |names| :: !t[i].AddAssetCall?
    ensures var t := ProcessCalls(o, names, assets);
      forall i, j | 0 <= i < |t| && 0 <= j < |t| && t[i].AddAssetCall? && t[j].AddAssetCall?
        && t[i].relativePath == t[j].relativePath :: i == j
  {
    ProcessCallsLayout(o, names, assets);
    var t := ProcessCalls(o, names, assets);
    var p := |PrimaryURLCalls(o)| + |StaticCalls(o)|;
    forall i, j | 0 <= i < |t| && 0 <= j < |t| && t[i].AddAssetCall? && t[j].AddAssetCall?
      && t[i].relativePath == t[j].relativePath
      ensures i == j
    {
      assert names[i - p] == names[j - p];
    }
  }

  /** The bundle is never fed to itself: an output name that was not already
      an asset is never passed to `addAsset`, and every `addAsset` call
      carries content that was already in the compilation. */
  lemma OutputNotAmongAddedAssets(o: PluginOptions, names: seq<string>, assets: map<string, Bytes>, output: string)
    requires forall n <- names :: n in assets
    requires output !in names
    ensures var t := ProcessCalls(o, names, assets);
      forall i | 0 <= i < |t| && t[i].AddAssetCall? ::
        t[i].relativePath != output && t[i].relativePath in assets
        && t[i].content == assets[t[i].relativePath]
  {
    ProcessCallsLayout(o, names, assets);
  }

  // ---------------------------------------------------------------------------
  // Where the bundle is written

  /** The property key of `compilation.assets[opts.output]`: JavaScript turns
      an `undefined` key into the string "undefined". */
  function OutputKey(o: PluginOptions): string
  {
    if o.output.Val? then o.output.value else "undefined"
  }

  /** For options either validator accepts, the bundle is written under the
      configured output name; the key "undefined" arises only from an
      `output` that holds no value, which both validators reject. */
  lemma ValidOptionsWriteConfiguredOutput(o: PluginOptions)
    ensures IsValidNonIbSignPluginOptions(o) || IsValidIbSignPluginOptions(o) ==>
      o.output.Val? && OutputKey(o) == o.output.value
    ensures !o.output.Val? ==>
      OutputKey(o) == "undefined" && !IsValidNonIbSignPluginOptions(o) && !IsValidIbSignPluginOptions(o)
  {
  }

  /** The property order of an object after `obj[key] = v`: an existing key
      keeps its place, a new key goes last. */
  function SetKeyOrder(names: seq<string>, key: string): (r: seq<string>)
    ensures key in r
    ensures forall n :: n in r <==> n in names || n == key
    ensures |names| <= |r| <= |names| + 1 && r[..|names|] == names
    ensures |r| == |names| <==> key in names
    ensures Distinct(names) ==> Distinct(r)
  {
    if key in names then names else names + [key]
  }

  // ---------------------------------------------------------------------------
  // Objects

  /** The collaborators whose code is not part of this model:
      `createBundle` stands for `builder.createBundle()` given the builder's
      format version and the calls made on it; `maybeSignWebBundle` stands for
      the shared helper of that name, given the bundle and the options. */
  datatype Collaborators = Collaborators(
    createBundle: (Field<string>, seq<BuilderCall>) -> Bytes,
    maybeSignWebBundle: (Bytes, PluginOptions) -> Bytes)

  /** The names of `compilation.assets` are distinct. */
  ghost predicate Distinct(names: seq<string>)
  {
    forall i, j | 0 <= i < j < |names| :: names[i] != names[j]
  }

  /** The compilation's asset table: `assetNames` is the property order of
      `compilation.assets`, `assets` the bytes of each asset's source. */
  class Compilation {
    var assetNames: seq<string>
    var assets: map<string, Bytes>

    ghost predicate Valid()
      reads this
    {
      Distinct(assetNames) && forall n :: n in assets <==> n in assetNames
    }

    constructor(names: seq<string>, assets: map<string, Bytes>)
      requires Distinct(names) && forall n :: n in assets <==> n in names
      ensures Valid() && assetNames == names && this.assets == assets
    {
      assetNames := names;
      this.assets := assets;
    }

    /** `compilation.assets[key] = content`: only that entry changes. */
    method SetAsset(key: string, content: Bytes)
      requires Valid()
      modifies this
      ensures Valid()
      ensures assets == old(assets)[key := content]
      ensures assetNames == SetKeyOrder(old(assetNames), key)
    {
      assets := assets[key := content];
      assetNames := SetKeyOrder(assetNames, key);
    }
  }

  /** A bundle builder, known by its format version and the calls made on it. */
  class BundleBuilder {
    const formatVersion: Field<string>
    var calls: seq<BuilderCall>

    /** `new BundleBuilder(formatVersion)` */
    constructor(formatVersion: Field<string>)
      ensures this.formatVersion == formatVersion && calls == []
    {
      this.formatVersion := formatVersion;
      calls := [];
    }

    /** `builder.setPrimaryURL(url)` */
    method SetPrimaryURL(url: string)
      modifies this
      ensures calls == old(calls) + [SetPrimaryURLCall(url)]
    {
      calls := calls + [SetPrimaryURLCall(url)];
    }
  }

  /** `addFilesRecursively(builder, baseURL, dir, opts)` */
  method AddFilesRecursively(builder: BundleBuilder, baseURL: Field<string>, dir: Field<string>)
    modifies builder
    ensures builder.calls == old(builder.calls) + [AddFilesRecursivelyCall(baseURL, dir)]
  {
    builder.calls := builder.calls + [AddFilesRecursivelyCall(baseURL, dir)];
  }

  /** `addAsset(builder, baseURL, relativePath, content, opts)` */
  method AddAsset(builder: BundleBuilder, baseURL: Field<string>, relativePath: string, content: Bytes)
    modifies builder
    ensures builder.calls == old(builder.calls) + [AddAssetCall(baseURL, relativePath, content)]
  {
    builder.calls := builder.calls + [AddAssetCall(baseURL, relativePath, content)];
  }

  /** The `for … of Object.entries(compilation.assets)` loop of `process`:
      one `addAsset` per asset, in iteration order, under `baseURL`. */
  method AddCompilationAssets(builder: BundleBuilder, baseURL: Field<string>, names: seq<string>, assets: map<string, Bytes>)
    requires forall n <- names :: n in assets
    modifies builder
    ensures builder.calls == old(builder.calls) + AssetCalls(baseURL, names, assets)
  {
    var i := 0;
    while i < |names|
      invariant 0 <= i <= |names|
      invariant builder.calls == old(builder.calls) + AssetCalls(baseURL, names[..i], assets)
    {
      var name := names[i];
      AddAsset(builder, baseURL, name, assets[name]);
      assert names[..i + 1][..i] == names[..i];
      i := i + 1;
    }
    assert names[..i] == names;
  }

  class WebBundlePlugin {
    /** The merged options. The plugin never reassigns them. In JavaScript
        the nested `static` and `integrityBlockSign` objects stay shared
        with the caller; the model takes them as not changed afterwards. */
    const opts: PluginOptions

    /** Only the merge half of `constructor(opts)`: it does not validate.
        The source's constructor, which also validates and throws on
        rejection, is `New`; a plugin obtained here directly may hold options
        that `validateOptions` rejects, which the source cannot reach. */
    constructor(callerOpts: PluginOptions)
      ensures opts == MergeWithDefaults(callerOpts)
    {
      opts := MergeWithDefaults(callerOpts);
    }

    /** `new WebBundlePlugin(callerOpts)`: merge the defaults, then validate
        the merged options (not the caller's) with `validateOptions`, which
        throws on rejection. */
    static method New(callerOpts: PluginOptions, validateOptions: PluginOptions -> bool)
      returns (r: Result<WebBundlePlugin>)
      ensures r.Ok? <==> validateOptions(MergeWithDefaults(callerOpts))
      ensures r.Ok? ==> fresh(r.value) && r.value.opts == MergeWithDefaults(callerOpts)
      ensures r.Err? ==> r.error == InvalidConfiguration
    {
      var plugin := new WebBundlePlugin(callerOpts);
      if validateOptions(plugin.opts) {
        r := Ok(plugin);
      } else {
        r := Err(InvalidConfiguration);
      }
    }

    /** `process(compilation)`. The builder, local in the source, is returned
        so that the calls made on it can be stated. The builder gets the
        merged format version and the calls of `ProcessCalls`; afterwards
        `compilation.assets[opts.output]` holds the signed-or-not bundle and
        every other asset is unchanged. This is the run in which every
        collaborator returns; a throw, which ends the pass before the write,
        is not modelled. */
    method Process(compilation: Compilation, lib: Collaborators) returns (builder: BundleBuilder)
      requires compilation.Valid()
      modifies compilation
      ensures fresh(builder) && compilation.Valid()
      ensures builder.formatVersion == opts.formatVersion
      ensures builder.calls == ProcessCalls(opts, old(compilation.assetNames), old(compilation.assets))
      ensures compilation.assets ==
        old(compilation.assets)[OutputKey(opts) := lib.maybeSignWebBundle(lib.createBundle(builder.formatVersion, builder.calls), opts)]
      ensures forall n | n in old(compilation.assets) && n != OutputKey(opts) ::
        n in compilation.assets && compilation.assets[n] == old(compilation.assets)[n]
      ensures compilation.assetNames == SetKeyOrder(old(compilation.assetNames), OutputKey(opts))
    {
      builder := new BundleBuilder(opts.formatVersion);
      if IsTruthy(opts.primaryURL) {
        builder.SetPrimaryURL(opts.primaryURL.value);
      }
      assert builder.calls == PrimaryURLCalls(opts);
      if opts.staticOpts.Val? {
        AddFilesRecursively(builder, StaticBaseURL(opts), opts.staticOpts.value.dir);
      }
      assert builder.calls == PrimaryURLCalls(opts) + StaticCalls(opts);
      var names, contents := compilation.assetNames, compilation.assets;
      assert forall n <- names :: n in contents;
      AddCompilationAssets(builder, opts.baseURL, names, contents);
      assert builder.calls == ProcessCalls(opts, names, contents);
      var webBundle := lib.maybeSignWebBundle(lib.createBundle(builder.formatVersion, builder.calls), opts);
      compilation.SetAsset(OutputKey(opts), webBundle);
    }
  }
}
