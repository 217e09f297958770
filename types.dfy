/** Model of packages/shared/types.ts: the shape of the plugin options object
    and the three runtime predicates that pick and validate its variant.

    A JavaScript options object is modelled as a record whose every property
    is a `Field`: missing from the object, present with the value `undefined`,
    or present with a value. The source tests presence in two different ways
    (`key in obj` and `obj.key !== undefined`); the three states keep them
    apart. */
module SharedTypes {

  /** One property of a JavaScript object. */
  datatype Field<T> = Absent | PresentUndefined | Val(value: T)

  /** `key in obj`: the property exists, whatever its value. */
  predicate IsIn<T>(f: Field<T>)
  {
    !f.Absent?
  }

  /** `obj.key !== undefined`: the property exists and holds a value. */
  predicate IsDefined<T>(f: Field<T>)
  {
    f.Val?
  }

  /** JavaScript truthiness of a property that holds a string when defined:
      `undefined` and the empty string are falsy. */
  predicate IsTruthy(f: Field<string>)
  {
    f.Val? && f.value != ""
  }

  /** A `crypto.KeyObject`, known here only by an opaque handle. */
  datatype KeyObject = KeyObject(handle: nat)

  /** `IbSignOptionsWithKey`: the `integrityBlockSign` sub-object. */
  datatype IbSignOptions = IbSignOptions(key: Field<KeyObject>)

  /** The `static` sub-object: a directory and an optional base URL for it.
      No validator reads `dir`, so it may be missing or `undefined` too. */
  datatype StaticOptions = StaticOptions(dir: Field<string>, baseURL: Field<string>)

  /** `headerOverride`: a callback (known by an opaque handle) or a header table. */
  datatype HeaderOverride =
    | HeaderCallback(handle: nat)
    | HeaderTable(headers: map<string, string>)

  /** The union of every property that `PluginOptions` and `ValidPluginOptions`
      may carry. The property `static` is called `staticOpts` here, since
      `static` is a Dafny keyword. */
  datatype PluginOptions = PluginOptions(
    staticOpts: Field<StaticOptions>,
    baseURL: Field<string>,
    output: Field<string>,
    formatVersion: Field<string>,
    headerOverride: Field<HeaderOverride>,
    primaryURL: Field<string>,
    integrityBlockSign: Field<IbSignOptions>)

  /** `IB_SIGN_UNWANTED_PROPS`: properties a signed configuration must not carry. */
  const IbSignUnwantedProps: seq<string> := ["primaryURL"]

  /** `NON_IB_SIGN_UNWANTED_PROPS`: properties an unsigned configuration must not carry. */
  const NonIbSignUnwantedProps: seq<string> := ["integrityBlockSign"]

  /** `name in o` for a property name given as a string. Only the object's
      own properties are known; any other name is not in it. */
  predicate HasKey(o: PluginOptions, name: string)
  {
    if name == "static" then IsIn(o.staticOpts)
    else if name == "baseURL" then IsIn(o.baseURL)
    else if name == "output" then IsIn(o.output)
    else if name == "formatVersion" then IsIn(o.formatVersion)
    else if name == "headerOverride" then IsIn(o.headerOverride)
    else if name == "primaryURL" then IsIn(o.primaryURL)
    else if name == "integrityBlockSign" then IsIn(o.integrityBlockSign)
    else false
  }

  /** `props.every((p) => p in o)`. Like `Array.prototype.every`, it holds of
      the empty list. */
  predicate EveryIn(props: seq<string>, o: PluginOptions)
  {
    |props| == 0 || (HasKey(o, props[0]) && EveryIn(props[1..], o))
  }

  /** Property `name` has the same state and value in `a` and in `b`. */
  predicate SameProp(a: PluginOptions, b: PluginOptions, name: string)
  {
    if name == "static" then a.staticOpts == b.staticOpts
    else if name == "baseURL" then a.baseURL == b.baseURL
    else if name == "output" then a.output == b.output
    else if name == "formatVersion" then a.formatVersion == b.formatVersion
    else if name == "headerOverride" then a.headerOverride == b.headerOverride
    else if name == "primaryURL" then a.primaryURL == b.primaryURL
    else if name == "integrityBlockSign" then a.integrityBlockSign == b.integrityBlockSign
    else true
  }

  /** `isIbSignPluginOptions`: the signed variant is chosen when
      `integrityBlockSign` holds a value, that is, when the key is present
      (`in`) and its value is not `undefined`. */
  function IsIbSignPluginOptions(o: PluginOptions): (r: bool)
    ensures r <==> HasKey(o, "integrityBlockSign") && o.integrityBlockSign != PresentUndefined
  {
    IsDefined(o.integrityBlockSign)
  }

  /** `isValidNonIbSignPluginOptions`. Rejected as soon as the key
      `integrityBlockSign` is present, even with value `undefined`; otherwise
      `baseURL`, `output` and `formatVersion` must hold values, and
      `primaryURL` is optional. */
  function IsValidNonIbSignPluginOptions(o: PluginOptions): (r: bool)
    ensures r <==>
      && !HasKey(o, "integrityBlockSign")
      && IsDefined(o.baseURL) && IsDefined(o.output) && IsDefined(o.formatVersion)
  {
    UnwantedListsAreSingleKeyTests(o);
    if EveryIn(NonIbSignUnwantedProps, o) then false
    else IsDefined(o.baseURL) && IsDefined(o.output) && IsDefined(o.formatVersion)
  }

  /** `isValidIbSignPluginOptions`. Rejected as soon as the key `primaryURL`
      is present, whatever its value; otherwise `integrityBlockSign`, its
      `key`, `baseURL`, `output` and `formatVersion` must all hold values. */
  function IsValidIbSignPluginOptions(o: PluginOptions): (r: bool)
    ensures r <==>
      && !HasKey(o, "primaryURL")
      && IsDefined(o.integrityBlockSign) && IsDefined(o.integrityBlockSign.value.key)
      && IsDefined(o.baseURL) && IsDefined(o.output) && IsDefined(o.formatVersion)
  {
    UnwantedListsAreSingleKeyTests(o);
    if EveryIn(IbSignUnwantedProps, o) then false
    else
      && IsDefined(o.integrityBlockSign)
      && IsDefined(o.baseURL)
      && IsDefined(o.output)
      && IsDefined(o.formatVersion)
      && IsDefined(o.integrityBlockSign.value.key)
  }

  // ---------------------------------------------------------------------------
  // The `every` test over a constant list of unwanted properties

  /** The unwanted-property test rejects only when every listed property is
      present. */
  lemma {:induction false} EveryInMeansAllPresent(props: seq<string>, o: PluginOptions)
    ensures EveryIn(props, o) <==> forall i | 0 <= i < |props| :: HasKey(o, props[i])
  {
    if |props| > 0 {
      EveryInMeansAllPresent(props[1..], o);
      assert forall i | 1 <= i < |props| :: props[i] == props[1..][i - 1];
    }
  }

  /** With the current one-element lists, the `every` test is a single
      key-membership test. */
  lemma {:induction false} UnwantedListsAreSingleKeyTests(o: PluginOptions)
    ensures EveryIn(IbSignUnwantedProps, o) <==> HasKey(o, "primaryURL")
    ensures EveryIn(NonIbSignUnwantedProps, o) <==> HasKey(o, "integrityBlockSign")
  {
    EveryInMeansAllPresent(IbSignUnwantedProps, o);
    EveryInMeansAllPresent(NonIbSignUnwantedProps, o);
  }

  // ---------------------------------------------------------------------------
  // Properties of the three predicates

  /** `integrityBlockSign: undefined` selects neither valid variant: the
      object is not a signed one, and the unsigned validator rejects it
      because the key is present. */
  lemma UndefinedSigningKeyMatchesNoVariant(o: PluginOptions)
    requires o.integrityBlockSign == PresentUndefined
    ensures !IsIbSignPluginOptions(o)
    ensures !IsValidNonIbSignPluginOptions(o)
    ensures !IsValidIbSignPluginOptions(o)
  {
  }

  /** The unsigned validator rejects any object that has the key
      `integrityBlockSign`, even with value `undefined`. */
  lemma NonIbSignRejectsSigningKey(o: PluginOptions)
    requires HasKey(o, "integrityBlockSign")
    ensures !IsValidNonIbSignPluginOptions(o)
  {
  }

  /** The signed validator rejects any object that has the key `primaryURL`,
      whatever its value. */
  lemma IbSignRejectsPrimaryURL(o: PluginOptions)
    requires HasKey(o, "primaryURL")
    ensures !IsValidIbSignPluginOptions(o)
  {
  }

  /** No options object is valid as both variants. */
  lemma ValidVariantsAreExclusive(o: PluginOptions)
    ensures !(IsValidNonIbSignPluginOptions(o) && IsValidIbSignPluginOptions(o))
  {
  }

  /** A valid signed configuration is a signed configuration, and a valid
      unsigned one is not. */
  lemma ValidVariantAgreesWithDiscriminant(o: PluginOptions)
    ensures IsValidIbSignPluginOptions(o) ==> IsIbSignPluginOptions(o)
    ensures IsValidNonIbSignPluginOptions(o) ==> !IsIbSignPluginOptions(o)
  {
  }

  /** A configuration with both a primary URL and a signing key fails both
      validators. */
  lemma PrimaryURLWithSigningKeyRejected(o: PluginOptions)
    requires HasKey(o, "primaryURL") && HasKey(o, "integrityBlockSign")
    ensures !IsValidNonIbSignPluginOptions(o) && !IsValidIbSignPluginOptions(o)
  {
  }

  /** Each missing required field causes rejection by both validators, and a
      missing key makes the signed validator reject. Only `undefined`
      matters: the empty string counts as a value. */
  lemma MissingRequiredFieldRejected(o: PluginOptions)
    requires !IsDefined(o.baseURL) || !IsDefined(o.output) || !IsDefined(o.formatVersion)
             || (o.integrityBlockSign.Val? && !IsDefined(o.integrityBlockSign.value.key))
    ensures !IsValidIbSignPluginOptions(o)
    ensures !IsDefined(o.baseURL) || !IsDefined(o.output) || !IsDefined(o.formatVersion)
            ==> !IsValidNonIbSignPluginOptions(o)
  {
  }
}
