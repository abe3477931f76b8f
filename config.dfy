/** Construction-time configuration of the adapter: the caller's options, their merge with the
    defaults, the key-file check, the client handle built from them and the filename-generator contract. */
module Config {
  import opened Outcomes
  import opened JsValues

  /** What the filename generator sees of the file record it is asked to name. */
  datatype FileView = FileView(path: Val, filename: Val, originalname: Val, bucket: Val)

  /** What the generator calls back with: `(err)` or `(null, filename)`. */
  datatype GenReply = Named(filename: Val) | GenFailed(error: Fault)

  /** A filename generator `generateFilename(file, attempt, callback)`. The last argument is the
      randomness the call draws (the default generator picks random names); a generator that is not
      random ignores it. */
  type Generator = (FileView, nat, nat) -> GenReply

  /** `options.cloudStorage`: each field is None when the key is absent. `Object.assign` copies a key
      that is present even when its value is `undefined`, so `Some(Undefined)` differs from `None`.
      `uploadOptions` is None when absent, `undefined` or `null` (all three copy nothing later). */
  datatype OptionsOverride = OptionsOverride(
    keyFilename: Option<Val>,
    bucket: Option<Val>,
    path: Option<Val>,
    uniqueFilename: Option<Val>,
    uploadOptions: Option<map<string, Val>>,
    generateFilename: Option<Generator>)

  /** An absent `options.cloudStorage`: `Object.assign` skips an undefined source. */
  const NoOverride := OptionsOverride(None, None, None, None, None, None)

  /** The options object handed to the constructor: the top-level `keyFilename` (Undefined when
      absent) and the nested `cloudStorage` object. */
  datatype HostOptions = HostOptions(keyFilename: Val, cloudStorage: OptionsOverride)

  /** The merged `this.options`, without the generator (kept in its own field of the adapter).
      `uploadOptions` is the map `Object.assign` reads when building the upload call. */
  datatype Options = Options(
    keyFilename: Val,
    bucket: Val,
    path: Val,
    uniqueFilename: Val,
    uploadOptions: map<string, Val>)

  /** `DEFAULT_OPTIONS`: the key file from the environment, unique names on; no bucket or path. */
  function Defaults(envKeyFilename: Val): Options {
    Options(envKeyFilename, Undefined, Undefined, Bool(true), map[])
  }

  /** `Object.assign({}, DEFAULT_OPTIONS, options.cloudStorage)`: every key the override carries wins. */
  function Merge(envKeyFilename: Val, cs: OptionsOverride): (o: Options)
    ensures cs == NoOverride ==> o == Defaults(envKeyFilename)
    // a key the caller sets wins
    ensures cs.keyFilename.Some? ==> o.keyFilename == cs.keyFilename.value
    ensures cs.bucket.Some? ==> o.bucket == cs.bucket.value
    ensures cs.path.Some? ==> o.path == cs.path.value
    ensures cs.uniqueFilename.Some? ==> o.uniqueFilename == cs.uniqueFilename.value
    ensures cs.uploadOptions.Some? ==> o.uploadOptions == cs.uploadOptions.value
    // a key the caller leaves out keeps its default
    ensures cs.keyFilename.None? ==> o.keyFilename == envKeyFilename
    ensures cs.bucket.None? ==> o.bucket == Undefined
    ensures cs.path.None? ==> o.path == Undefined
    ensures cs.uniqueFilename.None? ==> o.uniqueFilename == Bool(true)
    ensures cs.uploadOptions.None? ==> o.uploadOptions == map[]
  {
    var d := Defaults(envKeyFilename);
    Options(
      cs.keyFilename.GetOr(d.keyFilename),
      cs.bucket.GetOr(d.bucket),
      cs.path.GetOr(d.path),
      cs.uniqueFilename.GetOr(d.uniqueFilename),
      cs.uploadOptions.GetOr(d.uploadOptions))
  }

  /** The merged generator: the caller's one, else `randomFilename`. `ensureCallback` only adapts
      the calling convention, so it is the identity here. */
  function MergeGenerator(cs: OptionsOverride, randomFilename: Generator): (g: Generator)
    ensures cs.generateFilename.Some? ==> g == cs.generateFilename.value
    ensures cs.generateFilename.None? ==> g == randomFilename
  {
    cs.generateFilename.GetOr(randomFilename)
  }

  /** Why construction throws. */
  datatype ConstructionError =
    | ConfigurationError  // 'Configuration error, incorrect keyfile'
    | InvalidArgType      // path.isAbsolute rejects a key file that is not a string

  /** The check `options.keyFilename != null && !pathlib.isAbsolute(options.keyFilename)`. */
  function KeyfileCheck(keyFilename: Val): (e: Option<ConstructionError>)
    ensures e.None? <==> IsNullish(keyFilename) || (keyFilename.Str? && IsAbsolute(keyFilename.s))
    ensures e == Some(ConfigurationError) <==> keyFilename.Str? && !IsAbsolute(keyFilename.s)
  {
    match keyFilename
    case Undefined => None
    case Null => None
    case Bool(_) => Some(InvalidArgType)
    case Str(p) => if IsAbsolute(p) then None else Some(ConfigurationError)
  }

  /** What construction yields: the merged options, or the error the constructor throws. */
  function Construct(host: HostOptions, envKeyFilename: Val): (r: Result<Options, ConstructionError>)
    ensures r.Err? <==> KeyfileCheck(host.keyFilename).Some?
    ensures r.Err? ==> Some(r.error) == KeyfileCheck(host.keyFilename)
    ensures r.Ok? ==> r.value == Merge(envKeyFilename, host.cloudStorage)
  {
    var merged := Merge(envKeyFilename, host.cloudStorage);
    match KeyfileCheck(host.keyFilename)
    case Some(e) => Err(e)
    case None => Ok(merged)
  }

  /** Construction fails exactly when the TOP-LEVEL key file is set and is not an absolute path
      (a non-string one fails inside path.isAbsolute); otherwise the options are the merge. */
  lemma ConstructRule(host: HostOptions, envKeyFilename: Val)
    ensures Construct(host, envKeyFilename).Err? <==>
              !IsNullish(host.keyFilename) && !(host.keyFilename.Str? && IsAbsolute(host.keyFilename.s))
    ensures Construct(host, envKeyFilename).Ok? ==>
              Construct(host, envKeyFilename).value == Merge(envKeyFilename, host.cloudStorage)
  {
  }

  /** The key file the client is given is never checked: a relative `cloudStorage.keyFilename`
      (or a relative one from the environment) constructs, while the checked top-level key is not
      the one handed to the client. */
  lemma MergedKeyfileUnchecked()
    ensures var cs := NoOverride.(keyFilename := Some(Str("keys/service.json")));
            Construct(HostOptions(Undefined, cs), Undefined) == Ok(Merge(Undefined, cs))
            && Merge(Undefined, cs).keyFilename == Str("keys/service.json")
    ensures Construct(HostOptions(Undefined, NoOverride), Str("keys/env.json")).Ok?
    ensures var o := Construct(HostOptions(Str("/etc/key.json"), NoOverride), Undefined);
            o.Ok? && o.value.keyFilename == Undefined
  {
  }

  /** A handle from `storage(config)`. The model identifies a handle with the settings it was built
      from; what those settings do (authentication, project) is the SDK's business. */
  datatype Client = Client(config: Options)
}
