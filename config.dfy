/** The scanning context (src/index.js, `getContext`): the caller's options
    laid over the defaults, key by key, for the `collect` flags and the
    `rules`, with the page passed through. */
module Config {
  import opened Values

  datatype Result<T> = Ok(value: T) | Err(message: string)

  /** The message of the error thrown for a missing page. */
  const PageMissing: string := "page is missing"

  /** Reading `stealth` off a `null` options object throws a `TypeError`. */
  const OptionsNull: string := "TypeError"

  /** The `collect` defaults: every section off except the style source,
      and no response bodies. */
  const DefaultCollect: Record := map[
    "frames" := Bool(false),
    "scripts" := Bool(false),
    "scriptSource" := Bool(false),
    "scriptDOMEvents" := Bool(false),
    "scriptCoverage" := Bool(false),
    "styles" := Bool(false),
    "styleSource" := Bool(true),
    "styleCoverage" := Bool(false),
    "serviceWorker" := Bool(false),
    "requests" := Bool(false),
    "responses" := Bool(false),
    "bodyResponse" := Arr([]),
    "dataURI" := Bool(false),
    "websocket" := Bool(false),
    "cookies" := Bool(false),
    "logs" := Bool(false),
    "console" := Bool(false),
    "errors" := Bool(false),
    "storage" := Bool(false),
    "resources" := Bool(false),
    "JSMetrics" := Bool(false),
    "metadata" := Bool(false)]

  /** The `rules` defaults; `stealth` follows `Boolean(opts.stealth)`. */
  function DefaultRules(stealth: Value): Record
  {
    map[
      "stealth" := Bool(Truthy(stealth)),
      "disableServices" := Bool(false),
      "blockedUrls" := Arr([]),
      "adBlocking" := Bool(false),
      "disableCSP" := Bool(false),
      "logsThreshold" := Num(50.0)]
  }

  /** Apart from `stealth`, every default rule is off: no services
      disabled, no URL blocked, no ad blocking, CSP kept, and a logs
      threshold of 50. */
  lemma RulesDefaults(stealth: Value)
    ensures var r := DefaultRules(stealth);
            && r.Keys == {"stealth", "disableServices", "blockedUrls", "adBlocking", "disableCSP", "logsThreshold"}
            && r["stealth"].Bool? && (Truthy(r["stealth"]) <==> Truthy(stealth))
            && (forall k :: k in r && r[k].Bool? && k != "stealth" ==> !Truthy(r[k]))
            && r["blockedUrls"] == Arr([]) && r["logsThreshold"] == Num(50.0)
  {
  }

  /** The context `getContext` returns. */
  datatype Context = Context(page: Value, log: Value, rules: Record, collect: Record)

  /** `getContext(page, opts)`; `opts` defaults to `{}`, so an absent one is
      passed as `undefined` and read as an empty object. The page is checked
      first; a `null` options object then fails on its first property read. */
  function GetContext(page: Value, opts: Value): (r: Result<Context>)
    ensures !Truthy(page) <==> r == Err(PageMissing)
    ensures Truthy(page) && opts.Null? <==> r == Err(OptionsNull)
    ensures r.Ok? <==> Truthy(page) && !opts.Null?
    ensures r.Ok? ==> r.value.page == page
  {
    if !Truthy(page) then Err(PageMissing)
    else if opts.Null? then Err(OptionsNull)
    else
      var options := if opts.Undefined? then Object(map[]) else opts;
      Ok(Context(
        page,
        Or(Prop(options, "log"), Bool(false)),
        Assign(DefaultRules(Prop(options, "stealth")), Spread(Or(Prop(options, "rules"), Object(map[])))),
        Assign(DefaultCollect, Spread(Or(Prop(options, "collect"), Object(map[]))))))
  }

  /** Every `collect` key the caller does not set keeps its default. */
  lemma CollectDefaults(page: Value, collect: Record, k: string)
    requires Truthy(page) && k in DefaultCollect && k !in collect
    ensures var r := GetContext(page, Object(map["collect" := Object(collect)]));
            r.Ok? && r.value.collect[k] == DefaultCollect[k]
  {
  }

  /** Only the style source is collected by default: every other flag is
      `false`, and the list of response bodies to keep is empty. With
      `CollectWithoutOptions` this is what a scan without options collects. */
  lemma CollectOnlyStyleSource(k: string)
    requires k in DefaultCollect
    ensures Truthy(DefaultCollect[k]) <==> k == "styleSource" || k == "bodyResponse"
    ensures k == "bodyResponse" <==> DefaultCollect[k] == Arr([])
  {
  }

  /** `collect` is the defaults overridden key by key by the caller's
      object: its keys win, the other defaults stay, and nothing else is
      added. */
  lemma CollectOverrides(page: Value, opts: Record)
    requires Truthy(page) && "collect" in opts && opts["collect"].Object?
    ensures var r := GetContext(page, Object(opts));
            && r.Ok?
            && r.value.collect.Keys == DefaultCollect.Keys + opts["collect"].fields.Keys
            && (forall k :: k in opts["collect"].fields ==> r.value.collect[k] == opts["collect"].fields[k])
            && (forall k :: k in DefaultCollect && k !in opts["collect"].fields ==> r.value.collect[k] == DefaultCollect[k])
  {
  }

  /** Without a `collect` object every flag is its default. */
  lemma CollectWithoutOptions(page: Value)
    requires Truthy(page)
    ensures var r := GetContext(page, Undefined);
            r.Ok? && r.value.collect == DefaultCollect
  {
    assert Spread(Object(map[])) == map[];
  }

  /** `rules.stealth` is `Boolean(opts.stealth)` unless `opts.rules` sets
      it; the caller's rules win key by key. */
  lemma RulesStealth(page: Value, opts: Record)
    requires Truthy(page)
    ensures var r := GetContext(page, Object(opts));
            var given := Spread(Or(Get(opts, "rules"), Object(map[])));
            && r.Ok?
            && r.value.rules.Keys == DefaultRules(Get(opts, "stealth")).Keys + given.Keys
            && ("stealth" !in given ==> r.value.rules["stealth"] == Bool(Truthy(Get(opts, "stealth"))))
            && (forall k :: k in given ==> r.value.rules[k] == given[k])
  {
  }

  /** `log` is the caller's when truthy, `false` otherwise. */
  lemma LogDefault(page: Value, opts: Record)
    requires Truthy(page)
    ensures var r := GetContext(page, Object(opts));
            && r.Ok?
            && (Truthy(Get(opts, "log")) ==> r.value.log == opts["log"])
            && (!Truthy(Get(opts, "log")) ==> r.value.log == Bool(false))
  {
  }
}
