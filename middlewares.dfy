/** The three downloader middlewares: a random User-Agent, a random set of browser
    headers, and the rewrite of every request through the ScrapeOps proxy with the
    restoration of the original URL on the response. */
module Middlewares {
  import opened Wrappers
  import opened Text
  import opened Http
  import Json
  import Randomness

  // ================================================================ settings

  /** The settings the middlewares read; None where `settings.get` finds nothing. */
  datatype Settings = Settings(
    apiKey: Option<string>,
    numResults: Option<int>,
    fakeUserAgentEndpoint: Option<string>,
    fakeUserAgentEnabled: Option<bool>,
    fakeHeadersEndpoint: Option<string>,
    fakeHeadersEnabled: Option<bool>,
    proxyEndpoint: Option<string>,
    proxyEnabled: Option<bool>)

  /** `settings.get(name, default)`. */
  function GetOr<T>(o: Option<T>, default: T): T {
    if o.Some? then o.value else default
  }

  const DefaultUserAgentEndpoint := "http://headers.scrapeops.io/v1/user-agents?"
  const DefaultHeadersEndpoint := "http://headers.scrapeops.io/v1/browser-headers?"
  const DefaultProxyEndpoint := "https://proxy.scrapeops.io/v1/?"

  const UserAgentHeader := "User-Agent"
  const OriginalUrlHeader := "X-Original-URL"

  /** The disabling condition written in all three enable checks: no API key, an empty
      one, or the feature switched off. */
  predicate KeyMissingOrInactive(apiKey: Option<string>, active: bool) {
    apiKey == None || apiKey == Some("") || active == false
  }

  /** The fake-header enable checks as written: the disabling assignment is followed
      unconditionally by `active = True`, so the flag ends up on whatever the inputs. */
  function CheckedActiveAsWritten(apiKey: Option<string>, active: bool): (r: bool)
    ensures r
  {
    var afterGuard := if KeyMissingOrInactive(apiKey, active) then false else active;
    afterGuard || true
  }

  /** The enable check as evidently intended: on exactly when there is a non-empty key and
      the feature is switched on. */
  function CheckedActive(apiKey: Option<string>, active: bool): (r: bool)
    ensures r <==> apiKey.Some? && |apiKey.value| > 0 && active
  {
    if KeyMissingOrInactive(apiKey, active) then false else active
  }

  lemma EnableCheckIgnoresSettings()
    ensures CheckedActiveAsWritten(None, false) && !CheckedActive(None, false)
    ensures CheckedActiveAsWritten(Some(""), true) && !CheckedActive(Some(""), true)
  {
  }

  // ================================================================ header sets

  /** A set of browser headers as the header service returns it, in dict order. */
  type HeaderSet = seq<(string, string)>

  function HeaderNames(hs: HeaderSet): set<string> {
    set i | 0 <= i < |hs| :: hs[i].0
  }

  /** `for key, val in header_set.items(): headers[key] = val`. */
  function Overlay(headers: Headers, hs: HeaderSet): Headers
    decreases |hs|
  {
    if hs == [] then headers
    else Overlay(headers, hs[..|hs| - 1])[hs[|hs| - 1].0 := hs[|hs| - 1].1]
  }

  lemma HeaderNamesSnoc(hs: HeaderSet)
    requires hs != []
    ensures HeaderNames(hs) == HeaderNames(hs[..|hs| - 1]) + {hs[|hs| - 1].0}
  {
    var init := hs[..|hs| - 1];
    forall k | k in HeaderNames(hs) ensures k in HeaderNames(init) + {hs[|hs| - 1].0} {
      var i :| 0 <= i < |hs| && hs[i].0 == k;
      if i < |hs| - 1 { assert init[i] == hs[i]; }
    }
    forall k | k in HeaderNames(init) ensures k in HeaderNames(hs) {
      var i :| 0 <= i < |init| && init[i].0 == k;
      assert hs[i] == init[i];
    }
  }

  /** Writing a header set adds its names, gives each name the value of its last entry,
      and leaves every other header as it was. */
  lemma {:induction false} OverlayEffect(headers: Headers, hs: HeaderSet)
    ensures Overlay(headers, hs).Keys == headers.Keys + HeaderNames(hs)
    ensures forall k :: k in headers && k !in HeaderNames(hs) ==> Overlay(headers, hs)[k] == headers[k]
    ensures forall i :: 0 <= i < |hs| && (forall j :: i < j < |hs| ==> hs[j].0 != hs[i].0) ==>
              Overlay(headers, hs)[hs[i].0] == hs[i].1
  {
    OverlayKeys(headers, hs);
    OverlayLastWins(headers, hs);
  }

  lemma {:induction false} OverlayKeys(headers: Headers, hs: HeaderSet)
    ensures Overlay(headers, hs).Keys == headers.Keys + HeaderNames(hs)
    ensures forall k :: k in headers && k !in HeaderNames(hs) ==> Overlay(headers, hs)[k] == headers[k]
    decreases |hs|
  {
    if hs != [] {
      OverlayKeys(headers, hs[..|hs| - 1]);
      HeaderNamesSnoc(hs);
    }
  }

  lemma {:induction false} OverlayLastWins(headers: Headers, hs: HeaderSet)
    ensures forall i :: 0 <= i < |hs| && (forall j :: i < j < |hs| ==> hs[j].0 != hs[i].0) ==>
              hs[i].0 in Overlay(headers, hs) && Overlay(headers, hs)[hs[i].0] == hs[i].1
    decreases |hs|
  {
    if hs != [] {
      var init := hs[..|hs| - 1];
      OverlayLastWins(headers, init);
      OverlayKeys(headers, init);
      forall i | 0 <= i < |hs| - 1 && (forall j :: i < j < |hs| ==> hs[j].0 != hs[i].0)
        ensures hs[i].0 in Overlay(headers, hs) && Overlay(headers, hs)[hs[i].0] == hs[i].1
      {
        assert init[i] == hs[i];
        forall j | i < j < |init| ensures init[j].0 != init[i].0 {
          assert init[j] == hs[j];
        }
      }
    }
  }

  /** The User-Agent middleware writes one header and no other. */
  lemma UserAgentOnly(headers: Headers, ua: string)
    ensures Overlay(headers, [(UserAgentHeader, ua)]) == headers[UserAgentHeader := ua]
  {
  }

  // ================================================================ flag coercion

  /** `_param_is_true`: read `meta.get(key, False)`; a string whose lower-case form is
      'true' becomes True; a boolean is the answer; anything else counts as False. */
  function ParamIsTrue(meta: Meta, key: string): bool {
    var value := if key in meta then meta[key] else Bool(false);
    var coerced := if value.Str? && Lower(value.s) == "true" then Bool(true) else value;
    if coerced.Bool? then coerced.b else false
  }

  /** A flag is true exactly when it is present and is the boolean true or "true" in
      some letter case. */
  lemma ParamIsTrueIff(meta: Meta, key: string)
    ensures ParamIsTrue(meta, key) <==>
      key in meta &&
      (meta[key] == Bool(true) ||
       (meta[key].Str? && |meta[key].s| == 4
        && (meta[key].s[0] == 't' || meta[key].s[0] == 'T')
        && (meta[key].s[1] == 'r' || meta[key].s[1] == 'R')
        && (meta[key].s[2] == 'u' || meta[key].s[2] == 'U')
        && (meta[key].s[3] == 'e' || meta[key].s[3] == 'E')))
  {
    if key in meta && meta[key].Str? {
      LowerIsTrue(meta[key].s);
    }
  }

  /** Strings that are not the word "true" never switch a flag on, whatever their case. */
  lemma ParamIsFalseForOtherStrings(meta: Meta, key: string)
    requires key in meta && meta[key].Str? && |meta[key].s| != 4
    ensures !ParamIsTrue(meta, key)
  {
    ParamIsTrueIff(meta, key);
  }

  // ================================================================ the JavaScript scenario

  datatype Instruction =
    | Wait(ms: int)
    | ScrollY(px: int)
    | WaitFor(selector: string)
    | Click(selector: string)
    | ScrollX(px: int)
    | Evaluate(script: string)

  const LinkSelector := "li> a"
  const FinalScript := "console.log('Interaction terminée')"

  /** The nine steps of `_js_scenario` with every drawn value in its range. */
  predicate IsScenario(sc: seq<Instruction>) {
    && |sc| == 9
    && sc[0].Wait? && 10000 <= sc[0].ms <= 20000
    && sc[1].ScrollY? && 1000 <= sc[1].px <= 4000
    && sc[2] == WaitFor(LinkSelector)
    && sc[3].Wait? && 100 <= sc[3].ms <= 200
    && sc[4] == Click(LinkSelector)
    && sc[5].Wait? && 10 <= sc[5].ms <= 100
    && sc[6].ScrollX? && 1000 <= sc[6].px <= 4000
    && sc[7].Wait? && 10 <= sc[7].ms <= 100
    && sc[8] == Evaluate(FinalScript)
  }

  function InstructionJson(step: Instruction): string {
    match step
    case Wait(ms) => Json.Member("wait", Json.Int(ms))
    case ScrollY(px) => Json.Member("scroll_y", Json.Int(px))
    case WaitFor(selector) => Json.Member("wait_for", Json.String(selector))
    case Click(selector) => Json.Member("click", Json.String(selector))
    case ScrollX(px) => Json.Member("scroll_x", Json.Int(px))
    case Evaluate(script) => Json.Member("evaluate", Json.String(script))
  }

  function InstructionsJson(sc: seq<Instruction>): seq<string> {
    if sc == [] then [] else [InstructionJson(sc[0])] + InstructionsJson(sc[1..])
  }

  /** `dumps({"instructions": [...]})`. */
  function ScenarioJson(sc: seq<Instruction>): string {
    Json.Member("instructions", Json.List(InstructionsJson(sc)))
  }

  /** `json` is what `_js_scenario` can return: some scenario within the ranges, serialised. */
  ghost predicate IsScenarioJson(json: string) {
    exists sc :: IsScenario(sc) && json == ScenarioJson(sc)
  }

  /** Each instruction serialises to printable ASCII, one object per instruction. */
  lemma {:induction false} InstructionsPrintable(sc: seq<Instruction>)
    ensures |InstructionsJson(sc)| == |sc|
    ensures forall i :: 0 <= i < |sc| ==> Json.PrintableAscii(InstructionsJson(sc)[i])
  {
    if sc != [] {
      InstructionsPrintable(sc[1..]);
      match sc[0]
      case Wait(ms) => Json.IntPrintable(ms); Json.MemberPrintable("wait", Json.Int(ms));
      case ScrollY(px) => Json.IntPrintable(px); Json.MemberPrintable("scroll_y", Json.Int(px));
      case WaitFor(selector) => Json.StringPrintable(selector); Json.MemberPrintable("wait_for", Json.String(selector));
      case Click(selector) => Json.StringPrintable(selector); Json.MemberPrintable("click", Json.String(selector));
      case ScrollX(px) => Json.IntPrintable(px); Json.MemberPrintable("scroll_x", Json.Int(px));
      case Evaluate(script) => Json.StringPrintable(script); Json.MemberPrintable("evaluate", Json.String(script));
    }
  }

  /** The scenario `_js_scenario` sends is printable ASCII whatever its drawn values: `dumps`
      escapes the accented letter of the final script, so the `js_scenario` query value
      holds no character outside ASCII. */
  lemma ScenarioJsonPrintable(json: string)
    requires IsScenarioJson(json)
    ensures Json.PrintableAscii(json)
  {
    var sc :| IsScenario(sc) && json == ScenarioJson(sc);
    InstructionsPrintable(sc);
    Json.ListPrintable(InstructionsJson(sc));
    Json.MemberPrintable("instructions", Json.List(InstructionsJson(sc)));
  }

  const SlowestScenario := [
    Wait(20000), ScrollY(4000), WaitFor(LinkSelector), Wait(200), Click(LinkSelector),
    Wait(100), ScrollX(4000), Wait(100), Evaluate(FinalScript)
  ]

  lemma ScenarioJsonExists()
    ensures exists json :: IsScenarioJson(json)
  {
    assert IsScenario(SlowestScenario);
    assert IsScenarioJson(ScenarioJson(SlowestScenario));
  }

  // ================================================================ the proxy payload

  /** A value in the proxy query: None, a boolean, an integer or a string. */
  datatype ParamValue = PNone | PBool(b: bool) | PInt(n: int) | PStr(s: string)

  /** The query parameters in insertion order (a Python dict keeps that order). */
  type Payload = seq<(string, ParamValue)>

  /** What a flag contributes: a fixed value, or the serialised JavaScript scenario. */
  datatype FlagValue = Fixed(v: ParamValue) | Scenario

  /** A proxy feature: the meta key that requests it, the query parameter it adds, and
      that parameter's value. */
  datatype ProxyFlag = ProxyFlag(metaKey: string, param: string, value: FlagValue)

  /** The thirteen features in the order `_get_proxy_url` tests them. The values are
      constants: they do not depend on the value of the meta key. */
  const ProxyFlags: seq<ProxyFlag> := [
    ProxyFlag("sops_render_js", "render_js", Fixed(PBool(true))),
    ProxyFlag("sops_residential", "residential", Fixed(PBool(true))),
    ProxyFlag("sops_keep_headers", "keep_headers", Fixed(PBool(true))),
    ProxyFlag("sops_country", "country", Fixed(PStr("us"))),
    ProxyFlag("sops_js_scenario", "js_scenario", Scenario),
    ProxyFlag("sops_session_number", "session_number", Fixed(PInt(1))),
    ProxyFlag("sops_follow_redirects", "follow_redirects", Fixed(PBool(false))),
    ProxyFlag("sops_initial_status_code", "initial_status_code", Fixed(PBool(true))),
    ProxyFlag("sops_final_status_code", "final_status_code", Fixed(PBool(true))),
    ProxyFlag("sops_premium", "premium", Fixed(PBool(true))),
    ProxyFlag("sops_optimize_request", "optimize_request", Fixed(PBool(true))),
    ProxyFlag("sops_max_request_cost", "max_request_cost", Fixed(PInt(50))),
    ProxyFlag("sops_bypass", "bypass", Fixed(PStr("generic_level_1")))
  ]

  /** The table entry by entry. */
  lemma ProxyFlagsTable()
    ensures |ProxyFlags| == 13
    ensures ProxyFlags[0] == ProxyFlag("sops_render_js", "render_js", Fixed(PBool(true)))
    ensures ProxyFlags[1] == ProxyFlag("sops_residential", "residential", Fixed(PBool(true)))
    ensures ProxyFlags[2] == ProxyFlag("sops_keep_headers", "keep_headers", Fixed(PBool(true)))
    ensures ProxyFlags[3] == ProxyFlag("sops_country", "country", Fixed(PStr("us")))
    ensures ProxyFlags[4] == ProxyFlag("sops_js_scenario", "js_scenario", Scenario)
    ensures ProxyFlags[5] == ProxyFlag("sops_session_number", "session_number", Fixed(PInt(1)))
    ensures ProxyFlags[6] == ProxyFlag("sops_follow_redirects", "follow_redirects", Fixed(PBool(false)))
    ensures ProxyFlags[7] == ProxyFlag("sops_initial_status_code", "initial_status_code", Fixed(PBool(true)))
    ensures ProxyFlags[8] == ProxyFlag("sops_final_status_code", "final_status_code", Fixed(PBool(true)))
    ensures ProxyFlags[9] == ProxyFlag("sops_premium", "premium", Fixed(PBool(true)))
    ensures ProxyFlags[10] == ProxyFlag("sops_optimize_request", "optimize_request", Fixed(PBool(true)))
    ensures ProxyFlags[11] == ProxyFlag("sops_max_request_cost", "max_request_cost", Fixed(PInt(50)))
    ensures ProxyFlags[12] == ProxyFlag("sops_bypass", "bypass", Fixed(PStr("generic_level_1")))
  {
  }

  function FlagParam(flag: ProxyFlag, scenarioJson: string): ParamValue {
    match flag.value
    case Fixed(v) => v
    case Scenario => PStr(scenarioJson)
  }

  /** The entries the first `k` flags add, in order. */
  function SelectedParams(meta: Meta, scenarioJson: string, k: nat): Payload
    requires k <= |ProxyFlags|
  {
    if k == 0 then []
    else
      var flag := ProxyFlags[k - 1];
      SelectedParams(meta, scenarioJson, k - 1) +
      (if ParamIsTrue(meta, flag.metaKey) then [(flag.param, FlagParam(flag, scenarioJson))] else [])
  }

  /** `self.api_key` as it goes into the payload (None when the setting is missing). */
  function ApiKeyParam(apiKey: Option<string>): ParamValue {
    if apiKey.Some? then PStr(apiKey.value) else PNone
  }

  /** The payload `_get_proxy_url` builds for a request with URL `url` and metadata `meta`,
      given the serialised scenario it would draw. */
  function ProxyPayload(apiKey: Option<string>, url: string, meta: Meta, scenarioJson: string): Payload {
    [("api_key", ApiKeyParam(apiKey)), ("url", PStr(url))] + SelectedParams(meta, scenarioJson, |ProxyFlags|)
  }

  /** `str(value)`. */
  function ParamText(value: ParamValue): string {
    match value
    case PNone => "None"
    case PBool(b) => if b then "True" else "False"
    case PInt(n) => IntToString(n)
    case PStr(s) => s
  }

  /** `urlencode(payload)`: `key=value` pairs joined by '&' (percent-encoding not modelled). */
  function UrlEncode(payload: Payload): string {
    if payload == [] then ""
    else
      var entry := payload[0] .0 + "=" + ParamText(payload[0] .1);
      if |payload| == 1 then entry else entry + "&" + UrlEncode(payload[1..])
  }

  /** The proxy URL for a request, given the serialised scenario drawn for it. */
  function ProxyUrl(endpoint: string, apiKey: Option<string>, url: string, meta: Meta, scenarioJson: string): string {
    endpoint + UrlEncode(ProxyPayload(apiKey, url, meta, scenarioJson))
  }

  predicate DistinctKeys(p: Payload) {
    forall i, j :: 0 <= i < j < |p| ==> p[i].0 != p[j].0
  }

  /** The value stored under `key` (a Python dict lookup). */
  function Lookup(p: Payload, key: string): Option<ParamValue> {
    if p == [] then None else if p[0].0 == key then Some(p[0].1) else Lookup(p[1..], key)
  }

  lemma FlagParamsDistinct()
    ensures forall i, j :: 0 <= i < j < |ProxyFlags| ==> ProxyFlags[i].param != ProxyFlags[j].param
    ensures forall i :: 0 <= i < |ProxyFlags| ==> ProxyFlags[i].param != "api_key" && ProxyFlags[i].param != "url"
  {
  }

  /** The entries the first k flags add are exactly those of the flags that coerce true,
      each with its own parameter name and value, and no name occurs twice. */
  lemma {:induction false} SelectedParamsSpec(meta: Meta, scenarioJson: string, k: nat)
    requires k <= |ProxyFlags|
    ensures forall e :: e in SelectedParams(meta, scenarioJson, k) <==>
      exists i :: 0 <= i < k && ParamIsTrue(meta, ProxyFlags[i].metaKey) &&
                  e == (ProxyFlags[i].param, FlagParam(ProxyFlags[i], scenarioJson))
    ensures DistinctKeys(SelectedParams(meta, scenarioJson, k))
  {
    if k > 0 {
      SelectedParamsSpec(meta, scenarioJson, k - 1);
      FlagParamsDistinct();
      var prev := SelectedParams(meta, scenarioJson, k - 1);
      var flag := ProxyFlags[k - 1];
      var all := SelectedParams(meta, scenarioJson, k);
      forall e | e in all
        ensures exists i :: 0 <= i < k && ParamIsTrue(meta, ProxyFlags[i].metaKey) &&
                  e == (ProxyFlags[i].param, FlagParam(ProxyFlags[i], scenarioJson))
      {
        if e !in prev {
          assert e == (flag.param, FlagParam(flag, scenarioJson));
        }
      }
      forall n | 0 <= n < |prev| ensures prev[n].0 != flag.param {
        assert prev[n] in prev;
      }
    }
  }

  lemma {:induction false} LookupDistinct(p: Payload, key: string, v: ParamValue)
    requires DistinctKeys(p)
    ensures Lookup(p, key) == Some(v) <==> (key, v) in p
  {
    if p != [] {
      LookupDistinct(p[1..], key, v);
      if p[0].0 == key {
        forall n | 1 <= n < |p| ensures p[n].0 != key { }
        assert (key, v) in p <==> p[0] == (key, v);
      }
    }
  }

  lemma {:induction false} LookupAbsent(p: Payload, key: string)
    requires forall e :: e in p ==> e.0 != key
    ensures Lookup(p, key) == None
  {
    if p != [] {
      LookupAbsent(p[1..], key);
    }
  }

  /** The payload holds `api_key` and `url` first, then one entry for each flag that
      coerces true, in table order, and no key twice. */
  lemma PayloadEntries(apiKey: Option<string>, url: string, meta: Meta, scenarioJson: string)
    ensures var p := ProxyPayload(apiKey, url, meta, scenarioJson);
      && |p| >= 2
      && p[0] == ("api_key", ApiKeyParam(apiKey))
      && p[1] == ("url", PStr(url))
      && DistinctKeys(p)
      && forall e :: e in p[2..] <==>
           exists i :: 0 <= i < |ProxyFlags| && ParamIsTrue(meta, ProxyFlags[i].metaKey) &&
                       e == (ProxyFlags[i].param, FlagParam(ProxyFlags[i], scenarioJson))
  {
    var sel := SelectedParams(meta, scenarioJson, |ProxyFlags|);
    SelectedParamsSpec(meta, scenarioJson, |ProxyFlags|);
    FlagParamsDistinct();
    var p := ProxyPayload(apiKey, url, meta, scenarioJson);
    assert p[2..] == sel;
    forall n | 0 <= n < |sel| ensures sel[n].0 != "api_key" && sel[n].0 != "url" {
      assert sel[n] in sel;
    }
    forall i, j | 0 <= i < j < |p| ensures p[i].0 != p[j].0 {
      if i >= 2 {
        assert p[i] == sel[i - 2] && p[j] == sel[j - 2];
      } else if j >= 2 {
        assert p[j] == sel[j - 2];
      }
    }
  }

  /** Each query parameter is present exactly when its flag coerces true, and then holds
      its fixed value; `api_key` and `url` are always there. */
  lemma {:induction false} PayloadLookup(apiKey: Option<string>, url: string, meta: Meta, scenarioJson: string, i: nat)
    requires i < |ProxyFlags|
    ensures var p := ProxyPayload(apiKey, url, meta, scenarioJson);
      && Lookup(p, "api_key") == Some(ApiKeyParam(apiKey))
      && Lookup(p, "url") == Some(PStr(url))
      && Lookup(p, ProxyFlags[i].param) ==
           if ParamIsTrue(meta, ProxyFlags[i].metaKey)
           then Some(FlagParam(ProxyFlags[i], scenarioJson)) else None
  {
    var p := ProxyPayload(apiKey, url, meta, scenarioJson);
    PayloadEntries(apiKey, url, meta, scenarioJson);
    FlagParamsDistinct();
    var flag := ProxyFlags[i];
    var v := FlagParam(flag, scenarioJson);
    if ParamIsTrue(meta, flag.metaKey) {
      assert p[2..][0..] == p[2..];
      assert (flag.param, v) in p[2..];
      LookupDistinct(p, flag.param, v);
    } else {
      forall e | e in p ensures e.0 != flag.param {
        if e !in p[..2] {
          var n :| 0 <= n < |p| && p[n] == e;
          assert p[2..][n - 2] == e;
          var j :| 0 <= j < |ProxyFlags| && ParamIsTrue(meta, ProxyFlags[j].metaKey) &&
                   e == (ProxyFlags[j].param, FlagParam(ProxyFlags[j], scenarioJson));
          assert j != i;
        }
      }
      LookupAbsent(p, flag.param);
    }
  }

  /** The value each flag puts into the payload, read off entry by entry. */
  lemma PayloadValues(apiKey: Option<string>, url: string, meta: Meta, scenarioJson: string)
    ensures var p := ProxyPayload(apiKey, url, meta, scenarioJson);
      && Lookup(p, "render_js") == (if ParamIsTrue(meta, "sops_render_js") then Some(PBool(true)) else None)
      && Lookup(p, "residential") == (if ParamIsTrue(meta, "sops_residential") then Some(PBool(true)) else None)
      && Lookup(p, "keep_headers") == (if ParamIsTrue(meta, "sops_keep_headers") then Some(PBool(true)) else None)
      && Lookup(p, "country") == (if ParamIsTrue(meta, "sops_country") then Some(PStr("us")) else None)
      && Lookup(p, "js_scenario") == (if ParamIsTrue(meta, "sops_js_scenario") then Some(PStr(scenarioJson)) else None)
      && Lookup(p, "session_number") == (if ParamIsTrue(meta, "sops_session_number") then Some(PInt(1)) else None)
      && Lookup(p, "follow_redirects") == (if ParamIsTrue(meta, "sops_follow_redirects") then Some(PBool(false)) else None)
      && Lookup(p, "initial_status_code") == (if ParamIsTrue(meta, "sops_initial_status_code") then Some(PBool(true)) else None)
      && Lookup(p, "final_status_code") == (if ParamIsTrue(meta, "sops_final_status_code") then Some(PBool(true)) else None)
      && Lookup(p, "premium") == (if ParamIsTrue(meta, "sops_premium") then Some(PBool(true)) else None)
      && Lookup(p, "optimize_request") == (if ParamIsTrue(meta, "sops_optimize_request") then Some(PBool(true)) else None)
      && Lookup(p, "max_request_cost") == (if ParamIsTrue(meta, "sops_max_request_cost") then Some(PInt(50)) else None)
      && Lookup(p, "bypass") == (if ParamIsTrue(meta, "sops_bypass") then Some(PStr("generic_level_1")) else None)
  {
    ProxyFlagsTable();
    PayloadLookup(apiKey, url, meta, scenarioJson, 0);
    PayloadLookup(apiKey, url, meta, scenarioJson, 1);
    PayloadLookup(apiKey, url, meta, scenarioJson, 2);
    PayloadLookup(apiKey, url, meta, scenarioJson, 3);
    PayloadLookup(apiKey, url, meta, scenarioJson, 4);
    PayloadLookup(apiKey, url, meta, scenarioJson, 5);
    PayloadLookup(apiKey, url, meta, scenarioJson, 6);
    PayloadLookup(apiKey, url, meta, scenarioJson, 7);
    PayloadLookup(apiKey, url, meta, scenarioJson, 8);
    PayloadLookup(apiKey, url, meta, scenarioJson, 9);
    PayloadLookup(apiKey, url, meta, scenarioJson, 10);
    PayloadLookup(apiKey, url, meta, scenarioJson, 11);
    PayloadLookup(apiKey, url, meta, scenarioJson, 12);
  }

  /** When no flag coerces true the payload is just the key and the URL. */
  lemma PayloadWithoutFlags(apiKey: Option<string>, url: string, meta: Meta, scenarioJson: string)
    requires forall i :: 0 <= i < |ProxyFlags| ==> !ParamIsTrue(meta, ProxyFlags[i].metaKey)
    ensures ProxyPayload(apiKey, url, meta, scenarioJson) == [("api_key", ApiKeyParam(apiKey)), ("url", PStr(url))]
  {
    NoneSelected(meta, scenarioJson, |ProxyFlags|);
  }

  lemma {:induction false} NoneSelected(meta: Meta, scenarioJson: string, k: nat)
    requires k <= |ProxyFlags|
    requires forall i :: 0 <= i < k ==> !ParamIsTrue(meta, ProxyFlags[i].metaKey)
    ensures SelectedParams(meta, scenarioJson, k) == []
  {
    if k > 0 {
      NoneSelected(meta, scenarioJson, k - 1);
    }
  }

  /** The drawn scenario reaches the payload only through `sops_js_scenario`: before that
      flag, or when it is not set, the entries are the same whatever scenario is drawn. */
  lemma {:induction false} ScenarioIgnoredUnlessAsked(meta: Meta, a: string, b: string, k: nat)
    requires k <= |ProxyFlags|
    requires k > 4 ==> !ParamIsTrue(meta, "sops_js_scenario")
    ensures SelectedParams(meta, a, k) == SelectedParams(meta, b, k)
  {
    if k > 0 {
      ScenarioIgnoredUnlessAsked(meta, a, b, k - 1);
      ProxyFlagsTable();
    }
  }

  /** The proxy URL begins with the endpoint, so it contains it. */
  lemma ProxyUrlContainsEndpoint(endpoint: string, apiKey: Option<string>, url: string, meta: Meta, scenarioJson: string)
    ensures Contains(ProxyUrl(endpoint, apiKey, url, meta, scenarioJson), endpoint)
  {
    PrefixContained(endpoint, UrlEncode(ProxyPayload(apiKey, url, meta, scenarioJson)));
  }

  // ================================================================ the loop guard

  /** The guard of `process_request` as written. `self._scrapeops_proxy_enabled is False`
      compares the bound method object with False, which never holds, so `enabled` plays
      no part and only the endpoint test can skip a request. */
  function SkipsRequestAsWritten(enabled: bool, endpoint: string, url: string): (r: bool)
    ensures r <==> Contains(url, endpoint)
  {
    false || Contains(url, endpoint)
  }

  /** The guard as evidently intended: skip when the proxy is disabled or the request
      already goes to the proxy. */
  function SkipsRequest(enabled: bool, endpoint: string, url: string): (r: bool)
    ensures !enabled ==> r
    ensures enabled ==> (r <==> Contains(url, endpoint))
  {
    !enabled || Contains(url, endpoint)
  }

  /** A disabled proxy middleware still rewrites an ordinary request as written, and
      would not once corrected. */
  lemma DisabledProxyStillRewrites()
    ensures !SkipsRequestAsWritten(false, DefaultProxyEndpoint, "https://books.toscrape.com/")
    ensures SkipsRequest(false, DefaultProxyEndpoint, "https://books.toscrape.com/")
  {
  }

  /** The corrected guard never lets a disabled middleware rewrite and otherwise agrees
      with the guard as written. */
  lemma CorrectedGuardAgreesWhenEnabled(endpoint: string, url: string)
    ensures SkipsRequest(true, endpoint, url) == SkipsRequestAsWritten(true, endpoint, url)
    ensures SkipsRequest(false, endpoint, url)
  {
  }

  // ================================================================ the restore

  /** `request.headers.get('X-Original-URL', fallback)`, decoding taken as the identity. */
  function StashedUrl(headers: Headers, fallback: string): string {
    if OriginalUrlHeader in headers then headers[OriginalUrlHeader] else fallback
  }

  /** Restoring after stashing gives back exactly the stashed URL, whatever the headers held. */
  lemma RestoreAfterStash(headers: Headers, url: string, fallback: string)
    ensures StashedUrl(headers[OriginalUrlHeader := url], fallback) == url
  {
  }

  // ================================================================ the middlewares

  /** ScrapeOpsFakeUserAgentMiddleware. `userAgents` is the pool fetched when it starts. */
  class FakeUserAgentMiddleware {
    const apiKey: Option<string>
    const endpoint: string
    const numResults: Option<int>
    const userAgents: seq<string>
    var active: bool

    constructor (settings: Settings, fetched: seq<string>)
      ensures apiKey == settings.apiKey && numResults == settings.numResults
      ensures endpoint == GetOr(settings.fakeUserAgentEndpoint, DefaultUserAgentEndpoint)
      ensures userAgents == fetched
      ensures active
    {
      apiKey := settings.apiKey;
      endpoint := GetOr(settings.fakeUserAgentEndpoint, DefaultUserAgentEndpoint);
      active := GetOr(settings.fakeUserAgentEnabled, false);
      numResults := settings.numResults;
      userAgents := fetched;
      new;
      FakeUserAgentsEnabled();
    }

    /** `_scrapeops_fake_user_agents_enabled`, as written. */
    method FakeUserAgentsEnabled()
      modifies this
      ensures active == CheckedActiveAsWritten(apiKey, old(active))
    {
      if KeyMissingOrInactive(apiKey, active) {
        active := false;
      }
      active := true;
    }

    /** `_get_random_user_agent`: a member of the pool; ValueError from `randint(0, -1)`
        when the pool is empty. */
    method GetRandomUserAgent() returns (r: Result<string, Exception>)
      ensures r.Success? <==> |userAgents| > 0
      ensures r.Success? ==> r.value in userAgents
      ensures r.Failure? ==> r.error == ValueError
    {
      var index := Randomness.RandInt(0, |userAgents| - 1);
      if index.Failure? {
        return Failure(index.error);
      }
      return Success(userAgents[index.value]);
    }

    /** `process_request`: sets User-Agent to a random member of the pool and changes no
        other header; the exception of an empty pool leaves the request as it was. */
    method ProcessRequest(request: Request) returns (outcome: Outcome<Exception>)
      modifies request`headers
      ensures outcome.Pass? <==> |userAgents| > 0
      ensures outcome.Pass? ==>
        exists ua :: ua in userAgents && request.headers == old(request.headers)[UserAgentHeader := ua]
      ensures outcome.Fail? ==> outcome.error == ValueError && request.headers == old(request.headers)
    {
      var ua := GetRandomUserAgent();
      if ua.Failure? {
        return Fail(ua.error);
      }
      request.headers := request.headers[UserAgentHeader := ua.value];
      return Pass;
    }
  }

  /** ScrapeOpsFakeBrowserHeadersMiddleware. `headerSets` is the pool fetched when it starts. */
  class FakeBrowserHeadersMiddleware {
    const apiKey: Option<string>
    const endpoint: string
    const numResults: Option<int>
    const headerSets: seq<HeaderSet>
    var active: bool

    constructor (settings: Settings, fetched: seq<HeaderSet>)
      ensures apiKey == settings.apiKey && numResults == settings.numResults
      ensures endpoint == GetOr(settings.fakeHeadersEndpoint, DefaultHeadersEndpoint)
      ensures headerSets == fetched
      ensures active
    {
      apiKey := settings.apiKey;
      endpoint := GetOr(settings.fakeHeadersEndpoint, DefaultHeadersEndpoint);
      active := GetOr(settings.fakeHeadersEnabled, false);
      numResults := settings.numResults;
      headerSets := fetched;
      new;
      FakeHeadersEnabled();
    }

    /** `_scrapeops_fake_headers_enabled`, as written. */
    method FakeHeadersEnabled()
      modifies this
      ensures active == CheckedActiveAsWritten(apiKey, old(active))
    {
      if KeyMissingOrInactive(apiKey, active) {
        active := false;
      }
      active := true;
    }

    /** `_get_random_header`: a member of the pool; ValueError when it is empty. */
    method GetRandomHeader() returns (r: Result<HeaderSet, Exception>)
      ensures r.Success? <==> |headerSets| > 0
      ensures r.Success? ==> r.value in headerSets
      ensures r.Failure? ==> r.error == ValueError
    {
      var index := Randomness.RandInt(0, |headerSets| - 1);
      if index.Failure? {
        return Failure(index.error);
      }
      return Success(headerSets[index.value]);
    }

    /** `process_request`: writes every header of one random set over the request's
        headers, one entry at a time, and leaves the others alone. */
    method ProcessRequest(request: Request) returns (outcome: Outcome<Exception>)
      modifies request`headers
      ensures outcome.Pass? <==> |headerSets| > 0
      ensures outcome.Pass? ==>
        exists hs :: hs in headerSets && request.headers == Overlay(old(request.headers), hs)
      ensures outcome.Fail? ==> outcome.error == ValueError && request.headers == old(request.headers)
    {
      var pick := GetRandomHeader();
      if pick.Failure? {
        return Fail(pick.error);
      }
      var hs := pick.value;
      for i := 0 to |hs|
        invariant request.headers == Overlay(old(request.headers), hs[..i])
      {
        assert hs[..i + 1][..i] == hs[..i];
        request.headers := request.headers[hs[i].0 := hs[i].1];
      }
      assert hs[..|hs|] == hs;
      return Pass;
    }
  }

  /** ScrapeOpsProxyMiddleware. */
  class ProxyMiddleware {
    const apiKey: Option<string>
    const endpoint: string
    const proxyActive: bool
    const sessionNumber: int

    constructor (settings: Settings)
      ensures apiKey == settings.apiKey
      ensures endpoint == GetOr(settings.proxyEndpoint, DefaultProxyEndpoint)
      ensures proxyActive == GetOr(settings.proxyEnabled, false)
      ensures sessionNumber == 1
    {
      apiKey := settings.apiKey;
      endpoint := GetOr(settings.proxyEndpoint, DefaultProxyEndpoint);
      proxyActive := GetOr(settings.proxyEnabled, false);
      sessionNumber := 1;
    }

    /** `_js_scenario`: nine steps, six of them with a value drawn at random from its
        range, serialised with `dumps`. */
    static method JsScenario() returns (json: string)
      ensures IsScenarioJson(json)
    {
      var firstWait := Randomness.RandInt(10000, 20000);
      var scrollY := Randomness.RandInt(1000, 4000);
      var clickWait := Randomness.RandInt(100, 200);
      var afterClick := Randomness.RandInt(10, 100);
      var scrollX := Randomness.RandInt(1000, 4000);
      var lastWait := Randomness.RandInt(10, 100);
      var sc := [
        Wait(firstWait.value), ScrollY(scrollY.value), WaitFor(LinkSelector),
        Wait(clickWait.value), Click(LinkSelector), Wait(afterClick.value),
        ScrollX(scrollX.value), Wait(lastWait.value), Evaluate(FinalScript)
      ];
      json := ScenarioJson(sc);
      assert IsScenario(sc);
      assert IsScenarioJson(json);
    }

    /** `_get_proxy_url`: the payload for the request's metadata, with a scenario drawn
        only when `sops_js_scenario` is set, encoded after the endpoint. */
    method GetProxyUrl(request: Request) returns (proxyUrl: string)
      ensures exists sj :: IsScenarioJson(sj) && proxyUrl == ProxyUrl(endpoint, apiKey, request.url, request.meta, sj)
    {
      var scenarioJson := "";
      ghost var sj: string;
      if ParamIsTrue(request.meta, "sops_js_scenario") {
        scenarioJson := JsScenario();
        sj := scenarioJson;
      } else {
        ScenarioJsonExists();
        sj :| IsScenarioJson(sj);
        ScenarioIgnoredUnlessAsked(request.meta, scenarioJson, sj, |ProxyFlags|);
      }
      proxyUrl := endpoint + UrlEncode(ProxyPayload(apiKey, request.url, request.meta, scenarioJson));
      assert proxyUrl == ProxyUrl(endpoint, apiKey, request.url, request.meta, sj);
    }

    /** `_scrapeops_proxy_enabled`. */
    function ScrapeOpsProxyEnabled(): (r: bool)
      ensures r <==> apiKey.Some? && |apiKey.value| > 0 && proxyActive
    {
      if apiKey == None || apiKey == Some("") || proxyActive == false then false else true
    }

    /** `_add_original_url_to_request_headers`: stash the current URL. */
    method AddOriginalUrlToRequestHeaders(request: Request)
      modifies request`headers
      ensures request.headers == old(request.headers)[OriginalUrlHeader := request.url]
    {
      request.headers := request.headers[OriginalUrlHeader := request.url];
    }

    /** `_replace_response_url`: a copy of the response whose URL is the stashed one, or
        its own URL when nothing was stashed. */
    function ReplaceResponseUrl(response: Response, request: Request): (r: Response)
      reads request
      ensures OriginalUrlHeader in request.headers ==> r.url == request.headers[OriginalUrlHeader]
      ensures OriginalUrlHeader !in request.headers ==> r.url == response.url
      ensures r.status == response.status && r.headers == response.headers && r.body == response.body
    {
      response.(url := StashedUrl(request.headers, response.url))
    }

    /** `process_request`: a request that already contains the endpoint passes untouched
        (None); any other request has its URL stashed first and is then replaced by a new
        request to the proxy URL with the same headers and meta. */
    method ProcessRequest(request: Request) returns (newRequest: Request?)
      modifies request`headers
      ensures SkipsRequestAsWritten(ScrapeOpsProxyEnabled(), endpoint, request.url) ==>
        newRequest == null && request.headers == old(request.headers)
      ensures !SkipsRequestAsWritten(ScrapeOpsProxyEnabled(), endpoint, request.url) ==>
        && request.headers == old(request.headers)[OriginalUrlHeader := request.url]
        && newRequest != null && fresh(newRequest)
        && newRequest.headers == request.headers && newRequest.meta == request.meta
        && exists sj :: IsScenarioJson(sj) && newRequest.url == ProxyUrl(endpoint, apiKey, request.url, request.meta, sj)
    {
      if SkipsRequestAsWritten(ScrapeOpsProxyEnabled(), endpoint, request.url) {
        return null;
      }
      AddOriginalUrlToRequestHeaders(request);
      var proxyUrl := GetProxyUrl(request);
      newRequest := new Request(proxyUrl, request.headers, request.meta);
    }

    /** `process_response`. */
    method ProcessResponse(request: Request, response: Response) returns (r: Response)
      ensures r == ReplaceResponseUrl(response, request)
    {
      r := ReplaceResponseUrl(response, request);
    }
  }

  /** One request through the proxy middleware as the engine drives it: the rewrite, the
      second pass the engine makes over the new request (a no-op thanks to the loop
      guard), then the response from the proxy restored to the original URL. */
  method ProxyRoundTrip(middleware: ProxyMiddleware, request: Request, proxyResponse: Response)
    returns (proxied: Request?, secondPass: Request?, restored: Response)
    requires !Contains(request.url, middleware.endpoint)
    modifies request`headers
    ensures request.headers == old(request.headers)[OriginalUrlHeader := old(request.url)]
    ensures proxied != null && fresh(proxied) && proxied.meta == old(request.meta)
    ensures secondPass == null
    ensures restored.url == old(request.url)
    ensures restored.status == proxyResponse.status && restored.body == proxyResponse.body
  {
    proxied := middleware.ProcessRequest(request);
    ghost var sj :| IsScenarioJson(sj) && proxied.url == ProxyUrl(middleware.endpoint, middleware.apiKey, request.url, request.meta, sj);
    ProxyUrlContainsEndpoint(middleware.endpoint, middleware.apiKey, request.url, request.meta, sj);
    assert proxied.headers[OriginalUrlHeader] == request.url;
    secondPass := middleware.ProcessRequest(proxied);
    assert proxied.headers[OriginalUrlHeader] == request.url;
    restored := middleware.ProcessResponse(proxied, proxyResponse);
  }
}
