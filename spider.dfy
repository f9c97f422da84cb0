/** The metadata `BookSpider.start_requests` puts on its requests, and what the proxy
    middleware makes of it. */
module BookSpider {
  import opened Wrappers
  import opened Http
  import opened Middlewares

  /** The start request's `meta` dict as its display builds it: entries are stored from
      left to right, so a key given twice keeps its later value. The session number is
      first `False` and then `session_id`, the text of a random UUID. */
  function StartMeta(sessionId: string): Meta {
    map[]
      ["sops_render_js" := Str("False")]
      ["sops_residential" := Bool(false)]
      ["sops_keep_headers" := Str("False")]
      ["sops_session_number" := Bool(false)]
      ["sops_js_scenario" := Str("False")]
      ["sops_country" := Bool(false)]
      ["sops_follow_redirects" := Bool(false)]
      ["sops_initial_status_code" := Bool(false)]
      ["sops_final_status_code" := Bool(false)]
      ["sops_premium" := Bool(false)]
      ["sops_optimize_request" := Bool(false)]
      ["sops_max_request_cost" := Bool(false)]
      ["sops_max_request_cost" := Bool(false)]
      ["sops_session_number" := Str(sessionId)]
  }

  /** `str(uuid.uuid4())` is always 36 characters long (32 hex digits and 4 hyphens). */
  predicate IsUuidText(s: string) { |s| == 36 }

  /** The later session number wins, and `sops_bypass` is not set. */
  lemma StartMetaEntries(sessionId: string)
    ensures StartMeta(sessionId)["sops_session_number"] == Str(sessionId)
    ensures StartMeta(sessionId)["sops_js_scenario"] == Str("False")
    ensures StartMeta(sessionId)["sops_residential"] == Bool(false)
    ensures "sops_bypass" !in StartMeta(sessionId)
  {
  }

  /** None of the thirteen proxy flags coerces true on the start metadata: the strings
      `'False'` and the UUID are not "true" in any case, the booleans are false. */
  lemma StartMetaNoFlag(sessionId: string)
    requires IsUuidText(sessionId)
    ensures forall i :: 0 <= i < |ProxyFlags| ==> !ParamIsTrue(StartMeta(sessionId), ProxyFlags[i].metaKey)
  {
    var meta := StartMeta(sessionId);
    ProxyFlagsTable();
    forall i | 0 <= i < |ProxyFlags| ensures !ParamIsTrue(meta, ProxyFlags[i].metaKey) {
      var key := ProxyFlags[i].metaKey;
      if key in meta && meta[key].Str? {
        ParamIsFalseForOtherStrings(meta, key);
      }
    }
  }

  /** So the start request goes to the proxy with only its API key and URL. */
  lemma StartPayload(apiKey: Option<string>, url: string, sessionId: string, scenarioJson: string)
    requires IsUuidText(sessionId)
    ensures ProxyPayload(apiKey, url, StartMeta(sessionId), scenarioJson) ==
      [("api_key", ApiKeyParam(apiKey)), ("url", PStr(url))]
  {
    StartMetaNoFlag(sessionId);
    PayloadWithoutFlags(apiKey, url, StartMeta(sessionId), scenarioJson);
  }
}
