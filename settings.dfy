/** The project's ScrapeOps settings and the downloader middlewares they configure. */
module ProjectSettings {
  import opened Wrappers
  import opened Middlewares

  /** The ScrapeOps settings of the project. The API key is read from the environment, so
      it is a parameter. */
  function ProjectScrapySettings(apiKey: Option<string>): Settings {
    Settings(
      apiKey := apiKey,
      numResults := Some(100),
      fakeUserAgentEndpoint := Some("http://headers.scrapeops.io/v1/user-agents?"),
      fakeUserAgentEnabled := Some(false),
      fakeHeadersEndpoint := Some("http://headers.scrapeops.io/v1/browser-headers?"),
      fakeHeadersEnabled := Some(false),
      proxyEndpoint := Some("https://proxy.scrapeops.io/v1/?"),
      proxyEnabled := Some(true))
  }

  /** The two downloader middlewares the project enables, in their order (400, then 600),
      built from the project settings and the header pool fetched at start-up. The browser
      headers middleware is active although its setting is False; the proxy is on exactly
      when an API key is set and non-empty. */
  method StartMiddlewares(apiKey: Option<string>, fetched: seq<HeaderSet>)
    returns (headers: FakeBrowserHeadersMiddleware, proxy: ProxyMiddleware)
    ensures fresh(headers) && fresh(proxy)
    ensures headers.active && headers.headerSets == fetched
    ensures headers.endpoint == DefaultHeadersEndpoint && headers.numResults == Some(100)
    ensures proxy.endpoint == DefaultProxyEndpoint
    ensures proxy.ScrapeOpsProxyEnabled() <==> apiKey.Some? && apiKey.value != ""
  {
    var settings := ProjectScrapySettings(apiKey);
    headers := new FakeBrowserHeadersMiddleware(settings, fetched);
    proxy := new ProxyMiddleware(settings);
  }
}
