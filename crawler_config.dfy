/** crawler/config/CrawlerConfig.java: the settings of the generic web
    crawler, four numbers, a user agent and the headers sent with every
    request. The header map is a Dafny map, a value, so the copy
    getDefaultHeaders hands out can never be changed through the
    configuration nor change it. */
module CrawlerSettings {

  const DefaultTimeout: int := 10000
  const DefaultRetryCount: int := 3
  const DefaultDelayBetweenRequests: int := 1000
  const DefaultMaxConcurrentRequests: int := 5
  const DefaultUserAgent: string := "Mozilla/5.0 (Windows NT 10.0; Win64; x64) AppleWebKit/537.36"

  const UserAgentHeader: string := "User-Agent"
  const AcceptHeader: string := "Accept"
  const AcceptLanguageHeader: string := "Accept-Language"
  const AcceptEncodingHeader: string := "Accept-Encoding"
  const ConnectionHeader: string := "Connection"

  /** The headers a new configuration sends, with `userAgent` as its user
      agent: exactly five of them. */
  function DefaultHeaders(userAgent: string): (h: map<string, string>)
    ensures h.Keys == {UserAgentHeader, AcceptHeader, AcceptLanguageHeader, AcceptEncodingHeader, ConnectionHeader}
    ensures |h| == 5
    ensures h[UserAgentHeader] == userAgent
  {
    map[UserAgentHeader := userAgent,
        AcceptHeader := "text/html,application/xhtml+xml,application/xml;q=0.9,*/*;q=0.8",
        AcceptLanguageHeader := "zh-CN,zh;q=0.9,en;q=0.8",
        AcceptEncodingHeader := "gzip, deflate",
        ConnectionHeader := "keep-alive"]
  }

  class CrawlerConfig {
    var timeout: int
    var retryCount: int
    var delayBetweenRequests: int
    var maxConcurrentRequests: int
    var userAgent: string
    var defaultHeaders: map<string, string>

    /** The User-Agent header carries the configured user agent. Adding or
        removing that header by hand can break this; setUserAgent restores
        it. */
    predicate InSync()
      reads this
    {
      UserAgentHeader in defaultHeaders && defaultHeaders[UserAgentHeader] == userAgent
    }

    /** A new configuration: 10 s timeout, 3 retries, 1 s between requests,
        at most 5 at once, the default user agent and the five default
        headers. */
    constructor ()
      ensures timeout == DefaultTimeout && retryCount == DefaultRetryCount
      ensures delayBetweenRequests == DefaultDelayBetweenRequests
      ensures maxConcurrentRequests == DefaultMaxConcurrentRequests
      ensures userAgent == DefaultUserAgent && defaultHeaders == DefaultHeaders(DefaultUserAgent)
      ensures InSync() && |defaultHeaders| == 5
    {
      timeout := DefaultTimeout;
      retryCount := DefaultRetryCount;
      delayBetweenRequests := DefaultDelayBetweenRequests;
      maxConcurrentRequests := DefaultMaxConcurrentRequests;
      userAgent := DefaultUserAgent;
      defaultHeaders := map[];
      new;
      InitDefaultHeaders();
    }

    /** initDefaultHeaders: puts the five default headers, the user agent
        among them, over whatever the map holds. */
    method InitDefaultHeaders()
      modifies this
      ensures defaultHeaders == old(defaultHeaders) + DefaultHeaders(userAgent)
      ensures userAgent == old(userAgent) && timeout == old(timeout) && retryCount == old(retryCount)
      ensures delayBetweenRequests == old(delayBetweenRequests)
      ensures maxConcurrentRequests == old(maxConcurrentRequests)
      ensures InSync()
    {
      defaultHeaders := defaultHeaders + DefaultHeaders(userAgent);
    }

    /** setTimeout. */
    method SetTimeout(timeout: int)
      modifies this
      ensures this.timeout == timeout
      ensures retryCount == old(retryCount) && delayBetweenRequests == old(delayBetweenRequests)
      ensures maxConcurrentRequests == old(maxConcurrentRequests)
      ensures userAgent == old(userAgent) && defaultHeaders == old(defaultHeaders)
    {
      this.timeout := timeout;
    }

    /** setRetryCount. */
    method SetRetryCount(retryCount: int)
      modifies this
      ensures this.retryCount == retryCount
      ensures timeout == old(timeout) && delayBetweenRequests == old(delayBetweenRequests)
      ensures maxConcurrentRequests == old(maxConcurrentRequests)
      ensures userAgent == old(userAgent) && defaultHeaders == old(defaultHeaders)
    {
      this.retryCount := retryCount;
    }

    /** setDelayBetweenRequests. */
    method SetDelayBetweenRequests(delayBetweenRequests: int)
      modifies this
      ensures this.delayBetweenRequests == delayBetweenRequests
      ensures timeout == old(timeout) && retryCount == old(retryCount)
      ensures maxConcurrentRequests == old(maxConcurrentRequests)
      ensures userAgent == old(userAgent) && defaultHeaders == old(defaultHeaders)
    {
      this.delayBetweenRequests := delayBetweenRequests;
    }

    /** setMaxConcurrentRequests. */
    method SetMaxConcurrentRequests(maxConcurrentRequests: int)
      modifies this
      ensures this.maxConcurrentRequests == maxConcurrentRequests
      ensures timeout == old(timeout) && retryCount == old(retryCount)
      ensures delayBetweenRequests == old(delayBetweenRequests)
      ensures userAgent == old(userAgent) && defaultHeaders == old(defaultHeaders)
    {
      this.maxConcurrentRequests := maxConcurrentRequests;
    }

    /** setUserAgent: the field and the User-Agent header both take the new
        value; every other header stays as it was. */
    method SetUserAgent(userAgent: string)
      modifies this
      ensures this.userAgent == userAgent && InSync()
      ensures defaultHeaders.Keys == old(defaultHeaders).Keys + {UserAgentHeader}
      ensures forall k :: k in old(defaultHeaders) && k != UserAgentHeader ==>
        defaultHeaders[k] == old(defaultHeaders)[k]
      ensures timeout == old(timeout) && retryCount == old(retryCount)
      ensures delayBetweenRequests == old(delayBetweenRequests)
      ensures maxConcurrentRequests == old(maxConcurrentRequests)
    {
      this.userAgent := userAgent;
      defaultHeaders := defaultHeaders[UserAgentHeader := userAgent];
    }

    /** getDefaultHeaders: a copy of the headers, equal to them now and
        independent of them afterwards. */
    method GetDefaultHeaders() returns (h: map<string, string>)
      ensures h == defaultHeaders
    {
      h := defaultHeaders;
    }

    /** addHeader: `key` now maps to `value`; no other header is added,
        dropped or changed. */
    method AddHeader(key: string, value: string)
      modifies this
      ensures defaultHeaders.Keys == old(defaultHeaders).Keys + {key}
      ensures defaultHeaders[key] == value
      ensures forall k :: k in old(defaultHeaders) && k != key ==>
        defaultHeaders[k] == old(defaultHeaders)[k]
      ensures key != UserAgentHeader ==> (InSync() <==> old(InSync()))
      ensures userAgent == old(userAgent) && timeout == old(timeout) && retryCount == old(retryCount)
      ensures delayBetweenRequests == old(delayBetweenRequests)
      ensures maxConcurrentRequests == old(maxConcurrentRequests)
    {
      defaultHeaders := defaultHeaders[key := value];
    }

    /** removeHeader: `key` is gone, whether or not it was there; every
        other header stays as it was. */
    method RemoveHeader(key: string)
      modifies this
      ensures defaultHeaders.Keys == old(defaultHeaders).Keys - {key}
      ensures forall k :: k in defaultHeaders ==> defaultHeaders[k] == old(defaultHeaders)[k]
      ensures key != UserAgentHeader ==> (InSync() <==> old(InSync()))
      ensures key == UserAgentHeader ==> !InSync()
      ensures userAgent == old(userAgent) && timeout == old(timeout) && retryCount == old(retryCount)
      ensures delayBetweenRequests == old(delayBetweenRequests)
      ensures maxConcurrentRequests == old(maxConcurrentRequests)
    {
      defaultHeaders := defaultHeaders - {key};
    }
  }
}
