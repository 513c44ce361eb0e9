/** The Futu OpenAPI connection settings of config/FutuConfig.java. Spring
    binds the properties through the setters, so the settings form a class
    whose fields the setters update one at a time. */
module FutuSettings {
  import opened Wrappers
  import opened Text

  const DefaultHost: string := "127.0.0.1"
  const DefaultPort: int := 11111

  /** The largest TCP port number. */
  const MaxPort: int := 65535

  /** A host text is blank when every char of it is one that trim() strips. */
  predicate Blank(s: string) {
    forall i :: 0 <= i < |s| ==> IsTrimmed(s[i])
  }

  class FutuConfig {
    var enabled: bool
    var host: Option<string>
    var port: int
    var enableEncrypt: bool
    var keyFile: Option<string>
    var connectionTimeout: int
    var keepAliveInterval: int
    var userAgent: Option<string>
    var enableUsStock: bool
    var enableHkStock: bool
    var enableCnStock: bool
    var maxSubscriptions: int
    var enableRealtimeQuote: bool
    var enableOrderBook: bool
    var enableTicker: bool

    /** The field initialisers: enabled, 127.0.0.1:11111, unencrypted, US
        market only, real-time quotes only. */
    constructor ()
      ensures enabled && host == Some(DefaultHost) && port == DefaultPort
      ensures !enableEncrypt && keyFile == Some("") && connectionTimeout == 3000 && keepAliveInterval == 10
      ensures userAgent == Some("StockQuantSystem/1.0")
      ensures enableUsStock && !enableHkStock && !enableCnStock
      ensures maxSubscriptions == 100 && enableRealtimeQuote && !enableOrderBook && !enableTicker
      ensures IsValid()
    {
      enabled := true;
      host := Some(DefaultHost);
      port := DefaultPort;
      enableEncrypt := false;
      keyFile := Some("");
      connectionTimeout := 3000;
      keepAliveInterval := 10;
      userAgent := Some("StockQuantSystem/1.0");
      enableUsStock := true;
      enableHkStock := false;
      enableCnStock := false;
      maxSubscriptions := 100;
      enableRealtimeQuote := true;
      enableOrderBook := false;
      enableTicker := false;
      new;
      assert !IsTrimmed(DefaultHost[0]);
    }

    method SetEnabled(enabled: bool)
      modifies this`enabled
      ensures this.enabled == enabled
    {
      this.enabled := enabled;
    }

    method SetHost(host: Option<string>)
      modifies this`host
      ensures this.host == host
    {
      this.host := host;
    }

    method SetPort(port: int)
      modifies this`port
      ensures this.port == port
    {
      this.port := port;
    }

    /** isValid: the connection is enabled, the host is present and not
        blank, and the port is a TCP port number. */
    predicate IsValid()
      reads this
      ensures IsValid() <==> enabled && host.Some? && !Blank(host.value) && 0 < port <= MaxPort
    {
      enabled && host.Some? && Trim(host.value) != [] && 0 < port && port <= MaxPort
    }

    /** getConnectionUrl: "%s:%d" of host and port; a null host prints as
        "null". */
    function ConnectionUrl(): (r: string)
      reads this
    {
      HostText(host) + ":" + IntToString(port)
    }

    /** The URL of a host without ':' splits back into the host and the port. */
    lemma ConnectionUrlParts()
      requires host.Some? && forall i :: 0 <= i < |host.value| ==> host.value[i] != ':'
      requires port >= 0
      ensures IndexOf(ConnectionUrl(), ":") == Some(|host.value|)
      ensures ConnectionUrl()[..|host.value|] == host.value
      ensures ParseDecimal(ConnectionUrl()[|host.value| + 1..]) == Some(port as real)
    {
      var h := host.value;
      var digits := NatToString(port);
      assert ConnectionUrl() == h + ":" + digits;
      IndexOfAfter(h, ":", digits);
      assert ConnectionUrl()[|h| + 1..] == digits;
      ParseDecimalNatToString(port);
    }
  }

  /** How "%s" prints a string reference. */
  function HostText(host: Option<string>): (r: string)
    ensures host.Some? ==> r == host.value
  {
    match host
    case Some(h) => h
    case None => "null"
  }
}
