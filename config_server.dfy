/** The server section of the configuration in its three generations: the
    byte-sized one of internals/config/server.go, the one of
    internal/config/server.go whose sizes are text such as `1MB`, and the
    validated-only one of pkg/proxy/config/server.go. Durations are
    nanoseconds. */
module ServerConfigs {
  import opened Wrappers
  import opened ZeroValues
  import opened GoMath

  /** The fields of a server section with sizes in bytes. */
  datatype ServerSettings = ServerSettings(
    listen: string,
    readTimeout: int, writeTimeout: int, idleTimeout: int, shutdownTimeout: int,
    maxHeaderBytes: int, maxRequestBody: int)

  /** The fields of a server section with sizes as text. */
  datatype TextServerSettings = TextServerSettings(
    listen: string,
    readTimeout: int, writeTimeout: int, idleTimeout: int, shutdownTimeout: int,
    maxHeaderBytes: string, maxRequestBody: string)

  const ZeroServer := ServerSettings("", 0, 0, 0, 0, 0, 0)
  const ZeroTextServer := TextServerSettings("", 0, 0, 0, 0, "", "")

  /** The checks all three generations start with, in this order: an
      address to listen on, then the four timeouts non-negative. */
  function ValidateListen(listen: string, read: int, write: int, idle: int, shutdown: int): (o: Outcome)
    ensures o.Pass? <==> listen != "" && read >= 0 && write >= 0 && idle >= 0 && shutdown >= 0
  {
    if listen == "" then Fail("listen is required")
    else if read < 0 then Fail("read_timeout can't be negative")
    else if write < 0 then Fail("write_timeout can't be negative")
    else if idle < 0 then Fail("idle_timeout can't be negative")
    else if shutdown < 0 then Fail("shutdown_timeout can't be negative")
    else Pass
  }

  /** The byte-sized section's defaults: 15s to read and to write, 60s idle,
      1 MiB of headers, 10 MiB of body, 30s to shut down; non-zero values
      and the address are kept. */
  function DefaultedServer(s: ServerSettings): (d: ServerSettings)
    ensures d.listen == s.listen
    ensures s.readTimeout != 0 ==> d.readTimeout == s.readTimeout
    ensures s.writeTimeout != 0 ==> d.writeTimeout == s.writeTimeout
    ensures s.idleTimeout != 0 ==> d.idleTimeout == s.idleTimeout
    ensures s.shutdownTimeout != 0 ==> d.shutdownTimeout == s.shutdownTimeout
    ensures s.maxHeaderBytes != 0 ==> d.maxHeaderBytes == s.maxHeaderBytes
    ensures s.maxRequestBody != 0 ==> d.maxRequestBody == s.maxRequestBody
    ensures s.readTimeout == 0 ==> d.readTimeout == 15 * Second
    ensures s.writeTimeout == 0 ==> d.writeTimeout == 15 * Second
    ensures s.idleTimeout == 0 ==> d.idleTimeout == 60 * Second
    ensures s.shutdownTimeout == 0 ==> d.shutdownTimeout == 30 * Second
    ensures s.maxHeaderBytes == 0 ==> d.maxHeaderBytes == 1048576
    ensures s.maxRequestBody == 0 ==> d.maxRequestBody == 10 * 1048576
  {
    ServerSettings(s.listen,
      OrDefaultInt(s.readTimeout, 15 * Second), OrDefaultInt(s.writeTimeout, 15 * Second),
      OrDefaultInt(s.idleTimeout, 60 * Second), OrDefaultInt(s.shutdownTimeout, 30 * Second),
      OrDefaultInt(s.maxHeaderBytes, 1 * 1048576), OrDefaultInt(s.maxRequestBody, 10 * 1048576))
  }

  /** `validate` of internals/config/server.go: the common checks, then the
      two sizes non-negative. */
  function ValidateServer(s: ServerSettings): (o: Outcome)
    ensures o.Pass? <==> && s.listen != "" && s.readTimeout >= 0 && s.writeTimeout >= 0 && s.idleTimeout >= 0
                         && s.shutdownTimeout >= 0 && s.maxHeaderBytes >= 0 && s.maxRequestBody >= 0
    ensures s.listen == "" ==> o == Fail("listen is required")
    ensures ValidateListen(s.listen, s.readTimeout, s.writeTimeout, s.idleTimeout, s.shutdownTimeout).Fail? ==>
              o == ValidateListen(s.listen, s.readTimeout, s.writeTimeout, s.idleTimeout, s.shutdownTimeout)
    ensures (o == Fail("max_header_bytes can't be negative")) <==>
              ValidateListen(s.listen, s.readTimeout, s.writeTimeout, s.idleTimeout, s.shutdownTimeout).Pass? && s.maxHeaderBytes < 0
    ensures (o == Fail("max_request_body can't be negative")) <==>
              ValidateListen(s.listen, s.readTimeout, s.writeTimeout, s.idleTimeout, s.shutdownTimeout).Pass?
              && s.maxHeaderBytes >= 0 && s.maxRequestBody < 0
  {
    var common := ValidateListen(s.listen, s.readTimeout, s.writeTimeout, s.idleTimeout, s.shutdownTimeout);
    if common.Fail? then common
    else if s.maxHeaderBytes < 0 then Fail("max_header_bytes can't be negative")
    else if s.maxRequestBody < 0 then Fail("max_request_body can't be negative")
    else Pass
  }

  /** An all-zero section gets every default. */
  lemma ServerDefaultValues()
    ensures DefaultedServer(ZeroServer) == ServerSettings("", 15 * Second, 15 * Second, 60 * Second, 30 * Second, 1048576, 10485760)
  {
  }

  /** Defaulting twice is defaulting once. */
  lemma ServerDefaultsIdempotent(s: ServerSettings)
    ensures DefaultedServer(DefaultedServer(s)) == DefaultedServer(s)
  {
  }

  /** After defaults a section is valid iff it has an address and no field
      was negative to begin with: zero fields became positive defaults. */
  lemma DefaultedServerValidIff(s: ServerSettings)
    ensures ValidateServer(DefaultedServer(s)).Pass? <==>
      && s.listen != "" && s.readTimeout >= 0 && s.writeTimeout >= 0 && s.idleTimeout >= 0
      && s.shutdownTimeout >= 0 && s.maxHeaderBytes >= 0 && s.maxRequestBody >= 0
  {
  }

  /** `ServerConfig` of internals/config/server.go. */
  class ServerConfig {
    var listen: string
    var readTimeout: int
    var writeTimeout: int
    var idleTimeout: int
    var shutdownTimeout: int
    var maxHeaderBytes: int
    var maxRequestBody: int

    function Current(): ServerSettings
      reads this
    {
      ServerSettings(listen, readTimeout, writeTimeout, idleTimeout, shutdownTimeout, maxHeaderBytes, maxRequestBody)
    }

    constructor(s: ServerSettings)
      ensures Current() == s
    {
      listen, readTimeout, writeTimeout, idleTimeout := s.listen, s.readTimeout, s.writeTimeout, s.idleTimeout;
      shutdownTimeout, maxHeaderBytes, maxRequestBody := s.shutdownTimeout, s.maxHeaderBytes, s.maxRequestBody;
    }

    /** `applyDefaults`: each zero field is assigned its default. */
    method ApplyDefaults()
      modifies this
      ensures Current() == DefaultedServer(old(Current()))
    {
      if readTimeout == 0 {
        readTimeout := 15 * Second;
      }
      if writeTimeout == 0 {
        writeTimeout := 15 * Second;
      }
      if idleTimeout == 0 {
        idleTimeout := 60 * Second;
      }
      if maxHeaderBytes == 0 {
        maxHeaderBytes := 1 * 1048576;
      }
      if maxRequestBody == 0 {
        maxRequestBody := 10 * 1048576;
      }
      if shutdownTimeout == 0 {
        shutdownTimeout := 30 * Second;
      }
    }
  }

  /** The text-sized section's defaults: the same durations, and `1MB` and
      `10MB` for empty sizes. */
  function DefaultedTextServer(s: TextServerSettings): (d: TextServerSettings)
    ensures d.listen == s.listen
    ensures s.readTimeout != 0 ==> d.readTimeout == s.readTimeout
    ensures s.writeTimeout != 0 ==> d.writeTimeout == s.writeTimeout
    ensures s.idleTimeout != 0 ==> d.idleTimeout == s.idleTimeout
    ensures s.shutdownTimeout != 0 ==> d.shutdownTimeout == s.shutdownTimeout
    ensures s.maxHeaderBytes != "" ==> d.maxHeaderBytes == s.maxHeaderBytes
    ensures s.maxRequestBody != "" ==> d.maxRequestBody == s.maxRequestBody
    ensures s.readTimeout == 0 ==> d.readTimeout == 15 * Second
    ensures s.writeTimeout == 0 ==> d.writeTimeout == 15 * Second
    ensures s.idleTimeout == 0 ==> d.idleTimeout == 60 * Second
    ensures s.shutdownTimeout == 0 ==> d.shutdownTimeout == 30 * Second
    ensures s.maxHeaderBytes == "" ==> d.maxHeaderBytes == "1MB"
    ensures s.maxRequestBody == "" ==> d.maxRequestBody == "10MB"
  {
    TextServerSettings(s.listen,
      OrDefaultInt(s.readTimeout, 15 * Second), OrDefaultInt(s.writeTimeout, 15 * Second),
      OrDefaultInt(s.idleTimeout, 60 * Second), OrDefaultInt(s.shutdownTimeout, 30 * Second),
      OrDefault(s.maxHeaderBytes, "1MB"), OrDefault(s.maxRequestBody, "10MB"))
  }

  /** `validate` of internal/config/server.go: only the common checks; the
      size texts are not looked at. */
  function ValidateTextServer(s: TextServerSettings): (o: Outcome)
    ensures o.Pass? <==> s.listen != "" && s.readTimeout >= 0 && s.writeTimeout >= 0 && s.idleTimeout >= 0 && s.shutdownTimeout >= 0
  {
    ValidateListen(s.listen, s.readTimeout, s.writeTimeout, s.idleTimeout, s.shutdownTimeout)
  }

  /** The size texts never affect validation. */
  lemma TextSizesUnchecked(s: TextServerSettings, headerBytes: string, requestBody: string)
    ensures ValidateTextServer(s.(maxHeaderBytes := headerBytes, maxRequestBody := requestBody)) == ValidateTextServer(s)
  {
  }

  /** An all-zero section gets every default. */
  lemma TextServerDefaultValues()
    ensures DefaultedTextServer(ZeroTextServer) == TextServerSettings("", 15 * Second, 15 * Second, 60 * Second, 30 * Second, "1MB", "10MB")
  {
  }

  lemma TextServerDefaultsIdempotent(s: TextServerSettings)
    ensures DefaultedTextServer(DefaultedTextServer(s)) == DefaultedTextServer(s)
  {
  }

  /** `ServerConfig` of internal/config/server.go. */
  class TextServerConfig {
    var listen: string
    var readTimeout: int
    var writeTimeout: int
    var idleTimeout: int
    var shutdownTimeout: int
    var maxHeaderBytes: string
    var maxRequestBody: string

    function Current(): TextServerSettings
      reads this
    {
      TextServerSettings(listen, readTimeout, writeTimeout, idleTimeout, shutdownTimeout, maxHeaderBytes, maxRequestBody)
    }

    constructor(s: TextServerSettings)
      ensures Current() == s
    {
      listen, readTimeout, writeTimeout, idleTimeout := s.listen, s.readTimeout, s.writeTimeout, s.idleTimeout;
      shutdownTimeout, maxHeaderBytes, maxRequestBody := s.shutdownTimeout, s.maxHeaderBytes, s.maxRequestBody;
    }

    /** `applyDefaults`: each zero duration and each empty size is assigned
        its default. */
    method ApplyDefaults()
      modifies this
      ensures Current() == DefaultedTextServer(old(Current()))
    {
      if readTimeout == 0 {
        readTimeout := 15 * Second;
      }
      if writeTimeout == 0 {
        writeTimeout := 15 * Second;
      }
      if idleTimeout == 0 {
        idleTimeout := 60 * Second;
      }
      if maxHeaderBytes == "" {
        maxHeaderBytes := "1MB";
      }
      if maxRequestBody == "" {
        maxRequestBody := "10MB";
      }
      if shutdownTimeout == 0 {
        shutdownTimeout := 30 * Second;
      }
    }
  }

  /** `validate` of pkg/proxy/config/server.go: the common checks only, so
      the two byte sizes may be anything, negative included. */
  function ValidateProxyServer(s: ServerSettings): (o: Outcome)
    ensures o.Pass? <==> s.listen != "" && s.readTimeout >= 0 && s.writeTimeout >= 0 && s.idleTimeout >= 0 && s.shutdownTimeout >= 0
  {
    ValidateListen(s.listen, s.readTimeout, s.writeTimeout, s.idleTimeout, s.shutdownTimeout)
  }

  /** The byte sizes never affect validation. */
  lemma ProxySizesUnchecked(s: ServerSettings, headerBytes: int, requestBody: int)
    ensures ValidateProxyServer(s.(maxHeaderBytes := headerBytes, maxRequestBody := requestBody)) == ValidateProxyServer(s)
  {
  }

  /** An error is reported only when every earlier check holds: an empty
      address is reported whatever else is wrong, and each timeout's error
      only when the address and the timeouts before it are fine. */
  lemma ListenChecksOrder(listen: string, read: int, write: int, idle: int, shutdown: int)
    ensures var o := ValidateListen(listen, read, write, idle, shutdown);
      && (listen == "" <==> o == Fail("listen is required"))
      && (o == Fail("read_timeout can't be negative") <==> listen != "" && read < 0)
      && (o == Fail("write_timeout can't be negative") <==> listen != "" && read >= 0 && write < 0)
      && (o == Fail("idle_timeout can't be negative") <==> listen != "" && read >= 0 && write >= 0 && idle < 0)
      && (o == Fail("shutdown_timeout can't be negative") <==> listen != "" && read >= 0 && write >= 0 && idle >= 0 && shutdown < 0)
  {
  }
}
