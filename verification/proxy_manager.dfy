/**
 `ProxyManager`: reads the proxy settings out of the registry store as an
 (enabled, ip, port) triple, and writes them back in three ways (set,
 reset, toggle). No operation fails outward: a read that goes wrong
 yields the disabled, empty triple and a write that goes wrong answers
 `false`.
 */
module ProxyManager {
  import opened Text
  import opened Optional
  import opened Registry

  /** The triple `get_proxy_settings` returns. */
  datatype Settings = Settings(enabled: bool, ip: string, port: string)

  /** What the read falls back to whenever anything goes wrong. */
  const Default := Settings(false, "", "")

  /**
   Why a read fell back: the key would not open, `ProxyEnable` is
   missing, or unpacking `server.split(":")` into two names found more
   than two pieces.
   */
  datatype ReadError = KeyNotOpened | EnableMissing | TooManyValues

  /** A read that keeps apart a real disabled state and a failed read. */
  datatype ReadOutcome = Read(settings: Settings) | Failed(error: ReadError)

  datatype ParsedServer = HostPort(ip: string, port: string) | UnpackError

  /** The `ProxyServer` text, an absent value reading as empty. */
  function ServerValue(st: Store): string {
    match st.proxyServer
    case None => ""
    case Some(text) => text
  }

  /** The `ProxyServer` text `set_proxy` writes for an address and port. */
  function Compose(ip: string, port: string): string {
    ip + ":" + port
  }

  /**
   The parse in `get_proxy_settings`: empty text gives two empty fields,
   text without a colon is all address, and text with colons is split on
   every colon and must come apart into exactly two pieces. So the parse
   fails exactly when there are two or more colons; otherwise the fields
   hold no colon and put back together give the text.
   */
  function ParseServer(server: string): (p: ParsedServer)
    ensures p.UnpackError? <==> Count(server, ':') >= 2
    ensures p.HostPort? ==> ':' !in p.ip && ':' !in p.port
    ensures Count(server, ':') == 0 ==> p == HostPort(server, "")
    ensures Count(server, ':') == 1 ==> p.HostPort? && Compose(p.ip, p.port) == server
  {
    if server == "" then HostPort("", "")
    else if ':' in server then
      var parts := Split(server, ':');
      if |parts| == 2 then
        assert Join(parts, ':') == Compose(parts[0], parts[1]) by {
          assert parts[1..] == [parts[1]];
        }
        HostPort(parts[0], parts[1])
      else UnpackError
    else HostPort(server, "")
  }

  /** Address and port free of colons survive the compose-then-parse round trip. */
  lemma ParseCompose(ip: string, port: string)
    requires ':' !in ip && ':' !in port
    ensures ParseServer(Compose(ip, port)) == HostPort(ip, port)
  {
    assert Compose(ip, port) == ip + [':'] + port;
    SplitAfterPrefix(ip, port, ':');
    SplitWithoutSeparator(port, ':');
  }

  /** A colon in either field puts two or more colons in the composed text. */
  lemma ComposeWithColonHasTwo(ip: string, port: string)
    requires ':' in ip || ':' in port
    ensures Count(Compose(ip, port), ':') >= 2
  {
    CountAppend(ip, [':'] + port, ':');
    CountAppend([':'], port, ':');
    assert Compose(ip, port) == ip + ([':'] + port);
  }

  /**
   The read with its failure kept: which error happens is decided in the
   order the source meets them (open, `ProxyEnable`, unpacking).
   */
  function ReadStore(st: Store): (r: ReadOutcome)
    ensures r == Failed(KeyNotOpened) <==> !st.openable
    ensures r == Failed(EnableMissing) <==> st.openable && st.proxyEnable.None?
    ensures r == Failed(TooManyValues) <==>
              st.openable && st.proxyEnable.Some? && Count(ServerValue(st), ':') >= 2
  {
    if !st.openable then Failed(KeyNotOpened)
    else if st.proxyEnable.None? then Failed(EnableMissing)
    else match ParseServer(ServerValue(st))
      case UnpackError => Failed(TooManyValues)
      case HostPort(ip, port) => Read(Settings(st.proxyEnable.value != 0, ip, port))
  }

  /**
   `get_proxy_settings`. Any failure gives exactly `(False, "", "")`.
   Otherwise enabled is the truth value of `ProxyEnable` (non-zero is
   true), a `ProxyServer` without a colon is all address, and one with a
   single colon is cut at it.
   */
  function GetProxySettings(st: Store): (r: Settings)
    ensures !st.openable || st.proxyEnable.None? || Count(ServerValue(st), ':') >= 2 ==> r == Default
    ensures st.openable && st.proxyEnable.Some? && Count(ServerValue(st), ':') <= 1 ==>
              r.enabled == (st.proxyEnable.value != 0)
    ensures st.openable && st.proxyEnable.Some? && ':' !in ServerValue(st) ==>
              r.ip == ServerValue(st) && r.port == ""
    ensures st.openable && st.proxyEnable.Some? && Count(ServerValue(st), ':') == 1 ==>
              ':' !in r.ip && ':' !in r.port && Compose(r.ip, r.port) == ServerValue(st)
  {
    match ReadStore(st)
    case Read(settings) => settings
    case Failed(_) => Default
  }

  /** A single-colon `ProxyServer` reads back as the text before and after the colon. */
  lemma ReadOneColon(st: Store, i: nat)
    requires st.openable && st.proxyEnable.Some?
    requires i < |ServerValue(st)| && ServerValue(st)[i] == ':' && Count(ServerValue(st), ':') == 1
    ensures GetProxySettings(st) ==
              Settings(st.proxyEnable.value != 0, ServerValue(st)[..i], ServerValue(st)[i + 1..])
  {
    var s := ServerValue(st);
    var ip, port := s[..i], s[i + 1..];
    assert s == ip + ([':'] + port);
    CountAppend(ip, [':'] + port, ':');
    CountAppend([':'], port, ':');
    assert Compose(ip, port) == s;
    ParseCompose(ip, port);
  }

  /** A `ProxyServer` with no colon reads as all address and an empty port. */
  lemma ReadNoColon(st: Store)
    requires st.openable && st.proxyEnable.Some? && ':' !in ServerValue(st)
    ensures GetProxySettings(st) == Settings(st.proxyEnable.value != 0, ServerValue(st), "")
  {
  }

  /** An absent or empty `ProxyServer` reads as empty fields, enabled still taken from `ProxyEnable`. */
  lemma ReadEmptyServer(st: Store)
    requires st.openable && st.proxyEnable.Some?
    requires st.proxyServer == None || st.proxyServer == Some("")
    ensures GetProxySettings(st) == Settings(st.proxyEnable.value != 0, "", "")
  {
  }

  /**
   `set_proxy(ip, port)`: succeeds exactly when the key opens and both
   value writes go through, leaving `ProxyServer` = ip:port and
   `ProxyEnable` = 1; on failure at most the server text was written.
   */
  function SetProxy(st: Store, ip: string, port: string, fault: WriteFault): (r: (Store, bool))
    ensures r.1 <==> st.openable && Completes(fault, 2)
    ensures r.1 ==> r.0 == st.(proxyServer := Some(Compose(ip, port)), proxyEnable := Some(1))
    ensures !r.1 ==> r.0 == st || r.0 == st.(proxyServer := Some(Compose(ip, port)))
  {
    var ws := [SetProxyServer(Compose(ip, port)), SetProxyEnable(1)];
    FailedPairSession(st, ws[0], ws[1], fault);
    assert ws[1..] == [ws[1]];
    Session(st, ws, fault)
  }

  /**
   `reset_proxy`: succeeds exactly when the key opens and both writes go
   through, leaving `ProxyServer` empty and `ProxyEnable` = 0; on failure
   at most the server text was cleared.
   */
  function ResetProxy(st: Store, fault: WriteFault): (r: (Store, bool))
    ensures r.1 <==> st.openable && Completes(fault, 2)
    ensures r.1 ==> r.0 == st.(proxyServer := Some(""), proxyEnable := Some(0))
    ensures !r.1 ==> r.0 == st || r.0 == st.(proxyServer := Some(""))
  {
    var ws := [SetProxyServer(""), SetProxyEnable(0)];
    FailedPairSession(st, ws[0], ws[1], fault);
    assert ws[1..] == [ws[1]];
    Session(st, ws, fault)
  }

  /**
   `toggle_proxy`: reads, then writes only `ProxyEnable`: 0 when the read
   said enabled, 1 otherwise, an unreadable key counting as disabled.
   `ProxyServer` is never touched and a failed write changes nothing.
   */
  function ToggleProxy(st: Store, fault: WriteFault): (r: (Store, bool))
    ensures r.1 <==> st.openable && Completes(fault, 1)
    ensures r.0.openable == st.openable && r.0.proxyServer == st.proxyServer
    ensures r.1 ==> r.0.proxyEnable == Some(if ReadStore(st).Read? && st.proxyEnable.value != 0 then 0 else 1)
    ensures !r.1 ==> r.0 == st
  {
    var newStatus := if GetProxySettings(st).enabled then 0 else 1;
    var ws := [SetProxyEnable(newStatus)];
    assert OnlyEnableWrites(ws);
    var res := Session(st, ws, fault);
    assert ws[..0] == [];
    res
  }

  /** After a successful `set_proxy` with colon-free fields, the read returns them, enabled. */
  lemma ReadAfterSet(st: Store, ip: string, port: string, fault: WriteFault)
    requires SetProxy(st, ip, port, fault).1
    requires ':' !in ip && ':' !in port
    ensures ReadStore(SetProxy(st, ip, port, fault).0) == Read(Settings(true, ip, port))
    ensures GetProxySettings(SetProxy(st, ip, port, fault).0) == Settings(true, ip, port)
  {
    ParseCompose(ip, port);
  }

  /**
   A successful `set_proxy` whose address or port holds a colon (an IPv6
   address, say) leaves a server text the read cannot unpack: the proxy
   is on, yet the read reports the disabled, empty triple.
   */
  lemma SetWithColonReadsDefault(st: Store, ip: string, port: string, fault: WriteFault)
    requires SetProxy(st, ip, port, fault).1
    requires ':' in ip || ':' in port
    ensures SetProxy(st, ip, port, fault).0.proxyEnable == Some(1)
    ensures ReadStore(SetProxy(st, ip, port, fault).0) == Failed(TooManyValues)
    ensures GetProxySettings(SetProxy(st, ip, port, fault).0) == Default
  {
    ComposeWithColonHasTwo(ip, port);
  }

  /** After a successful `reset_proxy` the read genuinely reads the disabled, empty triple. */
  lemma ReadAfterReset(st: Store, fault: WriteFault)
    requires ResetProxy(st, fault).1
    ensures ReadStore(ResetProxy(st, fault).0) == Read(Default)
  {
  }

  /**
   Two successful toggles on a readable key restore the truth value of
   `ProxyEnable`, and with it everything the read reports.
   */
  lemma ToggleTwice(st: Store, f1: WriteFault, f2: WriteFault)
    requires ReadStore(st).Read?
    requires ToggleProxy(st, f1).1 && ToggleProxy(ToggleProxy(st, f1).0, f2).1
    ensures var st2 := ToggleProxy(ToggleProxy(st, f1).0, f2).0;
            (st2.proxyEnable.value != 0) == (st.proxyEnable.value != 0)
            && GetProxySettings(st2) == GetProxySettings(st)
  {
    var st1 := ToggleProxy(st, f1).0;
    assert ServerValue(st1) == ServerValue(st);
  }

  /**
   On a key whose `ProxyServer` has two or more colons every successful
   toggle writes 1, so toggling can never switch the proxy off.
   */
  lemma ToggleCannotDisable(st: Store, fault: WriteFault)
    requires Count(ServerValue(st), ':') >= 2
    requires ToggleProxy(st, fault).1
    ensures ToggleProxy(st, fault).0.proxyEnable == Some(1)
    ensures Count(ServerValue(ToggleProxy(st, fault).0), ':') >= 2
  {
  }

  /** The read on two concrete keys: a configured proxy and a cleared one. */
  lemma ReadScenarios()
    ensures GetProxySettings(Store(true, Some(1), Some("127.0.0.1:7890"))) == Settings(true, "127.0.0.1", "7890")
    ensures GetProxySettings(Store(true, Some(0), Some(""))) == Default
    ensures GetProxySettings(Store(false, Some(1), Some("127.0.0.1:7890"))) == Default
  {
    var configured := Store(true, Some(1), Some("127.0.0.1:7890"));
    assert ':' !in "127.0.0.1" && ':' !in "7890";
    assert ServerValue(configured) == Compose("127.0.0.1", "7890");
    ParseCompose("127.0.0.1", "7890");
  }
}
