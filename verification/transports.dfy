/**
 * The upload transports and the fallback chain between them:
 * upload_to_bunny_http() (a cURL PUT that falls back to the WordPress HTTP API
 * on a non-2xx status), upload_to_bunny_ftp_curl(), the native FTP session at
 * the end of upload_to_bunny_ftp(), and upload_to_bunny() which chains them.
 *
 * Each transport is a function of the options, the file path and the outcomes
 * of the calls it cannot see (file reads, the network). It returns the CDN URL
 * or nothing, the attempts it made in order, and the log_error() calls it made,
 * which the site replays against its stored state.
 */
module Transports {
  import opened Php
  import opened Settings
  import opened ErrorLog

  datatype Transport = Http | WpHttp | CurlFtp | NativeFtp

  /** What a transport sent to the storage service, once it got that far. */
  datatype Request =
    | HttpPut(url: string, accessKey: string)
    | CurlFtpPut(url: string, username: string, password: string)
    | FtpPut(host: string, username: string, password: string, remoteName: string)

  /** One invocation of a transport: what it sent, if anything, and whether it returned a URL. */
  datatype Attempt = Attempt(transport: Transport, request: Option<Request>, ok: bool)

  /** The result of a transport or of a chain of them. */
  datatype Step = Step(url: Option<string>, trace: seq<Attempt>, logs: seq<LogCall>)

  /** file_get_contents() and the cURL PUT: errno, error text, HTTP status and response body. */
  datatype CurlPutOutcome = CurlPutOutcome(readOk: bool, errno: nat, error: string, status: nat, body: string)

  /** file_get_contents() and wp_remote_request(): a WP_Error message, or a status and a body. */
  datatype WpPutOutcome = WpPutOutcome(readOk: bool, wpError: Option<string>, status: nat, body: string)

  /** The outcomes one call of upload_to_bunny_http() meets, including its WordPress HTTP fallback. */
  datatype HttpOutcomes = HttpOutcomes(curl: CurlPutOutcome, wp: WpPutOutcome)

  /** curl_exec() of the FTP upload: errno, error text and the last response code. */
  datatype CurlFtpOutcome = CurlFtpOutcome(errno: nat, error: string, status: nat)

  /**
   * The native FTP session: whether ftp_ssl_connect() and ftp_connect() succeed,
   * what gethostbyname() returns (None when that function is not available),
   * and whether ftp_login() and ftp_put() succeed.
   */
  datatype FtpOutcome = FtpOutcome(tlsConnects: bool, plainConnects: bool, resolved: Option<string>, loginOk: bool, putOk: bool)

  /** Everything outside the plugin that one upload_to_bunny($file_path) call depends on. */
  datatype Env = Env(
    attachmentId: nat,        // get_attachment_id_by_file($file_path), 0 when there is none
    fileExists: bool,         // file_exists($file_path)
    curlAvailable: bool,      // function_exists('curl_init')
    ftpAvailable: bool,       // function_exists('ftp_connect')
    ftpsAvailable: bool,      // function_exists('ftp_ssl_connect')
    directHttp: HttpOutcomes, // the HTTP call upload_to_bunny() makes itself
    ftpHttp: HttpOutcomes,    // the HTTP call at the top of upload_to_bunny_ftp()
    curlFtp: CurlFtpOutcome,
    ftp: FtpOutcome)

  /** The two log_error() calls made when get_bunny_settings() fails inside a transport. */
  function SettingsRejected(missing: seq<Field>, own: Problem): seq<LogCall> {
    [LogCall(MissingSettings(missing), 0), LogCall(own, 0)]
  }

  /** The URL a successful upload returns: the normalised pull-zone URL followed by the file's basename. */
  function CdnUrl(s: Settings, path: string): string {
    s.config.pullZoneUrl + Basename(path)
  }

  /** The Storage API key: the API key when set, otherwise the FTP password. */
  function AccessKey(c: Config): string {
    if !Empty(c.apiKey) then c.apiKey else c.ftpPassword
  }

  function StorageUrl(s: Settings, filename: string): string {
    "https://" + s.storageEndpoint + "/" + s.config.storageZone + "/" + filename
  }

  /** The PUT both HTTP transports send. */
  function HttpRequest(s: Settings, path: string): Request {
    HttpPut(StorageUrl(s, Basename(path)), AccessKey(s.config))
  }

  /** A regional storage host is replaced by the global one; any other host is kept. */
  function RewriteFtpHost(host: string): (r: string)
    ensures Contains(host, ".storage.bunnycdn.com") ==> r == StorageHost
    ensures !Contains(host, ".storage.bunnycdn.com") ==> r == host
    ensures !Contains(r, ".storage.bunnycdn.com")
  {
    if Contains(host, ".storage.bunnycdn.com") then
      ShorterDoesNotContain(StorageHost, ".storage.bunnycdn.com");
      StorageHost
    else host
  }

  lemma RewriteFtpHostIdempotent(host: string)
    ensures RewriteFtpHost(RewriteFtpHost(host)) == RewriteFtpHost(host)
  {
  }

  /** Both FTP transports refuse to start unless these four values are non-empty. */
  predicate FtpCredentialsPresent(s: Settings) {
    && !Empty(RewriteFtpHost(s.config.ftpHost))
    && !Empty(s.config.ftpUsername)
    && !Empty(s.config.ftpPassword)
    && !Empty(s.config.pullZoneUrl)
  }

  function CurlFtpRequest(s: Settings, path: string): Request {
    CurlFtpPut("ftp://" + RewriteFtpHost(s.config.ftpHost) + "/" + Basename(path), s.config.ftpUsername, s.config.ftpPassword)
  }

  function FtpRequest(s: Settings, path: string): Request {
    FtpPut(RewriteFtpHost(s.config.ftpHost), s.config.ftpUsername, s.config.ftpPassword, Basename(path))
  }

  /** The file was there and could be read for an HTTP upload. */
  predicate HttpSent(res: Resolution, env: Env, c: CurlPutOutcome) {
    res.Resolved? && env.fileExists && c.readOk
  }

  predicate Is2xx(status: nat) {
    200 <= status < 300
  }

  /** A transport that gave up: one failed attempt and what it logged. */
  function Failed(t: Transport, sent: Option<Request>, logs: seq<LogCall>): Step {
    Step(None, [Attempt(t, sent, false)], logs)
  }

  /** upload_to_bunny_wp_http(): the last-resort PUT through wp_remote_request(). */
  function WpHttpUpload(res: Resolution, path: string, env: Env, out: WpPutOutcome): (r: Step)
    ensures |r.trace| == 1 && r.trace[0].transport == WpHttp && (r.trace[0].ok <==> r.url.Some?)
    ensures r.url.Some? <==> res.Resolved? && env.fileExists && out.readOk && out.wpError.None? && Is2xx(out.status)
    ensures r.url.Some? ==> r.url.value == CdnUrl(res.settings, path)
    ensures r.trace[0].request.Some? ==> res.Resolved? && r.trace[0].request.value == HttpRequest(res.settings, path)
    ensures r.url.None? <==> r.logs != []
  {
    match res
    case Unresolved(missing) =>
      Failed(WpHttp, None, SettingsRejected(missing, WpHttpMissingCredentials))
    case Resolved(s) =>
      var id := env.attachmentId;
      // file_get_contents() of a missing file fails too
      if !(env.fileExists && out.readOk) then
        Failed(WpHttp, None, [LogCall(WpHttpFileReadError, id)])
      else
        var sent := Some(HttpRequest(s, path));
        if out.wpError.Some? then
          Failed(WpHttp, sent, [LogCall(WpHttpError(out.wpError.value), id)])
        else if Is2xx(out.status) then
          Step(Some(CdnUrl(s, path)), [Attempt(WpHttp, sent, true)], [])
        else
          Failed(WpHttp, sent, [LogCall(WpHttpStatusError(out.status, out.body), id)])
  }

  /**
   * upload_to_bunny_http(): a cURL PUT to the Storage API. Only a completed
   * request with a non-2xx status falls back to the WordPress HTTP API; that
   * failure is logged even when the fallback then succeeds.
   */
  function HttpUpload(res: Resolution, path: string, env: Env, out: HttpOutcomes): (r: Step)
    ensures 1 <= |r.trace| <= 2 && r.trace[0].transport == Http
    ensures r.trace[0].ok <==> HttpSent(res, env, out.curl) && out.curl.errno == 0 && Is2xx(out.curl.status)
    ensures |r.trace| == 2 <==> HttpSent(res, env, out.curl) && out.curl.errno == 0 && !Is2xx(out.curl.status)
    ensures |r.trace| == 2 ==> r.trace[1] == WpHttpUpload(res, path, env, out.wp).trace[0]
    ensures IsHttpRound(Kinds(r.trace))
    ensures WellFormed(r)
    ensures r.url.Some? ==> res.Resolved? && r.url.value == CdnUrl(res.settings, path)
    ensures forall i :: 0 <= i < |r.trace| && r.trace[i].request.Some? ==> res.Resolved? && r.trace[i].request.value == HttpRequest(res.settings, path)
    ensures r.url.None? ==> r.logs != []
    ensures |r.trace| == 2 ==> r.logs != [] && r.logs[0] == LogCall(HttpStatusError(out.curl.status, out.curl.body), env.attachmentId)
  {
    match res
    case Unresolved(missing) =>
      Failed(Http, None, SettingsRejected(missing, HttpMissingCredentials))
    case Resolved(s) =>
      var id := env.attachmentId;
      var c := out.curl;
      if !env.fileExists then
        Failed(Http, None, [LogCall(HttpFileNotFound(path), id)])
      else if !c.readOk then
        Failed(Http, None, [LogCall(HttpFileReadError, id)])
      else
        var sent := Some(HttpRequest(s, path));
        if c.errno != 0 then
          Failed(Http, sent, [LogCall(HttpCurlError(c.errno, c.error), id)])
        else if !Is2xx(c.status) then
          var w := WpHttpUpload(res, path, env, out.wp);
          Step(w.url, [Attempt(Http, sent, false)] + w.trace, [LogCall(HttpStatusError(c.status, c.body), id)] + w.logs)
        else
          Step(Some(CdnUrl(s, path)), [Attempt(Http, sent, true)], [])
  }

  /** upload_to_bunny_ftp_curl(): an FTP upload through cURL to the (rewritten) FTP host. */
  function CurlFtpUpload(res: Resolution, path: string, env: Env): (r: Step)
    ensures |r.trace| == 1 && r.trace[0].transport == CurlFtp && (r.trace[0].ok <==> r.url.Some?)
    ensures r.url.Some? <==>
      && res.Resolved? && FtpCredentialsPresent(res.settings) && env.fileExists
      && env.curlFtp.errno == 0 && env.curlFtp.status < 400
    ensures r.url.Some? ==> r.url.value == CdnUrl(res.settings, path)
    ensures r.trace[0].request.Some? ==> res.Resolved? && r.trace[0].request.value == CurlFtpRequest(res.settings, path)
    ensures r.url.None? <==> r.logs != []
  {
    match res
    case Unresolved(missing) =>
      Failed(CurlFtp, None, SettingsRejected(missing, CurlMissingCredentials))
    case Resolved(s) =>
      var id := env.attachmentId;
      var c := env.curlFtp;
      if !FtpCredentialsPresent(s) then
        Failed(CurlFtp, None, [LogCall(CurlMissingCredentials, 0)])
      else if !env.fileExists then
        Failed(CurlFtp, None, [LogCall(CurlFileNotFound(path), id)])
      else
        var sent := Some(CurlFtpRequest(s, path));
        if c.errno != 0 then
          Failed(CurlFtp, sent, [LogCall(CurlFtpError(c.errno, c.error), id)])
        else if c.status >= 400 then
          Failed(CurlFtp, sent, [LogCall(CurlFtpHttpError(c.status), id)])
        else
          Step(Some(CdnUrl(s, path)), [Attempt(CurlFtp, sent, true)], [])
  }

  /** A connection is made: over FTPS when ftp_ssl_connect() exists and succeeds, else over plain FTP. */
  predicate FtpConnects(env: Env) {
    (env.ftpsAvailable && env.ftp.tlsConnects) || env.ftp.plainConnects
  }

  /** The debug record the native FTP path logs on every run that gets past the settings check. */
  function FtpDebugRecord(s: Settings): LogCall {
    var c := s.config;
    LogCall(DebugFtpSettings(RewriteFtpHost(c.ftpHost), c.ftpUsername, Empty(c.ftpPassword), c.pullZoneUrl), 0)
  }

  /** The per-item log_error() calls that follow 'missing_ftp_settings'. */
  function MissingFtpItems(s: Settings): seq<LogCall> {
    var c := s.config;
    (if Empty(RewriteFtpHost(c.ftpHost)) then [LogCall(MissingFtpHost, 0)] else [])
    + (if Empty(c.ftpUsername) then [LogCall(MissingFtpUsername, 0)] else [])
    + (if Empty(c.ftpPassword) then [LogCall(MissingFtpPassword, 0)] else [])
    + (if Empty(c.pullZoneUrl) then [LogCall(MissingPullZoneUrl, 0)] else [])
  }

  /** What a failed connection logs beyond 'ftp_connect_failed'. */
  function ConnectDiagnostics(host: string, env: Env): seq<LogCall> {
    (if !env.ftpsAvailable then [LogCall(FtpsNotAvailable, 0)] else [])
    + match env.ftp.resolved
      case None => []
      case Some(ip) =>
        if ip == host then [LogCall(HostnameResolutionFailed(host), 0)] else [LogCall(HostnameResolved(ip), 0)]
  }

  /**
   * The native FTP session that ends upload_to_bunny_ftp(). It always logs
   * something: a failure, or on every run past the settings check the
   * 'debug_ftp_settings' record, a successful upload included.
   */
  function NativeFtpUpload(res: Resolution, path: string, env: Env): (r: Step)
    ensures |r.trace| == 1 && r.trace[0].transport == NativeFtp && (r.trace[0].ok <==> r.url.Some?)
    ensures r.url.Some? <==>
      && env.ftpAvailable && res.Resolved? && FtpCredentialsPresent(res.settings)
      && env.fileExists && FtpConnects(env) && env.ftp.loginOk && env.ftp.putOk
    ensures r.url.Some? ==> r.url.value == CdnUrl(res.settings, path)
    ensures r.trace[0].request.Some? ==> res.Resolved? && r.trace[0].request.value == FtpRequest(res.settings, path)
    ensures r.logs != []
    ensures env.ftpAvailable && res.Resolved? ==> r.logs[0] == FtpDebugRecord(res.settings)
    ensures r.url.Some? ==> |r.logs| == 1
  {
    if !env.ftpAvailable then
      Failed(NativeFtp, None, [LogCall(FtpExtensionMissing, 0)])
    else
      match res
      case Unresolved(missing) =>
        Failed(NativeFtp, None, SettingsRejected(missing, MissingFtpSettings))
      case Resolved(s) =>
        var id := env.attachmentId;
        var host := RewriteFtpHost(s.config.ftpHost);
        var debug := FtpDebugRecord(s);
        if !FtpCredentialsPresent(s) then
          Failed(NativeFtp, None, [debug, LogCall(MissingFtpSettings, 0)] + MissingFtpItems(s))
        else if !env.fileExists then
          Failed(NativeFtp, None, [debug, LogCall(FtpFileNotFound(path), id)])
        else
          var sent := Some(FtpRequest(s, path));
          if !FtpConnects(env) then
            Failed(NativeFtp, sent, [debug, LogCall(FtpConnectFailed(host), id)] + ConnectDiagnostics(host, env))
          else if !env.ftp.loginOk then
            Failed(NativeFtp, sent, [debug, LogCall(FtpLoginFailed(s.config.ftpUsername), id)])
          else if !env.ftp.putOk then
            Failed(NativeFtp, sent, [debug, LogCall(FtpUploadFailed(Basename(path)), id)])
          else
            Step(Some(CdnUrl(s, path)), [Attempt(NativeFtp, sent, true)], [debug])
  }

  /** Running b after a failed a: b's URL, both traces, both logs. */
  function Then(a: Step, b: Step): Step {
    Step(b.url, a.trace + b.trace, a.logs + b.logs)
  }

  /** A chain stops at its first success: only its last attempt may succeed, and it returns a URL exactly when that one did. */
  predicate WellFormed(s: Step) {
    && s.trace != []
    && (forall i :: 0 <= i < |s.trace| - 1 ==> !s.trace[i].ok)
    && (s.url.Some? <==> s.trace[|s.trace| - 1].ok)
  }

  /** The transports of a trace, in order. */
  function Kinds(t: seq<Attempt>): (k: seq<Transport>)
    ensures |k| == |t|
    ensures forall i :: 0 <= i < |t| ==> k[i] == t[i].transport
  {
    seq(|t|, i requires 0 <= i < |t| => t[i].transport)
  }

  /** Running a step after a failed one keeps the chain stopping at its first success. */
  lemma ThenWellFormed(a: Step, b: Step)
    requires WellFormed(a) && a.url.None? && WellFormed(b)
    ensures WellFormed(Then(a, b))
    ensures Kinds(Then(a, b).trace) == Kinds(a.trace) + Kinds(b.trace)
    ensures Then(a, b).trace[|Then(a, b).trace| - 1] == b.trace[|b.trace| - 1]
  {
    var t := a.trace + b.trace;
    forall i | 0 <= i < |t| - 1
      ensures !t[i].ok
    {
      if i >= |a.trace| {
        assert t[i] == b.trace[i - |a.trace|];
      }
    }
  }

  /** One call of upload_to_bunny_http(): cURL alone, or cURL then the WordPress HTTP API. */
  predicate IsHttpRound(k: seq<Transport>) {
    k == [Http] || k == [Http, WpHttp]
  }

  /**
   * What upload_to_bunny_ftp() runs after its HTTP round, as far as needed:
   * cURL FTP only when cURL is loaded, then native FTP.
   */
  predicate IsFtpFallbacks(k: seq<Transport>, curl: bool) {
    if curl then k == [] || k == [CurlFtp] || k == [CurlFtp, NativeFtp]
    else k == [] || k == [NativeFtp]
  }

  /** One call of upload_to_bunny_ftp(): an HTTP round, then its fallbacks. */
  predicate IsFtpChain(k: seq<Transport>, curl: bool) {
    || (|k| >= 1 && IsHttpRound(k[..1]) && IsFtpFallbacks(k[1..], curl))
    || (|k| >= 2 && IsHttpRound(k[..2]) && IsFtpFallbacks(k[2..], curl))
  }

  /** An HTTP round followed by a whole upload_to_bunny_ftp() call. */
  predicate IsHttpThenFtpChain(k: seq<Transport>, curl: bool) {
    || (|k| >= 1 && IsHttpRound(k[..1]) && IsFtpChain(k[1..], curl))
    || (|k| >= 2 && IsHttpRound(k[..2]) && IsFtpChain(k[2..], curl))
  }

  lemma FtpChainShape(h: seq<Transport>, f: seq<Transport>, curl: bool)
    requires IsHttpRound(h) && IsFtpFallbacks(f, curl)
    ensures IsFtpChain(h + f, curl)
  {
    assert (h + f)[..|h|] == h && (h + f)[|h|..] == f;
  }

  lemma HttpThenFtpChainShape(h: seq<Transport>, f: seq<Transport>, curl: bool)
    requires IsHttpRound(h) && IsFtpChain(f, curl)
    ensures IsHttpThenFtpChain(h + f, curl)
  {
    assert (h + f)[..|h|] == h && (h + f)[|h|..] == f;
  }

  /** The fallbacks upload_to_bunny_ftp() runs once HTTP has failed: cURL FTP if loaded, then native FTP if still needed. */
  function FtpFallbacks(res: Resolution, path: string, env: Env): (r: Step)
    ensures WellFormed(r)
    ensures r.url.Some? ==> res.Resolved? && r.url.value == CdnUrl(res.settings, path)
    ensures r.url.None? ==> r.logs != []
  {
    var n := NativeFtpUpload(res, path, env);
    if env.curlAvailable then
      var c := CurlFtpUpload(res, path, env);
      if c.url.Some? then c
      else
        ThenWellFormed(c, n);
        Then(c, n)
    else n
  }

  /** upload_to_bunny_ftp(): HTTP again, then cURL FTP when cURL is loaded, then native FTP. */
  function FtpChain(res: Resolution, path: string, env: Env): (r: Step)
    ensures WellFormed(r)
    ensures r.url.Some? ==> res.Resolved? && r.url.value == CdnUrl(res.settings, path)
    ensures r.url.None? ==> r.logs != []
  {
    var h := HttpUpload(res, path, env, env.ftpHttp);
    if h.url.Some? then h
    else
      var f := FtpFallbacks(res, path, env);
      ThenWellFormed(h, f);
      Then(h, f)
  }

  /**
   * upload_to_bunny(): in FTP mode the FTP chain alone; otherwise an HTTP
   * round, and the whole FTP chain (which repeats the HTTP round) when that
   * fails. Every transport reads the same options, so each sees the same
   * get_bunny_settings() result. The chain stops at its first success; the
   * URL, when there is one, is the pull-zone URL followed by the file's
   * basename, and a failure always leaves at least one log_error() call.
   */
  function UploadToBunny(o: Options, path: string, env: Env): (r: Step)
    ensures WellFormed(r)
    ensures r.url.Some? ==> Resolve(o).Resolved? && r.url.value == CdnUrl(Resolve(o).settings, path)
    ensures r.url.None? ==> r.logs != []
  {
    var res := Resolve(o);
    if UseFtp(o) then FtpChain(res, path, env)
    else
      var h := HttpUpload(res, path, env, env.directHttp);
      if h.url.Some? then h
      else
        var f := FtpChain(res, path, env);
        ThenWellFormed(h, f);
        Then(h, f)
  }

  /** cURL FTP runs only when cURL is loaded; the fallbacks end with native FTP whenever they fail. */
  lemma FtpFallbacksOrder(res: Resolution, path: string, env: Env)
    ensures IsFtpFallbacks(Kinds(FtpFallbacks(res, path, env).trace), env.curlAvailable)
    ensures var r := FtpFallbacks(res, path, env);
      r.url.None? ==> r.trace[|r.trace| - 1].transport == NativeFtp
  {
    var n := NativeFtpUpload(res, path, env);
    if env.curlAvailable {
      var c := CurlFtpUpload(res, path, env);
      if c.url.None? {
        ThenWellFormed(c, n);
      }
    }
  }

  /** upload_to_bunny_ftp() runs one HTTP round, then its fallbacks; a failure ends with native FTP. */
  lemma FtpChainOrder(res: Resolution, path: string, env: Env)
    ensures IsFtpChain(Kinds(FtpChain(res, path, env).trace), env.curlAvailable)
    ensures var r := FtpChain(res, path, env);
      r.url.None? ==> r.trace[|r.trace| - 1].transport == NativeFtp
  {
    var h := HttpUpload(res, path, env, env.ftpHttp);
    if h.url.Some? {
      FtpChainShape(Kinds(h.trace), [], env.curlAvailable);
      assert Kinds(h.trace) + [] == Kinds(h.trace);
    } else {
      var f := FtpFallbacks(res, path, env);
      FtpFallbacksOrder(res, path, env);
      ThenWellFormed(h, f);
      FtpChainShape(Kinds(h.trace), Kinds(f.trace), env.curlAvailable);
    }
  }

  /**
   * The order upload_to_bunny() tries the transports in. With use_ftp set only
   * upload_to_bunny_ftp() runs; otherwise HTTP runs first and, when it fails,
   * the whole of upload_to_bunny_ftp() follows, so HTTP is tried a second
   * time. Every failure ends with native FTP.
   */
  lemma UploadToBunnyOrder(o: Options, path: string, env: Env)
    ensures var r := UploadToBunny(o, path, env);
      && r.trace[0].transport == Http
      && (UseFtp(o) ==> IsFtpChain(Kinds(r.trace), env.curlAvailable))
      && (!UseFtp(o) && r.url.Some? ==> IsHttpRound(Kinds(r.trace)) || IsHttpThenFtpChain(Kinds(r.trace), env.curlAvailable))
      && (!UseFtp(o) && r.url.None? ==> IsHttpThenFtpChain(Kinds(r.trace), env.curlAvailable))
      && (r.url.None? ==> r.trace[|r.trace| - 1].transport == NativeFtp)
  {
    var res := Resolve(o);
    FtpChainOrder(res, path, env);
    var r := UploadToBunny(o, path, env);
    if !UseFtp(o) {
      var h := HttpUpload(res, path, env, env.directHttp);
      if h.url.None? {
        var f := FtpChain(res, path, env);
        ThenWellFormed(h, f);
        HttpThenFtpChainShape(Kinds(h.trace), Kinds(f.trace), env.curlAvailable);
      }
    }
    assert Kinds(r.trace)[0] == r.trace[0].transport;
  }

  /** With the API key unset, the HTTP transports authenticate with the FTP password. */
  lemma AccessKeyFallsBackToFtpPassword(c: Config)
    ensures Empty(c.apiKey) ==> AccessKey(c) == c.ftpPassword
    ensures !c.useFtp && !Incomplete(c) ==> AccessKey(c) == c.apiKey
  {
  }

  /** A path ending in a segment without '/' after a string ending in '/': that segment is what follows the last '/'. */
  lemma {:induction false} AfterLastSlashOfJoin(p: string, b: string)
    requires p != [] && p[|p| - 1] == '/'
    requires '/' !in b
    ensures AfterLastSlash(p + b) == b
  {
    if b != [] {
      var b' := b[..|b| - 1];
      assert (p + b)[..|p + b| - 1] == p + b';
      assert '/' !in b' by {
        forall i | 0 <= i < |b'| ensures b'[i] != '/' { assert b'[i] == b[i]; }
      }
      AfterLastSlashOfJoin(p, b');
      assert b == b' + [b[|b| - 1]];
    }
  }

  /**
   * Every URL an upload produces, and every Storage API URL it sends to, ends
   * in the file's basename after a '/', and the CDN URL starts with the pull-zone URL.
   */
  lemma UrlsNameTheFile(s: Settings, path: string)
    requires EndsInOneSlash(s.config.pullZoneUrl)
    ensures s.config.pullZoneUrl <= CdnUrl(s, path)
    ensures AfterLastSlash(CdnUrl(s, path)) == Basename(path)
    ensures AfterLastSlash(StorageUrl(s, Basename(path))) == Basename(path)
  {
    BasenameIsLastComponent(path);
    AfterLastSlashOfJoin(s.config.pullZoneUrl, Basename(path));
    var prefix := "https://" + s.storageEndpoint + "/" + s.config.storageZone + "/";
    assert StorageUrl(s, Basename(path)) == prefix + Basename(path);
    AfterLastSlashOfJoin(prefix, Basename(path));
  }
}
