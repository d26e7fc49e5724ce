/**
 * The bounded error list kept in the 'bunny_auto_uploader_errors' option:
 * log_error() appends one record and keeps only the newest twenty.
 */
module ErrorLog {
  import opened Php
  import opened Settings

  /** How many records the stored list keeps. */
  const MaxStoredErrors: nat := 20

  /**
   * Every condition the plugin passes to log_error(), with the values its
   * message interpolates. Message() and Code() give the exact text and error
   * code the plugin logs for each.
   */
  datatype Problem =
    // get_bunny_settings()
    | MissingSettings(missing: seq<Field>)
    // upload_to_bunny_http()
    | HttpMissingCredentials
    | HttpFileNotFound(path: string)
    | HttpFileReadError
    | HttpCurlError(errno: nat, error: string)
    | HttpStatusError(status: nat, response: string)
    // upload_to_bunny_wp_http()
    | WpHttpMissingCredentials
    | WpHttpFileReadError
    | WpHttpError(error: string)
    | WpHttpStatusError(status: nat, body: string)
    // upload_to_bunny_ftp_curl()
    | CurlMissingCredentials
    | CurlFileNotFound(path: string)
    | CurlFtpError(errno: nat, error: string)
    | CurlFtpHttpError(status: nat)
    // upload_to_bunny_ftp()
    | FtpExtensionMissing
    | MissingFtpSettings
    | DebugFtpSettings(host: string, username: string, passwordEmpty: bool, pullZoneUrl: string)
    | MissingFtpHost
    | MissingFtpUsername
    | MissingFtpPassword
    | MissingPullZoneUrl
    | FtpFileNotFound(path: string)
    | FtpConnectFailed(host: string)
    | FtpsNotAvailable
    | HostnameResolutionFailed(host: string)
    | HostnameResolved(ip: string)
    | FtpLoginFailed(username: string)
    | FtpUploadFailed(filename: string)
    // handle_audio_upload()
    | AttachmentNotFound(filename: string)
    | SettingsNotConfigured
    | UploadFailed(filename: string)
    // process_new_attachment()
    | NewAttachmentFileNotFound(id: nat)
    | NewAttachmentSettingsNotConfigured
    | NewAttachmentUploadFailed(filename: string)
    // ajax_upload_attachment()
    | NotAudioFile
    | AttachedFileNotFound(path: string)
    // retry_failed_uploads()
    | RetryFileNotFound(id: nat)

  /** The message text the plugin logs for a problem. */
  function Message(p: Problem): string {
    match p
    case MissingSettings(missing) => MissingMessage(missing)
    case HttpMissingCredentials => "Missing credentials for HTTP upload"
    case HttpFileNotFound(path) => "File does not exist for HTTP upload: " + path
    case HttpFileReadError => "Could not read file for HTTP upload"
    case HttpCurlError(errno, error) => "HTTP API error (" + NatToDecimal(errno) + "): " + error
    case HttpStatusError(status, response) => "HTTP API HTTP error: " + NatToDecimal(status) + ", Response: " + response
    case WpHttpMissingCredentials => "Missing credentials for WP HTTP upload"
    case WpHttpFileReadError => "Could not read file for WP HTTP upload"
    case WpHttpError(error) => "WP HTTP API Error: " + error
    case WpHttpStatusError(status, body) => "WP HTTP API HTTP error: " + NatToDecimal(status) + ", Response: " + body
    case CurlMissingCredentials => "Missing FTP credentials for cURL upload"
    case CurlFileNotFound(path) => "File does not exist for cURL upload: " + path
    case CurlFtpError(errno, error) => "cURL FTP error (" + NatToDecimal(errno) + "): " + error
    case CurlFtpHttpError(status) => "cURL FTP HTTP error: " + NatToDecimal(status)
    case FtpExtensionMissing => "PHP FTP extension is not available. Please enable it on your server."
    case MissingFtpSettings => "Missing FTP credentials. Please configure the FTP settings."
    case DebugFtpSettings(host, username, passwordEmpty, url) =>
      "DEBUG FTP - Host: " + host + ", Username: " + username
      + ", Pass: " + (if passwordEmpty then "empty" else "set") + ", URL: " + url
    case MissingFtpHost => "FTP Host is empty"
    case MissingFtpUsername => "FTP Username is empty"
    case MissingFtpPassword => "FTP Password is empty"
    case MissingPullZoneUrl => "Pull Zone URL is empty"
    case FtpFileNotFound(path) => "File does not exist: " + path
    case FtpConnectFailed(host) => "Could not connect to FTP server: " + host
    case FtpsNotAvailable => "PHP FTPS support is not available"
    case HostnameResolutionFailed(host) => "Could not resolve hostname: " + host
    case HostnameResolved(ip) => "Hostname resolved to IP: " + ip
    case FtpLoginFailed(username) => "FTP login failed for user: " + username
    case FtpUploadFailed(filename) => "FTP upload failed for file: " + filename
    case AttachmentNotFound(filename) => "Could not find attachment ID for file: " + filename
    case SettingsNotConfigured => "Bunny.net settings not configured. Please set up the plugin before uploading."
    case UploadFailed(filename) => "Failed to upload to Bunny.net: " + filename
    case NewAttachmentFileNotFound(id) => "File not found for new attachment: " + NatToDecimal(id)
    case NewAttachmentSettingsNotConfigured => "Bunny.net settings not configured. Please set up the plugin before uploading."
    case NewAttachmentUploadFailed(filename) => "Failed to upload new attachment to Bunny.net: " + filename
    case NotAudioFile => "Not an audio file"
    case AttachedFileNotFound(path) => "File not found: " + path
    case RetryFileNotFound(id) => "File not found for retry: " + NatToDecimal(id)
  }

  /** The error code the plugin logs for a problem; '' where it passes none. */
  function Code(p: Problem): string {
    match p
    case MissingSettings(_) => "missing_settings"
    case HttpMissingCredentials => "http_missing_credentials"
    case HttpFileNotFound(_) => "http_file_not_found"
    case HttpFileReadError => "http_file_read_error"
    case HttpCurlError(_, _) => "http_curl_error"
    case HttpStatusError(status, _) => "http_error_" + NatToDecimal(status)
    case WpHttpMissingCredentials => "wp_http_missing_credentials"
    case WpHttpFileReadError => "wp_http_file_read_error"
    case WpHttpError(_) => "wp_http_error"
    case WpHttpStatusError(status, _) => "wp_http_error_" + NatToDecimal(status)
    case CurlMissingCredentials => "curl_missing_credentials"
    case CurlFileNotFound(_) => "curl_file_not_found"
    case CurlFtpError(_, _) => "curl_ftp_error"
    case CurlFtpHttpError(_) => "curl_ftp_http_error"
    case FtpExtensionMissing => "ftp_extension_missing"
    case MissingFtpSettings => "missing_ftp_settings"
    case DebugFtpSettings(_, _, _, _) => "debug_ftp_settings"
    case MissingFtpHost => "missing_ftp_host"
    case MissingFtpUsername => "missing_ftp_username"
    case MissingFtpPassword => "missing_ftp_password"
    case MissingPullZoneUrl => "missing_pull_zone_url"
    case FtpFileNotFound(_) => "file_not_found"
    case FtpConnectFailed(_) => "ftp_connect_failed"
    case FtpsNotAvailable => "ftps_not_available"
    case HostnameResolutionFailed(_) => "hostname_resolution_failed"
    case HostnameResolved(_) => "hostname_resolved"
    case FtpLoginFailed(_) => "ftp_login_failed"
    case FtpUploadFailed(_) => "ftp_upload_failed"
    case AttachmentNotFound(_) => ""
    case SettingsNotConfigured => ""
    case UploadFailed(_) => ""
    case NewAttachmentFileNotFound(_) => "file_not_found"
    case NewAttachmentSettingsNotConfigured => "settings_not_configured"
    case NewAttachmentUploadFailed(_) => "upload_failed"
    case NotAudioFile => "not_audio_file"
    case AttachedFileNotFound(_) => "file_not_found"
    case RetryFileNotFound(_) => ""
  }

  /** The arguments of one log_error($message, $attachment_id, $error_code) call. */
  datatype LogCall = LogCall(problem: Problem, attachmentId: int)

  /** The attachment a stored record names: its id and the basename of its file. */
  datatype AttachmentRef = AttachmentRef(id: int, filename: string)

  /**
   * One stored error record: its message and error_code are Message(problem)
   * and Code(problem); its 'time' field is not modelled.
   */
  datatype ErrorRecord = ErrorRecord(problem: Problem, attachment: Option<AttachmentRef>)

  /** array_slice($errors, -20) when the list has more than twenty entries, else the list itself. */
  function KeepLast<T>(s: seq<T>): (r: seq<T>)
    ensures |r| == if |s| > MaxStoredErrors then MaxStoredErrors else |s|
    ensures r == s[|s| - |r|..]
  {
    if |s| > MaxStoredErrors then s[|s| - MaxStoredErrors..] else s
  }

  /**
   * One log_error() on the stored list: at most twenty records remain, the new
   * one is last, the survivors keep their order, and nothing is dropped while
   * there is room.
   */
  lemma KeepLastAfterAppend<T>(s: seq<T>, x: T)
    ensures |KeepLast(s + [x])| <= MaxStoredErrors
    ensures KeepLast(s + [x])[|KeepLast(s + [x])| - 1] == x
    ensures KeepLast(s + [x])[..|KeepLast(s + [x])| - 1] == s[|s| + 1 - |KeepLast(s + [x])|..]
    ensures |s| < MaxStoredErrors ==> KeepLast(s + [x]) == s + [x]
  {
  }

  /** Trimming early changes nothing: trimming a list and then appending and trimming is one trim of the whole. */
  lemma {:induction false} KeepLastAbsorbs<T>(a: seq<T>, b: seq<T>)
    ensures KeepLast(KeepLast(a) + b) == KeepLast(a + b)
  {
    if |a| > MaxStoredErrors {
      var a' := KeepLast(a);
      var shift := |a| - MaxStoredErrors;
      assert a' + b == (a + b)[shift..] by {
        forall j | 0 <= j < |a' + b|
          ensures (a' + b)[j] == (a + b)[shift..][j]
        {
          if j < |a'| {
            assert (a' + b)[j] == a[shift + j];
          } else {
            assert (a' + b)[j] == b[j - |a'|];
          }
        }
      }
    }
  }

  /** The stored list after log_error() was called once per record, in order. */
  function LoggedErrors<T>(stored: seq<T>, records: seq<T>): seq<T> {
    if records == [] then stored else KeepLast(stored + records)
  }

  /** Logging the records one at a time is the same as logging them all and trimming once. */
  lemma LoggedErrorsSnoc<T>(stored: seq<T>, records: seq<T>, x: T)
    ensures LoggedErrors(stored, records + [x]) == KeepLast(LoggedErrors(stored, records) + [x])
  {
    if records != [] {
      KeepLastAbsorbs(stored + records, [x]);
      assert stored + (records + [x]) == (stored + records) + [x];
    }
  }

  /** After any number of calls the list holds at most twenty records, and the last one is the newest. */
  lemma LoggedErrorsBounded<T>(stored: seq<T>, records: seq<T>)
    requires records != []
    ensures |LoggedErrors(stored, records)| <= MaxStoredErrors
    ensures LoggedErrors(stored, records)[|LoggedErrors(stored, records)| - 1] == records[|records| - 1]
  {
  }
}
