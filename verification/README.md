# Bunny Auto Uploader, modelled in Dafny

Bunny Auto Uploader is a WordPress plugin. It copies every uploaded audio
file to a Bunny.net storage zone and makes WordPress hand out the file's
pull-zone (CDN) address instead of the local one. This project models the
decision logic under the plugin's hook glue and proves properties of it:

- **Settings** (`settings.dfy`): `get_bunny_settings()` and the missing-field
  list of the admin notice.
- **Transports** (`transports.dfy`): the upload transports and the fallback
  chain `upload_to_bunny()` runs them in, with the URLs and hosts they build.
  - The four transports are the Storage API over cURL, the WordPress HTTP API,
    cURL FTP and native FTP.
  - Every network or filesystem call is an abstract outcome passed in as a
    parameter.
  - The chain is a function of its inputs. It returns the URL, the trace of
    attempts and the `log_error()` calls it made.
- **Error log** (`errorlog.dfy`): the error list `log_error()` keeps, which
  holds at most 20 records.
- **Site state** (`site.dfy`): the plugin's stored state as a class `Site`.
  - It holds the error option and the attachments' post meta.
  - It has one method per upload handler: the upload hook, the new-attachment
    hook, the AJAX upload, the retry batch and the upload-existing batch.
  - Each method is proved equal to a function of the state before the call.
- **Site facts** (`sitefacts.dfy`): the properties of those handlers, as
  lemmas about those functions.
- **URL filters** (`urlfilters.dfy`): the three filters that substitute the
  CDN URL.
- **Fragment clean-up** (`fragments.dfy`): the page in `cleanup-fragments.php`.
  - It classifies audio attachments into numbered fragments and originals.
  - It lists each group sorted by fragment number.
  - It deletes one group from WordPress and, over FTP, from the storage zone.
- **PHP built-ins** (`php.dfy`): the built-ins the code relies on, with their
  PHP semantics.
  - `empty()` on a string holds for `""` and `"0"`.
  - `rtrim`, `basename`, `strpos` tests, `strtolower`, `implode` and `intval`
    (which saturates at `PHP_INT_MAX`).

Timestamps are the value `Stamp`, since the model has no clock. Error
messages are the values of a `Problem` datatype, and `ErrorLog.Message`
renders the exact text the code logs.

Where the plugin's documentation and its code differ, the model follows the
code:

- the notice labels the pull zone "Pull Zone Hostname", while
  `get_bunny_settings()` logs "Pull Zone URL";
- in HTTP mode a failed HTTP attempt is followed by the whole of
  `upload_to_bunny_ftp()`, so HTTP is tried twice;
- a successful upload by `handle_audio_upload()` or `process_new_attachment()`
  does not clear the failed flag, so a transport that failed first can leave
  `_bunny_cdn_upload_failed` at `'1'` beside the new URL;
- `filter_attachment_metadata()` sets `audiodata.file_url` whenever
  `audiodata` is an array, whether or not `file_url` was already there;
- `delete_from_bunny_ftp()` ignores the FTP host option and connects to the
  storage endpoint of the region.

## Model

| member | source | states |
|---|---|---|
| Php.RTrimSlashSpec | bunny-auto-uploader.php:2196 | `rtrim($url, '/')` yields a prefix of the input that does not end in '/', and everything it removed is '/' |
| Php.BasenameIsLastComponent | bunny-auto-uploader.php:666 | `basename()` contains no '/' and is the last component of the path once trailing slashes are removed |
| Php.NatToDecimalCorrect | bunny-auto-uploader.php:1577 | an ID printed into a message is a non-empty digit string without a leading zero that reads back as the same number |
| Php.IntVal | cleanup-fragments.php:43 | `intval()` of a digit string is its decimal value, saturated at PHP_INT_MAX |
| Settings.NormalizePullZone | bunny-auto-uploader.php:2195-2197 | an empty pull-zone URL is kept; any other ends in exactly one '/' and has the same content before its trailing slashes |
| Settings.NormalizePullZoneIdempotent | bunny-auto-uploader.php:2195-2197 | normalising a normalised pull-zone URL changes nothing |
| Settings.MissingFields | bunny-auto-uploader.php:2199-2212 | the list names exactly the missing fields, in the order Storage Zone, API Key, FTP Username, FTP Password, Pull Zone URL; it is empty exactly when the rejection test passes; the API key counts only in HTTP mode and the FTP credentials only in FTP mode |
| Settings.OptionKeyInjective | bunny-auto-uploader.php:2176-2184 | the eight option names the settings are read from are pairwise distinct |
| Settings.Resolve | bunny-auto-uploader.php:2174-2220 | rejected exactly when the options are incomplete, with the ordered missing list; otherwise every option as read except the normalised pull-zone URL, and the endpoint `region.storage.bunnycdn.com` or `storage.bunnycdn.com` |
| Settings.ResolvedIsDerived | bunny-auto-uploader.php:2174-2220 | settings that are accepted are exactly the normalised settings of a configuration with no missing field |
| Settings.NoticeAgreesWithResolve | bunny-auto-uploader.php:2136-2141 | the admin notice lists something exactly when `get_bunny_settings()` fails, and then lists the same fields in the same order, labelling only the pull zone differently |
| Settings.ResolveIdempotent | bunny-auto-uploader.php:2194-2197 | storing the resolved pull-zone URL back as the option resolves to the same settings |
| ErrorLog.KeepLast | bunny-auto-uploader.php:673-676 | the stored list is the last min(n, 20) records of the appended list |
| ErrorLog.KeepLastAfterAppend | bunny-auto-uploader.php:670-678 | after one `log_error()` the list holds at most 20 records, ends with the new record, and keeps the newest older records in order |
| ErrorLog.KeepLastAbsorbs | bunny-auto-uploader.php:670-678 | truncating after every append equals truncating once after all the appends |
| ErrorLog.LoggedErrorsBounded | bunny-auto-uploader.php:670-678 | after any non-empty run of `log_error()` calls the list holds at most 20 records and ends with the last one logged |
| Transports.RewriteFtpHost | bunny-auto-uploader.php:224-227 | a host containing ".storage.bunnycdn.com" becomes "storage.bunnycdn.com", any other host is kept, and the result never contains the regional suffix |
| Transports.RewriteFtpHostIdempotent | bunny-auto-uploader.php:350-353 | rewriting a rewritten host changes nothing |
| Transports.WpHttpUpload | bunny-auto-uploader.php:560-633 | one attempt; it returns the CDN URL exactly when the settings resolve, the file exists and can be read, and the PUT returns no WP_Error and a 2xx status; any request sent is the Storage API PUT; it logs exactly when it fails |
| Transports.HttpUpload | bunny-auto-uploader.php:449-550 | the cURL PUT succeeds exactly on errno 0 and a 2xx status; only a completed non-2xx request falls back to the WordPress HTTP API, after logging the status error; a URL returned is the CDN URL |
| Transports.CurlFtpUpload | bunny-auto-uploader.php:336-441 | one attempt to the rewritten FTP host that returns the CDN URL exactly when the credentials are present, the file exists, errno is 0 and the response code is below 400; it logs exactly when it fails |
| Transports.NativeFtpUpload | bunny-auto-uploader.php:205-328 | succeeds exactly when the extension exists, settings resolve, the credentials are present, the file exists and connect, login and put succeed; it always logs, first the debug record on every run past the settings check |
| Transports.FtpFallbacks | bunny-auto-uploader.php:194-328 | the fallbacks stop at the first success, any URL is the CDN URL, and a failure leaves a log call |
| Transports.FtpChain | bunny-auto-uploader.php:188-328 | `upload_to_bunny_ftp()` stops at the first success, any URL is the CDN URL, and a failure leaves a log call |
| Transports.UploadToBunny | bunny-auto-uploader.php:2022-2040 | the chain stops at its first success; a URL means the settings resolve and is the pull-zone URL followed by the file's basename; a failure always leaves a `log_error()` call |
| Transports.FtpFallbacksOrder | bunny-auto-uploader.php:194-209 | cURL FTP runs only when cURL is loaded, and failed fallbacks end with native FTP |
| Transports.FtpChainOrder | bunny-auto-uploader.php:188-209 | `upload_to_bunny_ftp()` runs one HTTP round and then its fallbacks; a failure ends with native FTP |
| Transports.UploadToBunnyOrder | bunny-auto-uploader.php:2022-2040 | in FTP mode only `upload_to_bunny_ftp()` runs; otherwise HTTP runs first and on failure the whole FTP chain follows, so HTTP is tried twice; every failure ends with native FTP |
| Transports.AccessKeyFallsBackToFtpPassword | bunny-auto-uploader.php:459 | with the API key empty the HTTP transports authenticate with the FTP password; with valid HTTP-mode settings they use the API key |
| Transports.UrlsNameTheFile | bunny-auto-uploader.php:486-547 | the CDN URL starts with the pull-zone URL, and it and the Storage API URL both end in the file's basename after a '/' |
| Site.LogOne | bunny-auto-uploader.php:642-679 | the record is appended and the list truncated to 20; with a positive ID the error data, error time and failed flag '1' are written, and nothing else changes |
| Site.KeyNameInjective | bunny-auto-uploader.php:654-662 | the post-meta keys the plugin writes have pairwise distinct names |
| Site.LogAll | bunny-auto-uploader.php:642-679 | a run of `log_error()` calls leaves the truncated list of their records and changes no meta key outside the three failure keys |
| Site.LogAllLastError | bunny-auto-uploader.php:654-662 | after a run of calls an attachment carries the error of the last call that named it, with error time and failed flag; an attachment no call named is untouched |
| Site.MarkUploaded | bunny-auto-uploader.php:151-154 | writes the URL and the upload time of the attachment and nothing else |
| Site.MarkFailed | bunny-auto-uploader.php:172-173 | writes the failed flag '1' and the attempt time of the attachment and nothing else |
| Site.ClearFailure | bunny-auto-uploader.php:1589-1591 | removes the three failure keys of the attachment and nothing else |
| Site.Site.LogError | bunny-auto-uploader.php:642-679 | the state after `log_error()` is `LogOne` of the state before |
| Site.Site.Record | bunny-auto-uploader.php:642-679 | replaying a chain's calls one by one gives `LogAll` of the state before |
| Site.Site.Upload | bunny-auto-uploader.php:2022-2040 | returns the chain's URL and applies its log calls to the state |
| Site.Site.HandleAudioUpload | bunny-auto-uploader.php:104-180 | the new state is `HandleAudioUploadSpec` of the old one |
| Site.Site.ProcessNewAttachment | bunny-auto-uploader.php:2047-2113 | the new state is `ProcessNewAttachmentSpec` of the old one |
| Site.Site.AjaxUploadAttachment | bunny-auto-uploader.php:1300-1372 | the new state and the JSON reply are `AjaxUploadSpec` of the old state |
| Site.Site.RetryItem | bunny-auto-uploader.php:1573-1608 | one pass of the retry loop, with its counters, is `RetryStep` |
| Site.Site.RetryOutcome | bunny-auto-uploader.php:1585-1607 | once the chain's logs are replayed, a URL stores the CDN URL and upload time, clears the failure record and counts a success; no URL stamps the attempt time and counts a failure; nothing else changes |
| Site.Site.RetryFailedUploads | bunny-auto-uploader.php:1558-1632 | the final state and the two counters are `RetryAll` of the old state and the queried items |
| Site.Site.ExistingItem | bunny-auto-uploader.php:1190-1208 | one pass of the upload-existing loop, with its counters, is `ExistingStep` |
| Site.Site.ExistingOutcome | bunny-auto-uploader.php:1203-1208 | once the chain's logs are replayed, a URL is stored as the CDN URL and counts a success; no URL counts a failure and changes nothing else |
| Site.Site.UploadExistingAudioFiles | bunny-auto-uploader.php:1177-1229 | the final state and the two counters are `ExistingAll` of the old state and the queried items |
| Site.Site.ClearErrors | bunny-auto-uploader.php:1033-1035 | the error list is emptied and the post meta is unchanged |
| SiteFacts.UploadedUrlNotEmpty | bunny-auto-uploader.php:2086 | a URL the chain returns is never empty in PHP's sense, so the skip tests see it |
| SiteFacts.AudioUploadIgnoresOtherFiles | bunny-auto-uploader.php:104-113 | a file neither typed audio nor with an mp3, wav or m4a extension (in any case) leaves the state unchanged |
| SiteFacts.AudioUploadRejected | bunny-auto-uploader.php:119-143 | without an attachment ID, or without zone, API key and pull zone, one error naming no attachment is logged and no meta is written |
| SiteFacts.AudioUploadStoresCdnUrl | bunny-auto-uploader.php:145-155 | after a successful chain the attachment stores the pull-zone URL followed by the file's basename |
| SiteFacts.UploadSuccess | bunny-auto-uploader.php:2082-2090 | a successful upload stores the URL and an upload time; when a failed transport logged against the attachment the failed flag is '1' beside the URL, otherwise the failure keys keep their values |
| SiteFacts.UploadFailure | bunny-auto-uploader.php:2103-2108 | a failed upload sets the failed flag and the attempt time, leaves the URL unchanged, and stores the handler's own error when that error names the attachment |
| SiteFacts.UploadFailureLogged | bunny-auto-uploader.php:169 | after a failed chain the handler's own failure record is the newest stored error |
| SiteFacts.NewAttachmentSkips | bunny-auto-uploader.php:2050-2058 | a MIME type not starting with "audio/", or an attachment that already has a URL, leaves the state unchanged |
| SiteFacts.NewAttachmentUnconfigured | bunny-auto-uploader.php:2070-2076 | with incomplete settings the attachment gets the settings error and the failed flag, its URL stays unset, and the missing-fields error precedes it in the list |
| SiteFacts.NewAttachmentIdempotent | bunny-auto-uploader.php:2047-2113 | after a successful upload a second run for the same attachment changes nothing |
| SiteFacts.AjaxSuccess | bunny-auto-uploader.php:1340-1362 | a successful chain yields a success reply with the URL, which is stored with an upload time; when the chain logged nothing against the attachment no failure key remains |
| SiteFacts.AjaxFailure | bunny-auto-uploader.php:1363-1370 | a failed chain yields an error reply carrying the message this attempt logged against the attachment, never an older one, and the URL is unchanged |
| SiteFacts.AjaxGuards | bunny-auto-uploader.php:1302-1310 | a failed nonce or a zero ID changes nothing and is answered with an error |
| SiteFacts.AjaxRejected | bunny-auto-uploader.php:1312-1332 | a missing post or non-audio MIME type logs `not_audio_file`, and otherwise a missing file logs `file_not_found` with the path; the record is the newest stored error, the reply is the matching error, the attachment keeps its failure record because the clearing at 1335-1337 is not reached, and its URL is unchanged |
| SiteFacts.RetryFinishOutcome | bunny-auto-uploader.php:1584-1607 | a successful retry stores URL and upload time and removes all three failure keys; a failed one refreshes the attempt time and leaves the URL unchanged |
| SiteFacts.RetryAllCounts | bunny-auto-uploader.php:1571-1610 | the retry loop counts every item exactly once, and counts as successes exactly the items whose upload returned a URL |
| SiteFacts.ExistingAllKeepsUrls | bunny-auto-uploader.php:1192-1195 | the upload-existing loop never replaces a URL an attachment already has |
| SiteFacts.ExistingAllCounts | bunny-auto-uploader.php:1188-1209 | over distinct attachments, successes plus failures equal the number of attachments that had no URL before the batch (`UrlMissingCount`), and successes equal those of them whose upload returned a URL (`ExistingSuccessCount`) |
| SiteFacts.ExistingStepMeta | bunny-auto-uploader.php:1190-1208 | an attachment with a URL is skipped; otherwise a success stores exactly the returned URL and is counted |
| SiteFacts.ExistingStepCounts | bunny-auto-uploader.php:1190-1208 | one pass counts an attachment without a URL exactly once, as a success exactly when its upload returns a URL, and counts nothing for one that has a URL |
| SiteFacts.ExistingAllKeepsOthers | bunny-auto-uploader.php:1188-1209 | the batch leaves the URL of an attachment it does not visit unchanged |
| UrlFilters.ReplaceAttachmentUrl | bunny-auto-uploader.php:1385-1411 | an audio attachment with a non-empty stored CDN URL gets that URL; any other URL passes through |
| UrlFilters.FilterAttachmentMetadata | bunny-auto-uploader.php:1493-1514 | for audio with a CDN URL and array data, adds `bunny_cdn_url` and sets `audiodata.file_url` when `audiodata` is an array; every other key is unchanged; otherwise the data is unchanged |
| UrlFilters.PrepareAttachmentForJs | bunny-auto-uploader.php:1527-1553 | for audio with a CDN URL, adds `bunny_cdn_url` and replaces `url` and `audioSourceUrl` only where they are set; everything else is unchanged |
| UrlFilters.FilterAttachmentMetadataIdempotent | bunny-auto-uploader.php:1493-1514 | running the metadata filter on its own output changes nothing |
| UrlFilters.PrepareAttachmentForJsIdempotent | bunny-auto-uploader.php:1527-1553 | running the JavaScript filter on its own output changes nothing |
| UrlFilters.FiltersAgree | bunny-auto-uploader.php:1385-1553 | the JavaScript data and the metadata carry the same URL `replace_attachment_url()` returns |
| UrlFilters.ServedAfterUpload | bunny-auto-uploader.php:1385-1411 | after an upload handler stored the chain's URL, WordPress serves that URL for the audio attachment |
| Fragments.LastIndexOf | cleanup-fragments.php:41 | returns -1 when the character does not occur, and otherwise the index of its last occurrence |
| Fragments.MatchFragmentIff | cleanup-fragments.php:41-43 | the matcher returns a split exactly when it is a (prefix, digits, extension) split that `^(.+)-(\d+)\.(\w+)$` accepts, so that split is unique; a single final newline is allowed before `$` |
| Fragments.MatchFragmentSound | cleanup-fragments.php:41 | every returned split rebuilds the file name and meets the pattern |
| Fragments.MatchFragmentComplete | cleanup-fragments.php:41 | whenever a split meets the pattern, the matcher returns that split |
| Fragments.AddFragment | cleanup-fragments.php:45-50 | the entry is appended to the group of its base, or a new group is added last; other groups are unchanged, keys stay distinct, and the total grows by one |
| Fragments.AddFragmentKeepsGroups | cleanup-fragments.php:45-50 | adding a scanned fragment keeps every group equal to the scanned fragments of its base |
| Fragments.ClassifyFiles | cleanup-fragments.php:37-59 | each group is non-empty and holds exactly its base's fragments in scan order; no base lacks a group or has two; originals are the rest in scan order; group sizes plus originals equal the number scanned |
| Fragments.SortByFragmentNumber | cleanup-fragments.php:76-78 | the fragments end up in ascending number order and are a permutation of the input |
| Fragments.DisplayGroups | cleanup-fragments.php:70-88 | lists the groups in order, each sorted by number and a permutation of its group; the groups themselves keep scan order |
| Fragments.WithBaseSource | cleanup-fragments.php:37-50 | every entry of a group comes from a scanned attachment whose file name is a fragment of that base |
| Fragments.DeleteRequest | cleanup-fragments.php:142-174 | no request without username, password and zone; otherwise the region's storage endpoint, the credentials and the path "/zone/filename" |
| Fragments.DeleteFromBunnyFtp | cleanup-fragments.php:142-180 | true exactly when there is a request and the server accepts the connection, the login and the delete |
| Fragments.DeleteTargetsUpload | cleanup-fragments.php:154-174 | with complete FTP-mode settings the delete addresses the host and path of the Storage API URL the upload wrote to |
| Fragments.CleanupAccounts | cleanup-fragments.php:102-123 | every fragment is sent to WordPress once, in order; only the fragments WordPress deleted are sent to the CDN; the count is the fragments both removed; count plus errors equals the group size |
| Fragments.CleanupWithoutCredentials | cleanup-fragments.php:149-151 | without FTP credentials or zone nothing counts as deleted and every fragment leaves an error |
| Fragments.GroupOf | cleanup-fragments.php:96 | a group is found exactly when its base is a key, and it is that key's fragments |
| Fragments.GroupOfClassified | cleanup-fragments.php:93-96 | for classified groups, a base has a group exactly when some scanned fragment has that base, and the group is those fragments |
| Fragments.CleanupDeletesOnlyFragments | cleanup-fragments.php:93-104 | originals are never deleted: every ID sent to WordPress belongs to an attachment scanned as a fragment of the requested base |
| Fragments.CleanupFragments | cleanup-fragments.php:93-123 | runs exactly when the base is a key; its count, errors and deletes are `CleanupAll` over that group; otherwise it does nothing |

## Left out

- Network, FTP and filesystem I/O are left out: every cURL, FTP, HTTP and
  `file_exists`/`file_get_contents` result is an abstract outcome in `Env`.
  The protocols themselves are external.
- `get_attachment_id_by_file()` queries the database; its result is the
  input `Env.attachmentId`. The `get_posts()` queries of the batch handlers
  and the clean-up page become input lists.
- `wp_check_filetype()` is the input `FileType`. `get_post()` is the input MIME
  type (None when there is no post). `wp_delete_attachment()` is the input
  function `wpDelete`.
- Timestamps (`time()`, `current_time()`) are the value `Stamp`.
- Nonces, capabilities, transients, admin notices, hook registration,
  rendering and `sanitize_text_field()` are left out.
- `log_debug()` is left out: it writes to `error_log` and stores nothing. The
  `error_log()` line of `log_error()` is left out for the same reason.
- `upload_large_file_to_bunny()` is left out because nothing calls it.
- `override_audio_shortcode()` and the JetEngine callback are left out. They
  query the database and render HTML.
- The unused `$retry_attempt` and `$max_retries` parameters of
  `upload_to_bunny()` are left out.
- `cleanup-chunks.php`, `test-direct-upload.php`, `assets/js/admin.js` and
  `uninstall.php` are not part of this model.
- Transports.UploadToBunny is a function, not a method: it returns its
  `log_error()` calls, and `Site.Site.Upload` replays them. The chain never
  reads the error option or post meta, so replaying afterwards gives the same
  state as logging along the way.
- `\w` in the fragment pattern is ASCII letters, digits and `_`, as PCRE has
  it without the `u` modifier. File names are sequences of characters with
  no encoding.
- SiteFacts.ExistingAllCounts: is stated for distinct attachments, which is
  what the `get_posts()` query returns; a repeated attachment would be
  skipped at its second turn.
- Fragments.DeleteFromBunnyFtp and Fragments.CleanupStep: the FTP server and
  `wp_delete_attachment()` are pure functions of the request. Two fragments
  with the same basename from different upload folders fall in one group and
  send the same FTP delete, so both get the same answer, whereas the real
  server would refuse the second one.
- Post meta holds only the plugin's own keys.
- The options table holds only the plugin's eight options (`OptionName`);
  other options are never read by the modelled code.
- Fragments.SortByFragmentNumber: does not state the relative order of equal
  fragment numbers.
