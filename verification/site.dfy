/**
 * The WordPress state the plugin changes, and the handlers that change it:
 * the stored error list (the 'bunny_auto_uploader_errors' option) and the
 * attachments' post meta. log_error(), handle_audio_upload(),
 * process_new_attachment(), ajax_upload_attachment(), retry_failed_uploads()
 * and upload_existing_audio_files() are methods of the Site class, each
 * proved against a function of the state before the call.
 */
module Site {
  import opened Php
  import opened Settings
  import opened ErrorLog
  import opened Transports

  /** The post-meta keys the plugin writes. */
  datatype MetaKey =
    | CdnUrlKey
    | UploadTimeKey
    | UploadFailedKey
    | AttemptTimeKey
    | UploadErrorKey
    | UploadErrorTimeKey

  /** The name each key has in the post-meta table. */
  function KeyName(k: MetaKey): string {
    match k
    case CdnUrlKey => "_bunny_cdn_url"
    case UploadTimeKey => "_bunny_cdn_upload_time"
    case UploadFailedKey => "_bunny_cdn_upload_failed"
    case AttemptTimeKey => "_bunny_cdn_upload_attempt_time"
    case UploadErrorKey => "_bunny_upload_error"
    case UploadErrorTimeKey => "_bunny_upload_error_time"
  }

  /** Distinct keys have distinct names, so a map keyed by MetaKey is the post meta restricted to the plugin's keys. */
  lemma KeyNameInjective(a: MetaKey, b: MetaKey)
    ensures KeyName(a) == KeyName(b) <==> a == b
  {
  }

  /** The three keys log_error() writes and a successful retry deletes. */
  const FailureKeys: set<MetaKey> := {UploadFailedKey, UploadErrorKey, UploadErrorTimeKey}

  /** A post-meta value: a string, a time() stamp, or the error array log_error() stores. */
  datatype MetaValue = Text(text: string) | Stamp | ErrorData(problem: Problem)

  /** Post meta: attachment id to meta key to value. */
  type MetaTable = map<int, map<MetaKey, MetaValue>>

  function Lookup(m: MetaTable, id: int, key: MetaKey): Option<MetaValue> {
    if id in m && key in m[id] then Some(m[id][key]) else None
  }

  /** empty(get_post_meta($id, $key, true)): a missing key reads as ''. */
  predicate MetaEmpty(m: MetaTable, id: int, key: MetaKey) {
    match Lookup(m, id, key)
    case None => true
    case Some(v) => v.Text? && Empty(v.text)
  }

  function Row(m: MetaTable, id: int): map<MetaKey, MetaValue> {
    if id in m then m[id] else map[]
  }

  /** update_post_meta(): sets one key of one attachment; a non-positive id is refused. */
  function SetMeta(m: MetaTable, id: int, key: MetaKey, v: MetaValue): (r: MetaTable)
    ensures id > 0 ==> Lookup(r, id, key) == Some(v)
    ensures forall j, k :: (j != id || k != key || id <= 0) ==> Lookup(r, j, k) == Lookup(m, j, k)
  {
    if id <= 0 then m else m[id := Row(m, id)[key := v]]
  }

  /** delete_post_meta(): removes one key of one attachment. */
  function DeleteMeta(m: MetaTable, id: int, key: MetaKey): (r: MetaTable)
    ensures id > 0 ==> Lookup(r, id, key) == None
    ensures forall j, k :: (j != id || k != key || id <= 0) ==> Lookup(r, j, k) == Lookup(m, j, k)
  {
    if id <= 0 || id !in m then m else m[id := m[id] - {key}]
  }

  /** The stored state: the error list and the post meta. */
  datatype Db = Db(errors: seq<ErrorRecord>, meta: MetaTable)

  /** get_attached_file($id): '' when the attachment has no file. */
  function AttachedFile(files: map<int, string>, id: int): string {
    if id in files then files[id] else ""
  }

  /** The record log_error() appends: it names the attachment and its file's basename when the id is positive. */
  function Stored(c: LogCall, files: map<int, string>): ErrorRecord {
    ErrorRecord(c.problem,
      if c.attachmentId > 0 then Some(AttachmentRef(c.attachmentId, Basename(AttachedFile(files, c.attachmentId)))) else None)
  }

  /**
   * log_error(): the record goes last in the stored list, which keeps its
   * newest twenty; with a positive id the error, its time and the failed flag
   * are written to that attachment, and nothing else changes.
   */
  function LogOne(db: Db, files: map<int, string>, c: LogCall): (r: Db)
    ensures r.errors == KeepLast(db.errors + [Stored(c, files)])
    ensures c.attachmentId > 0 ==>
      && Lookup(r.meta, c.attachmentId, UploadErrorKey) == Some(ErrorData(c.problem))
      && Lookup(r.meta, c.attachmentId, UploadErrorTimeKey) == Some(Stamp)
      && Lookup(r.meta, c.attachmentId, UploadFailedKey) == Some(Text("1"))
    ensures forall j, k :: (j != c.attachmentId || k !in FailureKeys) ==> Lookup(r.meta, j, k) == Lookup(db.meta, j, k)
  {
    var id := c.attachmentId;
    var m1 := SetMeta(db.meta, id, UploadErrorKey, ErrorData(c.problem));
    var m2 := SetMeta(m1, id, UploadErrorTimeKey, Stamp);
    var m3 := SetMeta(m2, id, UploadFailedKey, Text("1"));
    Db(KeepLast(db.errors + [Stored(c, files)]), m3)
  }

  function Records(calls: seq<LogCall>, files: map<int, string>): (r: seq<ErrorRecord>)
    ensures |r| == |calls|
    ensures forall i :: 0 <= i < |calls| ==> r[i] == Stored(calls[i], files)
  {
    seq(|calls|, i requires 0 <= i < |calls| => Stored(calls[i], files))
  }

  lemma RecordsSnoc(calls: seq<LogCall>, files: map<int, string>)
    requires calls != []
    ensures Records(calls, files) == Records(calls[..|calls| - 1], files) + [Stored(calls[|calls| - 1], files)]
  {
    assert Records(calls, files) == Records(calls[..|calls| - 1], files) + [Stored(calls[|calls| - 1], files)];
  }

  /** The problem of the last call in the list that names attachment id, if any. */
  function LastProblemFor(calls: seq<LogCall>, id: int): Option<Problem> {
    if calls == [] then None
    else if calls[|calls| - 1].attachmentId == id then Some(calls[|calls| - 1].problem)
    else LastProblemFor(calls[..|calls| - 1], id)
  }

  /**
   * A sequence of log_error() calls: the stored list is the trimmed
   * concatenation, and post meta changes only in the failure keys
   * (LogAllLastError says which attachments, and to what).
   */
  function LogAll(db: Db, files: map<int, string>, calls: seq<LogCall>): (r: Db)
    ensures r.errors == LoggedErrors(db.errors, Records(calls, files))
    ensures forall j, k :: k !in FailureKeys ==> Lookup(r.meta, j, k) == Lookup(db.meta, j, k)
    decreases |calls|
  {
    if calls == [] then db
    else
      var init, last := calls[..|calls| - 1], calls[|calls| - 1];
      var before := LogAll(db, files, init);
      LoggedErrorsSnoc(db.errors, Records(init, files), Stored(last, files));
      RecordsSnoc(calls, files);
      LogOne(before, files, last)
  }

  /**
   * After a sequence of log_error() calls an attachment no call names is
   * untouched, and one that a call names holds the failed flag, an error time
   * and the problem of the last call naming it.
   */
  lemma {:induction false} LogAllLastError(db: Db, files: map<int, string>, calls: seq<LogCall>, id: int)
    ensures LastProblemFor(calls, id).None? ==>
      forall k :: Lookup(LogAll(db, files, calls).meta, id, k) == Lookup(db.meta, id, k)
    ensures id > 0 && LastProblemFor(calls, id).Some? ==>
      var m := LogAll(db, files, calls).meta;
      && Lookup(m, id, UploadErrorKey) == Some(ErrorData(LastProblemFor(calls, id).value))
      && Lookup(m, id, UploadErrorTimeKey) == Some(Stamp)
      && Lookup(m, id, UploadFailedKey) == Some(Text("1"))
    decreases |calls|
  {
    if calls != [] {
      LogAllLastError(db, files, calls[..|calls| - 1], id);
    }
  }

  /** What a handler writes once the chain returned a URL: the URL and the upload time. */
  function MarkUploaded(m: MetaTable, id: int, url: string): (r: MetaTable)
    ensures id > 0 ==> Lookup(r, id, CdnUrlKey) == Some(Text(url)) && Lookup(r, id, UploadTimeKey) == Some(Stamp)
    ensures forall j, k :: (j != id || k !in {CdnUrlKey, UploadTimeKey}) ==> Lookup(r, j, k) == Lookup(m, j, k)
  {
    SetMeta(SetMeta(m, id, CdnUrlKey, Text(url)), id, UploadTimeKey, Stamp)
  }

  /** What a handler writes when the chain failed: the failed flag and the attempt time. */
  function MarkFailed(m: MetaTable, id: int): (r: MetaTable)
    ensures id > 0 ==> Lookup(r, id, UploadFailedKey) == Some(Text("1")) && Lookup(r, id, AttemptTimeKey) == Some(Stamp)
    ensures forall j, k :: (j != id || k !in {UploadFailedKey, AttemptTimeKey}) ==> Lookup(r, j, k) == Lookup(m, j, k)
  {
    SetMeta(SetMeta(m, id, UploadFailedKey, Text("1")), id, AttemptTimeKey, Stamp)
  }

  /** The three delete_post_meta() calls that clear an attachment's failure record. */
  function ClearFailure(m: MetaTable, id: int): (r: MetaTable)
    ensures id > 0 ==> forall k :: k in FailureKeys ==> Lookup(r, id, k) == None
    ensures forall j, k :: (j != id || k !in FailureKeys) ==> Lookup(r, j, k) == Lookup(m, j, k)
  {
    DeleteMeta(DeleteMeta(DeleteMeta(m, id, UploadFailedKey), id, UploadErrorKey), id, UploadErrorTimeKey)
  }

  /** What wp_check_filetype() reports for the uploaded file. */
  datatype FileType = FileType(ext: string, mimeType: string)

  /** handle_audio_upload()'s audio test: 'audio' in the MIME type, or an mp3/wav/m4a extension in any case. */
  predicate IsAudioUpload(ft: FileType) {
    Contains(ft.mimeType, "audio") || ToLower(ft.ext) in ["mp3", "wav", "m4a"]
  }

  /** handle_audio_upload()'s own settings test, on the raw options: zone, API key and pull zone must be set. */
  predicate RawSettingsMissing(o: Options) {
    || Empty(GetOption(o, StorageZoneOption, ""))
    || Empty(GetOption(o, ApiKeyOption, ""))
    || Empty(GetOption(o, PullZoneUrlOption, ""))
  }

  /**
   * What handle_audio_upload() and process_new_attachment() do with the
   * chain's result: the chain's own log_error() calls, then the URL and an
   * upload time on success, or the handler's failure log, the failed flag
   * and an attempt time.
   */
  function UploadFinish(db: Db, files: map<int, string>, id: int, up: Step, failure: LogCall): Db {
    var db1 := LogAll(db, files, up.logs);
    match up.url
    case Some(url) => db1.(meta := MarkUploaded(db1.meta, id, url))
    case None =>
      var db2 := LogOne(db1, files, failure);
      db2.(meta := MarkFailed(db2.meta, id))
  }

  /** handle_audio_upload($upload) on the stored state; the returned $upload is always the input. */
  function HandleAudioUploadSpec(db: Db, files: map<int, string>, o: Options, file: string, ft: FileType, env: Env): Db {
    if !IsAudioUpload(ft) then db
    else
      var id := env.attachmentId;
      if id == 0 then LogOne(db, files, LogCall(AttachmentNotFound(Basename(file)), 0))
      else if RawSettingsMissing(o) then LogOne(db, files, LogCall(SettingsNotConfigured, 0))
      else UploadFinish(db, files, id, UploadToBunny(o, file, env), LogCall(UploadFailed(Basename(file)), 0))
  }

  /** process_new_attachment($post_id) on the stored state. */
  function ProcessNewAttachmentSpec(db: Db, files: map<int, string>, o: Options, postId: nat, mimeType: string, env: Env): Db {
    if !StartsWith(mimeType, "audio/") || !MetaEmpty(db.meta, postId, CdnUrlKey) then db
    else
      var path := AttachedFile(files, postId);
      if Empty(path) || !env.fileExists then LogOne(db, files, LogCall(NewAttachmentFileNotFound(postId), postId))
      else
        match Resolve(o)
        case Unresolved(missing) =>
          LogOne(LogOne(db, files, LogCall(MissingSettings(missing), 0)), files, LogCall(NewAttachmentSettingsNotConfigured, postId))
        case Resolved(_) =>
          UploadFinish(db, files, postId, UploadToBunny(o, path, env), LogCall(NewAttachmentUploadFailed(Basename(path)), postId))
  }

  /** The JSON reply of ajax_upload_attachment(). */
  datatype AjaxResponse = JsonSuccess(url: string, message: string) | JsonError(message: string)

  /** The message the AJAX reply carries on failure: the stored error's message when there is one. */
  function FailureReply(v: Option<MetaValue>): string {
    if v.Some? && v.value.ErrorData? && !Empty(Message(v.value.problem)) then Message(v.value.problem)
    else "Failed to upload to Bunny CDN. Check server logs for details."
  }

  /**
   * What ajax_upload_attachment() does once its checks pass: clear the
   * attachment's failure record, run the chain, then store the URL and reply
   * success, or reply with the error stored on the attachment.
   */
  function AjaxFinish(db: Db, files: map<int, string>, id: int, up: Step): (Db, AjaxResponse) {
    var cleared := db.(meta := ClearFailure(db.meta, id));
    var db1 := LogAll(cleared, files, up.logs);
    match up.url
    case Some(url) =>
      (db1.(meta := MarkUploaded(db1.meta, id, url)), JsonSuccess(url, "File uploaded to Bunny CDN successfully."))
    case None =>
      (db1, JsonError(FailureReply(Lookup(db1.meta, id, UploadErrorKey))))
  }

  /** ajax_upload_attachment(): the stored state afterwards, and the reply. */
  function AjaxUploadSpec(db: Db, files: map<int, string>, o: Options, nonceOk: bool, id: int, postMime: Option<string>, env: Env): (Db, AjaxResponse) {
    if !nonceOk then (db, JsonError("Security check failed."))
    else if id == 0 then (db, JsonError("Invalid attachment ID."))
    else if postMime.None? || !StartsWith(postMime.value, "audio") then
      (LogOne(db, files, LogCall(NotAudioFile, id)), JsonError("Not an audio file."))
    else
      var path := AttachedFile(files, id);
      if Empty(path) || !env.fileExists then
        (LogOne(db, files, LogCall(AttachedFileNotFound(path), id)), JsonError("File not found."))
      else AjaxFinish(db, files, id, UploadToBunny(o, path, env))
  }

  /** One attachment returned by the query retry_failed_uploads() runs, with what its upload meets. */
  datatype Item = Item(id: nat, env: Env)

  /**
   * What the retry loop does with the chain's result: the URL and an upload
   * time and the failure record removed, or a new attempt time.
   */
  function RetryFinish(db: Db, files: map<int, string>, id: int, up: Step): Db {
    var db1 := LogAll(db, files, up.logs);
    match up.url
    case Some(url) => db1.(meta := ClearFailure(MarkUploaded(db1.meta, id, url), id))
    case None => db1.(meta := SetMeta(db1.meta, id, AttemptTimeKey, Stamp))
  }

  /** The stored state with the loop's success and failure counters. */
  datatype Tally = Tally(db: Db, successes: nat, failures: nat)

  /** One pass of the retry loop: a missing file is logged and counted as a failure. */
  function RetryStep(t: Tally, files: map<int, string>, o: Options, item: Item): Tally {
    var path := AttachedFile(files, item.id);
    if Empty(path) || !item.env.fileExists then
      Tally(LogOne(t.db, files, LogCall(RetryFileNotFound(item.id), 0)), t.successes, t.failures + 1)
    else RetryTally(t, files, item.id, UploadToBunny(o, path, item.env))
  }

  /** A retried upload with the chain's result: the state after RetryFinish, and one more success or failure. */
  function RetryTally(t: Tally, files: map<int, string>, id: int, up: Step): Tally {
    var db1 := RetryFinish(t.db, files, id, up);
    if up.url.Some? then Tally(db1, t.successes + 1, t.failures) else Tally(db1, t.successes, t.failures + 1)
  }

  /** Whether an attachment's retry produces a URL; it does not depend on the stored state. */
  predicate RetrySucceeds(files: map<int, string>, o: Options, item: Item) {
    var path := AttachedFile(files, item.id);
    !Empty(path) && item.env.fileExists && UploadToBunny(o, path, item.env).url.Some?
  }

  /** The number of items whose retry succeeds. */
  function RetrySuccessCount(files: map<int, string>, o: Options, items: seq<Item>): (n: nat)
    ensures n <= |items|
  {
    if items == [] then 0
    else RetrySuccessCount(files, o, items[..|items| - 1]) + (if RetrySucceeds(files, o, items[|items| - 1]) then 1 else 0)
  }

  /** The state and the counters after the retry loop has handled the given items in order. */
  function RetryAll(db: Db, files: map<int, string>, o: Options, items: seq<Item>): Tally {
    if items == [] then Tally(db, 0, 0)
    else RetryStep(RetryAll(db, files, o, items[..|items| - 1]), files, o, items[|items| - 1])
  }

  /** The retry loop's state after one more item. */
  lemma RetryAllSnoc(db: Db, files: map<int, string>, o: Options, items: seq<Item>, i: nat)
    requires i < |items|
    ensures RetryAll(db, files, o, items[..i + 1]) == RetryStep(RetryAll(db, files, o, items[..i]), files, o, items[i])
  {
    assert items[..i + 1][..i] == items[..i];
  }

  /** One pass of the upload-existing loop: an attachment with a URL is skipped; a success stores the URL only. */
  function ExistingStep(t: Tally, files: map<int, string>, o: Options, item: Item): Tally {
    if !MetaEmpty(t.db.meta, item.id, CdnUrlKey) then t
    else ExistingTally(t, files, item.id, UploadToBunny(o, AttachedFile(files, item.id), item.env))
  }

  /** An upload-existing pass with the chain's result: its log calls, then the URL alone and a success, or a failure. */
  function ExistingTally(t: Tally, files: map<int, string>, id: int, up: Step): Tally {
    var db1 := LogAll(t.db, files, up.logs);
    match up.url
    case Some(url) => Tally(db1.(meta := SetMeta(db1.meta, id, CdnUrlKey, Text(url))), t.successes + 1, t.failures)
    case None => Tally(db1, t.successes, t.failures + 1)
  }

  /** The state and the counters after the upload-existing loop has handled the given items. */
  function ExistingAll(db: Db, files: map<int, string>, o: Options, items: seq<Item>): Tally {
    if items == [] then Tally(db, 0, 0)
    else ExistingStep(ExistingAll(db, files, o, items[..|items| - 1]), files, o, items[|items| - 1])
  }

  /** Whether an attachment's upload produces a URL; it does not depend on the stored state. */
  predicate ExistingSucceeds(files: map<int, string>, o: Options, item: Item) {
    UploadToBunny(o, AttachedFile(files, item.id), item.env).url.Some?
  }

  /** The number of items that have no CDN URL in the given meta. */
  function UrlMissingCount(m: MetaTable, items: seq<Item>): (n: nat)
    ensures n <= |items|
  {
    if items == [] then 0
    else UrlMissingCount(m, items[..|items| - 1]) + (if MetaEmpty(m, items[|items| - 1].id, CdnUrlKey) then 1 else 0)
  }

  /** The number of items that have no CDN URL in the given meta and whose upload produces one. */
  function ExistingSuccessCount(m: MetaTable, files: map<int, string>, o: Options, items: seq<Item>): (n: nat)
    ensures n <= UrlMissingCount(m, items)
  {
    if items == [] then 0
    else
      var last := items[|items| - 1];
      ExistingSuccessCount(m, files, o, items[..|items| - 1])
        + (if MetaEmpty(m, last.id, CdnUrlKey) && ExistingSucceeds(files, o, last) then 1 else 0)
  }

  /** The plugin's stored state, with the options and attached files it reads but never writes. */
  class Site {
    var errors: seq<ErrorRecord>
    var meta: MetaTable
    const options: Options
    const files: map<int, string>

    constructor (options: Options, files: map<int, string>, meta: MetaTable)
      ensures errors == [] && this.meta == meta && this.options == options && this.files == files
    {
      this.errors := [];
      this.meta := meta;
      this.options := options;
      this.files := files;
    }

    function State(): Db
      reads this
    {
      Db(errors, meta)
    }

    /** log_error() */
    method LogError(c: LogCall)
      modifies this
      ensures State() == LogOne(old(State()), files, c)
    {
      var record := Stored(c, files);
      if c.attachmentId > 0 {
        meta := SetMeta(meta, c.attachmentId, UploadErrorKey, ErrorData(c.problem));
        meta := SetMeta(meta, c.attachmentId, UploadErrorTimeKey, Stamp);
        meta := SetMeta(meta, c.attachmentId, UploadFailedKey, Text("1"));
      }
      errors := errors + [record];
      if |errors| > MaxStoredErrors {
        errors := errors[|errors| - MaxStoredErrors..];
      }
    }

    /** The log_error() calls a transport chain made, replayed in order. */
    method Record(calls: seq<LogCall>)
      modifies this
      ensures State() == LogAll(old(State()), files, calls)
    {
      var i := 0;
      while i < |calls|
        invariant 0 <= i <= |calls|
        invariant State() == LogAll(old(State()), files, calls[..i])
      {
        assert calls[..i + 1][..i] == calls[..i];
        LogError(calls[i]);
        i := i + 1;
      }
      assert calls[..|calls|] == calls;
    }

    /** upload_to_bunny($file_path): the chain's result, with its log_error() calls applied to the state. */
    method Upload(path: string, env: Env) returns (url: Option<string>)
      modifies this
      ensures url == UploadToBunny(options, path, env).url
      ensures State() == LogAll(old(State()), files, UploadToBunny(options, path, env).logs)
    {
      var r := UploadToBunny(options, path, env);
      Record(r.logs);
      url := r.url;
    }

    method HandleAudioUpload(file: string, ft: FileType, env: Env)
      modifies this
      ensures State() == HandleAudioUploadSpec(old(State()), files, options, file, ft, env)
    {
      if !IsAudioUpload(ft) {
        return;
      }
      var id := env.attachmentId;
      if id == 0 {
        LogError(LogCall(AttachmentNotFound(Basename(file)), 0));
        return;
      }
      if RawSettingsMissing(options) {
        LogError(LogCall(SettingsNotConfigured, 0));
        return;
      }
      var url := Upload(file, env);
      if url.Some? {
        meta := MarkUploaded(meta, id, url.value);
      } else {
        LogError(LogCall(UploadFailed(Basename(file)), 0));
        meta := MarkFailed(meta, id);
      }
    }

    method ProcessNewAttachment(postId: nat, mimeType: string, env: Env)
      modifies this
      ensures State() == ProcessNewAttachmentSpec(old(State()), files, options, postId, mimeType, env)
    {
      if !StartsWith(mimeType, "audio/") || !MetaEmpty(meta, postId, CdnUrlKey) {
        return;
      }
      var path := AttachedFile(files, postId);
      if Empty(path) || !env.fileExists {
        LogError(LogCall(NewAttachmentFileNotFound(postId), postId));
        return;
      }
      var res := Resolve(options);
      if res.Unresolved? {
        LogError(LogCall(MissingSettings(res.missing), 0));
        LogError(LogCall(NewAttachmentSettingsNotConfigured, postId));
        return;
      }
      var url := Upload(path, env);
      if url.Some? {
        meta := MarkUploaded(meta, postId, url.value);
      } else {
        LogError(LogCall(NewAttachmentUploadFailed(Basename(path)), postId));
        meta := MarkFailed(meta, postId);
      }
    }

    method AjaxUploadAttachment(nonceOk: bool, id: int, postMime: Option<string>, env: Env) returns (reply: AjaxResponse)
      modifies this
      ensures (State(), reply) == AjaxUploadSpec(old(State()), files, options, nonceOk, id, postMime, env)
    {
      if !nonceOk {
        return JsonError("Security check failed.");
      }
      if id == 0 {
        return JsonError("Invalid attachment ID.");
      }
      if postMime.None? || !StartsWith(postMime.value, "audio") {
        LogError(LogCall(NotAudioFile, id));
        return JsonError("Not an audio file.");
      }
      var path := AttachedFile(files, id);
      if Empty(path) || !env.fileExists {
        LogError(LogCall(AttachedFileNotFound(path), id));
        return JsonError("File not found.");
      }
      meta := ClearFailure(meta, id);
      var url := Upload(path, env);
      if url.Some? {
        meta := MarkUploaded(meta, id, url.value);
        reply := JsonSuccess(url.value, "File uploaded to Bunny CDN successfully.");
      } else {
        reply := JsonError(FailureReply(Lookup(meta, id, UploadErrorKey)));
      }
    }

    /** One pass of retry_failed_uploads()'s loop, on the counters it was given. */
    method RetryItem(item: Item, successes: nat, failures: nat) returns (successCount: nat, failCount: nat)
      modifies this
      ensures Tally(State(), successCount, failCount) == RetryStep(Tally(old(State()), successes, failures), files, options, item)
    {
      successCount, failCount := successes, failures;
      ghost var t0 := Tally(State(), successes, failures);
      var path := AttachedFile(files, item.id);
      if Empty(path) || !item.env.fileExists {
        LogError(LogCall(RetryFileNotFound(item.id), 0));
        failCount := failCount + 1;
        return;
      }
      ghost var up := UploadToBunny(options, path, item.env);
      assert RetryStep(t0, files, options, item) == RetryTally(t0, files, item.id, up);
      var url := Upload(path, item.env);
      successCount, failCount := RetryOutcome(item.id, url, up, t0.db, successes, failures);
    }

    /** What retry_failed_uploads() does with one upload's result. */
    method RetryOutcome(id: int, url: Option<string>, ghost up: Step, ghost before: Db, successes: nat, failures: nat) returns (successCount: nat, failCount: nat)
      requires url == up.url && State() == LogAll(before, files, up.logs)
      modifies this
      ensures Tally(State(), successCount, failCount) == RetryTally(Tally(before, successes, failures), files, id, up)
    {
      ghost var db1 := LogAll(before, files, up.logs);
      successCount, failCount := successes, failures;
      if url.Some? {
        meta := MarkUploaded(meta, id, url.value);
        meta := ClearFailure(meta, id);
        assert State() == db1.(meta := ClearFailure(MarkUploaded(db1.meta, id, url.value), id));
        successCount := successCount + 1;
      } else {
        meta := SetMeta(meta, id, AttemptTimeKey, Stamp);
        assert State() == db1.(meta := SetMeta(db1.meta, id, AttemptTimeKey, Stamp));
        failCount := failCount + 1;
      }
    }

    /** retry_failed_uploads() over the attachments its query returned. */
    method RetryFailedUploads(items: seq<Item>) returns (successCount: nat, failCount: nat)
      modifies this
      ensures Tally(State(), successCount, failCount) == RetryAll(old(State()), files, options, items)
    {
      successCount, failCount := 0, 0;
      ghost var before := State();
      var i := 0;
      while i < |items|
        invariant 0 <= i <= |items|
        invariant Tally(State(), successCount, failCount) == RetryAll(before, files, options, items[..i])
      {
        RetryAllSnoc(before, files, options, items, i);
        successCount, failCount := RetryItem(items[i], successCount, failCount);
        i := i + 1;
      }
      assert items[..|items|] == items;
    }

    /** One pass of upload_existing_audio_files()'s loop, on the counters it was given. */
    method ExistingItem(item: Item, successes: nat, failures: nat) returns (successCount: nat, failCount: nat)
      modifies this
      ensures Tally(State(), successCount, failCount) == ExistingStep(Tally(old(State()), successes, failures), files, options, item)
    {
      successCount, failCount := successes, failures;
      if !MetaEmpty(meta, item.id, CdnUrlKey) {
        return;
      }
      ghost var t0 := Tally(State(), successes, failures);
      ghost var up := UploadToBunny(options, AttachedFile(files, item.id), item.env);
      assert ExistingStep(t0, files, options, item) == ExistingTally(t0, files, item.id, up);
      var url := Upload(AttachedFile(files, item.id), item.env);
      successCount, failCount := ExistingOutcome(item.id, url, up, t0.db, successes, failures);
    }

    /** What upload_existing_audio_files() does with one upload's result. */
    method ExistingOutcome(id: int, url: Option<string>, ghost up: Step, ghost before: Db, successes: nat, failures: nat) returns (successCount: nat, failCount: nat)
      requires url == up.url && State() == LogAll(before, files, up.logs)
      modifies this
      ensures Tally(State(), successCount, failCount) == ExistingTally(Tally(before, successes, failures), files, id, up)
    {
      successCount, failCount := successes, failures;
      if url.Some? {
        meta := SetMeta(meta, id, CdnUrlKey, Text(url.value));
        successCount := successCount + 1;
      } else {
        failCount := failCount + 1;
      }
    }

    /** upload_existing_audio_files() over the audio attachments its query returned. */
    method UploadExistingAudioFiles(items: seq<Item>) returns (successCount: nat, failCount: nat)
      modifies this
      ensures Tally(State(), successCount, failCount) == ExistingAll(old(State()), files, options, items)
    {
      successCount, failCount := 0, 0;
      var i := 0;
      while i < |items|
        invariant 0 <= i <= |items|
        invariant Tally(State(), successCount, failCount) == ExistingAll(old(State()), files, options, items[..i])
      {
        assert items[..i + 1][..i] == items[..i];
        successCount, failCount := ExistingItem(items[i], successCount, failCount);
        i := i + 1;
      }
      assert items[..|items|] == items;
    }

    /** The 'clear errors' action: delete_option('bunny_auto_uploader_errors'). */
    method ClearErrors()
      modifies this
      ensures errors == [] && meta == old(meta)
    {
      errors := [];
    }
  }
}
