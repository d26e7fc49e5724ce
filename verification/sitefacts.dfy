/**
 * What the handlers promise about the stored state: which meta keys an
 * upload writes on success and on failure, when nothing changes at all,
 * which error the AJAX reply reports, and what the batch loops preserve.
 */
module SiteFacts {
  import opened Php
  import opened Settings
  import opened ErrorLog
  import opened Transports
  import opened Site

  /** A URL the chain returns is never empty in PHP's sense, so the skip tests see it. */
  lemma UploadedUrlNotEmpty(o: Options, path: string, env: Env)
    requires UploadToBunny(o, path, env).url.Some?
    ensures !Empty(UploadToBunny(o, path, env).url.value)
  {
    var pull := Resolve(o).settings.config.pullZoneUrl;
    var url := UploadToBunny(o, path, env).url.value;
    assert url == pull + Basename(path);
    assert url[|pull| - 1] == '/';
  }

  /** handle_audio_upload() leaves everything alone for a file that is not audio. */
  lemma AudioUploadIgnoresOtherFiles(db: Db, files: map<int, string>, o: Options, file: string, ft: FileType, env: Env)
    requires !IsAudioUpload(ft)
    ensures HandleAudioUploadSpec(db, files, o, file, ft, env) == db
  {
  }

  /**
   * Without an attachment id, or without the zone, API key and pull zone, the
   * handler logs one error that names no attachment and writes no meta.
   */
  lemma AudioUploadRejected(db: Db, files: map<int, string>, o: Options, file: string, ft: FileType, env: Env)
    requires IsAudioUpload(ft)
    requires env.attachmentId == 0 || RawSettingsMissing(o)
    ensures
      var r := HandleAudioUploadSpec(db, files, o, file, ft, env);
      var p := if env.attachmentId == 0 then AttachmentNotFound(Basename(file)) else SettingsNotConfigured;
      r.meta == db.meta && r.errors == KeepLast(db.errors + [ErrorRecord(p, None)])
  {
  }

  /**
   * After a successful chain an upload handler stores the URL the chain
   * returned and an upload time. It does not clear the failure record: when
   * a transport that failed first logged against the attachment, the failed
   * flag is '1' next to the new URL, and when none did, the failure keys keep
   * whatever they held before.
   */
  lemma UploadSuccess(db: Db, files: map<int, string>, id: int, up: Step, failure: LogCall)
    requires id > 0 && up.url.Some?
    ensures
      var m := UploadFinish(db, files, id, up, failure).meta;
      && Lookup(m, id, CdnUrlKey) == Some(Text(up.url.value))
      && Lookup(m, id, UploadTimeKey) == Some(Stamp)
      && (LastProblemFor(up.logs, id).Some? ==> Lookup(m, id, UploadFailedKey) == Some(Text("1")))
      && (LastProblemFor(up.logs, id).None? ==>
            forall k :: k in FailureKeys ==> Lookup(m, id, k) == Lookup(db.meta, id, k))
  {
    LogAllLastError(db, files, up.logs, id);
  }

  /**
   * After a failed chain an upload handler sets the failed flag and an
   * attempt time and leaves the URL as it was; when its failure log names
   * the attachment, that error is the one stored on it.
   */
  lemma UploadFailure(db: Db, files: map<int, string>, id: int, up: Step, failure: LogCall)
    requires id > 0 && up.url.None?
    ensures
      var m := UploadFinish(db, files, id, up, failure).meta;
      && Lookup(m, id, UploadFailedKey) == Some(Text("1"))
      && Lookup(m, id, AttemptTimeKey) == Some(Stamp)
      && Lookup(m, id, CdnUrlKey) == Lookup(db.meta, id, CdnUrlKey)
      && (failure.attachmentId == id ==> Lookup(m, id, UploadErrorKey) == Some(ErrorData(failure.problem)))
  {
    var db1 := LogAll(db, files, up.logs);
    var db2 := LogOne(db1, files, failure);
    assert UploadFinish(db, files, id, up, failure).meta == MarkFailed(db2.meta, id);
  }

  /** After a failed chain the handler's own failure log is the newest stored error. */
  lemma UploadFailureLogged(db: Db, files: map<int, string>, id: int, up: Step, failure: LogCall)
    requires up.url.None?
    ensures
      var errors := UploadFinish(db, files, id, up, failure).errors;
      errors != [] && errors[|errors| - 1] == Stored(failure, files)
  {
    var db1 := LogAll(db, files, up.logs);
    KeepLastAfterAppend(db1.errors, Stored(failure, files));
  }

  /** handle_audio_upload() stores the CDN URL of the uploaded file under the attachment it looked up. */
  lemma AudioUploadStoresCdnUrl(db: Db, files: map<int, string>, o: Options, file: string, ft: FileType, env: Env)
    requires IsAudioUpload(ft) && env.attachmentId > 0 && !RawSettingsMissing(o)
    requires UploadToBunny(o, file, env).url.Some?
    ensures Lookup(HandleAudioUploadSpec(db, files, o, file, ft, env).meta, env.attachmentId, CdnUrlKey)
      == Some(Text(CdnUrl(Resolve(o).settings, file)))
  {
    var up := UploadToBunny(o, file, env);
    var failure := LogCall(UploadFailed(Basename(file)), 0);
    assert HandleAudioUploadSpec(db, files, o, file, ft, env) == UploadFinish(db, files, env.attachmentId, up, failure);
    assert up.url.value == CdnUrl(Resolve(o).settings, file);
    UploadSuccess(db, files, env.attachmentId, up, failure);
  }

  /** process_new_attachment() leaves everything alone for a non-audio attachment or one that already has a URL. */
  lemma NewAttachmentSkips(db: Db, files: map<int, string>, o: Options, postId: nat, mimeType: string, env: Env)
    requires !StartsWith(mimeType, "audio/") || !MetaEmpty(db.meta, postId, CdnUrlKey)
    ensures ProcessNewAttachmentSpec(db, files, o, postId, mimeType, env) == db
  {
  }

  /**
   * For an audio attachment without a URL whose file exists, incomplete
   * settings store the settings error on the attachment and leave its URL
   * unset, after logging the missing fields against no attachment.
   */
  lemma NewAttachmentUnconfigured(db: Db, files: map<int, string>, o: Options, postId: nat, mimeType: string, env: Env)
    requires StartsWith(mimeType, "audio/") && MetaEmpty(db.meta, postId, CdnUrlKey) && postId > 0
    requires !Empty(AttachedFile(files, postId)) && env.fileExists
    requires Resolve(o).Unresolved?
    ensures
      var r := ProcessNewAttachmentSpec(db, files, o, postId, mimeType, env);
      && Lookup(r.meta, postId, UploadErrorKey) == Some(ErrorData(NewAttachmentSettingsNotConfigured))
      && Lookup(r.meta, postId, UploadFailedKey) == Some(Text("1"))
      && Lookup(r.meta, postId, CdnUrlKey) == Lookup(db.meta, postId, CdnUrlKey)
      && |r.errors| >= 2
      && r.errors[|r.errors| - 2] == ErrorRecord(MissingSettings(Resolve(o).missing), None)
  {
    var missing := Resolve(o).missing;
    assert ProcessNewAttachmentSpec(db, files, o, postId, mimeType, env)
      == LogOne(LogOne(db, files, LogCall(MissingSettings(missing), 0)), files, LogCall(NewAttachmentSettingsNotConfigured, postId));
    SettingsErrorsLogged(db, files, postId, missing);
  }

  /** The two log_error() calls of an unconfigured new attachment: the missing fields, then the attachment's own error. */
  lemma SettingsErrorsLogged(db: Db, files: map<int, string>, postId: nat, missing: seq<Field>)
    requires postId > 0
    ensures
      var r := LogOne(LogOne(db, files, LogCall(MissingSettings(missing), 0)), files, LogCall(NewAttachmentSettingsNotConfigured, postId));
      && Lookup(r.meta, postId, UploadErrorKey) == Some(ErrorData(NewAttachmentSettingsNotConfigured))
      && Lookup(r.meta, postId, UploadFailedKey) == Some(Text("1"))
      && Lookup(r.meta, postId, CdnUrlKey) == Lookup(db.meta, postId, CdnUrlKey)
      && |r.errors| >= 2
      && r.errors[|r.errors| - 2] == ErrorRecord(MissingSettings(missing), None)
  {
    var db1 := LogOne(db, files, LogCall(MissingSettings(missing), 0));
    KeepLastAfterAppend(db.errors, Stored(LogCall(MissingSettings(missing), 0), files));
    KeepLastAfterAppend(db1.errors, Stored(LogCall(NewAttachmentSettingsNotConfigured, postId), files));
  }

  /** After a successful upload a second process_new_attachment() of the same attachment changes nothing. */
  lemma NewAttachmentIdempotent(db: Db, files: map<int, string>, o: Options, postId: nat, mimeType: string, env: Env)
    requires postId > 0 && !Empty(AttachedFile(files, postId)) && env.fileExists
    requires UploadToBunny(o, AttachedFile(files, postId), env).url.Some?
    ensures
      var once := ProcessNewAttachmentSpec(db, files, o, postId, mimeType, env);
      ProcessNewAttachmentSpec(once, files, o, postId, mimeType, env) == once
  {
    var once := ProcessNewAttachmentSpec(db, files, o, postId, mimeType, env);
    var path := AttachedFile(files, postId);
    if StartsWith(mimeType, "audio/") && MetaEmpty(db.meta, postId, CdnUrlKey) {
      var up := UploadToBunny(o, path, env);
      var failure := LogCall(NewAttachmentUploadFailed(Basename(path)), postId);
      assert once == UploadFinish(db, files, postId, up, failure);
      UploadSuccess(db, files, postId, up, failure);
      UploadedUrlNotEmpty(o, path, env);
    }
    NewAttachmentSkips(once, files, o, postId, mimeType, env);
  }

  /** The reply ajax_upload_attachment() sends when the upload itself fails. */
  function AjaxFailureMessage(last: Option<Problem>): string {
    if last.Some? && !Empty(Message(last.value)) then Message(last.value)
    else "Failed to upload to Bunny CDN. Check server logs for details."
  }

  /**
   * Once the AJAX request passes its checks and the chain returns a URL, it
   * replies success with that URL, which it also stores with an upload time;
   * when the chain logged nothing against the attachment, no failure record
   * is left, since the handler cleared it before the attempt.
   */
  lemma AjaxSuccess(db: Db, files: map<int, string>, id: int, up: Step)
    requires id > 0 && up.url.Some?
    ensures
      var (r, reply) := AjaxFinish(db, files, id, up);
      && reply == JsonSuccess(up.url.value, "File uploaded to Bunny CDN successfully.")
      && Lookup(r.meta, id, CdnUrlKey) == Some(Text(up.url.value))
      && Lookup(r.meta, id, UploadTimeKey) == Some(Stamp)
      && (LastProblemFor(up.logs, id).None? ==> forall k :: k in FailureKeys ==> Lookup(r.meta, id, k) == None)
  {
    var cleared := db.(meta := ClearFailure(db.meta, id));
    LogAllLastError(cleared, files, up.logs, id);
  }

  /**
   * When the chain fails, the AJAX reply is an error carrying the message of
   * the error this very attempt logged against the attachment, never an
   * older one, and the URL is left as it was.
   */
  lemma AjaxFailure(db: Db, files: map<int, string>, id: int, up: Step)
    requires id > 0 && up.url.None?
    ensures
      var (r, reply) := AjaxFinish(db, files, id, up);
      && reply == JsonError(AjaxFailureMessage(LastProblemFor(up.logs, id)))
      && Lookup(r.meta, id, CdnUrlKey) == Lookup(db.meta, id, CdnUrlKey)
  {
    var cleared := db.(meta := ClearFailure(db.meta, id));
    LogAllLastError(cleared, files, up.logs, id);
  }

  /** Requests the AJAX handler refuses before touching the file change nothing. */
  lemma AjaxGuards(db: Db, files: map<int, string>, o: Options, nonceOk: bool, id: int, postMime: Option<string>, env: Env)
    requires !nonceOk || id == 0
    ensures AjaxUploadSpec(db, files, o, nonceOk, id, postMime, env).0 == db
    ensures AjaxUploadSpec(db, files, o, nonceOk, id, postMime, env).1
      == JsonError(if !nonceOk then "Security check failed." else "Invalid attachment ID.")
  {
  }

  /**
   * An AJAX request for an attachment that is not audio, or whose file is
   * missing, logs the matching error against the attachment and replies with
   * an error. Its failure record is set, because the handler clears that
   * record only once both tests have passed, and its URL is left alone.
   */
  lemma AjaxRejected(db: Db, files: map<int, string>, o: Options, id: int, postMime: Option<string>, env: Env)
    requires id != 0
    requires postMime.None? || !StartsWith(postMime.value, "audio") || Empty(AttachedFile(files, id)) || !env.fileExists
    ensures
      var (r, reply) := AjaxUploadSpec(db, files, o, true, id, postMime, env);
      var notAudio := postMime.None? || !StartsWith(postMime.value, "audio");
      var problem := if notAudio then NotAudioFile else AttachedFileNotFound(AttachedFile(files, id));
      && r == LogOne(db, files, LogCall(problem, id))
      && reply == JsonError(if notAudio then "Not an audio file." else "File not found.")
      && r.errors[|r.errors| - 1] == Stored(LogCall(problem, id), files)
      && (id > 0 ==>
            && Lookup(r.meta, id, UploadFailedKey) == Some(Text("1"))
            && Lookup(r.meta, id, UploadErrorKey) == Some(ErrorData(problem)))
      && Lookup(r.meta, id, CdnUrlKey) == Lookup(db.meta, id, CdnUrlKey)
  {
    var notAudio := postMime.None? || !StartsWith(postMime.value, "audio");
    var problem := if notAudio then NotAudioFile else AttachedFileNotFound(AttachedFile(files, id));
    assert AjaxUploadSpec(db, files, o, true, id, postMime, env)
      == (LogOne(db, files, LogCall(problem, id)), JsonError(if notAudio then "Not an audio file." else "File not found."));
    LoggedAgainst(db, files, LogCall(problem, id));
  }

  /** One log_error() call against an attachment: the newest stored error, the failure record, and the URL kept. */
  lemma LoggedAgainst(db: Db, files: map<int, string>, c: LogCall)
    ensures
      var r := LogOne(db, files, c);
      && r.errors[|r.errors| - 1] == Stored(c, files)
      && (c.attachmentId > 0 ==>
            && Lookup(r.meta, c.attachmentId, UploadFailedKey) == Some(Text("1"))
            && Lookup(r.meta, c.attachmentId, UploadErrorKey) == Some(ErrorData(c.problem)))
      && Lookup(r.meta, c.attachmentId, CdnUrlKey) == Lookup(db.meta, c.attachmentId, CdnUrlKey)
  {
    KeepLastAfterAppend(db.errors, Stored(c, files));
  }

  /**
   * A successful retry stores the URL and an upload time and removes all
   * three failure keys, whatever the chain logged on the way; a failed one
   * refreshes the attempt time and never touches the URL.
   */
  lemma RetryFinishOutcome(db: Db, files: map<int, string>, id: int, up: Step)
    requires id > 0
    ensures
      var m := RetryFinish(db, files, id, up).meta;
      && (up.url.Some? ==>
            && Lookup(m, id, CdnUrlKey) == Some(Text(up.url.value))
            && Lookup(m, id, UploadTimeKey) == Some(Stamp)
            && forall k :: k in FailureKeys ==> Lookup(m, id, k) == None)
      && (up.url.None? ==>
            && Lookup(m, id, AttemptTimeKey) == Some(Stamp)
            && Lookup(m, id, CdnUrlKey) == Lookup(db.meta, id, CdnUrlKey))
  {
  }

  /**
   * retry_failed_uploads() counts every item exactly once, and counts as
   * successes exactly the items whose upload returned a URL.
   */
  lemma {:induction false} RetryAllCounts(db: Db, files: map<int, string>, o: Options, items: seq<Item>)
    ensures RetryAll(db, files, o, items).successes + RetryAll(db, files, o, items).failures == |items|
    ensures RetryAll(db, files, o, items).successes == RetrySuccessCount(files, o, items)
    decreases |items|
  {
    if items != [] {
      RetryAllCounts(db, files, o, items[..|items| - 1]);
    }
  }

  /** The upload-existing loop never replaces a URL an attachment already has. */
  lemma {:induction false} ExistingAllKeepsUrls(db: Db, files: map<int, string>, o: Options, items: seq<Item>, id: int)
    requires !MetaEmpty(db.meta, id, CdnUrlKey)
    ensures Lookup(ExistingAll(db, files, o, items).db.meta, id, CdnUrlKey) == Lookup(db.meta, id, CdnUrlKey)
    decreases |items|
  {
    if items != [] {
      ExistingAllKeepsUrls(db, files, o, items[..|items| - 1], id);
    }
  }

  /**
   * One pass of the upload-existing loop counts an attachment without a URL
   * once, as a success exactly when its upload returns a URL, and does not
   * count an attachment that has one.
   */
  lemma ExistingStepCounts(t: Tally, files: map<int, string>, o: Options, item: Item)
    ensures
      var t' := ExistingStep(t, files, o, item);
      && t'.successes + t'.failures == t.successes + t.failures + (if MetaEmpty(t.db.meta, item.id, CdnUrlKey) then 1 else 0)
      && t'.successes == t.successes + (if MetaEmpty(t.db.meta, item.id, CdnUrlKey) && ExistingSucceeds(files, o, item) then 1 else 0)
  {
    if MetaEmpty(t.db.meta, item.id, CdnUrlKey) {
      var up := UploadToBunny(o, AttachedFile(files, item.id), item.env);
      assert ExistingStep(t, files, o, item) == ExistingTally(t, files, item.id, up);
    }
  }

  /** One pass of the upload-existing loop leaves every other attachment's URL alone. */
  lemma ExistingStepKeepsOthers(t: Tally, files: map<int, string>, o: Options, item: Item, other: int)
    requires other != item.id
    ensures Lookup(ExistingStep(t, files, o, item).db.meta, other, CdnUrlKey) == Lookup(t.db.meta, other, CdnUrlKey)
  {
    if MetaEmpty(t.db.meta, item.id, CdnUrlKey) {
      var up := UploadToBunny(o, AttachedFile(files, item.id), item.env);
      assert ExistingStep(t, files, o, item) == ExistingTally(t, files, item.id, up);
    }
  }

  /** The upload-existing loop leaves the URL of an attachment it does not visit unchanged. */
  lemma {:induction false} ExistingAllKeepsOthers(db: Db, files: map<int, string>, o: Options, items: seq<Item>, id: int)
    requires forall i :: 0 <= i < |items| ==> items[i].id != id
    ensures Lookup(ExistingAll(db, files, o, items).db.meta, id, CdnUrlKey) == Lookup(db.meta, id, CdnUrlKey)
    decreases |items|
  {
    if items != [] {
      var init := items[..|items| - 1];
      ExistingAllKeepsOthers(db, files, o, init, id);
      ExistingStepKeepsOthers(ExistingAll(db, files, o, init), files, o, items[|items| - 1], id);
    }
  }

  /**
   * Over distinct attachments, as the query returns them,
   * upload_existing_audio_files() counts exactly the attachments that had no
   * URL before the batch, and counts as successes exactly those of them whose
   * upload returned a URL.
   */
  lemma {:induction false} ExistingAllCounts(db: Db, files: map<int, string>, o: Options, items: seq<Item>)
    requires forall i, j :: 0 <= i < j < |items| ==> items[i].id != items[j].id
    ensures ExistingAll(db, files, o, items).successes + ExistingAll(db, files, o, items).failures == UrlMissingCount(db.meta, items)
    ensures ExistingAll(db, files, o, items).successes == ExistingSuccessCount(db.meta, files, o, items)
    decreases |items|
  {
    if items != [] {
      var init, last := items[..|items| - 1], items[|items| - 1];
      assert forall i :: 0 <= i < |init| ==> init[i] == items[i];
      ExistingAllCounts(db, files, o, init);
      ExistingAllKeepsOthers(db, files, o, init, last.id);
      ExistingCountsSnoc(db, files, o, items);
    }
  }

  /** The counting step of ExistingAllCounts: one more attachment whose URL the batch has not touched yet. */
  lemma ExistingCountsSnoc(db: Db, files: map<int, string>, o: Options, items: seq<Item>)
    requires items != []
    requires
      var init, last := items[..|items| - 1], items[|items| - 1];
      && Lookup(ExistingAll(db, files, o, init).db.meta, last.id, CdnUrlKey) == Lookup(db.meta, last.id, CdnUrlKey)
      && ExistingAll(db, files, o, init).successes + ExistingAll(db, files, o, init).failures == UrlMissingCount(db.meta, init)
      && ExistingAll(db, files, o, init).successes == ExistingSuccessCount(db.meta, files, o, init)
    ensures ExistingAll(db, files, o, items).successes + ExistingAll(db, files, o, items).failures == UrlMissingCount(db.meta, items)
    ensures ExistingAll(db, files, o, items).successes == ExistingSuccessCount(db.meta, files, o, items)
  {
    var init, last := items[..|items| - 1], items[|items| - 1];
    ExistingStepCounts(ExistingAll(db, files, o, init), files, o, last);
  }

  /** The upload-existing loop skips an attachment that has a URL and stores the URL of each one it uploads. */
  lemma ExistingStepMeta(t: Tally, files: map<int, string>, o: Options, item: Item)
    requires item.id > 0
    ensures !MetaEmpty(t.db.meta, item.id, CdnUrlKey) ==> ExistingStep(t, files, o, item) == t
    ensures MetaEmpty(t.db.meta, item.id, CdnUrlKey) ==>
      var up := UploadToBunny(o, AttachedFile(files, item.id), item.env);
      var t' := ExistingStep(t, files, o, item);
      && (up.url.Some? <==> t'.successes == t.successes + 1)
      && (up.url.Some? ==> Lookup(t'.db.meta, item.id, CdnUrlKey) == Some(Text(up.url.value)))
      && (up.url.None? ==> t'.failures == t.failures + 1 && Lookup(t'.db.meta, item.id, CdnUrlKey) == Lookup(t.db.meta, item.id, CdnUrlKey))
  {
  }
}
