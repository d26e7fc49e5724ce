/**
 * The filters that make WordPress hand out the CDN address of an uploaded
 * audio file: wp_get_attachment_url (replace_attachment_url()),
 * wp_get_attachment_metadata (filter_attachment_metadata()) and
 * wp_prepare_attachment_for_js (prepare_attachment_for_js()).
 */
module UrlFilters {
  import opened Php
  import opened ErrorLog
  import opened Transports
  import opened Site
  import opened SiteFacts

  /** The PHP values the filters see: null, a string, an array with string keys, or anything else. */
  datatype Value = Null | Str(s: string) | Arr(entries: map<string, Value>) | Other

  /** isset($a[$k]): present and not null. */
  predicate IsSet(a: map<string, Value>, k: string) {
    k in a && a[k] != Null
  }

  /** get_post_meta($id, '_bunny_cdn_url', true): the stored URL, or '' when there is none. */
  function StoredCdnUrl(m: MetaTable, id: int): string {
    match Lookup(m, id, CdnUrlKey)
    case Some(Text(s)) => s
    case _ => ""
  }

  /** The common test of the three filters: an audio MIME type and a non-empty CDN URL. */
  predicate Serves(mimeType: string, cdn: string) {
    StartsWith(mimeType, "audio") && !Empty(cdn)
  }

  /**
   * replace_attachment_url($url, $id): the CDN URL for an audio attachment
   * that has one, otherwise the URL WordPress computed. postMime is the
   * attachment's MIME type, None when get_post() finds no post.
   */
  function ReplaceAttachmentUrl(url: string, postMime: Option<string>, cdn: string): (r: string)
    ensures postMime.Some? && Serves(postMime.value, cdn) ==> r == cdn
    ensures !(postMime.Some? && Serves(postMime.value, cdn)) ==> r == url
  {
    if postMime.None? || !StartsWith(postMime.value, "audio") then url
    else if !Empty(cdn) then cdn
    else url
  }

  /** filter_attachment_metadata($data, $id) */
  function FilterAttachmentMetadata(data: Value, postMime: Option<string>, cdn: string): (r: Value)
    ensures !(postMime.Some? && Serves(postMime.value, cdn) && data.Arr?) ==> r == data
    ensures postMime.Some? && Serves(postMime.value, cdn) && data.Arr? ==>
      && r.Arr?
      && r.entries.Keys == data.entries.Keys + {"bunny_cdn_url"}
      && r.entries["bunny_cdn_url"] == Str(cdn)
      && (forall k :: k in data.entries && k != "bunny_cdn_url" && k != "audiodata" ==> r.entries[k] == data.entries[k])
      && ("audiodata" in data.entries && data.entries["audiodata"].Arr? ==>
            r.entries["audiodata"] == Arr(data.entries["audiodata"].entries["file_url" := Str(cdn)]))
      && ("audiodata" in data.entries && !data.entries["audiodata"].Arr? ==>
            r.entries["audiodata"] == data.entries["audiodata"])
  {
    if postMime.None? || !StartsWith(postMime.value, "audio") then data
    else if !Empty(cdn) && data.Arr? then
      var withUrl := data.entries["bunny_cdn_url" := Str(cdn)];
      if IsSet(withUrl, "audiodata") && withUrl["audiodata"].Arr? then
        Arr(withUrl["audiodata" := Arr(withUrl["audiodata"].entries["file_url" := Str(cdn)])])
      else Arr(withUrl)
    else data
  }

  /** prepare_attachment_for_js($response, $attachment, $meta) for an attachment of the given MIME type. */
  function PrepareAttachmentForJs(response: map<string, Value>, mimeType: string, cdn: string): (r: map<string, Value>)
    ensures !Serves(mimeType, cdn) ==> r == response
    ensures Serves(mimeType, cdn) ==>
      && r.Keys == response.Keys + {"bunny_cdn_url"}
      && r["bunny_cdn_url"] == Str(cdn)
      && (forall k :: k in response && k !in {"bunny_cdn_url", "url", "audioSourceUrl"} ==> r[k] == response[k])
      && (IsSet(response, "url") ==> r["url"] == Str(cdn))
      && ("url" in response && !IsSet(response, "url") ==> r["url"] == response["url"])
      && (IsSet(response, "audioSourceUrl") ==> r["audioSourceUrl"] == Str(cdn))
      && ("audioSourceUrl" in response && !IsSet(response, "audioSourceUrl") ==> r["audioSourceUrl"] == response["audioSourceUrl"])
  {
    if !StartsWith(mimeType, "audio") then response
    else if !Empty(cdn) then
      var r1 := response["bunny_cdn_url" := Str(cdn)];
      var r2 := if IsSet(r1, "url") then r1["url" := Str(cdn)] else r1;
      if IsSet(r2, "audioSourceUrl") then r2["audioSourceUrl" := Str(cdn)] else r2
    else response
  }

  /** Running the metadata filter on its own output changes nothing more. */
  lemma FilterAttachmentMetadataIdempotent(data: Value, postMime: Option<string>, cdn: string)
    ensures FilterAttachmentMetadata(FilterAttachmentMetadata(data, postMime, cdn), postMime, cdn)
      == FilterAttachmentMetadata(data, postMime, cdn)
  {
    var once := FilterAttachmentMetadata(data, postMime, cdn);
    if postMime.Some? && Serves(postMime.value, cdn) && data.Arr? {
      assert once.entries["bunny_cdn_url" := Str(cdn)] == once.entries;
      if "audiodata" in data.entries && data.entries["audiodata"].Arr? {
        var inner := once.entries["audiodata"].entries;
        assert inner["file_url" := Str(cdn)] == inner;
      }
    }
  }

  /** Running the JavaScript filter on its own output changes nothing more. */
  lemma PrepareAttachmentForJsIdempotent(response: map<string, Value>, mimeType: string, cdn: string)
    ensures PrepareAttachmentForJs(PrepareAttachmentForJs(response, mimeType, cdn), mimeType, cdn)
      == PrepareAttachmentForJs(response, mimeType, cdn)
  {
  }

  /**
   * The three filters agree: whenever the JavaScript data or the audio
   * metadata carry a replaced address, it is the URL replace_attachment_url()
   * returns.
   */
  lemma FiltersAgree(url: string, mimeType: string, cdn: string, response: map<string, Value>, data: map<string, Value>)
    requires Serves(mimeType, cdn)
    ensures
      var served := Str(ReplaceAttachmentUrl(url, Some(mimeType), cdn));
      && PrepareAttachmentForJs(response, mimeType, cdn)["bunny_cdn_url"] == served
      && (IsSet(response, "url") ==> PrepareAttachmentForJs(response, mimeType, cdn)["url"] == served)
      && FilterAttachmentMetadata(Arr(data), Some(mimeType), cdn).entries["bunny_cdn_url"] == served
  {
  }

  /**
   * After an upload handler stored the chain's URL, WordPress hands out the
   * CDN address of the uploaded file for that audio attachment.
   */
  lemma ServedAfterUpload(db: Db, files: map<int, string>, id: int, up: Step, failure: LogCall, url: string, mimeType: string)
    requires id > 0 && up.url.Some? && !Empty(up.url.value) && StartsWith(mimeType, "audio")
    ensures ReplaceAttachmentUrl(url, Some(mimeType), StoredCdnUrl(UploadFinish(db, files, id, up, failure).meta, id)) == up.url.value
  {
    UploadSuccess(db, files, id, up, failure);
  }
}
