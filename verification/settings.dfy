/**
 * Settings resolution: get_bunny_settings() reads eight options, derives the
 * storage endpoint from the region, normalises the pull-zone URL and rejects
 * incomplete configurations with an ordered list of missing fields;
 * display_admin_notice_for_missing_settings() builds the same list with a
 * different label for the pull zone.
 */
module Settings {
  import opened Php

  /** The plugin's options. */
  datatype OptionName =
    | ApiKeyOption | StorageZoneOption | StorageRegionOption | PullZoneUrlOption
    | UseFtpOption | FtpHostOption | FtpUsernameOption | FtpPasswordOption

  /** The name each option has in the options table. */
  function OptionKey(n: OptionName): string {
    match n
    case ApiKeyOption => "bunny_auto_uploader_api_key"
    case StorageZoneOption => "bunny_auto_uploader_storage_zone"
    case StorageRegionOption => "bunny_auto_uploader_storage_region"
    case PullZoneUrlOption => "bunny_auto_uploader_pull_zone_url"
    case UseFtpOption => "bunny_auto_uploader_use_ftp"
    case FtpHostOption => "bunny_auto_uploader_ftp_host"
    case FtpUsernameOption => "bunny_auto_uploader_ftp_username"
    case FtpPasswordOption => "bunny_auto_uploader_ftp_password"
  }

  /** Distinct options have distinct names, so a map keyed by OptionName is the options table restricted to the plugin. */
  lemma OptionKeyInjective(a: OptionName, b: OptionName)
    ensures OptionKey(a) == OptionKey(b) <==> a == b
  {
  }

  /** The global storage host of Bunny.net; regional hosts are "<region>." + StorageHost. */
  const StorageHost := "storage.bunnycdn.com"

  /** The plugin's part of the WordPress options table: the options that are set, with their string values. */
  type Options = map<OptionName, string>

  /** get_option($name, $default) */
  function GetOption(o: Options, name: OptionName, default: string): string {
    if name in o then o[name] else default
  }

  /** get_option('bunny_auto_uploader_use_ftp', false) taken as a PHP truth value. */
  predicate UseFtp(o: Options) {
    UseFtpOption in o && !Empty(o[UseFtpOption])
  }

  /** The settings array as get_bunny_settings() first reads it. */
  datatype Config = Config(
    apiKey: string,
    storageZone: string,
    storageRegion: string,
    pullZoneUrl: string,
    useFtp: bool,
    ftpHost: string,
    ftpUsername: string,
    ftpPassword: string)

  function ReadConfig(o: Options): Config {
    Config(
      GetOption(o, ApiKeyOption, ""),
      GetOption(o, StorageZoneOption, ""),
      GetOption(o, StorageRegionOption, ""),
      GetOption(o, PullZoneUrlOption, ""),
      UseFtp(o),
      GetOption(o, FtpHostOption, StorageHost),
      GetOption(o, FtpUsernameOption, ""),
      GetOption(o, FtpPasswordOption, ""))
  }

  /** Validated settings: the config with a normalised pull-zone URL, and the derived storage endpoint. */
  datatype Settings = Settings(config: Config, storageEndpoint: string)

  function StorageEndpoint(region: string): string {
    if Empty(region) then StorageHost else region + "." + StorageHost
  }

  /** The URL ends in '/' and the character before that '/' (if any) is not a '/'. */
  predicate EndsInOneSlash(url: string) {
    |url| > 0 && url[|url| - 1] == '/' && (|url| == 1 || url[|url| - 2] != '/')
  }

  lemma {:induction false} RTrimAfterAppendedSlash(t: string)
    requires t == [] || t[|t| - 1] != '/'
    ensures RTrimSlash(t + "/") == t
  {
    assert (t + "/")[..|t + "/"| - 1] == t;
  }

  /** rtrim($url, '/') . '/' for a non-empty URL; an empty one is left alone. */
  function NormalizePullZone(url: string): (r: string)
    ensures Empty(r) <==> Empty(url)
    ensures Empty(url) ==> r == url
    ensures !Empty(url) ==> EndsInOneSlash(r) && RTrimSlash(r) == RTrimSlash(url)
  {
    if Empty(url) then url
    else
      RTrimSlashSpec(url);
      RTrimAfterAppendedSlash(RTrimSlash(url));
      RTrimSlash(url) + "/"
  }

  /** Normalising twice is normalising once. */
  lemma {:induction false} NormalizePullZoneIdempotent(url: string)
    ensures NormalizePullZone(NormalizePullZone(url)) == NormalizePullZone(url)
  {
    if !Empty(url) {
      var r := NormalizePullZone(url);
      RTrimAfterAppendedSlash(RTrimSlash(url));
      assert RTrimSlash(r) == RTrimSlash(url);
    }
  }

  /** The fields that can be reported missing, in the order the list reports them. */
  datatype Field = StorageZoneField | ApiKeyField | FtpUsernameField | FtpPasswordField | PullZoneUrlField

  function Rank(f: Field): nat {
    match f
    case StorageZoneField => 0
    case ApiKeyField => 1
    case FtpUsernameField => 2
    case FtpPasswordField => 3
    case PullZoneUrlField => 4
  }

  /** When one field counts as missing: the API key only in HTTP mode, the FTP credentials only in FTP mode. */
  predicate IsMissing(c: Config, f: Field) {
    match f
    case StorageZoneField => Empty(c.storageZone)
    case ApiKeyField => Empty(c.apiKey) && !c.useFtp
    case FtpUsernameField => Empty(c.ftpUsername) && c.useFtp
    case FtpPasswordField => Empty(c.ftpPassword) && c.useFtp
    case PullZoneUrlField => Empty(c.pullZoneUrl)
  }

  /** The rejection test of get_bunny_settings(), as one disjunction. */
  predicate Incomplete(c: Config) {
    || Empty(c.storageZone)
    || (Empty(c.apiKey) && !c.useFtp)
    || (Empty(c.ftpUsername) && c.useFtp)
    || (Empty(c.ftpPassword) && c.useFtp)
    || Empty(c.pullZoneUrl)
  }

  /**
   * The list of missing fields, built by five separate tests. It names exactly
   * the missing fields, in the fixed order, and is empty exactly when the
   * rejection test passes.
   */
  function MissingFields(c: Config): (r: seq<Field>)
    ensures forall f :: f in r <==> IsMissing(c, f)
    ensures forall i, j :: 0 <= i < j < |r| ==> Rank(r[i]) < Rank(r[j])
    ensures r == [] <==> !Incomplete(c)
  {
    (if Empty(c.storageZone) then [StorageZoneField] else [])
    + (if Empty(c.apiKey) && !c.useFtp then [ApiKeyField] else [])
    + (if Empty(c.ftpUsername) && c.useFtp then [FtpUsernameField] else [])
    + (if Empty(c.ftpPassword) && c.useFtp then [FtpPasswordField] else [])
    + (if Empty(c.pullZoneUrl) then [PullZoneUrlField] else [])
  }

  /** The label get_bunny_settings() logs for a missing field. */
  function SettingsLabel(f: Field): string {
    match f
    case StorageZoneField => "Storage Zone"
    case ApiKeyField => "API Key"
    case FtpUsernameField => "FTP Username"
    case FtpPasswordField => "FTP Password"
    case PullZoneUrlField => "Pull Zone URL"
  }

  /** The label the admin notice shows: the same, except for the pull zone. */
  function NoticeLabel(f: Field): string {
    if f == PullZoneUrlField then "Pull Zone Hostname" else SettingsLabel(f)
  }

  function SettingsLabels(fs: seq<Field>): (r: seq<string>)
    ensures |r| == |fs|
    ensures forall i :: 0 <= i < |fs| ==> r[i] == SettingsLabel(fs[i])
  {
    seq(|fs|, i requires 0 <= i < |fs| => SettingsLabel(fs[i]))
  }

  function NoticeLabels(fs: seq<Field>): (r: seq<string>)
    ensures |r| == |fs|
    ensures forall i :: 0 <= i < |fs| ==> r[i] == NoticeLabel(fs[i])
  {
    seq(|fs|, i requires 0 <= i < |fs| => NoticeLabel(fs[i]))
  }

  /** The message get_bunny_settings() logs with code 'missing_settings'. */
  function MissingMessage(fs: seq<Field>): string {
    "Missing required Bunny.net settings: " + Implode(", ", SettingsLabels(fs))
  }

  function Derive(c: Config): Settings {
    Settings(c.(pullZoneUrl := NormalizePullZone(c.pullZoneUrl)), StorageEndpoint(c.storageRegion))
  }

  /** Normalising the pull-zone URL never changes which fields are missing. */
  lemma DeriveKeepsMissing(c: Config)
    ensures Incomplete(Derive(c).config) == Incomplete(c)
    ensures MissingFields(Derive(c).config) == MissingFields(c)
  {
    assert Empty(Derive(c).config.pullZoneUrl) == Empty(c.pullZoneUrl);
  }

  datatype Resolution = Resolved(settings: Settings) | Unresolved(missing: seq<Field>)

  /**
   * get_bunny_settings(): rejected exactly when the options are incomplete,
   * with the missing fields in order; otherwise every option is kept as read
   * except the pull-zone URL, which ends in exactly one '/', and the endpoint
   * follows the region.
   */
  function Resolve(o: Options): (r: Resolution)
    ensures r.Unresolved? <==> Incomplete(ReadConfig(o))
    ensures r.Unresolved? ==> r.missing != [] && r.missing == MissingFields(ReadConfig(o))
    ensures r.Resolved? ==>
      var c, s := ReadConfig(o), r.settings.config;
      && s == c.(pullZoneUrl := s.pullZoneUrl)
      && EndsInOneSlash(s.pullZoneUrl)
      && RTrimSlash(s.pullZoneUrl) == RTrimSlash(c.pullZoneUrl)
      && !Empty(s.storageZone)
      && (s.useFtp ==> !Empty(s.ftpUsername) && !Empty(s.ftpPassword))
      && (!s.useFtp ==> !Empty(s.apiKey))
      && r.settings.storageEndpoint == (if Empty(c.storageRegion) then StorageHost else c.storageRegion + ".storage.bunnycdn.com")
  {
    var s := Derive(ReadConfig(o));
    DeriveKeepsMissing(ReadConfig(o));
    if Incomplete(s.config) then Unresolved(MissingFields(s.config))
    else DerivedComplete(ReadConfig(o)); Resolved(s)
  }

  /** What a complete configuration's derived settings hold. */
  lemma DerivedComplete(c: Config)
    requires !Incomplete(c)
    ensures
      var s := Derive(c).config;
      && s == c.(pullZoneUrl := s.pullZoneUrl)
      && EndsInOneSlash(s.pullZoneUrl)
      && RTrimSlash(s.pullZoneUrl) == RTrimSlash(c.pullZoneUrl)
      && !Empty(s.storageZone)
      && (s.useFtp ==> !Empty(s.ftpUsername) && !Empty(s.ftpPassword))
      && (!s.useFtp ==> !Empty(s.apiKey))
      && Derive(c).storageEndpoint == (if Empty(c.storageRegion) then StorageHost else c.storageRegion + ".storage.bunnycdn.com")
  {
  }

  /** Accepted settings are the derived settings of a complete configuration. */
  lemma ResolvedIsDerived(o: Options)
    requires Resolve(o).Resolved?
    ensures Resolve(o).settings == Derive(ReadConfig(o)) && !Incomplete(ReadConfig(o))
  {
    DeriveKeepsMissing(ReadConfig(o));
  }

  /** display_admin_notice_for_missing_settings(): the missing-field labels it lists. */
  function NoticeMissing(o: Options): seq<string> {
    NoticeLabels(MissingFields(ReadConfig(o)))
  }

  /**
   * The admin notice lists something exactly when get_bunny_settings() fails,
   * and then lists the same fields in the same order; only the pull-zone label
   * differs.
   */
  lemma NoticeAgreesWithResolve(o: Options)
    ensures Resolve(o).Unresolved? <==> NoticeMissing(o) != []
    ensures Resolve(o).Unresolved? ==>
      var logged := SettingsLabels(Resolve(o).missing);
      && |NoticeMissing(o)| == |logged|
      && forall i :: 0 <= i < |logged| ==>
           NoticeMissing(o)[i] == (if logged[i] == "Pull Zone URL" then "Pull Zone Hostname" else logged[i])
  {
  }

  /** Storing the normalised pull-zone URL back into the options resolves to the same settings. */
  lemma ResolveIdempotent(o: Options)
    requires Resolve(o).Resolved?
    ensures Resolve(o[PullZoneUrlOption := Resolve(o).settings.config.pullZoneUrl]) == Resolve(o)
  {
    var url := GetOption(o, PullZoneUrlOption, "");
    NormalizePullZoneIdempotent(url);
    var o' := o[PullZoneUrlOption := Resolve(o).settings.config.pullZoneUrl];
    assert ReadConfig(o') == ReadConfig(o).(pullZoneUrl := NormalizePullZone(url));
  }
}
