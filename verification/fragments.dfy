/**
 * The fragment clean-up page (cleanup-fragments.php): it sorts the audio
 * attachments that have a CDN URL into groups of numbered fragments
 * ("name-3.mp3" belongs to "name.mp3") and originals, lists each group in
 * fragment order, and on request deletes one group's fragments from
 * WordPress and from the storage zone over FTP.
 */
module Fragments {
  import opened Php
  import opened Settings
  import opened Transports

  /** \w in a PCRE pattern without the u modifier: ASCII letters, digits and '_'. */
  predicate IsWordChar(c: char) {
    ('a' <= c <= 'z') || ('A' <= c <= 'Z') || ('0' <= c <= '9') || c == '_'
  }

  predicate AllWord(s: string) {
    forall i :: 0 <= i < |s| ==> IsWordChar(s[i])
  }

  /** The string $ anchors against: without the D modifier, $ also matches before one final newline. */
  function Subject(name: string): string {
    if name != [] && name[|name| - 1] == '\n' then name[..|name| - 1] else name
  }

  /** The three groups of /^(.+)-(\d+)\.(\w+)$/. */
  datatype Match = Match(prefix: string, digits: string, ext: string)

  /** s is prefix-digits.ext with each part as the pattern demands ('.' never matches a newline). */
  predicate IsMatch(s: string, m: Match) {
    && s == m.prefix + "-" + m.digits + "." + m.ext
    && m.prefix != [] && '\n' !in m.prefix
    && m.digits != [] && AllDigits(m.digits)
    && m.ext != [] && AllWord(m.ext)
  }

  /** The index of the last c in s, or -1. */
  function LastIndexOf(s: string, c: char): (r: int)
    ensures -1 <= r < |s|
    ensures r >= 0 ==> s[r] == c
    ensures forall i :: r < i < |s| ==> s[i] != c
  {
    if s == [] then -1
    else if s[|s| - 1] == c then |s| - 1
    else LastIndexOf(s[..|s| - 1], c)
  }

  /**
   * preg_match('/^(.+)-(\d+)\.(\w+)$/', $name): the extension holds no '.' and
   * the digits no '-', so the last '.' and the last '-' before it are the
   * only possible split points.
   */
  function MatchFragment(name: string): Option<Match> {
    var s := Subject(name);
    var dot := LastIndexOf(s, '.');
    if dot < 0 then None
    else
      var left, ext := s[..dot], s[dot + 1..];
      var dash := LastIndexOf(left, '-');
      if dash < 0 then None
      else
        var m := Match(left[..dash], left[dash + 1..], ext);
        if m.prefix != [] && '\n' !in m.prefix && m.digits != [] && AllDigits(m.digits) && m.ext != [] && AllWord(m.ext)
        then Some(m) else None
  }

  /** Splitting a string at an index and putting the pieces back around the separator gives the string. */
  lemma SplitAt(s: string, k: int)
    requires 0 <= k < |s|
    ensures s == s[..k] + [s[k]] + s[k + 1..]
  {
  }

  /** Every match found is a decomposition of the name. */
  lemma MatchFragmentSound(name: string)
    requires MatchFragment(name).Some?
    ensures IsMatch(Subject(name), MatchFragment(name).value)
  {
    var s := Subject(name);
    var dot := LastIndexOf(s, '.');
    var left := s[..dot];
    var dash := LastIndexOf(left, '-');
    SplitAt(s, dot);
    SplitAt(left, dash);
  }

  /** Every decomposition of the name is the match found, so the pattern's groups are unique. */
  lemma MatchFragmentComplete(name: string, m: Match)
    requires IsMatch(Subject(name), m)
    ensures MatchFragment(name) == Some(m)
  {
    var s := Subject(name);
    var left := m.prefix + "-" + m.digits;
    assert s == left + "." + m.ext;
    var dot := |left|;
    assert LastIndexOf(s, '.') == dot by {
      assert s[dot] == '.';
      forall i | dot < i < |s|
        ensures s[i] != '.'
      {
        assert s[i] == m.ext[i - dot - 1];
      }
    }
    assert s[..dot] == left && s[dot + 1..] == m.ext;
    assert LastIndexOf(left, '-') == |m.prefix| by {
      assert left[|m.prefix|] == '-';
      forall i | |m.prefix| < i < |left|
        ensures left[i] != '-'
      {
        assert left[i] == m.digits[i - |m.prefix| - 1];
      }
    }
    assert left[..|m.prefix|] == m.prefix && left[|m.prefix| + 1..] == m.digits;
  }

  /** A name matches the pattern with groups m exactly when it is prefix-digits.ext with those parts. */
  lemma MatchFragmentIff(name: string, m: Match)
    ensures MatchFragment(name) == Some(m) <==> IsMatch(Subject(name), m)
  {
    if MatchFragment(name) == Some(m) {
      MatchFragmentSound(name);
    }
    if IsMatch(Subject(name), m) {
      MatchFragmentComplete(name, m);
    }
  }

  /** $matches[1] . '.' . $matches[3] */
  function BaseName(m: Match): string {
    m.prefix + "." + m.ext
  }

  /** intval($matches[2]) */
  function FragmentNumber(m: Match): nat
    requires AllDigits(m.digits)
  {
    IntVal(m.digits)
  }

  /** One attachment the page's query returns: its id, its attached file and its '_bunny_cdn_url' meta. */
  datatype Scanned = Scanned(id: nat, path: string, cdnUrl: string)

  /** A fragment as the page records it. */
  datatype FragmentEntry = FragmentEntry(id: nat, filename: string, number: nat, cdnUrl: string)

  /** An original file as the page records it. */
  datatype OriginalEntry = OriginalEntry(id: nat, filename: string, cdnUrl: string)

  /** One entry of $fragments_found: a base name and its fragments. */
  datatype Group = Group(base: string, fragments: seq<FragmentEntry>)

  /** basename(get_attached_file($id)) */
  function Filename(item: Scanned): string {
    Basename(item.path)
  }

  /** The base name of a fragment, or None for an original. */
  function FragmentBase(item: Scanned): Option<string> {
    match MatchFragment(Filename(item))
    case Some(m) => Some(BaseName(m))
    case None => None
  }

  function EntryOf(item: Scanned): FragmentEntry
    requires MatchFragment(Filename(item)).Some?
  {
    var m := MatchFragment(Filename(item)).value;
    MatchFragmentSound(Filename(item));
    FragmentEntry(item.id, Filename(item), FragmentNumber(m), item.cdnUrl)
  }

  /** The fragments with the given base name, in scan order. */
  function WithBase(items: seq<Scanned>, base: string): seq<FragmentEntry> {
    if items == [] then []
    else
      var last := items[|items| - 1];
      WithBase(items[..|items| - 1], base) + (if FragmentBase(last) == Some(base) then [EntryOf(last)] else [])
  }

  /** The originals, in scan order. */
  function Originals(items: seq<Scanned>): seq<OriginalEntry> {
    if items == [] then []
    else
      var last := items[|items| - 1];
      Originals(items[..|items| - 1]) + (if FragmentBase(last).None? then [OriginalEntry(last.id, Filename(last), last.cdnUrl)] else [])
  }

  function Bases(groups: seq<Group>): (r: seq<string>)
    ensures |r| == |groups|
    ensures forall k :: 0 <= k < |groups| ==> r[k] == groups[k].base
  {
    seq(|groups|, k requires 0 <= k < |groups| => groups[k].base)
  }

  /** No key of the PHP array appears twice. */
  predicate Distinct(s: seq<string>) {
    forall i, j :: 0 <= i < j < |s| ==> s[i] != s[j]
  }

  /** How many fragments the groups hold together. */
  function TotalSize(groups: seq<Group>): nat {
    if groups == [] then 0 else TotalSize(groups[..|groups| - 1]) + |groups[|groups| - 1].fragments|
  }

  /** Adding a group adds its fragments to the total. */
  lemma TotalSizeAppend(groups: seq<Group>, g: Group)
    ensures TotalSize(groups + [g]) == TotalSize(groups) + |g.fragments|
  {
    assert (groups + [g])[..|groups|] == groups;
  }

  /** Replacing one group changes the total by the difference in its size. */
  lemma {:induction false} TotalSizeUpdate(groups: seq<Group>, k: nat, g: Group)
    requires k < |groups|
    ensures TotalSize(groups[k := g]) == TotalSize(groups) - |groups[k].fragments| + |g.fragments|
    decreases |groups|
  {
    var n := |groups| - 1;
    assert groups[k := g][..n] == if k == n then groups[..n] else groups[..n][k := g];
    if k < n {
      TotalSizeUpdate(groups[..n], k, g);
    }
  }

  /** The position of the group with the given base, or -1. */
  function IndexOfBase(groups: seq<Group>, base: string): (k: int)
    ensures -1 <= k < |groups|
    ensures k >= 0 ==> groups[k].base == base
    ensures k < 0 ==> base !in Bases(groups)
  {
    if groups == [] then -1
    else if groups[|groups| - 1].base == base then |groups| - 1
    else
      assert Bases(groups) == Bases(groups[..|groups| - 1]) + [groups[|groups| - 1].base];
      IndexOfBase(groups[..|groups| - 1], base)
  }

  /**
   * $fragments_found[$base][] = $entry: the entry is appended to the group of
   * that base, or a new group is added last; no other group changes.
   */
  function AddFragment(groups: seq<Group>, base: string, e: FragmentEntry): (r: seq<Group>)
    requires Distinct(Bases(groups))
    ensures |r| == |groups| + (if base in Bases(groups) then 0 else 1)
    ensures forall k :: 0 <= k < |groups| ==>
      r[k] == groups[k].(fragments := groups[k].fragments + (if groups[k].base == base then [e] else []))
    ensures base !in Bases(groups) ==> r[|groups|] == Group(base, [e])
    ensures Distinct(Bases(r))
    ensures TotalSize(r) == TotalSize(groups) + 1
  {
    var k := IndexOfBase(groups, base);
    if k >= 0 then
      var g := groups[k].(fragments := groups[k].fragments + [e]);
      TotalSizeUpdate(groups, k, g);
      assert Bases(groups[k := g]) == Bases(groups);
      groups[k := g]
    else
      TotalSizeAppend(groups, Group(base, [e]));
      assert Bases(groups + [Group(base, [e])]) == Bases(groups) + [base];
      groups + [Group(base, [e])]
  }

  /** Scanning one more attachment extends exactly one of the filtered lists. */
  lemma ScanOneMore(items: seq<Scanned>, i: nat)
    requires i < |items|
    ensures forall b ::
      WithBase(items[..i + 1], b) == WithBase(items[..i], b) + (if FragmentBase(items[i]) == Some(b) then [EntryOf(items[i])] else [])
    ensures Originals(items[..i + 1])
      == Originals(items[..i]) + (if FragmentBase(items[i]).None? then [OriginalEntry(items[i].id, Filename(items[i]), items[i].cdnUrl)] else [])
  {
    assert items[..i + 1][..i] == items[..i];
  }

  /** What the classification loop keeps true of the groups after scanning a prefix. */
  ghost predicate GroupsOf(groups: seq<Group>, scanned: seq<Scanned>) {
    && Distinct(Bases(groups))
    && (forall k :: 0 <= k < |groups| ==> groups[k].fragments != [] && groups[k].fragments == WithBase(scanned, groups[k].base))
    && (forall b :: b !in Bases(groups) ==> WithBase(scanned, b) == [])
  }

  /** Appending a scanned fragment to its group keeps the groups exact. */
  lemma AddFragmentKeepsGroups(groups: seq<Group>, before: seq<Scanned>, after: seq<Scanned>, base: string, e: FragmentEntry)
    requires GroupsOf(groups, before)
    requires forall b :: WithBase(after, b) == WithBase(before, b) + (if b == base then [e] else [])
    ensures GroupsOf(AddFragment(groups, base, e), after)
  {
    var next := AddFragment(groups, base, e);
    forall k | 0 <= k < |next|
      ensures next[k].fragments != [] && next[k].fragments == WithBase(after, next[k].base)
    {
      if k == |groups| {
        assert WithBase(before, base) == [];
      }
    }
    forall b | b !in Bases(next)
      ensures WithBase(after, b) == []
    {
      assert forall k :: 0 <= k < |groups| ==> Bases(next)[k] == Bases(groups)[k];
      assert b != base;
    }
  }

  /** Scanning a fragment: its group grows by the entry and the originals stay as they were. */
  lemma FragmentScanned(items: seq<Scanned>, i: nat, groups: seq<Group>)
    requires i < |items| && FragmentBase(items[i]).Some?
    requires GroupsOf(groups, items[..i])
    ensures GroupsOf(AddFragment(groups, FragmentBase(items[i]).value, EntryOf(items[i])), items[..i + 1])
    ensures Originals(items[..i + 1]) == Originals(items[..i])
  {
    ScanOneMore(items, i);
    AddFragmentKeepsGroups(groups, items[..i], items[..i + 1], FragmentBase(items[i]).value, EntryOf(items[i]));
  }

  /** Scanning an original: it is appended to the originals and every group stays exact. */
  lemma OriginalScanned(items: seq<Scanned>, i: nat, groups: seq<Group>)
    requires i < |items| && FragmentBase(items[i]).None?
    requires GroupsOf(groups, items[..i])
    ensures GroupsOf(groups, items[..i + 1])
    ensures Originals(items[..i + 1]) == Originals(items[..i]) + [OriginalEntry(items[i].id, Filename(items[i]), items[i].cdnUrl)]
  {
    ScanOneMore(items, i);
  }

  /**
   * The classification loop (cleanup-fragments.php, lines 37-59): every
   * scanned attachment lands in exactly one place; each group holds exactly
   * the fragments of its base in scan order, every fragment's base has a
   * group, no base has two, and the originals are the rest in scan order.
   */
  method ClassifyFiles(items: seq<Scanned>) returns (groups: seq<Group>, originals: seq<OriginalEntry>)
    ensures originals == Originals(items)
    ensures Distinct(Bases(groups))
    ensures forall k :: 0 <= k < |groups| ==> groups[k].fragments != [] && groups[k].fragments == WithBase(items, groups[k].base)
    ensures forall b :: b !in Bases(groups) ==> WithBase(items, b) == []
    ensures TotalSize(groups) + |originals| == |items|
  {
    groups, originals := [], [];
    var i := 0;
    while i < |items|
      invariant 0 <= i <= |items|
      invariant originals == Originals(items[..i])
      invariant GroupsOf(groups, items[..i])
      invariant TotalSize(groups) + |originals| == i
    {
      var item := items[i];
      var base := FragmentBase(item);
      if base.Some? {
        FragmentScanned(items, i, groups);
        groups := AddFragment(groups, base.value, EntryOf(item));
      } else {
        OriginalScanned(items, i, groups);
        originals := originals + [OriginalEntry(item.id, Filename(item), item.cdnUrl)];
      }
      i := i + 1;
    }
    assert items[..|items|] == items;
  }

  /** A group listed in ascending fragment order. */
  predicate SortedByNumber(s: seq<FragmentEntry>) {
    forall m, n :: 0 <= m < n < |s| ==> s[m].number <= s[n].number
  }

  /**
   * usort($fragments, fn($a, $b) => $a['fragment_number'] - $b['fragment_number'])
   * (cleanup-fragments.php, lines 76-78). The numbers are between 0 and
   * PHP_INT_MAX, so the comparator's difference never overflows and means
   * exactly "smaller first".
   */
  method SortByFragmentNumber(a: array<FragmentEntry>)
    modifies a
    ensures SortedByNumber(a[..])
    ensures multiset(a[..]) == multiset(old(a[..]))
  {
    var i := 0;
    while i < a.Length
      invariant 0 <= i <= a.Length
      invariant SortedByNumber(a[..i])
      invariant multiset(a[..]) == multiset(old(a[..]))
    {
      InsertLast(a, i);
      i := i + 1;
    }
    assert a[..a.Length] == a[..];
  }

  /** Sinks a[i] into the sorted a[..i], as one pass of an insertion sort. */
  method InsertLast(a: array<FragmentEntry>, i: nat)
    requires i < a.Length && SortedByNumber(a[..i])
    modifies a
    ensures SortedByNumber(a[..i + 1])
    ensures multiset(a[..]) == multiset(old(a[..]))
  {
    var j := i;
    while j > 0 && a[j - 1].number > a[j].number
      invariant 0 <= j <= i
      invariant forall m, n :: 0 <= m < n <= i && m != j && n != j ==> a[m].number <= a[n].number
      invariant forall n :: j < n <= i ==> a[j].number < a[n].number
      invariant multiset(a[..]) == multiset(old(a[..]))
    {
      SwapDown(a, j);
      j := j - 1;
    }
  }

  /** Exchanges a[j - 1] and a[j]. */
  method SwapDown(a: array<FragmentEntry>, j: nat)
    requires 0 < j < a.Length
    modifies a
    ensures a[..] == old(a[..])[j - 1 := old(a[j])][j := old(a[j - 1])]
    ensures multiset(a[..]) == multiset(old(a[..]))
  {
    a[j - 1], a[j] := a[j], a[j - 1];
  }

  /**
   * The listing of cleanup-fragments.php, lines 70-88: each group in the
   * order of $fragments_found, its fragments sorted by number. The sort works
   * on a by-value copy, so the groups themselves keep scan order.
   */
  method DisplayGroups(groups: seq<Group>) returns (listing: seq<Group>)
    ensures |listing| == |groups|
    ensures forall k :: 0 <= k < |groups| ==>
      && listing[k].base == groups[k].base
      && SortedByNumber(listing[k].fragments)
      && multiset(listing[k].fragments) == multiset(groups[k].fragments)
  {
    listing := [];
    var k := 0;
    while k < |groups|
      invariant 0 <= k <= |groups|
      invariant |listing| == k
      invariant forall j :: 0 <= j < k ==>
        && listing[j].base == groups[j].base
        && SortedByNumber(listing[j].fragments)
        && multiset(listing[j].fragments) == multiset(groups[j].fragments)
    {
      var fragments := groups[k].fragments;
      var copy := new FragmentEntry[|fragments|](j requires 0 <= j < |fragments| => fragments[j]);
      assert copy[..] == fragments;
      SortByFragmentNumber(copy);
      listing := listing + [Group(groups[k].base, copy[..])];
      k := k + 1;
    }
  }

  /** e is the entry of some scanned attachment whose base is b. */
  predicate ScannedAs(items: seq<Scanned>, b: string, e: FragmentEntry) {
    exists j :: 0 <= j < |items| && FragmentBase(items[j]) == Some(b) && e == EntryOf(items[j])
  }

  /** Every fragment a group holds was scanned as a fragment of that group's base. */
  lemma {:induction false} WithBaseSource(items: seq<Scanned>, b: string)
    ensures forall k :: 0 <= k < |WithBase(items, b)| ==> ScannedAs(items, b, WithBase(items, b)[k])
  {
    if items == [] {
      assert WithBase(items, b) == [];
    } else {
      var n := |items| - 1;
      WithBaseSource(items[..n], b);
      var before := WithBase(items[..n], b);
      var after := WithBase(items, b);
      assert after == before + (if FragmentBase(items[n]) == Some(b) then [EntryOf(items[n])] else []);
      forall k | 0 <= k < |after|
        ensures ScannedAs(items, b, after[k])
      {
        if k < |before| {
          assert ScannedAs(items[..n], b, before[k]);
          var j :| 0 <= j < n && FragmentBase(items[..n][j]) == Some(b) && before[k] == EntryOf(items[..n][j]);
          assert items[..n][j] == items[j];
          assert after[k] == before[k];
        } else {
          assert FragmentBase(items[n]) == Some(b) && after[k] == EntryOf(items[n]);
        }
      }
    }
  }

  /** The FTP connection delete_from_bunny_ftp() opens, and the file it removes. */
  datatype FtpDelete = FtpDelete(host: string, username: string, password: string, remotePath: string)

  /** What the server does with one delete: whether ftp_connect, ftp_login and ftp_delete succeed. */
  datatype FtpDeleteOutcome = FtpDeleteOutcome(connects: bool, loginOk: bool, deleteOk: bool)

  /**
   * The request of delete_from_bunny_ftp($filename) (cleanup-fragments.php,
   * lines 142-175): none without a username, a password and a zone (each read
   * with default ''); otherwise the storage endpoint of the region, which
   * ignores the FTP host option, and the file under the zone.
   */
  function DeleteRequest(o: Options, filename: string): (r: Option<FtpDelete>)
    ensures var c := ReadConfig(o);
      r.None? <==> Empty(c.ftpUsername) || Empty(c.ftpPassword) || Empty(c.storageZone)
    ensures var c := ReadConfig(o);
      r.Some? ==> r.value == FtpDelete(StorageEndpoint(c.storageRegion), c.ftpUsername, c.ftpPassword, "/" + c.storageZone + "/" + filename)
  {
    var c := ReadConfig(o);
    if Empty(c.ftpUsername) || Empty(c.ftpPassword) || Empty(c.storageZone) then None
    else
      var host := if !Empty(c.storageRegion) then c.storageRegion + ".storage.bunnycdn.com" else "storage.bunnycdn.com";
      Some(FtpDelete(host, c.ftpUsername, c.ftpPassword, "/" + c.storageZone + "/" + filename))
  }

  /**
   * delete_from_bunny_ftp($filename): true exactly when there is a request
   * and the server accepts the connection, the login and the delete.
   */
  function DeleteFromBunnyFtp(o: Options, filename: string, ftp: FtpDelete -> FtpDeleteOutcome): (ok: bool)
    ensures ok <==> DeleteRequest(o, filename).Some? && ftp(DeleteRequest(o, filename).value) == FtpDeleteOutcome(true, true, true)
  {
    match DeleteRequest(o, filename)
    case None => false
    case Some(req) =>
      var out := ftp(req);
      if !out.connects then false
      else if !out.loginOk then false
      else out.deleteOk
  }

  /**
   * With complete settings in FTP mode, the clean-up deletes the very object
   * the upload stored: the storage URL of the upload names the host and path
   * of the delete.
   */
  lemma DeleteTargetsUpload(o: Options, filename: string)
    requires Resolve(o).Resolved? && Resolve(o).settings.config.useFtp
    ensures DeleteRequest(o, filename).Some?
    ensures StorageUrl(Resolve(o).settings, filename)
      == "https://" + DeleteRequest(o, filename).value.host + DeleteRequest(o, filename).value.remotePath
  {
    var c := ReadConfig(o);
    ResolvedIsDerived(o);
    StorageUrlOfConfig(c, filename);
  }

  /** The storage URL of derived settings, split as host and path. */
  lemma StorageUrlOfConfig(c: Config, filename: string)
    ensures StorageUrl(Derive(c), filename) == "https://" + StorageEndpoint(c.storageRegion) + ("/" + c.storageZone + "/" + filename)
  {
    var host, zone := StorageEndpoint(c.storageRegion), c.storageZone;
    calc {
      StorageUrl(Derive(c), filename);
      "https://" + host + "/" + zone + "/" + filename;
      ("https://" + host) + ("/" + zone + "/" + filename);
    }
  }

  /** $deleted_count, $errors, and the deletes the clean-up loop asked for, in order. */
  datatype Cleanup = Cleanup(deleted: nat, errors: seq<string>, wpDeletes: seq<nat>, cdnDeletes: seq<string>)

  /** One pass of the clean-up loop (cleanup-fragments.php, lines 102-123). */
  function CleanupStep(c: Cleanup, f: FragmentEntry, o: Options, wpDelete: nat -> bool, ftp: FtpDelete -> FtpDeleteOutcome): Cleanup {
    var c1 := c.(wpDeletes := c.wpDeletes + [f.id]);
    if !wpDelete(f.id) then
      c1.(errors := c1.errors + ["Failed to delete " + f.filename + " from WordPress"])
    else
      var c2 := c1.(cdnDeletes := c1.cdnDeletes + [f.filename]);
      if DeleteFromBunnyFtp(o, f.filename, ftp) then c2.(deleted := c2.deleted + 1)
      else c2.(errors := c2.errors + ["Failed to delete " + f.filename + " from Bunny CDN"])
  }

  function CleanupAll(fs: seq<FragmentEntry>, o: Options, wpDelete: nat -> bool, ftp: FtpDelete -> FtpDeleteOutcome): Cleanup {
    if fs == [] then Cleanup(0, [], [], [])
    else CleanupStep(CleanupAll(fs[..|fs| - 1], o, wpDelete, ftp), fs[|fs| - 1], o, wpDelete, ftp)
  }

  /** The file names of the fragments WordPress deleted, in order. */
  function WpDeletedNames(fs: seq<FragmentEntry>, wpDelete: nat -> bool): seq<string> {
    if fs == [] then []
    else WpDeletedNames(fs[..|fs| - 1], wpDelete) + (if wpDelete(fs[|fs| - 1].id) then [fs[|fs| - 1].filename] else [])
  }

  /** How many fragments both deletes removed. */
  function FullyDeleted(fs: seq<FragmentEntry>, o: Options, wpDelete: nat -> bool, ftp: FtpDelete -> FtpDeleteOutcome): nat {
    if fs == [] then 0
    else
      var f := fs[|fs| - 1];
      FullyDeleted(fs[..|fs| - 1], o, wpDelete, ftp) + (if wpDelete(f.id) && DeleteFromBunnyFtp(o, f.filename, ftp) then 1 else 0)
  }

  /**
   * The clean-up loop's accounting: it asks WordPress to delete every
   * fragment once, in order; it asks the storage zone to delete exactly the
   * fragments WordPress deleted; the count is the fragments both removed; and
   * every fragment is either counted or leaves exactly one error.
   */
  lemma {:induction false} CleanupAccounts(fs: seq<FragmentEntry>, o: Options, wpDelete: nat -> bool, ftp: FtpDelete -> FtpDeleteOutcome)
    ensures var c := CleanupAll(fs, o, wpDelete, ftp);
      && |c.wpDeletes| == |fs|
      && (forall k :: 0 <= k < |fs| ==> c.wpDeletes[k] == fs[k].id)
      && c.cdnDeletes == WpDeletedNames(fs, wpDelete)
      && c.deleted == FullyDeleted(fs, o, wpDelete, ftp)
      && c.deleted + |c.errors| == |fs|
  {
    if fs != [] {
      CleanupAccounts(fs[..|fs| - 1], o, wpDelete, ftp);
    }
  }

  /** Without FTP credentials and a zone nothing counts as deleted, and every fragment leaves an error. */
  lemma {:induction false} CleanupWithoutCredentials(fs: seq<FragmentEntry>, o: Options, wpDelete: nat -> bool, ftp: FtpDelete -> FtpDeleteOutcome)
    requires Empty(ReadConfig(o).ftpUsername) || Empty(ReadConfig(o).ftpPassword) || Empty(ReadConfig(o).storageZone)
    ensures CleanupAll(fs, o, wpDelete, ftp).deleted == 0
    ensures |CleanupAll(fs, o, wpDelete, ftp).errors| == |fs|
  {
    if fs != [] {
      CleanupWithoutCredentials(fs[..|fs| - 1], o, wpDelete, ftp);
    }
  }

  /** $fragments_found[$base_name] when that key is set. */
  function GroupOf(groups: seq<Group>, base: string): (r: Option<seq<FragmentEntry>>)
    ensures r.Some? <==> base in Bases(groups)
    ensures r.Some? ==> exists k :: 0 <= k < |groups| && groups[k].base == base && groups[k].fragments == r.value
  {
    var k := IndexOfBase(groups, base);
    if k < 0 then None else Some(groups[k].fragments)
  }

  /**
   * For the groups the classification built, the group of a base is exactly
   * the fragments scanned with that base, and there is one exactly when some
   * were.
   */
  lemma GroupOfClassified(items: seq<Scanned>, groups: seq<Group>, base: string)
    requires GroupsOf(groups, items)
    ensures GroupOf(groups, base).Some? <==> WithBase(items, base) != []
    ensures GroupOf(groups, base).Some? ==> GroupOf(groups, base).value == WithBase(items, base)
  {
  }

  /** Some scanned attachment with this ID is a fragment of base. */
  predicate IsFragmentId(items: seq<Scanned>, base: string, id: nat) {
    exists j :: 0 <= j < |items| && FragmentBase(items[j]) == Some(base) && items[j].id == id
  }

  /**
   * Originals are never deleted: every attachment the clean-up of a base asks
   * WordPress to delete was scanned as a fragment of that base.
   */
  lemma CleanupDeletesOnlyFragments(items: seq<Scanned>, groups: seq<Group>, base: string, o: Options, wpDelete: nat -> bool, ftp: FtpDelete -> FtpDeleteOutcome)
    requires GroupsOf(groups, items) && base in Bases(groups)
    ensures forall id :: id in CleanupAll(GroupOf(groups, base).value, o, wpDelete, ftp).wpDeletes ==> IsFragmentId(items, base, id)
  {
    GroupOfClassified(items, groups, base);
    var fs := WithBase(items, base);
    var c := CleanupAll(fs, o, wpDelete, ftp);
    CleanupAccounts(fs, o, wpDelete, ftp);
    WithBaseSource(items, base);
    forall id | id in c.wpDeletes
      ensures IsFragmentId(items, base, id)
    {
      var k :| 0 <= k < |c.wpDeletes| && c.wpDeletes[k] == id;
      assert ScannedAs(items, base, fs[k]);
      var j :| 0 <= j < |items| && FragmentBase(items[j]) == Some(base) && fs[k] == EntryOf(items[j]);
      assert items[j].id == id;
    }
  }

  /**
   * The clean-up request (cleanup-fragments.php, lines 93-123): it runs only
   * for a base that is a key of the groups, and then works through that
   * group's fragments in scan order.
   */
  method CleanupFragments(groups: seq<Group>, base: string, o: Options, wpDelete: nat -> bool, ftp: FtpDelete -> FtpDeleteOutcome)
    returns (ran: bool, deletedCount: nat, errors: seq<string>, wpDeletes: seq<nat>, cdnDeletes: seq<string>)
    ensures ran <==> base in Bases(groups)
    ensures ran ==> Cleanup(deletedCount, errors, wpDeletes, cdnDeletes) == CleanupAll(GroupOf(groups, base).value, o, wpDelete, ftp)
    ensures !ran ==> deletedCount == 0 && errors == [] && wpDeletes == [] && cdnDeletes == []
  {
    deletedCount, errors, wpDeletes, cdnDeletes := 0, [], [], [];
    var found := GroupOf(groups, base);
    if found.None? {
      return false, deletedCount, errors, wpDeletes, cdnDeletes;
    }
    ran := true;
    var fragments := found.value;
    var i := 0;
    while i < |fragments|
      invariant 0 <= i <= |fragments|
      invariant Cleanup(deletedCount, errors, wpDeletes, cdnDeletes) == CleanupAll(fragments[..i], o, wpDelete, ftp)
    {
      var fragment := fragments[i];
      assert fragments[..i + 1][..i] == fragments[..i];
      var wpDeleted := wpDelete(fragment.id);
      wpDeletes := wpDeletes + [fragment.id];
      if wpDeleted {
        cdnDeletes := cdnDeletes + [fragment.filename];
        var ftpDeleted := DeleteFromBunnyFtp(o, fragment.filename, ftp);
        if ftpDeleted {
          deletedCount := deletedCount + 1;
        } else {
          errors := errors + ["Failed to delete " + fragment.filename + " from Bunny CDN"];
        }
      } else {
        errors := errors + ["Failed to delete " + fragment.filename + " from WordPress"];
      }
      i := i + 1;
    }
    assert fragments[..|fragments|] == fragments;
  }
}
