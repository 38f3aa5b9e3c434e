/**
 * `gdSearch.drive_list` and `get_user_drive` of `gdrive_utlis/search.py`: one
 * query per search root, every result rendered as an entry, and the rendered
 * text cut into pages of a little over 39000 UTF-8 bytes each.
 */
module SearchList {
  import opened Wrappers
  import opened Text
  import opened SearchQuery
  import ListSpec

  /** A search root: `(drive_name, dir_id, index_url)`. */
  datatype Root = Root(name: string, dirId: string, indexUrl: string)

  /**
   * What the search needs from outside: the Drive service, the two link
   * templates of the Drive helper, `get_readable_file_size` and `escapes`.
   */
  datatype Env = Env(
    api: Request -> Option<seq<File>>,
    folderUrl: string -> string,
    fileUrl: string -> string,
    readableSize: nat -> string,
    escape: string -> string)

  /** The caller's upload destination, user id and saved index URL. */
  datatype Listener = Listener(upDest: string, userId: nat, indexUrl: Option<string>)

  /** A page is sealed as soon as it holds more than this many UTF-8 bytes. */
  const PageBytes: nat := 39000
  const ShortcutMime: string := "application/vnd.google-apps.shortcut"
  const EntryEnd: string := "<br><br>"
  const Rule: string := "\U{257E}" + "\U{2500}\U{2500}\U{2500}\U{2500}\U{2500}\U{2500}\U{2500}\U{2500}\U{2500}\U{2500}\U{2500}\U{2500}" + "\U{257C}"

  // ------------------------------------------------------------------ roots

  /** `zip(DRIVES_NAMES, DRIVES_IDS, INDEX_URLS)`, read to the end: as long as the shortest list. */
  function Zip3(names: seq<string>, ids: seq<string>, urls: seq<string>): (r: seq<Root>)
    ensures |r| <= |names| && |r| <= |ids| && |r| <= |urls|
    ensures |r| == |names| || |r| == |ids| || |r| == |urls|
    ensures forall i | 0 <= i < |r| :: r[i] == Root(names[i], ids[i], urls[i])
  {
    if names == [] || ids == [] || urls == [] then []
    else [Root(names[0], ids[0], urls[0])] + Zip3(names[1..], ids[1..], urls[1..])
  }

  const MtpChars: set<char> := {'m', 't', 'p', ':'}

  /** `get_user_drive`: the destination with its leading `m`, `t`, `p` and `:` characters stripped. */
  function UserDrive(l: Listener): (r: seq<Root>)
    ensures |r| == 1 && r[0].name == "User Choice"
    ensures r[0].indexUrl == if l.indexUrl.Some? then l.indexUrl.value else ""
    ensures EndsWith(l.upDest, r[0].dirId)
    ensures r[0].dirId == [] || r[0].dirId[0] !in MtpChars
    ensures r[0].dirId == LStrip(l.upDest, MtpChars)
  {
    var dest := LStrip(l.upDest, MtpChars);
    assert l.upDest[|l.upDest| - |dest|..] == dest;
    [Root("User Choice", dest, if l.indexUrl.Some? && l.indexUrl.value != "" then l.indexUrl.value else "")]
  }

  /** The destination with the `mtp:` prefix removed. */
  function UserDriveFixed(l: Listener): (r: seq<Root>)
    requires StartsWith(l.upDest, "mtp:")
    ensures |r| == 1 && r[0].name == "User Choice"
    ensures "mtp:" + r[0].dirId == l.upDest
  {
    assert l.upDest == l.upDest[..4] + l.upDest[4..];
    [Root("User Choice", l.upDest[4..], if l.indexUrl.Some? && l.indexUrl.value != "" then l.indexUrl.value else "")]
  }

  /**
   * `lstrip('mtp:')` strips characters, not a prefix: an id that starts with
   * one of `m`, `t`, `p`, `:` loses it (`mtp:photos` names `hotos`).
   */
  lemma UserDriveEatsId(id: string, userId: nat, index: Option<string>)
    requires |id| >= 2 && id[0] in MtpChars && id[1] !in MtpChars
    ensures UserDrive(Listener("mtp:" + id, userId, index))[0].dirId == id[1..]
  {
    LStripPrefix("mtp:", id, MtpChars);
  }

  /** Removing the prefix gives back every id. */
  lemma UserDriveFixedKeepsId(id: string, userId: nat, index: Option<string>)
    ensures UserDriveFixed(Listener("mtp:" + id, userId, index))[0].dirId == id
  {
    StartsWithAppend("mtp:", id);
  }

  /** Where the roots come from: a list for a user destination, a `zip` iterator otherwise. */
  datatype RootSource = Listed(roots: seq<Root>) | Zipped(names: seq<string>, ids: seq<string>, urls: seq<string>)

  /**
   * The roots of a search: for an `mtp:` destination the user's drive, read
   * with the corrected `get_user_drive` (the prefix removed, not `lstrip`);
   * otherwise the configured lists, still to be zipped.
   */
  function SearchRoots(listener: Option<Listener>, names: seq<string>, ids: seq<string>, urls: seq<string>): RootSource {
    if listener.Some? && StartsWith(listener.value.upDest, "mtp:") then Listed(UserDriveFixed(listener.value))
    else Zipped(names, ids, urls)
  }

  /** Python's `len(drives)`: a list has one, a `zip` object raises `TypeError`. */
  function PyLen(src: RootSource): Option<nat> {
    match src
    case Listed(rs) => Some(|rs|)
    case Zipped(_, _, _) => None
  }

  /** The search over the configured drives stops at `len(drives)` before any query. */
  lemma ConfiguredSearchRaises(listener: Option<Listener>, names: seq<string>, ids: seq<string>, urls: seq<string>)
    requires listener.None? || !StartsWith(listener.value.upDest, "mtp:")
    ensures PyLen(SearchRoots(listener, names, ids, urls)).None?
  {
  }

  /**
   * The roots searched once the source is read as a list: for the configured
   * drives, the i-th name, id and index URL together, as many as the
   * shortest of the three lists.
   */
  function Roots(src: RootSource): (r: seq<Root>)
    ensures src.Zipped? ==> |r| <= |src.names| && |r| <= |src.ids| && |r| <= |src.urls|
    ensures src.Zipped? ==> |r| == |src.names| || |r| == |src.ids| || |r| == |src.urls|
    ensures src.Zipped? ==> forall i | 0 <= i < |r| :: r[i] == Root(src.names[i], src.ids[i], src.urls[i])
  {
    match src
    case Listed(rs) => rs
    case Zipped(ns, ds, us) => Zip3(ns, ds, us)
  }

  /** A user destination is searched as one root whose id is the destination without `mtp:`, and its length can be taken. */
  lemma UserSearchRoots(l: Listener, names: seq<string>, ids: seq<string>, urls: seq<string>)
    requires StartsWith(l.upDest, "mtp:")
    ensures var rs := Roots(SearchRoots(Some(l), names, ids, urls));
            |rs| == 1 && rs[0].name == "User Choice" && "mtp:" + rs[0].dirId == l.upDest
    ensures PyLen(SearchRoots(Some(l), names, ids, urls)) == Some(1)
  {
  }

  // ------------------------------------------------------------------ entries

  /** `False if isRecursive and len(dir_id) > 23 else isRecursive`. */
  function EffectiveRecursion(isRecursive: bool, dirId: string): (r: bool)
    ensures r <==> isRecursive && |dirId| <= 23
  {
    if isRecursive && |dirId| > 23 then false else isRecursive
  }

  /** The results for one root, none when the call fails. */
  function Found(env: Env, o: Options, name: string, r: Root): seq<File> {
    Response(env.api, Query(o, r.dirId, name, EffectiveRecursion(o.isRecursive, r.dirId)))
  }

  /** A root whose id is longer than 23 characters is searched as a folder, never recursively. */
  lemma LongIdSearchesInside(o: Options, name: string, r: Root)
    requires |r.dirId| > 23
    ensures var req := Query(o, r.dirId, name, EffectiveRecursion(o.isRecursive, r.dirId));
            req.scope == AllDrives && StartsWith(req.q, InParents(r.dirId))
  {
    QueryShape(o, r.dirId, name, false);
  }

  function Title(name: string): string {
    "<h4>Search Result For " + name + "</h4>"
  }

  function Header(driveName: string): string {
    Rule + "<br><b>" + driveName + "</b><br>" + Rule + "<br>"
  }

  function DriveLink(url: string): string {
    "<b><a href=" + url + ">Drive Link</a></b>"
  }

  function IndexLink(indexUrl: string, id: string): string {
    " <b>| <a href=\"" + indexUrl + "findpath?id=" + id + "\">Index Link</a></b>"
  }

  function ViewLink(indexUrl: string, id: string): string {
    " <b>| <a href=\"" + indexUrl + "findpath?id=" + id + "&?a=view\">View Link</a></b>"
  }

  predicate IsMedia(mimeType: string) {
    StartsWith(mimeType, "image") || StartsWith(mimeType, "video") || StartsWith(mimeType, "audio")
  }

  /** The text of one result: a folder, a shortcut or a file, closed by two line breaks. */
  function EntryText(env: Env, f: File, indexUrl: string): (t: string)
    ensures EndsWith(t, EntryEnd)
  {
    var body :=
      if f.mimeType == ListSpec.FolderMime then
        "\U{1F4C1} <code>" + f.name + "<br>(folder)</code><br>" + DriveLink(env.folderUrl(f.id))
        + (if indexUrl != "" then IndexLink(indexUrl, f.id) else "")
      else if f.mimeType == ShortcutMime then
        "\U{204D}<a href='" + env.folderUrl(f.id) + "'>" + f.name + "</a> (shortcut)"
      else
        "\U{1F4C4} <code>" + f.name + "<br>(" + env.readableSize(f.size) + ")</code><br>" + DriveLink(env.fileUrl(f.id))
        + (if indexUrl != "" then IndexLink(indexUrl, f.id) + (if IsMedia(f.mimeType) then ViewLink(indexUrl, f.id) else "") else "");
    EndsWithAppend(body, EntryEnd);
    body + EntryEnd
  }

  // ------------------------------------------------------------------ pieces

  /**
   * What `drive_list` appends to `msg`: the title or a drive header (appended
   * without a size check) or the entry of one result (appended, then checked).
   */
  datatype Piece = Heading(name: string) | DriveHeader(driveName: string) | Entry(file: File, indexUrl: string)

  function PieceText(env: Env, p: Piece): string {
    match p
    case Heading(name) => Title(name)
    case DriveHeader(driveName) => Header(driveName)
    case Entry(f, url) => EntryText(env, f, url)
  }

  /** The entries of one root's results, in order. */
  function Entries(files: seq<File>, indexUrl: string): (ps: seq<Piece>)
    ensures |ps| == |files|
    ensures forall k | 0 <= k < |ps| :: ps[k] == Entry(files[k], indexUrl)
  {
    if files == [] then []
    else Entries(files[..|files| - 1], indexUrl) + [Entry(files[|files| - 1], indexUrl)]
  }

  /** The title (for the first root with results) and the header (for a named drive). */
  function Heads(name: string, driveName: string, first: bool): seq<Piece> {
    (if first then [Heading(name)] else []) + (if driveName != "" then [DriveHeader(driveName)] else [])
  }

  /** One root's pieces, given its results: nothing without results, else its heads, then its entries. */
  function RootPieces(name: string, r: Root, files: seq<File>, first: bool): seq<Piece> {
    if files == [] then [] else Heads(name, r.name, first) + Entries(files, r.indexUrl)
  }

  /** The pieces of the roots `rs`, in order; the title goes with the first root that has results. */
  function Collect(env: Env, o: Options, name: string, rs: seq<Root>): seq<Piece> {
    if rs == [] then []
    else
      var before := Collect(env, o, name, rs[..|rs| - 1]);
      before + RootPieces(name, rs[|rs| - 1], Found(env, o, name, rs[|rs| - 1]), before == [])
  }

  /** With `noMulti` the loop ends after the first root, results or not. */
  function Visited(o: Options, roots: seq<Root>): (vs: seq<Root>)
    ensures o.noMulti ==> |vs| <= 1
    ensures !o.noMulti ==> vs == roots
    ensures |vs| <= |roots| && vs == roots[..|vs|]
  {
    if o.noMulti && |roots| > 1 then roots[..1] else roots
  }

  function SearchPieces(env: Env, o: Options, roots: seq<Root>, fileName: string): seq<Piece> {
    Collect(env, o, env.escape(fileName), Visited(o, roots))
  }

  /** All the text appended to `msg`, in order. */
  function Transcript(env: Env, ps: seq<Piece>): string {
    if ps == [] then "" else Transcript(env, ps[..|ps| - 1]) + PieceText(env, ps[|ps| - 1])
  }

  function EntryCount(ps: seq<Piece>): nat {
    if ps == [] then 0 else EntryCount(ps[..|ps| - 1]) + (if ps[|ps| - 1].Entry? then 1 else 0)
  }

  // ------------------------------------------------------------------ the buffer

  /** The sealed pages and the open buffer after appending `ps` to an empty `msg`. */
  function Feed(env: Env, ps: seq<Piece>): (seq<string>, string) {
    if ps == [] then ([], "")
    else
      var before := Feed(env, ps[..|ps| - 1]);
      var m := before.1 + PieceText(env, ps[|ps| - 1]);
      if ps[|ps| - 1].Entry? && Utf8Len(m) > PageBytes then (before.0 + [m], "") else (before.0, m)
  }

  /** `telegraph_content`: the sealed pages, then what is left in the buffer when it is not empty. */
  function Pages(env: Env, ps: seq<Piece>): seq<string> {
    var f := Feed(env, ps);
    if f.1 != "" then f.0 + [f.1] else f.0
  }

  /** Nothing is lost or reordered: the sealed pages and the buffer spell the transcript. */
  lemma {:induction false} FeedKeepsText(env: Env, ps: seq<Piece>)
    ensures Concat(Feed(env, ps).0) + Feed(env, ps).1 == Transcript(env, ps)
  {
    if ps != [] {
      var init := ps[..|ps| - 1];
      var before := Feed(env, init);
      var t := PieceText(env, ps[|ps| - 1]);
      var m := before.1 + t;
      FeedKeepsText(env, init);
      AppendAssoc(Concat(before.0), before.1, t);
      if ps[|ps| - 1].Entry? && Utf8Len(m) > PageBytes {
        assert (before.0 + [m])[..|before.0|] == before.0;
      }
    }
  }

  /** Every sealed page holds more than 39000 bytes and ends with a whole entry. */
  lemma {:induction false} FeedSealsFullPages(env: Env, ps: seq<Piece>)
    ensures forall k | 0 <= k < |Feed(env, ps).0| ::
              Utf8Len(Feed(env, ps).0[k]) > PageBytes && EndsWith(Feed(env, ps).0[k], EntryEnd)
  {
    if ps != [] {
      var p := ps[|ps| - 1];
      FeedSealsFullPages(env, ps[..|ps| - 1]);
      var before := Feed(env, ps[..|ps| - 1]);
      if p.Entry? && Utf8Len(before.1 + PieceText(env, p)) > PageBytes {
        EndsWithTail(before.1, EntryText(env, p.file, p.indexUrl), EntryEnd);
      }
    }
  }

  lemma EndsWithTail(a: string, b: string, suffix: string)
    requires EndsWith(b, suffix)
    ensures EndsWith(a + b, suffix)
  {
    assert (a + b)[|a + b| - |suffix|..] == b[|b| - |suffix|..];
  }

  /**
   * The pages returned: together they are the whole transcript; none is
   * empty; all but the last hold more than 39000 bytes and end with a whole entry.
   */
  lemma PagesProperties(env: Env, ps: seq<Piece>)
    ensures Concat(Pages(env, ps)) == Transcript(env, ps)
    ensures forall k | 0 <= k < |Pages(env, ps)| :: Pages(env, ps)[k] != ""
    ensures forall k | 0 <= k < |Pages(env, ps)| - 1 ::
              Utf8Len(Pages(env, ps)[k]) > PageBytes && EndsWith(Pages(env, ps)[k], EntryEnd)
  {
    var f := Feed(env, ps);
    FeedKeepsText(env, ps);
    FeedSealsFullPages(env, ps);
    if f.1 != "" {
      assert Pages(env, ps)[..|f.0|] == f.0;
    } else {
      assert Concat(f.0) + "" == Concat(f.0);
    }
    forall k | 0 <= k < |Pages(env, ps)|
      ensures Pages(env, ps)[k] != ""
    {
      if k < |f.0| {
        assert Utf8Len(f.0[k]) > PageBytes;
      }
    }
  }

  // ------------------------------------------------------------------ counting

  lemma {:induction false} EntryCountAppend(a: seq<Piece>, b: seq<Piece>)
    ensures EntryCount(a + b) == EntryCount(a) + EntryCount(b)
    decreases |b|
  {
    if b == [] {
      assert a + b == a;
    } else {
      assert (a + b)[..|a + b| - 1] == a + b[..|b| - 1];
      EntryCountAppend(a, b[..|b| - 1]);
    }
  }

  lemma {:induction false} EntriesCount(files: seq<File>, indexUrl: string)
    ensures EntryCount(Entries(files, indexUrl)) == |files|
  {
    if files != [] {
      var ps := Entries(files, indexUrl);
      assert ps[..|ps| - 1] == Entries(files[..|files| - 1], indexUrl);
      EntriesCount(files[..|files| - 1], indexUrl);
    }
  }

  /** The results of the roots `rs`, summed. */
  function Hits(env: Env, o: Options, name: string, rs: seq<Root>): nat {
    if rs == [] then 0 else Hits(env, o, name, rs[..|rs| - 1]) + |Found(env, o, name, rs[|rs| - 1])|
  }

  lemma RootPiecesCount(name: string, r: Root, files: seq<File>, first: bool)
    ensures EntryCount(RootPieces(name, r, files, first)) == |files|
  {
    if files != [] {
      EntryCountAppend(Heads(name, r.name, first), Entries(files, r.indexUrl));
      EntriesCount(files, r.indexUrl);
      EntryCountAppend(if first then [Heading(name)] else [], if r.name != "" then [DriveHeader(r.name)] else []);
    }
  }

  /** `contents_no` counts every result of every visited root. */
  lemma {:induction false} CountIsHits(env: Env, o: Options, name: string, rs: seq<Root>)
    ensures EntryCount(Collect(env, o, name, rs)) == Hits(env, o, name, rs)
  {
    if rs != [] {
      var before := Collect(env, o, name, rs[..|rs| - 1]);
      CountIsHits(env, o, name, rs[..|rs| - 1]);
      var files := Found(env, o, name, rs[|rs| - 1]);
      EntryCountAppend(before, RootPieces(name, rs[|rs| - 1], files, before == []));
      RootPiecesCount(name, rs[|rs| - 1], files, before == []);
    }
  }

  /** A root's pieces start with the title exactly when it is the first with results; no later piece is the title. */
  lemma RootPiecesTitle(name: string, r: Root, files: seq<File>, first: bool)
    ensures var mine := RootPieces(name, r, files, first);
            (mine != [] <==> |files| > 0)
            && (mine != [] && first ==> mine[0] == Heading(name))
            && (forall k | (if first then 1 else 0) <= k < |mine| :: !mine[k].Heading?)
  {
  }

  /**
   * The title is written once, as the very first piece, exactly when some
   * visited root has results.
   */
  lemma {:induction false} TitleFirst(env: Env, o: Options, name: string, rs: seq<Root>)
    ensures var ps := Collect(env, o, name, rs);
            (ps != [] <==> Hits(env, o, name, rs) > 0)
            && (ps != [] ==> ps[0] == Heading(name))
            && (forall k | 0 < k < |ps| :: !ps[k].Heading?)
  {
    if rs != [] {
      var before := Collect(env, o, name, rs[..|rs| - 1]);
      var r := rs[|rs| - 1];
      TitleFirst(env, o, name, rs[..|rs| - 1]);
      var files := Found(env, o, name, r);
      RootPiecesTitle(name, r, files, before == []);
      var mine := RootPieces(name, r, files, before == []);
      var ps := before + mine;
      forall k | 0 < k < |ps|
        ensures !ps[k].Heading?
      {
        if k >= |before| {
          assert ps[k] == mine[k - |before|];
        }
      }
    }
  }

  // ------------------------------------------------------------------ the loop

  /**
   * `drive_list`: query every visited root, append the title, the headers and
   * the entries to the buffer, seal the buffer whenever an entry takes it past
   * 39000 bytes, and hand back the pages and the entry count.
   */
  method DriveList(env: Env, o: Options, roots: seq<Root>, fileName: string) returns (pages: seq<string>, count: nat)
    ensures pages == Pages(env, SearchPieces(env, o, roots, fileName))
    ensures count == EntryCount(SearchPieces(env, o, roots, fileName))
  {
    var name := env.escape(fileName);
    var msg := "";
    pages, count := [], 0;
    var title := false;
    ghost var ps: seq<Piece> := [];
    var i := 0;
    while i < |roots|
      invariant 0 <= i <= |roots|
      invariant o.noMulti ==> i == 0
      invariant ps == Collect(env, o, name, roots[..i])
      invariant (pages, msg) == Feed(env, ps) && count == EntryCount(ps) && (title <==> ps != [])
    {
      pages, msg, count, title, ps := VisitRoot(env, o, name, roots, i, pages, msg, count, title, ps);
      i := i + 1;
      if o.noMulti {
        // with results or without, `noMulti` ends the search after the first root
        break;
      }
    }
    VisitedAll(env, o, roots, fileName, i);
    if msg != "" {
      pages := pages + [msg];
    }
  }

  /** Where the loop over the roots stops: at the end, or after the first root with `noMulti`. */
  lemma VisitedAll(env: Env, o: Options, roots: seq<Root>, fileName: string, i: nat)
    requires i == if o.noMulti && |roots| > 1 then 1 else |roots|
    ensures Collect(env, o, env.escape(fileName), roots[..i]) == SearchPieces(env, o, roots, fileName)
  {
    assert roots[..i] == Visited(o, roots);
  }

  /** One turn of the loop over the roots: query root `i`, skip it without results, else append its pieces. */
  method VisitRoot(env: Env, o: Options, name: string, roots: seq<Root>, i: nat, pages0: seq<string>, msg0: string,
                   count0: nat, title0: bool, ghost ps0: seq<Piece>)
    returns (pages: seq<string>, msg: string, count: nat, title: bool, ghost ps: seq<Piece>)
    requires i < |roots| && ps0 == Collect(env, o, name, roots[..i])
    requires (pages0, msg0) == Feed(env, ps0) && count0 == EntryCount(ps0) && (title0 <==> ps0 != [])
    ensures ps == Collect(env, o, name, roots[..i + 1])
    ensures (pages, msg) == Feed(env, ps) && count == EntryCount(ps) && (title <==> ps != [])
  {
    CollectSnoc(env, o, name, roots, i);
    var files := SearchRoot(env, o, name, roots[i]);
    if files == [] {
      assert ps0 + [] == ps0;
      pages, msg, count, title, ps := pages0, msg0, count0, title0, ps0;
    } else {
      pages, msg, count, title, ps := AppendRoot(env, name, roots[i], files, pages0, msg0, count0, title0, ps0);
    }
  }

  lemma CollectSnoc(env: Env, o: Options, name: string, roots: seq<Root>, i: nat)
    requires i < |roots|
    ensures var before := Collect(env, o, name, roots[..i]);
            Collect(env, o, name, roots[..i + 1]) == before + RootPieces(name, roots[i], Found(env, o, name, roots[i]), before == [])
  {
    assert roots[..i + 1][..i] == roots[..i];
  }

  /** The body of the loop over the roots for a root with results: title, header, entries. */
  method AppendRoot(env: Env, name: string, r: Root, files: seq<File>, pages0: seq<string>, msg0: string, count0: nat,
                    title0: bool, ghost ps0: seq<Piece>)
    returns (pages: seq<string>, msg: string, count: nat, title: bool, ghost ps: seq<Piece>)
    requires files != []
    requires (pages0, msg0) == Feed(env, ps0) && count0 == EntryCount(ps0) && (title0 <==> ps0 != [])
    ensures ps == ps0 + RootPieces(name, r, files, ps0 == [])
    ensures (pages, msg) == Feed(env, ps) && count == EntryCount(ps) && title
  {
    pages, msg, count, title, ps := pages0, msg0, count0, title0, ps0;
    ghost var heads: seq<Piece> := [];
    if !title {
      PushHeading(env, ps, pages, msg, Heading(name));
      msg := msg + Title(name);
      title := true;
      ps, heads := ps + [Heading(name)], [Heading(name)];
    }
    if r.name != "" {
      PushHeading(env, ps, pages, msg, DriveHeader(r.name));
      msg := msg + Header(r.name);
      PiecesAssoc(ps0, heads, [DriveHeader(r.name)]);
      ps, heads := ps + [DriveHeader(r.name)], heads + [DriveHeader(r.name)];
    }
    assert ps == ps0 + heads;
    assert heads == Heads(name, r.name, ps0 == []);
    pages, msg, count, ps := AppendEntries(env, files, r.indexUrl, pages, msg, count, ps);
    PiecesAssoc(ps0, heads, Entries(files, r.indexUrl));
  }

  lemma PiecesAssoc(a: seq<Piece>, b: seq<Piece>, c: seq<Piece>)
    ensures a + b + c == a + (b + c)
  {
  }

  /** One query: `isRecur` for the root, then `__drive_query`. */
  method SearchRoot(env: Env, o: Options, name: string, r: Root) returns (files: seq<File>)
    ensures files == Found(env, o, name, r)
  {
    var req := DriveQuery(o, r.dirId, name, EffectiveRecursion(o.isRecursive, r.dirId));
    files := Response(env.api, req);
  }

  /** The loop over one root's results: each entry appended, counted, and the page sealed past 39000 bytes. */
  method AppendEntries(env: Env, files: seq<File>, indexUrl: string, pages0: seq<string>, msg0: string, count0: nat,
                       ghost ps0: seq<Piece>)
    returns (pages: seq<string>, msg: string, count: nat, ghost ps: seq<Piece>)
    requires (pages0, msg0) == Feed(env, ps0) && count0 == EntryCount(ps0)
    ensures ps == ps0 + Entries(files, indexUrl)
    ensures (pages, msg) == Feed(env, ps) && count == EntryCount(ps)
  {
    pages, msg, count, ps := pages0, msg0, count0, ps0;
    var j := 0;
    while j < |files|
      invariant 0 <= j <= |files|
      invariant ps == ps0 + Entries(files[..j], indexUrl)
      invariant (pages, msg) == Feed(env, ps) && count == EntryCount(ps)
    {
      PushEntry(env, ps, pages, msg, files[j], indexUrl);
      EntriesSnoc(ps0, files, j, indexUrl);
      msg := msg + EntryText(env, files[j], indexUrl);
      count := count + 1;
      if Utf8Len(msg) > PageBytes {
        pages := pages + [msg];
        msg := "";
      }
      ps := ps + [Entry(files[j], indexUrl)];
      j := j + 1;
    }
    assert files[..j] == files;
  }

  /** Appending one entry to the buffer: the buffer step and the count step. */
  lemma PushEntry(env: Env, ps: seq<Piece>, pages: seq<string>, msg: string, f: File, indexUrl: string)
    requires (pages, msg) == Feed(env, ps)
    ensures var m := msg + EntryText(env, f, indexUrl);
            Feed(env, ps + [Entry(f, indexUrl)]) == if Utf8Len(m) > PageBytes then (pages + [m], "") else (pages, m)
    ensures EntryCount(ps + [Entry(f, indexUrl)]) == EntryCount(ps) + 1
  {
    assert (ps + [Entry(f, indexUrl)])[..|ps|] == ps;
  }

  lemma EntriesSnoc(ps0: seq<Piece>, files: seq<File>, j: nat, indexUrl: string)
    requires j < |files|
    ensures ps0 + Entries(files[..j + 1], indexUrl) == ps0 + Entries(files[..j], indexUrl) + [Entry(files[j], indexUrl)]
  {
    assert files[..j + 1][..j] == files[..j];
  }

  /** Appending the title or a header: no size check, no count. */
  lemma PushHeading(env: Env, ps: seq<Piece>, pages: seq<string>, msg: string, p: Piece)
    requires (pages, msg) == Feed(env, ps)
    requires !p.Entry?
    ensures Feed(env, ps + [p]) == (pages, msg + PieceText(env, p))
    ensures EntryCount(ps + [p]) == EntryCount(ps)
  {
    assert (ps + [p])[..|ps|] == ps;
  }
}
