/**
 * `gdSearch.__drive_query` of `gdrive_utlis/search.py`: the filter string in
 * the Drive v3 `q` syntax and the scope of the `files().list` call that runs it.
 */
module SearchQuery {
  import opened Wrappers
  import opened Text
  import ListSpec

  /** The settings a `gdSearch` is built with. */
  datatype Options = Options(stopDup: bool, noMulti: bool, isRecursive: bool, itemType: string)

  /**
   * Where a listing call looks: the files the user owns (a recursive search of
   * `root`, 200 per page), one shared drive (a recursive search of any other
   * root, 150 per page), or every drive (a search inside one folder, 150 per page).
   */
  datatype Scope = OwnFiles | SharedDrive(driveId: string) | AllDrives

  datatype Request = Request(q: string, scope: Scope, pageSize: nat)

  /** One search result: the `id`, `name`, `mimeType` and `size` fields (a missing size reads as 0). */
  datatype File = File(id: string, name: string, mimeType: string, size: nat)

  const Trashed: string := "trashed = false"
  const OwnedByMe: string := " and 'me' in owners"
  const ContainsOpen: string := "name contains '"
  const ClauseClose: string := "' and "

  function NameClause(w: string): string {
    ContainsOpen + w + ClauseClose
  }

  /** A name clause for every non-empty word, in order. */
  function NameClauses(ws: seq<string>): string {
    if ws == [] then "" else (if ws[0] != "" then NameClause(ws[0]) else "") + NameClauses(ws[1..])
  }

  /** The type clause: none unless the item type is `files` or `folders`. */
  function MimeClause(itemType: string): string {
    if itemType == "files" then "mimeType != '" + ListSpec.FolderMime + ClauseClose
    else if itemType == "folders" then "mimeType = '" + ListSpec.FolderMime + ClauseClose
    else ""
  }

  function ExactName(fileName: string): string {
    "name = '" + fileName + ClauseClose
  }

  function InParents(dirId: string): string {
    "'" + dirId + "' in parents and "
  }

  /** The conditions on the name and the type, each closed by ` and `. */
  function Conditions(o: Options, fileName: string): string {
    if o.stopDup then ExactName(fileName)
    else NameClauses(Split(fileName)) + MimeClause(o.itemType)
  }

  /** The request `__drive_query` sends. */
  function Query(o: Options, dirId: string, fileName: string, isRecursive: bool): Request {
    var c := Conditions(o, fileName);
    if isRecursive then
      if dirId == "root" then Request(c + Trashed + OwnedByMe, OwnFiles, 200)
      else Request(c + Trashed, SharedDrive(dirId), 150)
    else Request(InParents(dirId) + c + Trashed, AllDrives, 150)
  }

  /**
   * Every filter ends with `trashed = false`, the one for a recursive search of
   * `root` with ` and 'me' in owners` after it; a search inside one folder
   * starts with the folder condition and looks in every drive; a recursive
   * search looks in the user's own files for `root` and in the shared drive otherwise.
   */
  lemma QueryShape(o: Options, dirId: string, fileName: string, isRecursive: bool)
    ensures var r := Query(o, dirId, fileName, isRecursive);
            && EndsWith(r.q, if isRecursive && dirId == "root" then Trashed + OwnedByMe else Trashed)
            && (!isRecursive ==> StartsWith(r.q, InParents(dirId)) && r.scope == AllDrives)
            && (isRecursive ==> r.scope == if dirId == "root" then OwnFiles else SharedDrive(dirId))
  {
    var c := Conditions(o, fileName);
    if isRecursive {
      if dirId == "root" {
        AppendAssoc(c, Trashed, OwnedByMe);
        EndsWithAppend(c, Trashed + OwnedByMe);
      } else {
        EndsWithAppend(c, Trashed);
      }
    } else {
      var p := InParents(dirId);
      AppendAssoc(p, c, Trashed);
      EndsWithAppend(p + c, Trashed);
      StartsWithAppend(p, c + Trashed);
    }
  }

  /** `__drive_query`: the recursive filter is one `join`, the filter inside a folder is grown word by word. */
  method DriveQuery(o: Options, dirId: string, fileName: string, isRecursive: bool) returns (r: Request)
    ensures r == Query(o, dirId, fileName, isRecursive)
  {
    if isRecursive {
      var q := Conditions(o, fileName) + Trashed;
      if dirId == "root" {
        r := Request(q + OwnedByMe, OwnFiles, 200);
      } else {
        r := Request(q, SharedDrive(dirId), 150);
      }
    } else {
      var q := FolderConditions(o, dirId, fileName);
      r := Request(q + Trashed, AllDrives, 150);
    }
  }

  /** The conditions of a search inside folder `dirId`, one name clause appended per word. */
  method FolderConditions(o: Options, dirId: string, fileName: string) returns (q: string)
    ensures q == InParents(dirId) + Conditions(o, fileName)
  {
    q := InParents(dirId);
    if o.stopDup {
      q := q + ExactName(fileName);
    } else {
      ghost var folder := q;
      q := AppendNameClauses(q, Split(fileName));
      q := q + MimeClause(o.itemType);
      AppendAssoc(folder, NameClauses(Split(fileName)), MimeClause(o.itemType));
    }
  }

  /** The `for name in fileName` loop: a name clause appended to `q` for each non-empty word. */
  method AppendNameClauses(q0: string, words: seq<string>) returns (q: string)
    ensures q == q0 + NameClauses(words)
  {
    q := q0;
    var i := 0;
    while i < |words|
      invariant 0 <= i <= |words|
      invariant q == q0 + NameClauses(words[..i])
    {
      ClauseStep(q0, words, i);
      if words[i] != "" {
        q := q + NameClause(words[i]);
      }
      i := i + 1;
    }
    assert words[..i] == words;
  }

  lemma ClauseStep(q0: string, ws: seq<string>, i: nat)
    requires i < |ws|
    ensures q0 + NameClauses(ws[..i + 1]) == q0 + NameClauses(ws[..i]) + (if ws[i] != "" then NameClause(ws[i]) else "")
  {
    NameClausesSnoc(ws[..i], ws[i]);
    assert ws[..i + 1] == ws[..i] + [ws[i]];
    AppendAssoc(q0, NameClauses(ws[..i]), if ws[i] != "" then NameClause(ws[i]) else "");
  }

  lemma {:induction false} NameClausesSnoc(ws: seq<string>, w: string)
    ensures NameClauses(ws + [w]) == NameClauses(ws) + (if w != "" then NameClause(w) else "")
  {
    if ws != [] {
      assert (ws + [w])[1..] == ws[1..] + [w];
      NameClausesSnoc(ws[1..], w);
    } else {
      assert ws + [w] == [w];
    }
  }

  /** A search inside a folder uses the same conditions as the recursive search, after the folder condition. */
  lemma InFolderIsPrefixed(o: Options, dirId: string, driveId: string, fileName: string)
    requires driveId != "root"
    ensures Query(o, dirId, fileName, false).q == InParents(dirId) + Query(o, driveId, fileName, true).q
  {
    AppendAssoc(InParents(dirId), Conditions(o, fileName), Trashed);
  }

  /** The exact query (`stopDup`) asks for the whole name, untouched by splitting. */
  lemma ExactQuery(o: Options, dirId: string, fileName: string)
    requires o.stopDup && dirId != "root"
    ensures Query(o, dirId, fileName, true).q == "name = '" + fileName + "' and trashed = false"
  {
  }

  /** The fuzzy filter is a name clause per word of the search term, in order, then the type clause. */
  lemma {:induction false} FuzzyConditions(o: Options, fileName: string)
    requires !o.stopDup
    ensures var ws := Split(fileName);
            Conditions(o, fileName) == Concat(seq(|ws|, i requires 0 <= i < |ws| => NameClause(ws[i]))) + MimeClause(o.itemType)
  {
    NameClausesOfWords(Split(fileName));
  }

  lemma {:induction false} NameClausesOfWords(ws: seq<string>)
    requires forall i | 0 <= i < |ws| :: ws[i] != []
    ensures NameClauses(ws) == Concat(seq(|ws|, i requires 0 <= i < |ws| => NameClause(ws[i])))
  {
    if ws != [] {
      var tail := seq(|ws| - 1, i requires 0 <= i < |ws| - 1 => NameClause(ws[1..][i]));
      NameClausesOfWords(ws[1..]);
      assert seq(|ws|, i requires 0 <= i < |ws| => NameClause(ws[i])) == [NameClause(ws[0])] + tail;
      ConcatCons(NameClause(ws[0]), tail);
    }
  }

  // ------------------------------------------------------------ reading back

  /** The longest prefix of `s` without a quote. */
  function Quoted(s: string): (w: string)
    ensures |w| <= |s| && w == s[..|w|] && '\'' !in w
    ensures |w| < |s| ==> s[|w|] == '\''
  {
    if s == [] || s[0] == '\'' then [] else [s[0]] + Quoted(s[1..])
  }

  /** The words named by the leading `name contains '…' and ` clauses of a filter. */
  function ReadNames(q: string): seq<string>
    decreases |q|
  {
    if StartsWith(q, ContainsOpen) then
      var rest := q[|ContainsOpen|..];
      var w := Quoted(rest);
      var after := rest[|w|..];
      if StartsWith(after, ClauseClose) then [w] + ReadNames(after[|ClauseClose|..]) else []
    else []
  }

  lemma {:induction false} QuotedOfPrefix(w: string, t: string)
    requires '\'' !in w
    requires t == [] || t[0] == '\''
    ensures Quoted(w + t) == w
  {
    if w != [] {
      assert (w + t)[1..] == w[1..] + t;
      QuotedOfPrefix(w[1..], t);
    } else {
      assert w + t == t;
    }
  }

  /** One name clause for a quote-free word reads back as that word, then whatever follows. */
  lemma ReadNamesStep(w: string, x: string)
    requires '\'' !in w
    ensures ReadNames(NameClause(w) + x) == [w] + ReadNames(x)
  {
    var q := NameClause(w) + x;
    AppendAssoc(ContainsOpen + w, ClauseClose, x);
    AppendAssoc(ContainsOpen, w, ClauseClose + x);
    assert q == ContainsOpen + (w + (ClauseClose + x));
    StartsWithAppend(ContainsOpen, w + (ClauseClose + x));
    QuotedOfPrefix(w, ClauseClose + x);
    StartsWithAppend(w, ClauseClose + x);
    StartsWithAppend(ClauseClose, x);
  }

  /** Name clauses for quote-free words read back as those words, whatever non-clause text follows. */
  lemma {:induction false} ReadNamesBack(ws: seq<string>, tail: string)
    requires forall i | 0 <= i < |ws| :: ws[i] != [] && '\'' !in ws[i]
    requires !StartsWith(tail, ContainsOpen)
    ensures ReadNames(NameClauses(ws) + tail) == ws
  {
    if ws == [] {
      assert NameClauses(ws) + tail == tail;
    } else {
      AppendAssoc(NameClause(ws[0]), NameClauses(ws[1..]), tail);
      ReadNamesStep(ws[0], NameClauses(ws[1..]) + tail);
      ReadNamesBack(ws[1..], tail);
      assert ws == [ws[0]] + ws[1..];
    }
  }

  /**
   * For a quote-free search term the recursive fuzzy filter names exactly the
   * words of the term, in order.
   */
  lemma FuzzyQueryNamesWords(o: Options, dirId: string, fileName: string)
    requires !o.stopDup && '\'' !in fileName
    ensures ReadNames(Query(o, dirId, fileName, true).q) == Split(fileName)
  {
    var ws, m := Split(fileName), MimeClause(o.itemType);
    SplitWordsIn(fileName);
    assert forall i | 0 <= i < |ws| :: ws[i] != [] && '\'' !in ws[i];
    var tail := m + Trashed;
    AppendAssoc(NameClauses(ws), m, Trashed);
    if dirId == "root" {
      AppendAssoc(NameClauses(ws), tail, OwnedByMe);
      tail := tail + OwnedByMe;
    }
    assert Query(o, dirId, fileName, true).q == NameClauses(ws) + tail;
    assert tail[0] == 'm' || tail[0] == 't';
    ReadNamesBack(ws, tail);
  }

  // ------------------------------------------------------------ the call

  /**
   * The `files` of the answer to a request; any exception from the service
   * reads as no files.
   */
  function Response(api: Request -> Option<seq<File>>, req: Request): seq<File> {
    match api(req)
    case None => []
    case Some(files) => files
  }
}
