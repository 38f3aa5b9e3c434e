/**
 * The `gdriveList` object of `gdrive_utlis/list.py` and its callback handler
 * `id_updates`, updating fields in place. Each method is proved to leave the
 * object in the state the corresponding `ListSpec` function computes, so the
 * properties proved there hold of the object.
 */
module ListObject {
  import opened Wrappers
  import opened Text
  import opened ListSpec

  class GdriveList {
    var id: string
    var parents: seq<Crumb>
    var drives: seq<Crumb>
    var itemsList: seq<Entry>
    var iterStart: int
    var pageStep: nat
    var itemType: ItemType
    var queryProc: bool
    var isCancelled: bool
    /** Whether the completion event has been set. */
    var eventSet: bool
    var listStatus: ListStatus
    var tokenPath: string
    const userTokenPath: string
    var tokenUser: bool
    var tokenOwner: bool
    /** The user's stored `gdrive_id`, if any. */
    var userDefault: Option<string>
    /** The ids handed to the user-data store, oldest first. */
    var saved: seq<string>
    /** The buttons of the menu last sent or edited. */
    var menu: seq<Button>

    function State(): Session
      reads this
    {
      Session(id, parents, drives, itemsList, iterStart, pageStep, itemType,
              Flags(queryProc, isCancelled, eventSet), listStatus, tokenPath, userTokenPath,
              TokenFiles(tokenUser, tokenOwner), userDefault, saved, menu)
    }

    constructor (userId: nat, initialTokenPath: string, storedDefault: Option<string>)
      ensures State() == Fresh(userId, initialTokenPath, storedDefault)
    {
      tokenUser, tokenOwner := false, false;
      drives := [];
      isCancelled := false;
      queryProc := false;
      itemType := Folders;
      eventSet := false;
      userTokenPath := "tokens/" + NatToString(userId) + ".pickle";
      id := "";
      parents := [];
      listStatus := Unset;
      itemsList := [];
      iterStart := 0;
      pageStep := 1;
      tokenPath := initialTokenPath;
      userDefault := storedDefault;
      saved := [];
      menu := [];
    }

    /** `get_items_buttons`. */
    method RenderItems()
      modifies this
      ensures State() == Render(old(State()))
    {
      var itemsNo := |itemsList|;
      var pages := (itemsNo + ListLimit - 1) / ListLimit;
      var start := iterStart;
      if itemsNo <= start {
        start := 0;
      } else if start < 0 || start > itemsNo {
        start := ListLimit * (pages - 1);
      }
      assert start == ClampOffset(itemsNo, iterStart);
      ghost var t := State().(iterStart := start);
      if isCancelled {
        iterStart := start;
        assert State() == t;
      } else {
        var m := ItemsMenu(State().(iterStart := start));
        iterStart, menu := start, m;
        assert State() == t.(menu := m);
      }
    }

    /** `get_items`; `itype` is `Some` only on the one retry with the other item type. */
    method GetItems(remote: Remote, itype: Option<ItemType>)
      requires itype.None? || itype == Some(itemType)
      modifies this
      ensures State() == Reload(old(State()), remote, itype.Some?)
      decreases if itype.None? then 1 else 0
    {
      ghost var s0 := State();
      var answer := remote.listFolder(id, itemType);
      if answer.Failed? {
        id := "";
        eventSet := true;
        assert Reload(s0, remote, itype.Some?) == s0.(id := "", flags := s0.flags.(eventSet := true));
        return;
      }
      var files := answer.value;
      if isCancelled {
        assert Reload(s0, remote, itype.Some?) == s0;
        return;
      }
      if |files| == 0 && itype != Some(itemType) && listStatus == Download {
        var flipped := if itemType == Files then Folders else Files;
        itemType := flipped;
        assert State() == s0.(itemType := Flip(s0.itemType));
        assert Reload(s0, remote, itype.Some?) == Reload(State(), remote, true);
        GetItems(remote, Some(flipped));
        return;
      }
      assert Reload(s0, remote, itype.Some?) == Render(s0.(items := NatSorted(files, remote.before), iterStart := 0));
      ShowListing(files, remote);
    }

    /** The end of `get_items`: keep the sorted listing, restart at the first page and show it. */
    method ShowListing(files: seq<Entry>, remote: Remote)
      modifies this
      ensures State() == Render(old(State()).(items := NatSorted(files, remote.before), iterStart := 0))
    {
      ghost var loaded := State().(items := NatSorted(files, remote.before), iterStart := 0);
      itemsList, iterStart := NatSorted(files, remote.before), 0;
      assert State() == loaded;
      RenderItems();
    }

    /** `list_drives`. */
    method ListDrives(remote: Remote)
      modifies this
      ensures State() == ListSpec.ListDrives(old(State()), remote)
    {
      match remote.sharedDrives
      case Failed(e) =>
        id := e;
        eventSet := true;
      case Fetched(ds) =>
        if |ds| == 0 {
          ghost var atRoot := State().(drives := [RootCrumb], parents := [RootCrumb], id := "root");
          drives, parents, id := [RootCrumb], [RootCrumb], "root";
          assert State() == atRoot;
          GetItems(remote, None);
        } else {
          ShowDrives(ds);
        }
    }

    /** The drive menu branch of `list_drives`: the table is rebuilt one shared drive at a time, each with its button. */
    method ShowDrives(ds: seq<Crumb>)
      modifies this
      ensures var s := old(State()).(drives := DriveTable(ds), parents := []);
              State() == if s.flags.isCancelled then s else s.(menu := DrivesMenu(ds, s.tokens.user && s.tokens.owner))
    {
      var buttons := [Button(Plain("root"), Drive(0), Body)];
      var table := [RootCrumb];
      var i := 0;
      while i < |ds|
        invariant 0 <= i <= |ds|
        invariant table == DriveTable(ds[..i])
        invariant buttons == [Button(Plain("root"), Drive(0), Body)] + DriveButtons(ds[..i])
      {
        assert ds[..i + 1] == ds[..i] + [ds[i]];
        assert DriveButtons(ds[..i + 1]) == DriveButtons(ds[..i]) + [Button(Plain(ds[i].name), Drive(i + 1), Body)];
        table := table + [Crumb(ds[i].id, ds[i].name)];
        buttons := buttons + [Button(Plain(ds[i].name), Drive(i + 1), Body)];
        i := i + 1;
      }
      assert ds[..i] == ds;
      drives := table;
      parents := [];
      if tokenUser && tokenOwner {
        buttons := buttons + [Button(Plain("Back"), Back(true), Footer)];
      }
      buttons := buttons + [Button(Plain("Cancel"), Cancel, Footer)];
      if !isCancelled {
        menu := buttons;
      }
    }

    /** `choose_token`. */
    method ChooseToken(remote: Remote)
      modifies this
      ensures State() == ListSpec.ChooseToken(old(State()), remote)
    {
      if tokenUser && tokenOwner {
        if !isCancelled {
          menu := TokenMenu;
        }
      } else {
        ghost var chosen := State().(tokenPath := if tokenOwner then OwnerToken else userTokenPath);
        tokenPath := if tokenOwner then OwnerToken else userTokenPath;
        assert State() == chosen;
        ListDrives(remote);
      }
    }

    /** `get_pevious_id`; `raised` reports the index error of popping the last breadcrumb. */
    method PreviousId(remote: Remote) returns (raised: bool)
      modifies this
      ensures (State(), raised) == ListSpec.PreviousId(old(State()), remote)
    {
      raised := false;
      if |parents| > 0 {
        parents := parents[..|parents| - 1];
        if |parents| == 0 {
          raised := true;
          return;
        }
        ghost var popped := State().(id := parents[|parents| - 1].id);
        id := parents[|parents| - 1].id;
        assert State() == popped;
        GetItems(remote, None);
      } else {
        ListDrives(remote);
      }
    }

    /** `id_updates` for one decoded callback. */
    method Step(a: Action, remote: Remote)
      modifies this
      ensures State() == ListSpec.Step(old(State()), a, remote)
    {
      if a == Cancel {
        id := CancelledText;
        isCancelled := true;
        eventSet := true;
        return;
      }
      if queryProc {
        return;
      }
      queryProc := true;
      Handle(a, remote);
    }

    /** The body of `id_updates` once `query_proc` is set; an early `return` leaves it set, as the source's exceptions do. */
    method Handle(a: Action, remote: Remote)
      requires a != Cancel
      modifies this
      ensures State() == ListSpec.Handle(old(State()), a, remote)
    {
      if PagingAction(a) {
        HandlePaging(a);
      } else if MoveAction(a) {
        HandleReload(a, remote);
      } else {
        HandleTokens(a, remote);
      }
    }

    /** Prev, Next, PageStep, Current and SetDefault. */
    method HandlePaging(a: Action)
      requires PagingAction(a)
      modifies this
      ensures State() == Paging(old(State()), a)
    {
      match a {
        case Prev => PreviousPage();
        case Next => NextPage();
        case PageStep(n) => ChangePageStep(n);
        case Current => FinishHere();
        case SetDefault => MakeDefault();
      }
    }

    /** Previous page: move the offset back by one page step and show the items again. */
    method PreviousPage()
      modifies this
      ensures State() == Paging(old(State()), Prev)
    {
      ghost var moved := State().(iterStart := iterStart - ListLimit * pageStep);
      iterStart := iterStart - ListLimit * pageStep;
      assert State() == moved;
      RenderItems();
      ghost var shown := State();
      queryProc := false;
      assert State() == Done(shown);
    }

    /** Next page: move the offset on by one page step and show the items again. */
    method NextPage()
      modifies this
      ensures State() == Paging(old(State()), Next)
    {
      ghost var moved := State().(iterStart := iterStart + ListLimit * pageStep);
      iterStart := iterStart + ListLimit * pageStep;
      assert State() == moved;
      RenderItems();
      ghost var shown := State();
      queryProc := false;
      assert State() == Done(shown);
    }

    /** A page step button; choosing the step already in use returns with `query_proc` still set. */
    method ChangePageStep(n: nat)
      modifies this
      ensures State() == Paging(old(State()), PageStep(n))
    {
      if pageStep == n {
        return;
      }
      ghost var stepped := State().(pageStep := n);
      pageStep := n;
      assert State() == stepped;
      RenderItems();
      ghost var shown := State();
      queryProc := false;
      assert State() == Done(shown);
    }

    /** Done with the current folder. */
    method FinishHere()
      modifies this
      ensures State() == Paging(old(State()), Current)
    {
      eventSet := true;
      queryProc := false;
    }

    /** Set as Default: store the id unless it is already the stored one, then show the items again. */
    method MakeDefault()
      modifies this
      ensures State() == Paging(old(State()), SetDefault)
    {
      var newId := if tokenPath == OwnerToken then id else "mtp:" + id;
      if Some(newId) != userDefault {
        StoreDefault(newId);
      }
      queryProc := false;
    }

    /** The store branch of Set as Default: remember `newId`, hand it to the user-data store, show the items again. */
    method StoreDefault(newId: string)
      modifies this
      ensures State() == Render(old(State()).(userDefault := Some(newId), saved := old(State()).saved + [newId]))
    {
      ghost var stored := State().(userDefault := Some(newId), saved := saved + [newId]);
      userDefault, saved := Some(newId), saved + [newId];
      assert State() == stored;
      RenderItems();
    }

    /** Drive, Pick, Root and ItemKind. */
    method HandleReload(a: Action, remote: Remote)
      requires MoveAction(a)
      modifies this
      ensures State() == Move(old(State()), a, remote)
    {
      match a {
        case Drive(k) => OpenDrive(k, remote);
        case Pick(folder, k) => OpenItem(folder, k, remote);
        case Root => BackToRoot(remote);
        case ItemKind(t) => SwitchType(t, remote);
      }
    }

    /** A drive button: the drive becomes the only breadcrumb and its root is listed; an index past the table raises. */
    method OpenDrive(k: nat, remote: Remote)
      modifies this
      ensures State() == Move(old(State()), Drive(k), remote)
    {
      if k >= |drives| {
        return;
      }
      var d := drives[k];
      ghost var entered := State().(id := d.id, parents := [d]);
      id, parents := d.id, [d];
      assert State() == entered;
      GetItems(remote, None);
      ghost var shown := State();
      queryProc := false;
      assert State() == Done(shown);
    }

    /** An item button: a folder is pushed on the breadcrumbs and listed, a file ends the session with its id. */
    method OpenItem(folder: bool, k: nat, remote: Remote)
      modifies this
      ensures State() == Move(old(State()), Pick(folder, k), remote)
    {
      if k >= |itemsList| {
        return;
      }
      var e := itemsList[k];
      id := e.id;
      if folder {
        ghost var entered := State().(parents := parents + [Crumb(e.id, e.name)]);
        parents := parents + [Crumb(e.id, e.name)];
        assert State() == entered;
        GetItems(remote, None);
      } else {
        eventSet := true;
      }
      queryProc := false;
    }

    /** Back To Root: keep only the first breadcrumb and list it. */
    method BackToRoot(remote: Remote)
      modifies this
      ensures State() == Move(old(State()), Root, remote)
    {
      if |parents| == 0 {
        return;
      }
      ghost var entered := State().(id := parents[0].id, parents := [parents[0]]);
      id, parents := parents[0].id, [parents[0]];
      assert State() == entered;
      GetItems(remote, None);
      ghost var shown := State();
      queryProc := false;
      assert State() == Done(shown);
    }

    /** Folders or Files: list the current folder again with the other item type. */
    method SwitchType(t: ItemType, remote: Remote)
      modifies this
      ensures State() == Move(old(State()), ItemKind(t), remote)
    {
      ghost var switched := State().(itemType := t);
      itemType := t;
      assert State() == switched;
      GetItems(remote, None);
      ghost var shown := State();
      queryProc := false;
      assert State() == Done(shown);
    }

    /** Back, Owner and User. */
    method HandleTokens(a: Action, remote: Remote)
      requires a.Back? || a == Owner || a == User
      modifies this
      ensures State() == Tokens(old(State()), a, remote)
    {
      match a {
        case Back(toTokens) => GoBack(toTokens, remote);
        case Owner => UseToken(OwnerToken, remote);
        case User => UseToken(userTokenPath, remote);
      }
    }

    /** Back: to the token menu from the drive menu, otherwise to the previous folder. */
    method GoBack(toTokens: bool, remote: Remote)
      modifies this
      ensures State() == Tokens(old(State()), Back(toTokens), remote)
    {
      if toTokens {
        ChooseToken(remote);
      } else {
        var raised := PreviousId(remote);
        if raised {
          return;
        }
      }
      queryProc := false;
    }

    /** Owner Token or My Token: forget the position and list the drives the token at `path` sees. */
    method UseToken(path: string, remote: Remote)
      modifies this
      ensures State() == Done(ListSpec.ListDrives(old(State()).(tokenPath := path, id := "", parents := []), remote))
    {
      ghost var reset := State().(tokenPath := path, id := "", parents := []);
      tokenPath, id, parents := path, "", [];
      assert State() == reset;
      ListDrives(remote);
      ghost var shown := State();
      queryProc := false;
      assert State() == Done(shown);
    }

    /** The idle timeout in `__event_handler`. */
    method Timeout()
      modifies this
      ensures State() == ListSpec.Timeout(old(State()))
    {
      id := TimedOutText;
      isCancelled := true;
      eventSet := true;
    }

    /** `get_target_id` up to the wait for the completion event. */
    method Start(status: ListStatus, givenTokenPath: Option<string>,
                 userTokenExists: bool, ownerTokenExists: bool, remote: Remote) returns (early: Option<string>)
      modifies this
      ensures (State(), early)
              == ListSpec.Start(old(State()), status, givenTokenPath, userTokenExists, ownerTokenExists, remote)
    {
      ghost var t := State().(listStatus := status);
      listStatus := status;
      assert State() == t;
      early := None;
      if givenTokenPath.None? {
        ghost var found := State().(tokens := TokenFiles(userTokenExists, ownerTokenExists));
        tokenUser, tokenOwner := userTokenExists, ownerTokenExists;
        assert State() == found;
        if !tokenOwner && !tokenUser {
          eventSet := true;
          assert State() == found.(flags := found.flags.(eventSet := true));
          early := Some(NoTokenText);
          return;
        }
        ChooseToken(remote);
      } else {
        ghost var given := State().(tokenPath := givenTokenPath.value);
        tokenPath := givenTokenPath.value;
        assert State() == given;
        ListDrives(remote);
      }
    }

    /** `get_target_id` after the wait: the text handed back to the caller. */
    method TargetId() returns (r: string)
      ensures r == ListSpec.TargetId(State())
      ensures '<' !in r && '>' !in r
    {
      if tokenPath != OwnerToken && !isCancelled {
        r := StripAngles("mtp:" + id);
      } else {
        r := StripAngles(id);
      }
    }
  }
}
