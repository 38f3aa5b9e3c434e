# Google Drive picker and search, in Dafny

This project models two parts of the bot's Google Drive helper.

The first is the interactive **folder picker**, the `gdriveList` object of
`bot/helper/mirror_utils/gdrive_utlis/list.py`. The user presses inline
buttons whose payload is a `gdq …` string. The callback handler `id_updates`
decodes the payload and moves the picker through drives, folders and pages,
until the user picks a path, cancels, or times out. `get_target_id` then
returns the chosen id.

The second is the **search**, the `gdSearch` object of
`bot/helper/mirror_utils/gdrive_utlis/search.py`:
- `__drive_query` builds a filter in the Drive v3 `q` syntax for one search root;
- `drive_list` runs one query per root, renders every result as an HTML entry, and cuts the text into pages of a little over 39000 UTF-8 bytes;
- `get_user_drive` turns an `mtp:` upload destination into the only search root.

Modules:

- `Wrappers`: `Option`.
- `Text`: Python's string operations, written out. These are `str.split()`, `sep.join`, `''.join`, `str(n)`, `int(s)`, `replace`, `lstrip`, and the length of the UTF-8 encoding.
- `ListSpec`: the picker as pure functions on a `Session` value. It covers:
  - the payload codec (`Encode`/`Decode` of an `Action`);
  - the offset clamp and the button menu of `get_items_buttons`;
  - `get_items` (`Reload`), `list_drives`, `choose_token`, `get_pevious_id`;
  - one `id_updates` call (`Step`), the timeout, and `get_target_id`.

  Remote calls are a `Remote` value: the folder listing, the shared-drive list, and the natural-sort order.
- `ListObject`: the `gdriveList` object as a class with the source's fields, updated in place. Each method ends in the state that the matching `ListSpec` function computes from the old state. So everything proved in `ListSpec` holds of the object.
- `ListPath`: the "Current Path" line of the menu text, and the Back To Root defect that breaks it.
- `SearchQuery`: `__drive_query` as a function, plus the method that builds the in-folder filter word by word. Also a reader that recovers the searched words from a filter.
- `SearchList`: the search roots, `get_user_drive`, the rendering of one result, the page buffer, and `drive_list` as a method with the source's two nested loops. The method is proved equal to a functional description, and the properties are proved about that description.

## Model

| member | source | states |
|---|---|---|
| ListSpec.DecodeEncode | bot/helper/mirror_utils/gdrive_utlis/list.py:29-30 | Splitting any button's payload on whitespace and reading the action from the words gives back exactly that button's action |
| ListSpec.ClampOffset | bot/helper/mirror_utils/gdrive_utlis/list.py:148-153 | For a non-empty list the clamped offset is in `[0, items_no)`; an offset in range is kept; one at or past the end becomes 0; a negative one becomes the start of the last page; a multiple of 6 stays a multiple of 6 |
| ListSpec.ItemButtons | bot/helper/mirror_utils/gdrive_utlis/list.py:156-164 | At most 6 item buttons, each an item pick |
| ListSpec.ItemButtonsRefer | bot/helper/mirror_utils/gdrive_utlis/list.py:156-164 | After clamping, the k-th item button picks item `iter_start + k`, which exists, as a folder exactly when its mimeType is the folder type; there are `min(6, items_no - iter_start)` of them |
| ListSpec.StepButtons | bot/helper/mirror_utils/gdrive_utlis/list.py:166-167 | One page-step button per step, in order, each selecting its own step |
| ListSpec.PagingShown | bot/helper/mirror_utils/gdrive_utlis/list.py:165-169 | Previous, Next and every page-step button are in the menu exactly when there are more than 6 items |
| ListSpec.ToggleShown | bot/helper/mirror_utils/gdrive_utlis/list.py:170-176 | The Files / Folders switch is offered only in download mode, and always names the other item type |
| ListSpec.ChoiceShown | bot/helper/mirror_utils/gdrive_utlis/list.py:177-182 | Choose Current Path is shown exactly in upload mode or for a non-empty listing; Set as Default Path exactly in upload mode |
| ListSpec.BackShown | bot/helper/mirror_utils/gdrive_utlis/list.py:183-184 | Back is shown exactly when there is more than one breadcrumb and more than one drive, or when both tokens exist |
| ListSpec.RootShown | bot/helper/mirror_utils/gdrive_utlis/list.py:185-187 | Back To Root is shown exactly with more than one breadcrumb; Cancel is always shown |
| ListSpec.NatSorted | bot/helper/mirror_utils/gdrive_utlis/list.py:225 | The sorted listing is a permutation of the fetched files |
| ListSpec.ReloadFacts | bot/helper/mirror_utils/gdrive_utlis/list.py:203-227 | `get_items` changes only the listing, offset, item type, id, event and menu. The item type flips at most once, only in download mode after an empty listing. The id is kept, or else cleared with the event set. An aligned offset stays aligned |
| ListSpec.ReloadFails | bot/helper/mirror_utils/gdrive_utlis/list.py:212-220 | A failed listing leaves the session exactly as it was except for an empty id and the event set. In download mode an empty listing followed by a failed listing of the other item type also flips the item type. When both listings arrive the id and the event are kept |
| ListSpec.ReloadFallsBack | bot/helper/mirror_utils/gdrive_utlis/list.py:221-224 | An empty first listing in download mode does switch to the other item type and shows what that listing returns, sorted, from the first page |
| ListSpec.ReloadLoads | bot/helper/mirror_utils/gdrive_utlis/list.py:221-227 | A listing that arrives before cancellation is kept as a permutation of the fetched files, at offset 0, with its menu shown |
| ListSpec.RenderFirstPage | bot/helper/mirror_utils/gdrive_utlis/list.py:226-227 | Rendering from offset 0 keeps the offset and shows the menu of that very state |
| ListSpec.DriveButtonsMatchTable | bot/helper/mirror_utils/gdrive_utlis/list.py:250-256 | Every drive button selects a row of the drive table whose name is its caption: `root` at 0, shared drive i at i + 1 |
| ListSpec.ListDrivesTable | bot/helper/mirror_utils/gdrive_utlis/list.py:229-256 | A failed drive listing ends the session with the error text as id. With no shared drives, drives and breadcrumbs are `[root]` and `root` is listed. Otherwise the table is `root` then the shared drives in order, with no breadcrumbs |
| ListSpec.Timeout | bot/helper/mirror_utils/gdrive_utlis/list.py:133-136 | The timeout sets the timed-out text as id, marks the session cancelled and sets the event |
| ListSpec.TargetId | bot/helper/mirror_utils/gdrive_utlis/list.py:303-305 | The result holds no `<` or `>`. It is `mtp:` followed by the stripped id exactly when a user token was used and the session was not cancelled, else the stripped id |
| ListSpec.StepWhileBusy | bot/helper/mirror_utils/gdrive_utlis/list.py:30-38 | Cancel is honoured even while busy and sets the cancellation text, the cancelled flag and the event. Any other action is ignored while busy. Choosing the current page step only sets `query_proc` |
| ListSpec.SamePageStepStuck | bot/helper/mirror_utils/gdrive_utlis/list.py:66-68 | Pressing the page step already in use returns with `query_proc` still set, so every later button but Cancel is ignored until the timeout |
| ListSpec.StepSwitchesType | bot/helper/mirror_utils/gdrive_utlis/list.py:75-77 | The Files / Folders switch lists with the chosen type, or with the other one when that listing is empty in download mode, keeps the breadcrumbs and releases `query_proc` |
| ListSpec.StepReleases | bot/helper/mirror_utils/gdrive_utlis/list.py:36-98 | After a handled callback `query_proc` is still set exactly when the handler raised or returned early: a drive or item index out of range, the current page step, Back To Root without breadcrumbs, or Back from the only breadcrumb. This holds only if `get_path_buttons` redraws the items menu, and under the corrected reading of list.py:73 for Back To Root (see Findings) |
| ListSpec.PreviousRaises | bot/helper/mirror_utils/gdrive_utlis/list.py:279-285 | `get_pevious_id` raises exactly when there is one breadcrumb; it then leaves no breadcrumbs and changes nothing else |
| ListSpec.StepOpensItem | bot/helper/mirror_utils/gdrive_utlis/list.py:56-65 | Picking folder k pushes `{id, name}` of item k on the breadcrumbs and sets the id to item k's id when both listings of it arrive; if its listing with the current item type fails, the id is cleared and the event set. Picking a file sets the id to the file's id, fires the event and changes nothing else. Choose Current Path only fires the event |
| ListSpec.StepMovesBreadcrumbs | bot/helper/mirror_utils/gdrive_utlis/list.py:50-55 | Choosing drive k leaves that drive as the only breadcrumb and its id as the id; Back To Root leaves only the first breadcrumb (the corrected reading of line 73) and its id. In both, the id is that breadcrumb's id when both listings arrive, and is cleared with the event set if its listing with the current item type fails |
| ListSpec.StepPages | bot/helper/mirror_utils/gdrive_utlis/list.py:39-44 | Previous and Next move the offset by exactly one page step times 6, clamp it and release `query_proc`; breadcrumbs, items, id and page step are untouched. This holds only if `get_path_buttons` redraws the items menu (see Findings) |
| ListSpec.PagingStuckAsWritten | bot/helper/mirror_utils/gdrive_utlis/list.py:39-44 | As written, after Previous or Next the old menu stays, the offset is moved unclamped, `query_proc` stays set and every later button but Cancel is ignored |
| ListSpec.StepBackPops | bot/helper/mirror_utils/gdrive_utlis/list.py:279-283 | Back from a sub-folder pops the last breadcrumb, makes the new top's id the id (cleared with the event set if listing fails) and releases `query_proc` |
| ListSpec.StepBackToDrives | bot/helper/mirror_utils/gdrive_utlis/list.py:284-285 | Back with no breadcrumbs lists the drives again: a failure ends the session with the error as id; otherwise the drive table and its menu are shown with no breadcrumbs; `query_proc` is released |
| ListSpec.ListDrivesKeeps | bot/helper/mirror_utils/gdrive_utlis/list.py:229-261 | `list_drives` keeps the token in use, the token files found, the mode and `query_proc` |
| ListSpec.ChooseTokenPicks | bot/helper/mirror_utils/gdrive_utlis/list.py:263-277 | With both tokens, only the token menu is shown (nothing at all once cancelled); otherwise the owner token is used if it exists, else the user's own token |
| ListSpec.StartAnswers | bot/helper/mirror_utils/gdrive_utlis/list.py:287-299 | `get_target_id` answers `token.pickle not Exists!` at once exactly when no token path is given and neither token file exists. A given token path is the one used; otherwise the files found are recorded and, when only one exists, its token is used. The mode is recorded |
| ListSpec.StepSetDefault | bot/helper/mirror_utils/gdrive_utlis/list.py:81-85 | Set as Default stores the bare id for the owner token and `mtp:`+id otherwise. The store is called exactly when the stored value differs |
| ListSpec.StepKeepsAligned | bot/helper/mirror_utils/gdrive_utlis/list.py:26-98 | Every callback keeps `iter_start` a multiple of 6 |
| ListObject.GdriveList.constructor | bot/helper/mirror_utils/gdrive_utlis/list.py:102-124 | A new picker: no breadcrumbs, drives or items, offset 0, step 1, folders, nothing busy or cancelled, user token path `tokens/<user_id>.pickle` |
| ListObject.GdriveList.RenderItems | bot/helper/mirror_utils/gdrive_utlis/list.py:147-201 | Clamps `iter_start` in place and, unless cancelled, replaces the menu with the items menu |
| ListObject.GdriveList.GetItems | bot/helper/mirror_utils/gdrive_utlis/list.py:203-227 | Leaves the object as `Reload` describes, including the one recursive retry with the other item type |
| ListObject.GdriveList.ShowListing | bot/helper/mirror_utils/gdrive_utlis/list.py:225-227 | Stores the sorted listing, resets the offset and renders |
| ListObject.GdriveList.ListDrives | bot/helper/mirror_utils/gdrive_utlis/list.py:229-261 | Leaves the object as `ListDrives` describes |
| ListObject.GdriveList.ShowDrives | bot/helper/mirror_utils/gdrive_utlis/list.py:243-261 | Rebuilds the drive table and its buttons one shared drive at a time, clears the breadcrumbs and shows the drive menu unless cancelled |
| ListObject.GdriveList.ChooseToken | bot/helper/mirror_utils/gdrive_utlis/list.py:263-277 | Leaves the object as `ChooseToken` describes: with both tokens, only the token menu is shown; otherwise the owner token if present, else the user's token, is used to list drives (`ChooseTokenPicks`) |
| ListObject.GdriveList.PreviousId | bot/helper/mirror_utils/gdrive_utlis/list.py:279-285 | Pops the breadcrumb in place and reloads the new top, reporting the index error on the last one; with no breadcrumbs lists drives |
| ListObject.GdriveList.Step | bot/helper/mirror_utils/gdrive_utlis/list.py:26-38 | Handles one decoded callback in place, as `Step` describes |
| ListObject.GdriveList.Handle | bot/helper/mirror_utils/gdrive_utlis/list.py:39-98 | Dispatches on the action once `query_proc` is set |
| ListObject.GdriveList.HandlePaging | bot/helper/mirror_utils/gdrive_utlis/list.py:39-44 | Previous, Next, page step, Choose Current Path and Set as Default, as `Paging` describes |
| ListObject.GdriveList.PreviousPage | bot/helper/mirror_utils/gdrive_utlis/list.py:39-41 | Decrements the offset by one page step times 6, re-renders and releases `query_proc` |
| ListObject.GdriveList.NextPage | bot/helper/mirror_utils/gdrive_utlis/list.py:42-44 | Increments the offset by one page step times 6, re-renders and releases `query_proc` |
| ListObject.GdriveList.ChangePageStep | bot/helper/mirror_utils/gdrive_utlis/list.py:66-70 | Returns early on the current step; otherwise sets it, re-renders and releases |
| ListObject.GdriveList.FinishHere | bot/helper/mirror_utils/gdrive_utlis/list.py:78-80 | Fires the event and releases |
| ListObject.GdriveList.MakeDefault | bot/helper/mirror_utils/gdrive_utlis/list.py:81-87 | Stores the id only when it differs from the stored one, then releases |
| ListObject.GdriveList.StoreDefault | bot/helper/mirror_utils/gdrive_utlis/list.py:84-85 | Records the new default, appends it to what was stored, and re-renders |
| ListObject.GdriveList.HandleReload | bot/helper/mirror_utils/gdrive_utlis/list.py:50-77 | Drive, item, Back To Root and item-type actions, as `Move` describes |
| ListObject.GdriveList.OpenDrive | bot/helper/mirror_utils/gdrive_utlis/list.py:50-55 | Enters drive k and lists it; an index past the table leaves `query_proc` set |
| ListObject.GdriveList.OpenItem | bot/helper/mirror_utils/gdrive_utlis/list.py:56-65 | Sets the id to item k; a folder is appended to the breadcrumbs and listed, a file fires the event |
| ListObject.GdriveList.BackToRoot | bot/helper/mirror_utils/gdrive_utlis/list.py:71-74 | Keeps the first breadcrumb only and lists it (corrected reading) |
| ListObject.GdriveList.SwitchType | bot/helper/mirror_utils/gdrive_utlis/list.py:75-77 | Sets the item type and lists the folder again |
| ListObject.GdriveList.HandleTokens | bot/helper/mirror_utils/gdrive_utlis/list.py:45-49 | Back, Owner Token and My Token, as `Tokens` describes |
| ListObject.GdriveList.GoBack | bot/helper/mirror_utils/gdrive_utlis/list.py:45-49 | Back from the drive menu chooses the token again; otherwise goes to the previous folder |
| ListObject.GdriveList.UseToken | bot/helper/mirror_utils/gdrive_utlis/list.py:88-97 | Sets the token path, clears the id and breadcrumbs, lists drives and releases |
| ListObject.GdriveList.Timeout | bot/helper/mirror_utils/gdrive_utlis/list.py:133-136 | Applies the timeout in place |
| ListObject.GdriveList.Start | bot/helper/mirror_utils/gdrive_utlis/list.py:287-299 | Sets the mode. Without a given token path, records which token files exist and stops with `token.pickle not Exists!` if neither does, else chooses a token. With a given path, lists drives with it (`StartAnswers`) |
| ListObject.GdriveList.TargetId | bot/helper/mirror_utils/gdrive_utlis/list.py:303-305 | The returned text is the one `TargetId` describes and holds no angle brackets |
| ListPath.CurrentPath | bot/helper/mirror_utils/gdrive_utlis/list.py:199 | The path line has a value exactly when `parents` is a list of breadcrumbs |
| ListPath.PathJoinsNames | bot/helper/mirror_utils/gdrive_utlis/list.py:199 | The path is the breadcrumb names in order, separated by `/` |
| ListPath.RootPathRaises | bot/helper/mirror_utils/gdrive_utlis/list.py:71-74 | As written, the path line that had a value before Back To Root raises after it |
| ListPath.RootPathShown | bot/helper/mirror_utils/gdrive_utlis/list.py:71-74 | Corrected, Back To Root shows the first breadcrumb's name as the path and releases `query_proc` |
| SearchQuery.QueryShape | bot/helper/mirror_utils/gdrive_utlis/search.py:37-65 | Every filter ends with `trashed = false`, and a recursive search of `root` ends with ` and 'me' in owners` after it. An in-folder filter starts with `'<dirId>' in parents and ` and searches every drive. A recursive one searches the user's files for `root`, else that shared drive |
| SearchQuery.DriveQuery | bot/helper/mirror_utils/gdrive_utlis/search.py:21-65 | The request built is `Query` |
| SearchQuery.FolderConditions | bot/helper/mirror_utils/gdrive_utlis/search.py:49-60 | The in-folder filter grown with `+=` is the folder condition followed by the same conditions the recursive filter uses |
| SearchQuery.AppendNameClauses | bot/helper/mirror_utils/gdrive_utlis/search.py:53-56 | The loop appends one `name contains` clause per non-empty word, in order |
| SearchQuery.InFolderIsPrefixed | bot/helper/mirror_utils/gdrive_utlis/search.py:48-61 | For a root other than `root`, the in-folder filter is the recursive filter with `'<dirId>' in parents and ` in front |
| SearchQuery.ExactQuery | bot/helper/mirror_utils/gdrive_utlis/search.py:24-25 | With `stopDup`, the recursive filter of a root other than `root` is exactly `name = '<fileName>' and trashed = false` |
| SearchQuery.FuzzyConditions | bot/helper/mirror_utils/gdrive_utlis/search.py:26-36 | Without `stopDup` the conditions are a `name contains '<w>' and ` clause per word of `fileName.split()`, in order, then the mimeType clause for `files` or `folders` |
| SearchQuery.FuzzyQueryNamesWords | bot/helper/mirror_utils/gdrive_utlis/search.py:26-37 | For a term without quotes, reading the name clauses back from the fuzzy filter gives exactly the words of the term |
| SearchList.Zip3 | bot/helper/mirror_utils/gdrive_utlis/search.py:75 | The configured roots pair the i-th name, id and index URL, as many as the shortest list |
| SearchList.Roots | bot/helper/mirror_utils/gdrive_utlis/search.py:72-75 | Corrected: the configured drives are searched as one root per i-th name, id and index URL, as many as the shortest of the three lists |
| SearchList.UserSearchRoots | bot/helper/mirror_utils/gdrive_utlis/search.py:72-75 | Corrected (`get_user_drive` removing the `mtp:` prefix rather than `lstrip`): an `mtp:` destination is searched as the single root `User Choice`, whose id is the destination without `mtp:`, and its length is 1 |
| SearchList.ConfiguredSearchRaises | bot/helper/mirror_utils/gdrive_utlis/search.py:82 | As written, `len` of the configured roots raises before any query |
| SearchList.UserDrive | bot/helper/mirror_utils/gdrive_utlis/search.py:139-146 | One root named `User Choice`, with the saved index URL or empty, whose id is `lstrip` of the destination by `m`, `t`, `p`, `:`: a suffix that does not start with one of them |
| SearchList.UserDriveEatsId | bot/helper/mirror_utils/gdrive_utlis/search.py:140 | As written, an id starting with one of `m`, `t`, `p`, `:` loses its first character |
| SearchList.UserDriveFixed | bot/helper/mirror_utils/gdrive_utlis/search.py:140 | Corrected: `mtp:` followed by the root id is the destination |
| SearchList.UserDriveFixedKeepsId | bot/helper/mirror_utils/gdrive_utlis/search.py:140 | Corrected, every id comes back unchanged |
| SearchList.EffectiveRecursion | bot/helper/mirror_utils/gdrive_utlis/search.py:87-88 | A root is searched recursively exactly when recursion is asked for and its id has at most 23 characters |
| SearchList.LongIdSearchesInside | bot/helper/mirror_utils/gdrive_utlis/search.py:87-89 | A root with a longer id is searched as one folder, in every drive |
| SearchList.EntryText | bot/helper/mirror_utils/gdrive_utlis/search.py:100-126 | Every entry ends with `<br><br>` |
| SearchList.Entries | bot/helper/mirror_utils/gdrive_utlis/search.py:100 | One entry per result of the root, in order |
| SearchList.Visited | bot/helper/mirror_utils/gdrive_utlis/search.py:90-94 | With `noMulti` at most the first root is visited, whether it has results or not; without it every root is |
| SearchList.FeedKeepsText | bot/helper/mirror_utils/gdrive_utlis/search.py:126-130 | The sealed pages followed by the open buffer spell the whole text appended, in order |
| SearchList.FeedSealsFullPages | bot/helper/mirror_utils/gdrive_utlis/search.py:128-130 | Every sealed page holds more than 39000 UTF-8 bytes and ends at an entry boundary |
| SearchList.PagesProperties | bot/helper/mirror_utils/gdrive_utlis/search.py:126-135 | The pages joined are exactly the whole rendered text; no page is empty; every page but the last holds more than 39000 bytes and ends with a whole entry |
| SearchList.CountIsHits | bot/helper/mirror_utils/gdrive_utlis/search.py:127 | The entry count is the number of results summed over the visited roots |
| SearchList.RootPiecesTitle | bot/helper/mirror_utils/gdrive_utlis/search.py:90-99 | A root adds nothing without results; otherwise it adds the title first if it is the first root with results, and no other title |
| SearchList.TitleFirst | bot/helper/mirror_utils/gdrive_utlis/search.py:95-97 | The title is written once, before everything else, exactly when some visited root has results |
| SearchList.DriveList | bot/helper/mirror_utils/gdrive_utlis/search.py:77-137 | For the roots it is given (an input; how they are chosen is `SearchRoots` and `Roots`), the pages and count returned are those of the pieces of the visited roots |
| SearchList.VisitedAll | bot/helper/mirror_utils/gdrive_utlis/search.py:131-132 | The loop stops exactly at the visited roots |
| SearchList.VisitRoot | bot/helper/mirror_utils/gdrive_utlis/search.py:86-94 | One turn of the root loop skips a root without results and otherwise appends its pieces |
| SearchList.SearchRoot | bot/helper/mirror_utils/gdrive_utlis/search.py:87-89 | Queries one root with its effective recursion; a failed call gives no files |
| SearchList.AppendRoot | bot/helper/mirror_utils/gdrive_utlis/search.py:95-130 | Appends the title (once), the header of a named drive, then the entries |
| SearchList.AppendEntries | bot/helper/mirror_utils/gdrive_utlis/search.py:100-130 | Appends and counts each entry, sealing the buffer as soon as it passes 39000 bytes |
| Text.Split | bot/helper/mirror_utils/gdrive_utlis/search.py:27 | `str.split()` gives non-empty words without whitespace |
| Text.SplitKeepsText | bot/helper/mirror_utils/gdrive_utlis/search.py:27 | Only whitespace is lost: the words glued together are the input without its whitespace |
| Text.SplitJoin | bot/helper/mirror_utils/gdrive_utlis/list.py:29 | Splitting space-joined words gives the words back |
| Text.ParseNatToString | bot/helper/mirror_utils/gdrive_utlis/list.py:51 | `int(str(n)) == n` |
| Text.StripAngles | bot/helper/mirror_utils/gdrive_utlis/list.py:304-305 | Removes exactly the angle brackets and keeps every other character |
| Text.StripAnglesKeepsClean | bot/helper/mirror_utils/gdrive_utlis/list.py:304-305 | Text already free of angle brackets is unchanged, so stripping is idempotent |
| Text.LStrip | bot/helper/mirror_utils/gdrive_utlis/search.py:140 | `lstrip(chars)` gives a suffix whose first character is not in the set; everything dropped is in the set |
| Text.Utf8Len | bot/helper/mirror_utils/gdrive_utlis/search.py:128 | A string of n characters takes between n and 4n UTF-8 bytes |

## Left out

- Telegram I/O is not modelled: sending, editing and deleting messages, answering the callback, and the grid layout of `build_menu`. A menu is a sequence of `(caption, action, position)` records. Its payload is `Encode(action)`.
- The HTML text of the picker menus is left out, except the Current Path line. That text includes the default id, item counts, the page number (float division), and the remaining time (a clock).
- The event loop is left out: `__event_handler`, `wait_for`, the handler registration, and the `new_task` / `new_thread` decorators. The timeout is one more transition.
- The Drive API is left out: `authorize`, `alt_authorize`, `getFilesByFolderId`, `drives().list` and `files().list`. Their answers are inputs: a `Remote` value for the picker, a request-to-answer function for the search. The request fields `spaces`, `fields`, `orderBy`, `corpora`, `supportsAllDrives` and `includeItemsFromAllDrives` are not modelled. The filter, the drive id, the scope and the page size are.
- `natsorted` is an abstract order passed with the `Remote`. Only the permutation property of the sort is stated.
- `get_readable_file_size`, `escapes` and the two Drive link templates are parameters (`Env`). The `float(item['size'])` of a file button is kept as the integer size.
- Persistence is left out: `update_user_ldata`, `DbManger` and `aiopath.exists`. The model keeps the list of values handed to the store. The existence of the two token files is an input of `Start`.
- StepSetDefault assumes the picker's `user_dict` sees the stored value. If the user had no record, the source's `user_dict.get(...)` works on a fresh dict and would not see it.
- `pre`, `nex` and `ps` call `get_path_buttons`, which `list.py` does not define; `helper.py`, where the base class `GoogleDriveHelper` lives, is not part of this model. The picker is modelled with the items menu of `get_items_buttons` in its place, and the as-written reading, where the call raises, is a Findings row.
- Payloads that the menus never produce are outside the model; `Decode` answers `None` for them. Examples are a negative index, which Python would index from the end, and a non-numeric index (`ValueError`).
- The mimeType of a search result is assumed present, and a missing `size` reads as 0.
- ListSpec.ItemButtons: a picker file's size is assumed present (`Entry.size` is a `nat`); the KeyError that `float(item['size'])` at list.py:163 raises for a file without a size is not modelled.
- SearchList.UserDrive: the assignments to `token_path` and `use_sa` in `get_user_drive` are not modelled. They change which credentials the service uses, and authorization is outside the model.
- SearchQuery.FuzzyQueryNamesWords: stated only for search terms without `'`. A quote in a word ends the quoted name early in Drive's syntax.
- The logging of errors (`LOGGER`) and the `RetryError` unwrapping are left out. A failed call is `Failed` / `None`.

## Findings

| source | as written | input that shows it | evidently intended | confidence | as-written member | corrected member |
|---|---|---|---|---|---|---|
| bot/helper/mirror_utils/gdrive_utlis/list.py:73 | `obj.parents = obj.parents[0]` stores the first breadcrumb record itself. The Current Path line (list.py:199) then iterates the record's keys and raises `TypeError`. The model shows the path line has no value; that `query_proc` then stays set, so that every later button but Cancel is ignored, follows from the raise and is not modelled as a step | a Back To Root press whose listing succeeds and is not cancelled, e.g. with breadcrumbs `[root, A]` | `obj.parents = [obj.parents[0]]` | high; not executed | ListPath.RootPathRaises | ListPath.RootPathShown |
| bot/helper/mirror_utils/gdrive_utlis/search.py:82 | `len(drives)` on the `zip` object built at line 75 raises `TypeError` | any search whose destination is not `mtp:…` | the length of the root list, e.g. `list(zip(...))` | high; not executed | SearchList.ConfiguredSearchRaises | SearchList.Roots |
| bot/helper/mirror_utils/gdrive_utlis/search.py:140 | `lstrip('mtp:')` strips any leading `m`, `t`, `p`, `:` characters, not the prefix | destination `mtp:photos` searches id `hotos` | remove the `mtp:` prefix only | medium, since Drive ids rarely start with those letters; not executed | SearchList.UserDriveEatsId | SearchList.UserDriveFixedKeepsId |
| bot/helper/mirror_utils/gdrive_utlis/list.py:41 | `pre`, `nex` (line 44) and `ps` (line 70) call `get_path_buttons`, which `list.py` does not define; unless the helper base class does, the call raises `AttributeError` after the offset has moved, so the menu is not redrawn and `query_proc` stays set | press Next with 7 items listed | `await obj.get_items_buttons()` | low, since `helper.py` is not part of this model; not executed | ListSpec.PagingStuckAsWritten | ListSpec.StepPages |
