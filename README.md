# Gotion key handling, modelled in Dafny

Gotion is a terminal note-taking program. Notes are plain files `<title>.md`
in a vault directory `~/.gotion`. This project models its core. That is
`model.Update`, the bubbletea handler that turns key presses into mode
changes and file operations. It also models `listFiles`, which turns the
vault's directory entries into list items, and the rule in `View` that
picks the widget on screen.

The model follows the Go code as written:

- The modes are two independent flags, `prompt` (createFileInputVisible)
  and `showList`, plus the open file `current`. They can hold at once.
  For example, ctrl+l while editing shows the list with the file still open.
- A submit that is rejected (empty name, or `<name>.md` exists) still hides
  the prompt. A rejected name stays in the input.
- esc in the list closes it only while the list is filtering. Otherwise esc
  goes on to the widgets.
- enter with neither prompt nor list shown, and ctrl+s with no file open,
  reach Update's closing block. That block hands the message to every widget
  in use.
- Creating a note while another is open replaces the open handle. The
  editor keeps its text.
- `q` quits, even while typing.

The program's own help line (main.go:242) promises more than the code
does. It offers "Ctrl+Q: quit", but ctrl+q is not a case of Update's switch
and only reaches the widgets (`Scenarios.CtrlQDoesNotQuit`). It offers "Esc:
back/save", but esc closes an open file without writing it
(`Properties.EscClosesFile`). The model follows the code.

Layout:

- `wrappers.dfy`: `Option`.
- `names.dfy` (module `FileNames`): Go's string order. `SortedNames` gives
  the order in which `os.ReadDir` reports entries.
- `vault.dfy` (module `Vault`): the vault as `Disk`, a map from name to
  `File(ino, content)` or `Dir(empty)`. A `Handle` is an open `*os.File`.
  The pure effects of the os calls are functions. The class `Store` makes
  those calls in place.
- `listing.dfy` (module `NoteList`): `item`, `listFiles` as a loop that
  builds the list, and lemmas about the listing.
- `app.dfy` (module `App`): the model state, `Step` (one Update call as a
  pure function), `View`, and the class `Model`. `Model.Update` is proved
  to equal `Step`.
- `properties.dfy` (module `Properties`): what each key does, the save/open
  round trip, and vault safety.
- `scenarios.dfy` (module `Scenarios`): concrete key sequences.

Outside inputs are parameters (`App.Env`):

- the list widget's selected title and whether it is filtering;
- the `Info()` results (formatted modification times) of the vault's entries;
- I/O failure flags;
- the values the text input and the editor hold after a message reaches them.

## Model

| member | source | states |
|---|---|---|
| App.Model.Update | main.go:94-228 | Each message changes the model and the vault exactly as `Step` says. `Step` is the key dispatch with its fall-through to the forwarding block. |
| App.Step | main.go:94-228 | One Update call as a pure function: the switch on the key, its early returns, and the `break` fall-throughs into the forwarding block. The Properties lemmas state what each case does. |
| App.StepSubmit | main.go:104-126 | enter with the prompt shown: an empty or existing name only hides the prompt; otherwise create the note, open it, refresh the list and clear the input, or abort when Create or ReadDir fails. |
| App.StepOpen | main.go:128-147 | enter in the list: no selection or a failed read changes nothing; otherwise the editor gets the content, the open file is OpenFile's result and the list is hidden. |
| App.StepSave | main.go:150-171 | ctrl+s with a file open: truncate, seek, write through the handle; a failure keeps the file open; success (even with a failing Close) closes it and clears the editor. |
| App.StepDelete | main.go:176-189 | ctrl+d in the list: remove the selected entry and refresh the list; no selection or a failed removal changes nothing. |
| App.StepCancel | main.go:190-209 | esc: the prompt first, then the list (closed and refreshed only while filtering, else forwarded), then the open file closed without writing. |
| App.StepForward | main.go:215-227 | The forwarding block: the reply names the widgets in use and only their values change; the vault is untouched. |
| App.StepRefresh | main.go:269-274 | `SetItems(listFiles())`: the items become the listing of the vault as it is now; a failing ReadDir aborts. |
| App.Forwarded | main.go:215-221 | The input takes the widget's new value only while the prompt is shown, and the editor only while a file is open. |
| Vault.Store.Create | main.go:113 | os.Create in place: on failure nothing changes; otherwise the vault becomes `CreateFile`'s result and the handle is returned. |
| Vault.Store.Truncate | main.go:154 | File.Truncate(0): on success the file behind the handle is emptied (if still in the vault); on failure nothing changes. |
| Vault.Store.WriteString | main.go:162 | File.WriteString: the file behind the handle receives the whole text, or the prefix written before a failure. |
| Vault.Store.Remove | main.go:181 | os.Remove in place: succeeds exactly when `RemoveEntry` does and no failure is injected, and then removes exactly that name. |
| Vault.Store.ReadDirectory | main.go:271 | os.ReadDir: the vault's entries in ascending name order, or none when it fails. |
| Vault.ReadContent | main.go:132 | A file's content is readable exactly when the name is a file of the vault, and it is that file's whole content. |
| Vault.OpenHandle | main.go:139 | Opening succeeds exactly for a file of the vault and gives a live handle under that name. |
| Vault.ReadDir | main.go:271 | The directory listing of the vault, sorted by name (its properties are stated by `ReadDirEntries`). |
| NoteList.Listed | main.go:275-287 | The items the append loop builds from a sequence of entries (stated by `ListedMembers` and `ListedAscending`). |
| NoteList.Listing | main.go:269-289 | The list refreshed from the vault: the items of its sorted entries (stated by `ListingExactly` and `ListingAscending`). |
| Properties.EnterForwards | main.go:103-148 | enter with neither prompt nor list shown falls through to the forwarding block: only the editor (when a file is open) receives it, and no file is touched. |
| Properties.NewFileShowsPrompt | main.go:100-102 | ctrl+n only sets the prompt flag: the earlier input value stays, no widget receives the key and the vault is untouched. |
| Scenarios.CtrlQDoesNotQuit | main.go:97-99 | ctrl+q, offered by the help line at main.go:242, is unbound: it is forwarded to the widgets in use and does not quit. |
| App.Model.SubmitName | main.go:103-127 | enter with the prompt shown agrees with `StepSubmit`: the prompt is hidden first; an empty or existing name stops there; otherwise os.Create, set the open file, refresh the list, clear the input. A create or ReadDir failure aborts. |
| App.Model.OpenSelected | main.go:128-147 | enter in the list agrees with `StepOpen`. With no selection or a read error, nothing changes. Otherwise the editor gets the content, the open file is the result of OpenFile (none when it fails) and the list is hidden. |
| App.Model.SaveCurrent | main.go:150-171 | ctrl+s with a file open agrees with `StepSave`: truncate, seek, write, and on success close the file and clear the editor. Each failing step returns with the file still open. |
| App.Model.DeleteSelected | main.go:176-189 | ctrl+d in the list agrees with `StepDelete`: remove the selected entry, then refresh the list. A failed removal changes nothing. |
| App.Model.Cancel | main.go:190-209 | esc agrees with `StepCancel`: prompt first; then the list (closed and refreshed only while filtering, otherwise forwarded); then the open file (closed without writing). |
| App.Model.Forward | main.go:215-227 | The closing block hands the message to the input if the prompt is shown, to the editor if a file is open, and to the list if it is shown. Only those widgets' values change. |
| App.Model.RefreshList | main.go:185 | `m.list.SetItems(listFiles())` sets the items to the listing of the vault as it is now, or aborts when ReadDir fails. |
| App.Classify | main.go:97-98 | msg.String() picks a case of the switch. Only ctrl+c and q quit. Any name outside the eight bound keys is unbound. |
| App.NotePath | main.go:108 | A typed name maps to the path `<name>.md`: the name followed by exactly ".md". |
| App.Receivers | main.go:215-226 | An input, editor or list receives the message exactly when the prompt is shown, a file is open, or the list is shown, respectively. |
| App.View | main.go:243-253 | The screen shows the list if it is shown, else the editor if a file is open, else the input if the prompt is shown, else the placeholder. Each case holds exactly under its condition. |
| NoteList.ItemOfEntry | main.go:22-35 | The `item` for a shown entry: its title is the file name, its description is the entry's Info() result, and its filter value is its title. |
| NoteList.ListFiles | main.go:269-289 | The append loop returns exactly `Listing(vault, stamps)`. A ReadDir failure is reported as None (the Go code calls log.Fatal). |
| NoteList.ListingExactly | main.go:275-285 | An item is listed iff its title is a non-directory entry whose Info() succeeded, and its description is that Info() result. |
| NoteList.ListingAscending | main.go:271-275 | Listed titles are strictly ascending: os.ReadDir's sorted order is kept, and no title repeats. |
| NoteList.ListedMembers | main.go:275-287 | The loop's items are exactly the shown entries (not a directory, Info() succeeded), each titled by its name. |
| NoteList.ListedAscending | main.go:275-287 | Filtering the entries keeps their order. |
| NoteList.ListedTitleIsFile | main.go:22-35 | A title is listed iff it names a vault file with a successful Info(). For every listed item, FilterValue equals Title and Description is its modification time. |
| Vault.ReadDirEntries | main.go:271 | os.ReadDir reports every vault entry exactly once, with its kind and Info() result, in ascending name order. |
| FileNames.SortedNames | main.go:271 | The names of a set, each once, strictly ascending in Go's string order. |
| Vault.CreateFile | main.go:113 | os.Create on a missing path adds an empty file with a fresh inode and returns a live handle to it; on an existing file it empties it, keeping its inode, and returns a handle to it; on a directory it fails. |
| Vault.WriteThrough | main.go:154-162 | A write through a handle changes only the file the handle is bound to, and only if that file is still in the vault. Nothing else changes. |
| Vault.RemoveEntry | main.go:181 | os.Remove succeeds iff the entry exists and is not a non-empty directory, and then removes exactly that name. |
| Vault.Store.ReadFile | main.go:132 | os.ReadFile returns a file's whole content; it fails on a missing name, a directory or an I/O failure. |
| Vault.Store.OpenFile | main.go:139 | os.OpenFile(O_RDWR) returns a handle bound to the file now under that name, or none. |
| Vault.Store.Stat | main.go:109 | os.Stat succeeds exactly for an existing entry. |
| Vault.Written | main.go:162-165 | A failed write leaves a prefix of the text; a completed write leaves all of it. |
| Properties.SubmitRejected | main.go:104-111 | An empty or existing name creates and changes no entry, keeps the open file, and only hides the prompt. |
| Properties.SubmitCreates | main.go:107-123 | A new name adds exactly the empty entry `<name>.md` under a fresh inode and changes no other entry. It becomes the open file, the input is cleared and the list is refreshed. The new note is listed iff its Info() succeeds. |
| Properties.SubmitCreateFails | main.go:113-116 | A failing os.Create aborts the program with the vault unchanged. |
| Properties.SaveReplaces | main.go:150-171 | A completed save replaces the whole content of the open file with the editor's value. It closes the file and clears the editor. Other entries are unchanged. A handle whose file was removed writes nothing into the vault. |
| Properties.SaveFailsKeepsOpen | main.go:154-165 | If truncate, seek or write fails, the model is unchanged and the file stays open. Only the live open file may change and the inode counter is kept; a stale handle or a failed truncate writes nothing; later failures leave a prefix of the text. |
| Properties.SaveWithoutFileForwards | main.go:150-153 | ctrl+s with no file open is forwarded to the widgets in use, never to the editor, and touches no file. |
| Properties.OpenLoads | main.go:128-147 | enter on a listed file loads its content into the editor, makes it the open file (none if OpenFile fails) and hides the list. The vault is unchanged. |
| Properties.OpenRefused | main.go:129-136 | With no selection, a missing or directory entry, or a read failure, enter in the list changes nothing. |
| Properties.SaveThenReopen | main.go:132-171 | Round trip: after ctrl+s (completed, even if only Close fails), ctrl+l, enter on the same title, the editor holds exactly the saved text, and the open handle is the same file again. |
| Properties.DeleteRemoves | main.go:176-186 | ctrl+d on a selection removes exactly that entry. The refreshed list no longer shows it and nothing else in the model changes. |
| Properties.DeleteRefused | main.go:176-189 | Outside the list, with no selection, or when removal fails, ctrl+d changes nothing. |
| Properties.EscClosesPrompt | main.go:191-195 | esc with the prompt shown hides it and clears its value, whatever else is open. |
| Properties.EscInList | main.go:196-203 | esc in the list closes and refreshes it only while filtering. Otherwise it is forwarded, reaching the list. The vault is never touched. |
| Properties.EscClosesFile | main.go:204-209 | esc on an open file closes it without writing (vault unchanged) and clears the editor. |
| Properties.EscIdle | main.go:204-209 | esc with nothing open changes nothing. |
| Properties.ShowListNoRefresh | main.go:172-174 | ctrl+l in any state only sets the list flag: the items are not refreshed, an open file stays open, the vault is unchanged, and the list takes over the screen. |
| Properties.PassThroughTouchesNoFile | main.go:215-227 | Unbound keys and non-key messages change no file and no mode. Only the values of the widgets in use change. |
| Properties.QuitChangesNothing | main.go:98-99 | ctrl+c and q end the program with nothing changed. |
| Properties.NoClobber | main.go:94-228 | No message changes an existing entry, except ctrl+s on the live open file. That file then receives the editor's value or a prefix of it. |
| Properties.EntriesComeAndGo | main.go:94-228 | Only a successful create adds an entry, the empty `<input>.md`. Only ctrl+d in the list removes one, the selected title. |
| Properties.StepKeepsConsistent | main.go:94-228 | Every message keeps inode numbers unique and below the counter, and keeps the open handle older than any later file. |
| Properties.StaleHandleStaysStale | main.go:150-185 | A handle whose file was removed never again reaches a vault entry, even a new note of the same name. Saving through it never changes the vault. |
| Scenarios.CreateTodo | main.go:100-126 | Empty vault; ctrl+n, type "todo", enter: todo.md exists, empty, and is open in the editor. |
| Scenarios.TypeAndSave | main.go:150-171 | Then type "buy milk", ctrl+s: todo.md holds "buy milk" and no file is open. |
| Scenarios.CreateExisting | main.go:104-111 | With todo.md present, ctrl+n, "todo", enter changes nothing and hides the prompt, keeping the typed name. |
| Scenarios.TypingQQuits | main.go:98-99 | The key q quits whatever is open. |

## Left out

- Startup is not modelled: `init` (home directory), `initialModel` (MkdirAll, widget configuration, the first listing), `main`, `Init`. These are process setup; a `Model` is constructed from any state.
- The `tea.Quit` command value: quitting is the reply `Quit`.
- `log.Fatal` / `log.Fatalf` (create or ReadDir failure): the reply `Abort`. The state after it is not meaningful.
- Styling and the final string assembly in `View`: presentation only. `View` returns which widget is on screen.
- Internals of the textinput, textarea and list widgets: cursor, scrolling and filtering keystrokes. Their results are parameters: the value after a forwarded message, the selection, the filtering flag.
- `noteTextArea.SetValue` (main.go:137, 170, 207) and `newFileInput.SetValue`: the model assumes the widget then holds exactly the given text. The widgets' own sanitizing and character or height limits are not modelled, so `Properties.SaveThenReopen`'s "exactly the saved text" holds only for text the textarea keeps unchanged.
- `WindowSizeMsg` sizing: all non-key messages are `OtherMsg`, which only reaches the forwarding block.
- Printed and logged error messages (`fmt.Println`, `log.Printf`): output only.
- Modification-time formatting: each entry's formatted `Info()` result is given as a map.
- Vault.Written: counts a partial write in characters, not bytes. A failure is given as the number of characters written.
- Closing handles, and handles leaked when a new file replaces an open one: the model drops the handle. A failing Close is ignored, as in the code.
- Names containing `/` or `..`: the vault is one flat directory, and names are keys.
- File names that are not valid UTF-8: names are strings of characters, and their order is character order. Go compares raw bytes, which agrees with it only for valid UTF-8.
- os.Stat errors other than "does not exist": Stat succeeds exactly for existing entries.
- Other processes changing the vault, and the race between Stat and Create: the vault changes only through Update.
- Go's value receiver (Update returns a modified copy of the model): modelled as an in-place update of `Model`.
