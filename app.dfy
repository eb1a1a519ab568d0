/**
 * The application model and its Update: one bubbletea message at a time,
 * it flips the model's mode flags, edits the two text widgets' values and
 * creates, reads, writes and removes vault files.
 *
 * `Step` is the pure specification of one Update call; `Model.Update`
 * performs it field by field and is proved to agree with it.
 */
module App {
  import opened Wrappers
  import opened Vault
  import opened NoteList

  /** A bubbletea message: a key press (msg.String()) or anything else. */
  datatype Msg = KeyMsg(name: string) | OtherMsg

  datatype Key = QuitKey | NewFile | Enter | SaveFile | ShowList | DeleteFile | Escape | Unbound

  const BoundKeys: set<string> := {"ctrl+c", "q", "ctrl+n", "enter", "ctrl+s", "ctrl+l", "ctrl+d", "esc"}

  /** The cases of Update's switch on msg.String(). */
  function Classify(name: string): (k: Key)
    ensures k == Unbound <==> name !in BoundKeys
    ensures k == QuitKey <==> name == "ctrl+c" || name == "q"
  {
    if name == "ctrl+c" || name == "q" then QuitKey
    else if name == "ctrl+n" then NewFile
    else if name == "enter" then Enter
    else if name == "ctrl+s" then SaveFile
    else if name == "ctrl+l" then ShowList
    else if name == "ctrl+d" then DeleteFile
    else if name == "esc" then Escape
    else Unbound
  }

  /** The model struct: the create prompt's flag and value, the open file,
      the note editor's value, the list's flag and its items. */
  datatype State = State(prompt: bool, input: string, current: Option<Handle>,
                         text: string, showList: bool, items: seq<Item>)

  datatype Widget = Input | Editor | List

  /** Continue: Update returned nil, having forwarded the message to these widgets.
      Quit: Update returned tea.Quit. Abort: a log.Fatal ended the process. */
  datatype Reply = Continue(forwarded: set<Widget>) | Quit | Abort

  /** Which step of saving fails, if any; WriteFails carries how much was written. */
  datatype SaveFault = NoSaveFault | TruncateFails | SeekFails | WriteFails(written: nat) | CloseFails

  datatype Faults = Faults(createFails: bool, readDirFails: bool, readFails: bool,
                           openFails: bool, save: SaveFault, removeFails: bool)

  /** What Update learns from outside the model: the list widget's selected
      title and whether it is filtering, the Info() results of the vault's
      entries, I/O failures, and the values the text input and the editor
      hold after handling a message forwarded to them. */
  datatype Env = Env(selection: Option<string>, filtering: bool, stamps: map<string, string>,
                     faults: Faults, inputAfter: string, textAfter: string)

  datatype Outcome = Outcome(reply: Reply, s: State, d: Disk)

  /** The path os.Create gets for a name typed at the prompt. */
  function NotePath(name: string): (p: string)
    ensures |p| == |name| + 3 && p[..|name|] == name && p[|name|..] == ".md"
  {
    name + ".md"
  }

  function Done(s: State, d: Disk): Outcome {
    Outcome(Continue({}), s, d)
  }

  /** The widgets the closing block of Update passes the message to. */
  function Receivers(s: State): (r: set<Widget>)
    ensures Input in r <==> s.prompt
    ensures Editor in r <==> s.current.Some?
    ensures List in r <==> s.showList
  {
    (if s.prompt then {Input} else {}) +
    (if s.current.Some? then {Editor} else {}) +
    (if s.showList then {List} else {})
  }

  /** The model after the text input and the editor, when in use, handled the message. */
  function Forwarded(s: State, env: Env): State {
    s.(input := if s.prompt then env.inputAfter else s.input,
       text := if s.current.Some? then env.textAfter else s.text)
  }

  function StepForward(s: State, d: Disk, env: Env): Outcome {
    Outcome(Continue(Receivers(s)), Forwarded(s, env), d)
  }

  /** m.list.SetItems(listFiles()); a failing ReadDir aborts. */
  function StepRefresh(s: State, d: Disk, env: Env): Outcome {
    if env.faults.readDirFails then Outcome(Abort, s, d)
    else Done(s.(items := Listing(d, env.stamps)), d)
  }

  /** "enter" with the prompt shown; `s` has the prompt already hidden. */
  function StepSubmit(s: State, d: Disk, env: Env): Outcome {
    var name := s.input;
    if name == "" then Done(s, d)
    else
      var path := NotePath(name);
      if path in d.files then Done(s, d)
      else
        var (d1, h) := if env.faults.createFails then (d, None) else CreateFile(d, path);
        if h.None? then Outcome(Abort, s, d1)
        else
          var r := StepRefresh(s.(current := h), d1, env);
          if r.reply.Abort? then r else Done(r.s.(input := ""), d1)
  }

  /** "enter" with the list shown: load the selected note into the editor. */
  function StepOpen(s: State, d: Disk, env: Env): Outcome {
    match env.selection
    case None => Done(s, d)
    case Some(t) =>
      var content := if env.faults.readFails then None else ReadContent(d, t);
      if content.None? then Done(s, d)
      else
        var h := if env.faults.openFails then None else OpenHandle(d, t);
        Done(s.(text := content.value, current := h, showList := false), d)
  }

  /** "ctrl+s" with a file open: truncate, seek to 0, write the editor's value, close. */
  function StepSave(s: State, d: Disk, env: Env): Outcome
    requires s.current.Some?
  {
    var h := s.current.value;
    match env.faults.save
    case TruncateFails => Done(s, d)
    case SeekFails => Done(s, WriteThrough(d, h, ""))
    case WriteFails(n) => Done(s, WriteThrough(d, h, Written(s.text, Some(n))))
    case _ => Done(s.(current := None, text := ""), WriteThrough(d, h, s.text))
  }

  /** "ctrl+d" with the list shown: remove the selected note and refresh the list. */
  function StepDelete(s: State, d: Disk, env: Env): Outcome {
    match env.selection
    case None => Done(s, d)
    case Some(t) =>
      var r := if env.faults.removeFails then None else RemoveEntry(d, t);
      if r.None? then Done(s, d) else StepRefresh(s, r.value, env)
  }

  /** "esc": the prompt first, then the list, then the open file. */
  function StepCancel(s: State, d: Disk, env: Env): Outcome {
    if s.prompt then Done(s.(prompt := false, input := ""), d)
    else if s.showList then
      if !env.filtering then StepForward(s, d, env)
      else StepRefresh(s.(showList := false), d, env)
    else if s.current.Some? then Done(s.(current := None, text := ""), d)
    else Done(s, d)
  }

  /** One call of model.Update. */
  function Step(s: State, d: Disk, msg: Msg, env: Env): Outcome {
    match msg
    case OtherMsg => StepForward(s, d, env)
    case KeyMsg(name) =>
      match Classify(name)
      case QuitKey => Outcome(Quit, s, d)
      case NewFile => Done(s.(prompt := true), d)
      case Enter =>
        if s.prompt then StepSubmit(s.(prompt := false), d, env)
        else if s.showList then StepOpen(s, d, env)
        else StepForward(s, d, env)
      case SaveFile => if s.current.None? then StepForward(s, d, env) else StepSave(s, d, env)
      case ShowList => Done(s.(showList := true), d)
      case DeleteFile => if s.showList then StepDelete(s, d, env) else Done(s, d)
      case Escape => StepCancel(s, d, env)
      case Unbound => StepForward(s, d, env)
  }

  datatype Screen = ListScreen | EditorScreen | InputScreen | Placeholder

  /** The middle part of View: each later check overrides the earlier ones. */
  function View(s: State): (v: Screen)
    ensures v == ListScreen <==> s.showList
    ensures v == EditorScreen <==> !s.showList && s.current.Some?
    ensures v == InputScreen <==> !s.showList && s.current.None? && s.prompt
    ensures v == Placeholder <==> !s.showList && s.current.None? && !s.prompt
  {
    var v0 := Placeholder;
    var v1 := if s.prompt then InputScreen else v0;
    var v2 := if s.current.Some? then EditorScreen else v1;
    if s.showList then ListScreen else v2
  }

  class Model {
    var prompt: bool
    var input: string
    var current: Option<Handle>
    var text: string
    var showList: bool
    var items: seq<Item>

    function Snapshot(): State
      reads this
    {
      State(prompt, input, current, text, showList, items)
    }

    constructor (s: State)
      ensures Snapshot() == s
    {
      prompt, input, current, text, showList, items := s.prompt, s.input, s.current, s.text, s.showList, s.items;
    }

    method Update(msg: Msg, env: Env, vault: Store) returns (reply: Reply)
      modifies this, vault
      ensures Outcome(reply, Snapshot(), vault.Snapshot()) == Step(old(Snapshot()), old(vault.Snapshot()), msg, env)
    {
      if msg.OtherMsg? {
        reply := Forward(env);
        return;
      }
      match Classify(msg.name) {
        case QuitKey =>
          reply := Quit;
        case NewFile =>
          prompt := true;
          reply := Continue({});
        case Enter =>
          if prompt {
            prompt := false;
            reply := SubmitName(env, vault);
          } else if showList {
            reply := OpenSelected(env, vault);
          } else {
            reply := Forward(env);
          }
        case SaveFile =>
          if current.None? {
            reply := Forward(env);
          } else {
            reply := SaveCurrent(env, vault);
          }
        case ShowList =>
          showList := true;
          reply := Continue({});
        case DeleteFile =>
          if showList {
            reply := DeleteSelected(env, vault);
          } else {
            reply := Continue({});
          }
        case Escape =>
          reply := Cancel(env, vault);
        case Unbound =>
          reply := Forward(env);
      }
    }

    /** The closing block of Update: pass the message to every widget in use. */
    method Forward(env: Env) returns (reply: Reply)
      modifies this
      ensures reply == Continue(Receivers(old(Snapshot())))
      ensures Snapshot() == Forwarded(old(Snapshot()), env)
    {
      var to: set<Widget> := {};
      if prompt {
        input := env.inputAfter;
        to := to + {Input};
      }
      if current.Some? {
        text := env.textAfter;
        to := to + {Editor};
      }
      if showList {
        to := to + {List};
      }
      reply := Continue(to);
    }

    method RefreshList(env: Env, vault: Store) returns (reply: Reply)
      modifies this
      ensures Outcome(reply, Snapshot(), vault.Snapshot()) == StepRefresh(old(Snapshot()), vault.Snapshot(), env)
    {
      var listed := ListFiles(vault, env.stamps, env.faults.readDirFails);
      if listed.None? {
        return Abort;
      }
      items := listed.value;
      reply := Continue({});
    }

    method SubmitName(env: Env, vault: Store) returns (reply: Reply)
      modifies this, vault
      ensures Outcome(reply, Snapshot(), vault.Snapshot()) == StepSubmit(old(Snapshot()), old(vault.Snapshot()), env)
    {
      var name := input;
      if name == "" {
        return Continue({});
      }
      var path := NotePath(name);
      var found := vault.Stat(path);
      if found {
        return Continue({});
      }
      var h := vault.Create(path, env.faults.createFails);
      if h.None? {
        return Abort;
      }
      current := h;
      reply := RefreshList(env, vault);
      if reply.Abort? {
        return;
      }
      input := "";
    }

    method OpenSelected(env: Env, vault: Store) returns (reply: Reply)
      modifies this
      ensures Outcome(reply, Snapshot(), vault.Snapshot()) == StepOpen(old(Snapshot()), vault.Snapshot(), env)
    {
      reply := Continue({});
      if env.selection.None? {
        return;
      }
      var path := env.selection.value;
      var content := vault.ReadFile(path, env.faults.readFails);
      if content.None? {
        return;
      }
      text := content.value;
      current := vault.OpenFile(path, env.faults.openFails);
      showList := false;
    }

    method SaveCurrent(env: Env, vault: Store) returns (reply: Reply)
      requires current.Some?
      modifies this, vault
      ensures Outcome(reply, Snapshot(), vault.Snapshot()) == StepSave(old(Snapshot()), old(vault.Snapshot()), env)
    {
      reply := Continue({});
      var h := current.value;
      var ok := vault.Truncate(h, env.faults.save.TruncateFails?);
      if !ok {
        return;
      }
      if env.faults.save.SeekFails? {
        return;
      }
      var failsAfter := if env.faults.save.WriteFails? then Some(env.faults.save.written) else None;
      ok := vault.WriteString(h, text, failsAfter);
      if !ok {
        return;
      }
      // A failing Close is only reported; the save still completes.
      current := None;
      text := "";
    }

    method DeleteSelected(env: Env, vault: Store) returns (reply: Reply)
      modifies this, vault
      ensures Outcome(reply, Snapshot(), vault.Snapshot()) == StepDelete(old(Snapshot()), old(vault.Snapshot()), env)
    {
      reply := Continue({});
      if env.selection.None? {
        return;
      }
      var ok := vault.Remove(env.selection.value, env.faults.removeFails);
      if !ok {
        return;
      }
      reply := RefreshList(env, vault);
    }

    method Cancel(env: Env, vault: Store) returns (reply: Reply)
      modifies this
      ensures Outcome(reply, Snapshot(), vault.Snapshot()) == StepCancel(old(Snapshot()), vault.Snapshot(), env)
    {
      reply := Continue({});
      if prompt {
        prompt := false;
        input := "";
        return;
      }
      if showList {
        if !env.filtering {
          reply := Forward(env);
          return;
        }
        showList := false;
        reply := RefreshList(env, vault);
        return;
      }
      if current.Some? {
        current := None;
        text := "";
      }
    }
  }
}
