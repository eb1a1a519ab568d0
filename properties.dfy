/**
 * What one Update call, or a short sequence of them, promises about the
 * model and the vault.
 */
module Properties {
  import opened Wrappers
  import opened FileNames
  import opened Vault
  import opened NoteList
  import opened App

  /** The vault is well formed and the open handle, if any, was issued before now. */
  ghost predicate Consistent(s: State, d: Disk) {
    WellFormed(d) && (s.current.Some? ==> s.current.value.ino < d.nextIno)
  }

  // ---------------------------------------------------------------- create

  /** Submitting an empty name, or one whose note already exists, only hides the prompt. */
  lemma SubmitRejected(s: State, d: Disk, name: string, env: Env)
    requires Classify(name) == Enter && s.prompt
    requires s.input == "" || NotePath(s.input) in d.files
    ensures Step(s, d, KeyMsg(name), env) == Outcome(Continue({}), s.(prompt := false), d)
  {
  }

  /** Submitting a new name creates exactly one empty file `<name>.md`, opens
      it, clears the prompt's value and refreshes the list; the editor keeps
      its value and a file open before is simply replaced. */
  lemma SubmitCreates(s: State, d: Disk, name: string, env: Env)
    requires Classify(name) == Enter && s.prompt
    requires s.input != "" && NotePath(s.input) !in d.files
    requires !env.faults.createFails && !env.faults.readDirFails
    ensures var o := Step(s, d, KeyMsg(name), env);
            var p := NotePath(s.input);
            o.reply == Continue({}) &&
            o.d == Disk(d.files[p := File(d.nextIno, "")], d.nextIno + 1) &&
            o.d.files.Keys == d.files.Keys + {p} &&
            (forall q :: q in d.files ==> o.d.files[q] == d.files[q]) &&
            o.s == s.(prompt := false, input := "", current := Some(Handle(p, d.nextIno)),
                      items := Listing(o.d, env.stamps)) &&
            Live(o.d, o.s.current.value) &&
            (p in env.stamps <==> p in Titles(o.s.items))
  {
    var o := Step(s, d, KeyMsg(name), env);
    var p := NotePath(s.input);
    ListedTitleIsFile(o.d, env.stamps, p);
  }

  /** A failing os.Create aborts the program and leaves the vault as it was. */
  lemma SubmitCreateFails(s: State, d: Disk, name: string, env: Env)
    requires Classify(name) == Enter && s.prompt
    requires s.input != "" && NotePath(s.input) !in d.files && env.faults.createFails
    ensures Step(s, d, KeyMsg(name), env).reply == Abort
    ensures Step(s, d, KeyMsg(name), env).d == d
  {
  }

  // ---------------------------------------------------------------- save

  /** A completed save replaces the whole content of the open file with the
      editor's value, changes no other entry, and closes the file. */
  lemma SaveReplaces(s: State, d: Disk, name: string, env: Env)
    requires Classify(name) == SaveFile && s.current.Some?
    requires env.faults.save == NoSaveFault || env.faults.save.CloseFails?
    ensures var o := Step(s, d, KeyMsg(name), env);
            var h := s.current.value;
            o.reply == Continue({}) &&
            o.s == s.(current := None, text := "") &&
            o.d.files.Keys == d.files.Keys && o.d.nextIno == d.nextIno &&
            (forall q :: q in d.files && q != h.path ==> o.d.files[q] == d.files[q]) &&
            (Live(d, h) ==> o.d.files[h.path] == File(h.ino, s.text)) &&
            (!Live(d, h) ==> o.d == d)
  {
  }

  /** A save that fails leaves the file open and the editor as it was. A
      failed truncate writes nothing; a failure after it may leave the file
      holding only part of the text (a prefix of it). */
  lemma SaveFailsKeepsOpen(s: State, d: Disk, name: string, env: Env)
    requires Classify(name) == SaveFile && s.current.Some?
    requires env.faults.save.TruncateFails? || env.faults.save.SeekFails? || env.faults.save.WriteFails?
    ensures var o := Step(s, d, KeyMsg(name), env);
            var h := s.current.value;
            o.reply == Continue({}) && o.s == s &&
            o.d.files.Keys == d.files.Keys && o.d.nextIno == d.nextIno &&
            (forall q :: q in d.files && q != h.path ==> o.d.files[q] == d.files[q]) &&
            (Live(d, h) ==> o.d.files[h.path].File? && o.d.files[h.path].ino == h.ino) &&
            (Live(d, h) && !env.faults.save.TruncateFails? ==> o.d.files[h.path].content <= s.text) &&
            (!Live(d, h) ==> o.d == d) &&
            (env.faults.save.TruncateFails? ==> o.d == d)
  {
    var h := s.current.value;
    match env.faults.save
    case SeekFails =>
      assert "" <= s.text;
    case WriteFails(n) =>
      assert Written(s.text, Some(n)) <= s.text;
    case _ =>
  }

  /** ctrl+s with no file open is passed on to the widgets in use and touches no file. */
  lemma SaveWithoutFileForwards(s: State, d: Disk, name: string, env: Env)
    requires Classify(name) == SaveFile && s.current.None?
    ensures Step(s, d, KeyMsg(name), env) == Outcome(Continue(Receivers(s)), Forwarded(s, env), d)
    ensures Editor !in Receivers(s)
  {
  }

  /** enter with neither the prompt nor the list shown is passed on to the
      widgets in use (the editor, when a file is open) and touches no file. */
  lemma EnterForwards(s: State, d: Disk, name: string, env: Env)
    requires Classify(name) == Enter && !s.prompt && !s.showList
    ensures Step(s, d, KeyMsg(name), env) == Outcome(Continue(Receivers(s)), Forwarded(s, env), d)
    ensures Input !in Receivers(s) && List !in Receivers(s)
  {
  }

  // ---------------------------------------------------------------- open

  /** enter on a listed note loads its content into the editor, opens it and
      hides the list; the vault is not changed. */
  lemma OpenLoads(s: State, d: Disk, name: string, env: Env, t: string)
    requires Classify(name) == Enter && !s.prompt && s.showList
    requires env.selection == Some(t) && t in d.files && d.files[t].File? && !env.faults.readFails
    ensures var o := Step(s, d, KeyMsg(name), env);
            o == Done(s.(text := d.files[t].content, showList := false,
                         current := if env.faults.openFails then None else Some(Handle(t, d.files[t].ino))), d) &&
            (!env.faults.openFails ==> Live(o.d, o.s.current.value) && View(o.s) == EditorScreen)
  {
  }

  /** With nothing selected, or when reading fails, enter in the list changes nothing. */
  lemma OpenRefused(s: State, d: Disk, name: string, env: Env)
    requires Classify(name) == Enter && !s.prompt && s.showList
    requires env.selection.None? || env.faults.readFails ||
             env.selection.value !in d.files || d.files[env.selection.value].Dir?
    ensures Step(s, d, KeyMsg(name), env) == Done(s, d)
  {
  }

  /** Round trip: what ctrl+s writes for a note is exactly what enter on that
      note loads back, after ctrl+l brings up the list; reopening binds the
      same file. */
  lemma SaveThenReopen(s: State, d: Disk, env1: Env, env2: Env, env3: Env)
    requires s.current.Some? && Live(d, s.current.value) && !s.prompt
    requires env1.faults.save == NoSaveFault || env1.faults.save.CloseFails?
    requires env3.selection == Some(s.current.value.path)
    requires !env3.faults.readFails && !env3.faults.openFails
    ensures var o1 := Step(s, d, KeyMsg("ctrl+s"), env1);
            var o2 := Step(o1.s, o1.d, KeyMsg("ctrl+l"), env2);
            var o3 := Step(o2.s, o2.d, KeyMsg("enter"), env3);
            o3.s.text == s.text && o3.s.current == s.current && o3.d == o1.d && !o3.s.showList
  {
    var h := s.current.value;
    var o1 := Step(s, d, KeyMsg("ctrl+s"), env1);
    assert Classify("ctrl+s") == SaveFile;
    assert o1.d.files[h.path] == File(h.ino, s.text);
    var o2 := Step(o1.s, o1.d, KeyMsg("ctrl+l"), env2);
    assert Classify("ctrl+l") == ShowList;
    assert o2.s.showList && !o2.s.prompt && o2.d == o1.d;
    assert Classify("enter") == Enter;
    OpenLoads(o2.s, o2.d, "enter", env3, h.path);
  }

  // ---------------------------------------------------------------- delete

  /** ctrl+d on a listed note removes exactly that entry and refreshes the
      list, which no longer shows it. */
  lemma DeleteRemoves(s: State, d: Disk, name: string, env: Env, t: string)
    requires Classify(name) == DeleteFile && s.showList
    requires env.selection == Some(t) && t in d.files && d.files[t] != Dir(false)
    requires !env.faults.removeFails && !env.faults.readDirFails
    ensures var o := Step(s, d, KeyMsg(name), env);
            o.reply == Continue({}) &&
            o.d == d.(files := d.files - {t}) &&
            o.s == s.(items := Listing(o.d, env.stamps)) &&
            t !in Titles(o.s.items)
  {
    var o := Step(s, d, KeyMsg(name), env);
    ListedTitleIsFile(o.d, env.stamps, t);
  }

  /** ctrl+d outside the list, with nothing selected, or when the removal fails changes nothing. */
  lemma DeleteRefused(s: State, d: Disk, name: string, env: Env)
    requires Classify(name) == DeleteFile
    requires !s.showList || env.selection.None? || env.faults.removeFails ||
             RemoveEntry(d, env.selection.value).None?
    ensures Step(s, d, KeyMsg(name), env) == Done(s, d)
  {
  }

  // ---------------------------------------------------------------- esc

  /** esc hides the prompt and clears its value, whatever else is shown. */
  lemma EscClosesPrompt(s: State, d: Disk, name: string, env: Env)
    requires Classify(name) == Escape && s.prompt
    ensures Step(s, d, KeyMsg(name), env) == Done(s.(prompt := false, input := ""), d)
  {
  }

  /** In the list, esc closes it (and refreshes it) only while the list is
      filtering; otherwise it is passed on to the widgets in use. */
  lemma EscInList(s: State, d: Disk, name: string, env: Env)
    requires Classify(name) == Escape && !s.prompt && s.showList
    ensures var o := Step(s, d, KeyMsg(name), env);
            o.d == d &&
            (env.filtering && !env.faults.readDirFails ==>
               o == Done(s.(showList := false, items := Listing(d, env.stamps)), d)) &&
            (!env.filtering ==> o == Outcome(Continue(Receivers(s)), Forwarded(s, env), d) && List in o.reply.forwarded)
  {
  }

  /** esc on an open file closes it without writing: the vault is unchanged. */
  lemma EscClosesFile(s: State, d: Disk, name: string, env: Env)
    requires Classify(name) == Escape && !s.prompt && !s.showList && s.current.Some?
    ensures Step(s, d, KeyMsg(name), env) == Done(s.(current := None, text := ""), d)
    ensures View(Step(s, d, KeyMsg(name), env).s) == Placeholder
  {
  }

  /** esc with nothing open changes nothing. */
  lemma EscIdle(s: State, d: Disk, name: string, env: Env)
    requires Classify(name) == Escape && !s.prompt && !s.showList && s.current.None?
    ensures Step(s, d, KeyMsg(name), env) == Done(s, d)
  {
  }

  // ---------------------------------------------------------------- modes

  /** ctrl+n only shows the prompt: its earlier value stays, nothing else
      changes and no widget receives the key. */
  lemma NewFileShowsPrompt(s: State, d: Disk, name: string, env: Env)
    requires Classify(name) == NewFile
    ensures Step(s, d, KeyMsg(name), env) == Done(s.(prompt := true), d)
    ensures Step(s, d, KeyMsg(name), env).s.input == s.input
  {
  }

  /** ctrl+l shows the list without refreshing it, in every state: the items
      stay as they were, an open file stays open, and the list takes over the
      screen. */
  lemma ShowListNoRefresh(s: State, d: Disk, name: string, env: Env)
    requires Classify(name) == ShowList
    ensures var o := Step(s, d, KeyMsg(name), env);
            o == Done(s.(showList := true), d) && o.s.current == s.current &&
            o.s.items == s.items && View(o.s) == ListScreen
  {
  }

  /** Keys Update does not handle itself (and non-key messages) only reach the
      widgets in use: no file is touched and no mode changes. */
  lemma PassThroughTouchesNoFile(s: State, d: Disk, msg: Msg, env: Env)
    requires msg.OtherMsg? || Classify(msg.name) == Unbound
    ensures var o := Step(s, d, msg, env);
            o.d == d && o.reply == Continue(Receivers(s)) &&
            o.s.prompt == s.prompt && o.s.current == s.current && o.s.showList == s.showList &&
            o.s.items == s.items &&
            (s.prompt ==> o.s.input == env.inputAfter) && (!s.prompt ==> o.s.input == s.input) &&
            (s.current.Some? ==> o.s.text == env.textAfter) && (s.current.None? ==> o.s.text == s.text)
  {
  }

  /** quit ends the program with nothing changed. */
  lemma QuitChangesNothing(s: State, d: Disk, name: string, env: Env)
    requires name == "ctrl+c" || name == "q"
    ensures Step(s, d, KeyMsg(name), env) == Outcome(Quit, s, d)
  {
  }

  // ---------------------------------------------------------------- the vault

  /** No step alters an existing entry except ctrl+s, and then only the file
      behind the open handle, which receives (part of) the editor's value. */
  lemma NoClobber(s: State, d: Disk, msg: Msg, env: Env, p: string)
    requires p in d.files && p in Step(s, d, msg, env).d.files
    requires Step(s, d, msg, env).d.files[p] != d.files[p]
    ensures msg.KeyMsg? && Classify(msg.name) == SaveFile
    ensures s.current.Some? && s.current.value.path == p && Live(d, s.current.value)
    ensures Step(s, d, msg, env).d.files[p].File? && Step(s, d, msg, env).d.files[p].ino == s.current.value.ino
    ensures Step(s, d, msg, env).d.files[p].content <= s.text
  {
  }

  /** Only a successful create adds an entry, and it is the empty note named
      after the prompt's value; only ctrl+d in the list removes one, and it is
      the selected one. */
  lemma EntriesComeAndGo(s: State, d: Disk, msg: Msg, env: Env, p: string)
    ensures var o := Step(s, d, msg, env);
            p !in d.files && p in o.d.files ==>
              msg.KeyMsg? && Classify(msg.name) == Enter && s.prompt && p == NotePath(s.input) &&
              o.d.files[p] == File(d.nextIno, "")
    ensures var o := Step(s, d, msg, env);
            p in d.files && p !in o.d.files ==>
              msg.KeyMsg? && Classify(msg.name) == DeleteFile && s.showList && env.selection == Some(p)
  {
    var o := Step(s, d, msg, env);
    if msg.KeyMsg? {
      match Classify(msg.name)
      case Enter =>
        if s.prompt {
          var s1 := s.(prompt := false);
          assert o == StepSubmit(s1, d, env);
          if s.input != "" && NotePath(s.input) !in d.files && !env.faults.createFails {
            assert o.d.files == d.files[NotePath(s.input) := File(d.nextIno, "")];
          } else {
            assert o.d == d;
          }
        } else if s.showList {
          assert o.d == d;
        }
      case SaveFile =>
        if s.current.Some? {
          assert o.d.files.Keys == d.files.Keys;
        }
      case DeleteFile =>
      case Escape =>
        assert o.d == d;
      case _ =>
    }
  }

  lemma CreateKeepsWellFormed(d: Disk, path: string)
    requires WellFormed(d) && path !in d.files
    ensures WellFormed(CreateFile(d, path).0)
  {
    var d1 := CreateFile(d, path).0;
    forall p, q | p in d1.files && q in d1.files && p != q && d1.files[p].File? && d1.files[q].File?
      ensures d1.files[p].ino != d1.files[q].ino
    {
      if p == path {
        assert d1.files[q] == d.files[q];
      } else if q == path {
        assert d1.files[p] == d.files[p];
      }
    }
  }

  lemma WriteKeepsWellFormed(d: Disk, h: Handle, content: string)
    requires WellFormed(d)
    ensures WellFormed(WriteThrough(d, h, content))
  {
    var d1 := WriteThrough(d, h, content);
    assert forall p :: p in d1.files ==> d1.files[p].File? == d.files[p].File? &&
                                         (d1.files[p].File? ==> d1.files[p].ino == d.files[p].ino);
  }

  lemma SubmitKeepsConsistent(s: State, d: Disk, env: Env)
    requires Consistent(s, d)
    ensures Consistent(StepSubmit(s, d, env).s, StepSubmit(s, d, env).d)
  {
    if s.input != "" && NotePath(s.input) !in d.files && !env.faults.createFails {
      CreateKeepsWellFormed(d, NotePath(s.input));
    }
  }

  lemma SaveKeepsConsistent(s: State, d: Disk, env: Env)
    requires Consistent(s, d) && s.current.Some?
    ensures Consistent(StepSave(s, d, env).s, StepSave(s, d, env).d)
  {
    var h := s.current.value;
    match env.faults.save
    case TruncateFails =>
    case SeekFails => WriteKeepsWellFormed(d, h, "");
    case WriteFails(n) => WriteKeepsWellFormed(d, h, Written(s.text, Some(n)));
    case _ => WriteKeepsWellFormed(d, h, s.text);
  }

  lemma DeleteKeepsConsistent(s: State, d: Disk, env: Env)
    requires Consistent(s, d)
    ensures Consistent(StepDelete(s, d, env).s, StepDelete(s, d, env).d)
  {
  }

  /** Every step keeps the vault well formed and the open handle older than
      any file created later. */
  lemma StepKeepsConsistent(s: State, d: Disk, msg: Msg, env: Env)
    requires Consistent(s, d)
    ensures Consistent(Step(s, d, msg, env).s, Step(s, d, msg, env).d)
  {
    if msg.KeyMsg? {
      match Classify(msg.name)
      case Enter =>
        if s.prompt {
          SubmitKeepsConsistent(s.(prompt := false), d, env);
        }
      case SaveFile =>
        if s.current.Some? {
          SaveKeepsConsistent(s, d, env);
        }
      case DeleteFile =>
        DeleteKeepsConsistent(s, d, env);
      case _ =>
    }
  }

  /** A handle whose file was removed stays detached: no later step makes a
      vault entry (not even a new note of the same name) reachable through it,
      so saving through it never alters the vault. */
  lemma StaleHandleStaysStale(s: State, d: Disk, msg: Msg, env: Env, h: Handle)
    requires Consistent(s, d) && h.ino < d.nextIno && !Live(d, h)
    ensures !Live(Step(s, d, msg, env).d, h)
    ensures s.current == Some(h) && msg.KeyMsg? && Classify(msg.name) == SaveFile ==>
              Step(s, d, msg, env).d == d
  {
  }
}
