/** Concrete runs of Update, each key press given with what the widgets
    make of it. */
module Scenarios {
  import Properties
  import opened Wrappers
  import opened Vault
  import opened NoteList
  import opened App

  function Fresh(): State {
    State(false, "", None, "", false, [])
  }

  function Quiet(inputAfter: string, textAfter: string): Env {
    Env(None, false, map[], Faults(false, false, false, false, NoSaveFault, false), inputAfter, textAfter)
  }

  /** Empty vault: ctrl+n, type "todo", enter. todo.md now exists, empty,
      and is open in the editor. */
  lemma CreateTodo(o1: Outcome, o2: Outcome, o3: Outcome)
    requires o1 == Step(Fresh(), Disk(map[], 0), KeyMsg("ctrl+n"), Quiet("", ""))
    requires o2 == Step(o1.s, o1.d, KeyMsg("o"), Quiet("todo", ""))
    requires o3 == Step(o2.s, o2.d, KeyMsg("enter"), Quiet("", ""))
    ensures o3.d == Disk(map["todo.md" := File(0, "")], 1)
    ensures o3.s.current == Some(Handle("todo.md", 0)) && View(o3.s) == EditorScreen
    ensures !o3.s.prompt && o3.s.input == "" && o3.s.text == ""
  {
    var d0 := Disk(map[], 0);
    assert Classify("ctrl+n") == NewFile;
    assert o1 == Done(Fresh().(prompt := true), d0);
    assert Classify("o") == Unbound;
    assert o2 == Outcome(Continue({Input}), Fresh().(prompt := true, input := "todo"), d0);
    assert Classify("enter") == Enter;
    assert NotePath("todo") == "todo.md";
    Properties.SubmitCreates(o2.s, o2.d, "enter", Quiet("", ""));
  }

  /** Continuing from there: type "buy milk", ctrl+s. todo.md holds "buy milk"
      and no file is open. */
  lemma TypeAndSave(s: State, o4: Outcome, o5: Outcome)
    requires s.current == Some(Handle("todo.md", 0)) && !s.prompt && !s.showList
    requires o4 == Step(s, Disk(map["todo.md" := File(0, "")], 1), KeyMsg("k"), Quiet("", "buy milk"))
    requires o5 == Step(o4.s, o4.d, KeyMsg("ctrl+s"), Quiet("", ""))
    ensures o5.d == Disk(map["todo.md" := File(0, "buy milk")], 1)
    ensures o5.s.current.None? && o5.s.text == "" && View(o5.s) == Placeholder
  {
    assert Classify("k") == Unbound;
    assert o4.s == s.(text := "buy milk");
    assert Classify("ctrl+s") == SaveFile;
    Properties.SaveReplaces(o4.s, o4.d, "ctrl+s", Quiet("", ""));
  }

  /** A note todo.md exists: ctrl+n, type "todo", enter. Nothing is created
      or changed and the prompt is hidden, keeping the typed name. */
  lemma CreateExisting(d: Disk, o1: Outcome, o2: Outcome, o3: Outcome)
    requires "todo.md" in d.files
    requires o1 == Step(Fresh(), d, KeyMsg("ctrl+n"), Quiet("", ""))
    requires o2 == Step(o1.s, o1.d, KeyMsg("o"), Quiet("todo", ""))
    requires o3 == Step(o2.s, o2.d, KeyMsg("enter"), Quiet("", ""))
    ensures o3.d == d && o3.s == Fresh().(input := "todo") && View(o3.s) == Placeholder
  {
    assert Classify("ctrl+n") == NewFile;
    assert Classify("o") == Unbound;
    assert Classify("enter") == Enter;
    assert NotePath("todo") == "todo.md";
  }

  /** Typing "q" quits, even into the editor or the prompt. */
  lemma TypingQQuits(s: State, d: Disk, env: Env)
    ensures Step(s, d, KeyMsg("q"), env).reply == Quit
  {
  }

  /** ctrl+q, which the help line offers for quitting, is not a case of
      Update's switch: it only reaches the widgets in use. */
  lemma CtrlQDoesNotQuit(s: State, d: Disk, env: Env)
    ensures Classify("ctrl+q") == Unbound
    ensures Step(s, d, KeyMsg("ctrl+q"), env) == Outcome(Continue(Receivers(s)), Forwarded(s, env), d)
  {
  }
}
