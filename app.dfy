/*
 * The command-queue state of a small two-panel editor: two editable command
 * templates, a queue of commands built from them, and the results of running
 * the queue. The widgets that draw the state and report clicks are reduced to
 * plain parameters and return values.
 */
module App {

  datatype Option<T> = None | Some(value: T)

  /** A command: its variant decides what running it yields; its text is edited by the user. */
  datatype UserFunctions = Print(text: string) | Test(text: string)

  /** The fixed result of running any Test command. */
  const TestOutput: string := "This is just a text function! :>"

  // ---------------------------------------------------------------------------
  // Commands
  // ---------------------------------------------------------------------------

  /** The variant's name: the label of its template slot and the head of its rendering. */
  function VariantName(f: UserFunctions): string
  {
    match f
    case Print(_) => "Print"
    case Test(_) => "Test"
  }

  /** How a queued command is rendered in the queue panel. */
  function Display(f: UserFunctions): (r: string)
    ensures r == VariantName(f) + ": " + f.text
  {
    match f
    case Print(value) => "Print: " + value
    case Test(value) => "Test: " + value
  }

  /** Reads a rendering back; the inverse of Display (the program itself never parses). */
  function ParseDisplay(s: string): Option<UserFunctions>
  {
    if |s| >= 7 && s[..7] == "Print: " then Some(Print(s[7..]))
    else if |s| >= 6 && s[..6] == "Test: " then Some(Test(s[6..]))
    else None
  }

  lemma DisplayRoundTrip(f: UserFunctions)
    ensures ParseDisplay(Display(f)) == Some(f)
  {
    var s := Display(f);
    match f
    case Print(value) =>
      assert s[..7] == "Print: " && s[7..] == value;
    case Test(value) =>
      assert s[0] == 'T';
      assert s[..6] == "Test: " && s[6..] == value;
  }

  lemma ParseDisplaySound(s: string, f: UserFunctions)
    requires ParseDisplay(s) == Some(f)
    ensures Display(f) == s
  {
  }

  /** Two different commands never render alike, so the queue panel shows every entry faithfully. */
  lemma DisplayInjective(f: UserFunctions, g: UserFunctions)
    requires Display(f) == Display(g)
    ensures f == g
  {
    DisplayRoundTrip(f);
    DisplayRoundTrip(g);
  }

  /** The default command: an empty Print. */
  function DefaultCommand(): (r: UserFunctions)
    ensures r.Print? && r.text == ""
  {
    Print("")
  }

  /** The command with the variant of f and the text value: what editing a slot's text makes of it. */
  function WithText(f: UserFunctions, value: string): (g: UserFunctions)
    ensures g.text == value
    ensures g.Print? <==> f.Print?
  {
    match f
    case Print(_) => Print(value)
    case Test(_) => Test(value)
  }

  /** What running one queued command pushes onto the results. */
  function Output(f: UserFunctions): string
  {
    match f
    case Print(value) => value
    case Test(_) => TestOutput
  }

  /** The results of running a whole queue: one entry per command, in queue order. */
  function ExecSpec(queue: seq<UserFunctions>): (results: seq<string>)
    ensures |results| == |queue|
    ensures forall i :: 0 <= i < |queue| && queue[i].Print? ==> results[i] == queue[i].text
    ensures forall i :: 0 <= i < |queue| && queue[i].Test? ==> results[i] == TestOutput
  {
    if queue == [] then []
    else ExecSpec(queue[..|queue| - 1]) + [Output(queue[|queue| - 1])]
  }

  /** Running a longer queue leaves the results of its first part as they were. */
  lemma ExecSpecAppend(a: seq<UserFunctions>, b: seq<UserFunctions>)
    ensures ExecSpec(a + b) == ExecSpec(a) + ExecSpec(b)
  {
  }

  /** The text of a Test command never reaches the results. */
  lemma ExecSpecIgnoresTestText(p: seq<UserFunctions>, q: seq<UserFunctions>)
    requires |p| == |q|
    requires forall i :: 0 <= i < |p| ==> p[i] == q[i] || (p[i].Test? && q[i].Test?)
    ensures ExecSpec(p) == ExecSpec(q)
  {
  }

  // ---------------------------------------------------------------------------
  // The state as a value, and what each action makes of it
  // ---------------------------------------------------------------------------

  /** The whole command-queue state: template slots, queue, results. */
  datatype State = State(edit: seq<UserFunctions>, queue: seq<UserFunctions>, results: seq<string>)

  /** The state at start-up: an empty Print and an empty Test template, nothing queued, no results. */
  function DefaultState(): State
  {
    State([Print(""), Test("")], [], [])
  }

  /** Running the queue: the earlier results are replaced; slots and queue stay. */
  function ExecuteStep(s: State): State
  {
    State(s.edit, s.queue, ExecSpec(s.queue))
  }

  /** The Clear button: the queue is emptied; slots and results stay. */
  function ClearStep(s: State): State
  {
    State(s.edit, [], s.results)
  }

  /** Number of slots among the first n whose "+" button was clicked. */
  function ClickCount(clicked: seq<bool>, n: nat): nat
    requires n <= |clicked|
  {
    if n == 0 then 0 else ClickCount(clicked, n - 1) + (if clicked[n - 1] then 1 else 0)
  }

  lemma {:induction false} ClickCountMonotone(clicked: seq<bool>, a: nat, b: nat)
    requires a <= b <= |clicked|
    ensures ClickCount(clicked, a) <= ClickCount(clicked, b)
    decreases b
  {
    if a < b {
      ClickCountMonotone(clicked, a, b - 1);
    }
  }

  /**
   * The edited copies of the clicked slots among the first n, in slot order: one entry
   * per click, and a clicked slot k's copy (its variant, its new text) comes after the
   * copies of the clicked slots before it.
   */
  function ClickedCopies(edit: seq<UserFunctions>, texts: seq<string>, clicked: seq<bool>, n: nat)
    : (copies: seq<UserFunctions>)
    requires |texts| == |clicked| == |edit| && n <= |edit|
    ensures |copies| == ClickCount(clicked, n)
    ensures forall k :: 0 <= k < n && clicked[k] ==>
      ClickCount(clicked, k) < |copies| && copies[ClickCount(clicked, k)] == WithText(edit[k], texts[k])
    decreases n
  {
    if n == 0 then []
    else
      var earlier := ClickedCopies(edit, texts, clicked, n - 1);
      var more := if clicked[n - 1] then [WithText(edit[n - 1], texts[n - 1])] else [];
      assert forall k :: 0 <= k < n - 1 && clicked[k] ==> ClickCount(clicked, k) < |earlier| by {
        forall k | 0 <= k < n - 1 && clicked[k]
          ensures ClickCount(clicked, k) < |earlier|
        {
          ClickCountMonotone(clicked, k + 1, n - 1);
        }
      }
      earlier + more
  }

  /**
   * The template panel after its first n slots were drawn: each of them took its new
   * text, and each clicked one appended a copy of itself to the queue.
   */
  function EditPrefix(s: State, texts: seq<string>, clicked: seq<bool>, n: nat): (t: State)
    requires |texts| == |clicked| == |s.edit| && n <= |s.edit|
    ensures |t.edit| == |s.edit| && t.results == s.results
    ensures forall k :: 0 <= k < n ==> t.edit[k] == WithText(s.edit[k], texts[k])
    ensures forall k :: n <= k < |s.edit| ==> t.edit[k] == s.edit[k]
    ensures t.queue == s.queue + ClickedCopies(s.edit, texts, clicked, n)
    decreases n
  {
    if n == 0 then s
    else
      var t := EditPrefix(s, texts, clicked, n - 1);
      var slot := WithText(t.edit[n - 1], texts[n - 1]);
      State(t.edit[n - 1 := slot], t.queue + (if clicked[n - 1] then [slot] else []), t.results)
  }

  /** The template panel after all its slots were drawn, in index order. */
  function EditStep(s: State, texts: seq<string>, clicked: seq<bool>): State
    requires |texts| == |clicked| == |s.edit|
  {
    EditPrefix(s, texts, clicked, |s.edit|)
  }

  /**
   * With the program's two slots: each takes its new text; a clicked slot appends a copy
   * of itself (same variant, new text) and an unclicked one nothing; slot 0 goes first.
   */
  lemma EditStepTwoSlots(s: State, texts: seq<string>, clicked: seq<bool>)
    requires |s.edit| == |texts| == |clicked| == 2
    ensures EditStep(s, texts, clicked).edit
         == [WithText(s.edit[0], texts[0]), WithText(s.edit[1], texts[1])]
    ensures EditStep(s, texts, clicked).queue
         == s.queue
          + (if clicked[0] then [WithText(s.edit[0], texts[0])] else [])
          + (if clicked[1] then [WithText(s.edit[1], texts[1])] else [])
    ensures EditStep(s, texts, clicked).results == s.results
  {
  }

  /** Running the queue twice in a row yields the same state as running it once. */
  lemma ExecuteIdempotent(s: State)
    ensures ExecuteStep(ExecuteStep(s)) == ExecuteStep(s)
  {
  }

  /** Clearing keeps the shown results, and a run after clearing yields no results. */
  lemma ClearThenExecute(s: State)
    ensures ClearStep(s).results == s.results
    ensures ExecuteStep(ClearStep(s)).results == []
  {
  }

  /** Adding commands and then running the queue extends the results the old queue gives. */
  lemma EditThenExecute(s: State, texts: seq<string>, clicked: seq<bool>)
    requires |texts| == |clicked| == |s.edit|
    ensures var t := EditStep(s, texts, clicked);
      ExecuteStep(t).results == ExecSpec(s.queue) + ExecSpec(t.queue[|s.queue|..])
  {
    var added := ClickedCopies(s.edit, texts, clicked, |s.edit|);
    var t := EditStep(s, texts, clicked);
    assert t.queue[|s.queue|..] == added;
    ExecSpecAppend(s.queue, added);
  }

  /**
   * One redraw of the central panel: the template panel is drawn (and may append), then
   * the Execute button is handled, then the Clear button.
   */
  function FrameStep(s: State, texts: seq<string>, clicked: seq<bool>,
                     executeClicked: bool, clearClicked: bool): State
    requires |texts| == |clicked| == |s.edit|
  {
    var edited := EditStep(s, texts, clicked);
    var executed := if executeClicked then ExecuteStep(edited) else edited;
    if clearClicked then ClearStep(executed) else executed
  }

  /** Clicking both buttons in one frame shows the results of the queue it then empties. */
  lemma FrameExecuteAndClear(s: State, texts: seq<string>, clicked: seq<bool>)
    requires |texts| == |clicked| == |s.edit|
    ensures var t := FrameStep(s, texts, clicked, true, true);
      t.queue == [] && t.results == ExecSpec(EditStep(s, texts, clicked).queue)
  {
  }

  /** What a saved snapshot holds: the queue and the results (the templates are never saved). */
  datatype Snapshot = Snapshot(commandsExecute: seq<UserFunctions>, commandResults: seq<string>)

  /**
   * The state read back from storage: nothing usable gives the default state; a snapshot
   * gives its queue and results, with both unsaved slots filled by the default command.
   */
  function Restored(stored: Option<Snapshot>): State
  {
    match stored
    case None => DefaultState()
    case Some(snap) => State([DefaultCommand(), DefaultCommand()], snap.commandsExecute, snap.commandResults)
  }

  /** A restored snapshot would lose the Test template; start-up discards it anyway. */
  lemma RestoredTemplatesDiffer(snap: Snapshot)
    ensures Restored(Some(snap)).edit != DefaultState().edit
  {
  }

  // ---------------------------------------------------------------------------
  // The state object, updated in place
  // ---------------------------------------------------------------------------

  class FunctionsState {
    /** The fixed pair of editable template slots. */
    const commandsEdit: array<UserFunctions>
    /** The commands queued for execution. */
    var commandsExecute: seq<UserFunctions>
    /** The results of the last run. */
    var commandResults: seq<string>

    ghost predicate Valid()
      reads this
    {
      commandsEdit.Length == 2
    }

    ghost function Abstract(): State
      reads this, commandsEdit
    {
      State(commandsEdit[..], commandsExecute, commandResults)
    }

    /** The default state. */
    constructor ()
      ensures Valid() && fresh(commandsEdit)
      ensures Abstract() == DefaultState()
    {
      commandsEdit := new UserFunctions[] [Print(""), Test("")];
      commandsExecute := [];
      commandResults := [];
    }

    /** The state as read back from storage, before start-up replaces it. */
    constructor FromSnapshot(stored: Option<Snapshot>)
      ensures Valid() && fresh(commandsEdit)
      ensures Abstract() == Restored(stored)
    {
      match stored {
        case None =>
          commandsEdit := new UserFunctions[] [Print(""), Test("")];
          commandsExecute := [];
          commandResults := [];
        case Some(snap) =>
          commandsEdit := new UserFunctions[] [DefaultCommand(), DefaultCommand()];
          commandsExecute := snap.commandsExecute;
          commandResults := snap.commandResults;
      }
    }

    /** The labels the queue panel shows: one rendering per queued command, in order. */
    method DrawAllExecute() returns (labels: seq<string>)
      ensures |labels| == |commandsExecute|
      ensures forall i :: 0 <= i < |labels| ==> labels[i] == Display(commandsExecute[i])
    {
      labels := [];
      for i := 0 to |commandsExecute|
        invariant |labels| == i
        invariant forall k :: 0 <= k < i ==> labels[k] == Display(commandsExecute[k])
      {
        labels := labels + [Display(commandsExecute[i])];
      }
    }

    /**
     * Draws slot i: its text becomes value (the text field's edit), and when its "+"
     * button was clicked a copy of the edited slot is returned for queueing.
     */
    method DrawBlock(i: nat, value: string, clicked: bool) returns (added: Option<UserFunctions>)
      requires Valid() && i < commandsEdit.Length
      modifies commandsEdit
      ensures commandsEdit[i] == WithText(old(commandsEdit[i]), value)
      ensures forall k :: 0 <= k < commandsEdit.Length && k != i ==> commandsEdit[k] == old(commandsEdit[k])
      ensures added == if clicked then Some(commandsEdit[i]) else None
    {
      match commandsEdit[i] {
        case Print(_) =>
          commandsEdit[i] := Print(value);
          added := if clicked then Some(Print(value)) else None;
        case Test(_) =>
          commandsEdit[i] := Test(value);
          added := if clicked then Some(Test(value)) else None;
      }
    }

    /** Draws every template slot in index order, queueing the copies of the clicked ones. */
    method DrawAllEdit(texts: seq<string>, clicked: seq<bool>)
      requires Valid() && |texts| == |clicked| == commandsEdit.Length
      modifies this`commandsExecute, commandsEdit
      ensures Valid()
      ensures Abstract() == EditStep(old(Abstract()), texts, clicked)
    {
      for i := 0 to commandsEdit.Length
        invariant Abstract() == EditPrefix(old(Abstract()), texts, clicked, i)
      {
        var added := DrawBlock(i, texts[i], clicked[i]);
        if added.Some? {
          commandsExecute := commandsExecute + [added.value];
        }
      }
    }

    /** Replaces the results by those of running every queued command, in order. */
    method Execute()
      requires Valid()
      modifies this`commandResults
      ensures Valid()
      ensures Abstract() == ExecuteStep(old(Abstract()))
    {
      commandResults := [];
      for i := 0 to |commandsExecute|
        invariant commandResults == ExecSpec(commandsExecute[..i])
      {
        match commandsExecute[i] {
          case Print(value) =>
            commandResults := commandResults + [value];
          case Test(_) =>
            commandResults := commandResults + [TestOutput];
        }
        assert commandsExecute[..i + 1][..i] == commandsExecute[..i];
      }
      assert commandsExecute[..|commandsExecute|] == commandsExecute;
    }

    /** Empties the queue; the results stay on screen. */
    method ClearQueue()
      requires Valid()
      modifies this`commandsExecute
      ensures Valid()
      ensures Abstract() == ClearStep(old(Abstract()))
    {
      commandsExecute := [];
    }
  }

  class TemplateApp {
    var functionsState: FunctionsState

    ghost predicate Valid()
      reads this, functionsState
    {
      functionsState.Valid()
    }

    constructor Default()
      ensures Valid() && fresh(functionsState) && fresh(functionsState.commandsEdit)
      ensures functionsState.Abstract() == DefaultState()
    {
      functionsState := new FunctionsState();
    }

    /**
     * Start-up. hasStorage says whether the host offers storage and stored is what could
     * be read from it; whatever was restored, the command state starts at the default.
     */
    constructor New(hasStorage: bool, stored: Option<Snapshot>)
      ensures Valid() && fresh(functionsState) && fresh(functionsState.commandsEdit)
      ensures functionsState.Abstract() == DefaultState()
    {
      if hasStorage {
        functionsState := new FunctionsState.FromSnapshot(stored);
        functionsState := new FunctionsState();
      } else {
        functionsState := new FunctionsState();
      }
    }

    /**
     * One redraw: returns the queue labels (drawn before the templates) and the result
     * labels (drawn after the buttons), and applies the edits and clicks of the frame.
     */
    method Update(texts: seq<string>, clicked: seq<bool>, executeClicked: bool, clearClicked: bool)
      returns (queueLabels: seq<string>, resultLabels: seq<string>)
      requires Valid() && |texts| == |clicked| == 2
      modifies functionsState, functionsState.commandsEdit
      ensures Valid()
      ensures functionsState.Abstract()
           == FrameStep(old(functionsState.Abstract()), texts, clicked, executeClicked, clearClicked)
      ensures |queueLabels| == |old(functionsState.commandsExecute)|
      ensures forall i :: 0 <= i < |queueLabels| ==> queueLabels[i] == Display(old(functionsState.commandsExecute)[i])
      ensures resultLabels == functionsState.commandResults
    {
      queueLabels := functionsState.DrawAllExecute();
      functionsState.DrawAllEdit(texts, clicked);
      if executeClicked {
        functionsState.Execute();
      }
      if clearClicked {
        functionsState.ClearQueue();
      }
      resultLabels := functionsState.commandResults;
    }
  }
}
