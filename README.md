# Simple commands editor: the command-queue model

This project models, in Dafny, the state behind a small egui editor for building and
running "commands". A command (`UserFunctions`) is either `Print(text)` or `Test(text)`.
The state (`FunctionsState`) has three parts:

- two editable template slots, starting as an empty Print and an empty Test;
- a queue that the slots' "+" buttons append to;
- the results of the last run.

Running the queue replaces the results. It maps each `Print(s)` to `s` and each `Test(_)`
to the fixed text `"This is just a text function! :>"`. The Clear button empties the queue
and leaves the results on screen. At start-up the command state is always the default,
even when a saved snapshot was read back.

Everything is in `app.dfy`, in module `App`:

- The pure part is written as datatypes and functions: the command, its rendering, the
  per-command result (`Output`, the match inside `execute`), and `ExecSpec`, the results of
  a whole queue. `State` is the whole command state as a value. One step function per user
  action says what that action makes of a `State`: `EditStep` (the template panel),
  `ExecuteStep`, `ClearStep`, and `FrameStep` (one redraw: the template panel, then
  Execute, then Clear). `Restored` is the state read back from a saved snapshot.
- The parts the program updates in place are classes. `FunctionsState` keeps the fixed
  pair of slots as an `array` of length 2 and the queue and results as `seq` fields.
  `DrawAllEdit`, `Execute` and `ClearQueue` are proved to leave `Abstract()` (the state
  as a value) equal to `EditStep`, `ExecuteStep` and `ClearStep` of the old state;
  `DrawAllEdit` and `Execute` loop as the program does. `DrawBlock` states the edited slot
  and the returned copy. `DrawAllExecute` changes nothing and returns the labels.
  `TemplateApp` holds the state object. Its constructors model start-up, and `Update`
  models one redraw with the widget inputs as parameters.
- The clicks and the text-field edits are parameters. The text drawn on screen is
  returned as sequences of labels.

## Model

| member | source | states |
|---|---|---|
| `App.Display` | src/app.rs:182-189 | a command renders as its variant's name (the slot label "Print" or "Test"), then ": ", then its text |
| `App.DisplayRoundTrip` | src/app.rs:182-189 | parsing a command's rendering gives back that command |
| `App.ParseDisplaySound` | src/app.rs:182-189 | any string that parses to a command is exactly that command's rendering |
| `App.DisplayInjective` | src/app.rs:110-114 | two different queued commands never get the same label in the queue panel |
| `App.DefaultCommand` | src/app.rs:191-195 | the default command is a Print with empty text |
| `App.WithText` | src/app.rs:152-179 | editing a slot's text keeps its variant and sets its text to exactly the edited value |
| `App.ExecSpec` | src/app.rs:116-129 | running a queue gives one result per command, in queue order; a Print yields its own text and a Test the fixed text |
| `App.ExecSpecAppend` | src/app.rs:119-128 | the results of a longer queue are those of its first part followed by those of the rest |
| `App.ExecSpecIgnoresTestText` | src/app.rs:124-125 | queues that differ only in the texts of Test commands give the same results |
| `App.ClickedCopies` | src/app.rs:100-108 | the copies the first n slots append: one per clicked slot, and a clicked slot k's edited copy (same variant, new text) sits after the copies of the clicked slots before it |
| `App.EditPrefix` | src/app.rs:100-108 | after slots 0..n-1 are drawn, each of them holds its new text with its old variant, the later slots and the results are unchanged, and the queue is the old queue followed by the edited copies of the clicked slots, in slot order |
| `App.EditStepTwoSlots` | src/app.rs:100-108 | with the two slots, each takes its new text; a clicked slot appends a copy of itself and an unclicked one appends nothing; slot 0's copy comes before slot 1's; the results stay |
| `App.ExecuteIdempotent` | src/app.rs:116-119 | a run discards the earlier results and changes neither the queue nor the slots, so a second run in a row changes nothing |
| `App.ClearThenExecute` | src/app.rs:79-81 | clearing keeps the results, and a run after clearing gives no results |
| `App.EditThenExecute` | src/app.rs:100-129 | after commands are added, a run gives the old queue's results followed by the results of the added commands |
| `App.FrameExecuteAndClear` | src/app.rs:74-82 | with both buttons clicked in one frame, the results are those of the queue as it was before the clear, and the queue ends empty |
| `App.RestoredTemplatesDiffer` | src/app.rs:91-97 | a restored snapshot fills both unsaved slots with the default Print, so it differs from the default state |
| `App.FunctionsState.constructor` | src/app.rs:132-143 | the default state has slots [Print(""), Test("")], an empty queue and no results |
| `App.FunctionsState.FromSnapshot` | src/app.rs:91-97 | the state read back from storage: the default state when nothing usable was read; otherwise the snapshot's queue and results, with both slots set to the default command |
| `App.FunctionsState.DrawAllExecute` | src/app.rs:110-114 | the queue panel shows one label per queued command, in order, each the command's rendering |
| `App.FunctionsState.DrawBlock` | src/app.rs:152-179 | slot i takes the edited text and keeps its variant; the other slot is unchanged; a copy of the edited slot is returned exactly when "+" was clicked |
| `App.FunctionsState.DrawAllEdit` | src/app.rs:100-108 | drawing the slots in index order changes the state exactly as `EditStep` says |
| `App.FunctionsState.Execute` | src/app.rs:116-129 | the results become `ExecSpec` of the queue; the queue and the slots are unchanged |
| `App.FunctionsState.ClearQueue` | src/app.rs:80 | the queue becomes empty; the slots and the results are unchanged |
| `App.TemplateApp.Default` | src/app.rs:9-15 | a fresh app holds the default command state |
| `App.TemplateApp.New` | src/app.rs:18-29 | whether or not storage exists and whatever it holds, start-up leaves the command state at the default |
| `App.TemplateApp.Update` | src/app.rs:62-87 | one redraw: the queue labels are drawn from the queue before any change; the slots are drawn next, then Execute, then Clear; the result labels are the final results |

`ExecSpec`'s contract, `DrawBlock`, `EditStepTwoSlots` and `ClearThenExecute` together state the
properties a user sees: a Print yields its text, a Test yields the fixed text, the "+" buttons
append in slot order, and a clear followed by a run gives an empty result list.

The Clear button clears only the queue (src/app.rs:80). It does not touch the results, and
the model follows this.

## Left out

- Rendering: the panels, labels, separators, text fields, buttons, the menu bar with Quit
  (`ViewportCommand::Close`) and the dark/light switch (src/app.rs:39-87). They are calls into
  egui. Only their effect on the state, and the queue and result labels, are modelled.
- Persistence: `save`, `get_value`/`set_value` and the serde derives. Storage is the host's,
  and the serialised form is the library's. A read-back is modelled as an
  `Option<Snapshot>`: `None` stands for "no value or unreadable", and a missing
  `functions_state` field ends up the same way. It is always replaced by the default state
  anyway.
- Layout constants (`set_min_width(200.0)`, `add_space(16.0)`): floating-point geometry.
- `ParseDisplay` exists only in the model, as the inverse that shows `Display` loses nothing.
  The program never parses labels.
- `FunctionsState.DrawBlock`: in the program, `draw_block` is a method of the command value
  itself, called through a mutable reference into the slot array. Here it is a method of the
  state object that updates slot `i` of the array in place. The effect is the same.
- `FunctionsState.ClearQueue`: the program clears the field directly inside `update`. Here the
  same assignment is a method that `Update` calls.
