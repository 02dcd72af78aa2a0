# BMT Simulator — experiment session model

The BMT Simulator ("The Context Switching Trap", version 6.0) is a one-page
lab app built on a reactive web framework. A participant fills three
production columns: numbers, letters and shapes (○ □ △). In **Focus**
mode the app guides them through one column at a time. In **Chaos** mode
it guides them to switch column every four actions. Each run is timed.
Pressing *Finish* appends a row to the lab results. The report page shows
each column's count and its distance from the target of twenty.

This project models the app's session state and the actions that change
it:

- `lab_types.dfy` (module `LabTypes`) holds the shared values: steps,
  modes, columns, shape buttons and their symbols, the upper-casing of
  letter input, the result row and the summary delta.
- `guidance.dfy` (module `Guidance`) holds the active-column rule. It also
  has a count model of a participant who always works in the active
  column.
- `session_machine.dfy` (module `SessionMachine`) is the session as a
  state machine over values. It defines the state and the actions, the
  page on which each action is possible (`Enabled`), and the effect of
  each action (`Next`). It states the session invariant and proves it for
  every single action and for every sequence of actions.
- `lab_session.dfy` (module `LabSession`) is the mutable `Session` class.
  Its fields are the session-state keys. It has one method per user
  action. Each method states its new state field by field, and also
  states it as `Next` applied to the old state. The machine lemmas
  therefore hold of the object.

Time comes from an injected clock: a natural number passed to *Start* and
*Finish*. The name typed on the setup page is a parameter of *Start*.

Each handler runs only on the page that renders its widget. The start
buttons are on the setup page. The inputs, the shape buttons and *Finish*
are on the play page. *Return* is on the report page. The program has no
error path for an action on any other page, so the model states this as
a precondition (`Enabled`, or the method's `requires`).

Other versions of the app in the same repository tokenize input, time
each entry and audit the sequences; this version does not, and neither
does the model.

## Model

| member | source | states |
|---|---|---|
| LabTypes.Symbol | BMT_Simulator.py:129-140 | each shape button appends a one-character text that is one of the three shape symbols |
| LabTypes.SymbolBijective | BMT_Simulator.py:129-140 | distinct buttons append distinct symbols, and every shape symbol comes from one of the three buttons |
| LabTypes.UpperChar | BMT_Simulator.py:120 | one character of letter input, upper-cased: the result is never an ASCII lower-case letter, a lower-case letter becomes its capital, and every other character is kept |
| LabTypes.Upper | BMT_Simulator.py:120 | the stored letter text has the input's length, each character is the upper-case form of the input character, and no lower-case letter remains |
| LabTypes.UpperFixesUpper | BMT_Simulator.py:120 | text with no lower-case letter is stored unchanged |
| LabTypes.UpperIdempotent | BMT_Simulator.py:120 | upper-casing twice is the same as upper-casing once |
| LabTypes.Delta | BMT_Simulator.py:161-163 | a summary delta is negative exactly when the column is short of twenty, positive exactly when it spilled over, and zero exactly at twenty |
| Guidance.ChaosColumn | BMT_Simulator.py:96-97 | the Chaos rule itself, block number `totalActions / 4` modulo three mapped to Numbers, Letters, Shapes; what it means is stated by ChaosColumnSpec, ChaosPeriodic, ChaosStep and ChaosPosition |
| Guidance.ChaosColumnSpec | BMT_Simulator.py:95-97 | in Chaos mode, of every twelve actions the first four go to Numbers, the next four to Letters and the last four to Shapes |
| Guidance.FocusColumn | BMT_Simulator.py:98-101 | in Focus mode the active column is Numbers while it holds fewer than twenty entries, then Letters while it holds fewer than twenty, then Shapes |
| Guidance.ActiveColumn | BMT_Simulator.py:98-101 | in Focus mode the marked column is Numbers exactly while it is short of twenty, Letters exactly once Numbers is full and Letters is short, Shapes exactly once both are full |
| Guidance.ActiveColumnChaos | BMT_Simulator.py:95-97 | in Chaos mode the marked column depends on the action counter alone, through its position in the twelve-action rotation |
| Guidance.ActiveColumnFocus | BMT_Simulator.py:98-101 | in Focus mode the marked column does not depend on the action counter |
| Guidance.ChaosPeriodic | BMT_Simulator.py:96-97 | the Chaos column repeats with period twelve |
| Guidance.ChaosStep | BMT_Simulator.py:96-97 | the Chaos column stays the same within a block of four actions and moves to the next column at the end of each block |
| Guidance.Guided | BMT_Simulator.py:95-101 | after k guided actions from a fresh start, the three lengths add up to k |
| Guidance.GuidedFrom | BMT_Simulator.py:95-101 | k guided actions from any lengths add exactly k entries in total |
| Guidance.GuidedFromZero | BMT_Simulator.py:95-101 | counting the guided actions from the first one or from the last one gives the same lengths |
| Guidance.FocusCountsStep | BMT_Simulator.py:98-101 | one guided Focus action moves the lengths from the closed form for k actions to the closed form for k + 1 |
| Guidance.FocusGuided | BMT_Simulator.py:98-101 | following the Focus guidance fills Numbers to twenty, then Letters to twenty, and puts every later action into Shapes |
| Guidance.ChaosPosition | BMT_Simulator.py:95-97 | position r of a rotation is active in Numbers, Letters or Shapes as r lies in the first, second or last four |
| Guidance.ChaosCountsStep | BMT_Simulator.py:95-97 | one guided Chaos action moves the lengths to the closed form of the next position, wrapping to the next rotation after position eleven |
| Guidance.ChaosGuided | BMT_Simulator.py:95-97 | after q full rotations and r more guided Chaos actions, each column has four entries per rotation plus its share of the r |
| Guidance.GuidedCompletion | BMT_Simulator.py:61-68 | sixty guided actions leave twenty entries in each column, in both modes |
| SessionMachine.Initial | BMT_Simulator.py:30-41 | the first-load state: setup page, empty name and histories, zero counter, no mode, no start time, no results; InitialInv proves it satisfies the invariant and the Session constructor ensures the object starts in it |
| SessionMachine.Enabled | BMT_Simulator.py:55-174 | which action is possible on which page (start on setup at :55, entries and finish on play at :91, return on the report at :156), and for finish a clock reading no earlier than the start; FinishEnabled characterises the finish case under the invariant, and each Session method requires the same page |
| SessionMachine.Next | BMT_Simulator.py:77-174 | the effect of every action; it is pinned down by NextInv (the invariant is kept), NextStep (page moves), NextResults (results only grow), EntryAppends (entries only append), and by each Session method's `Snapshot() == M.Next(...)` ensures next to its field-by-field ensures |
| SessionMachine.Active | BMT_Simulator.py:95-101 | the active-column rule applied to a session state's mode, counter and lengths; GuidedEntry and GuidedRun use it, and Session.ActiveColumnNow states its outcome for both modes |
| SessionMachine.DisplayName | BMT_Simulator.py:79 | the recorded name is never empty, and it is the entered name whenever one was entered |
| SessionMachine.RecordOf | BMT_Simulator.py:144-152 | the row's time is the clock reading at finish minus the start time, and its three counts add up to the number of entries |
| SessionMachine.InitialInv | BMT_Simulator.py:30-41 | the first-load state satisfies the session invariant |
| SessionMachine.FinishEnabled | BMT_Simulator.py:143-144 | under the invariant, finishing is possible exactly on the play page with a clock reading no earlier than the start |
| SessionMachine.NextInv | BMT_Simulator.py:77-154 | every action keeps the invariant: the counter equals the total number of entries; every number entry is non-empty text, every letter entry is non-empty text with no lower-case ASCII letter, every shape entry is one of the three symbols; a started session has a mode, a clock and a name; the report matches the last row |
| SessionMachine.NextStep | BMT_Simulator.py:55-174 | only the start, finish and return buttons change the page, each to the next page in the cycle setup, play, summary |
| SessionMachine.NextResults | BMT_Simulator.py:143-153 | the lab results only grow: a finish appends exactly its own row, and every other action leaves them unchanged |
| SessionMachine.EntryAppends | BMT_Simulator.py:109-140 | an entry action only appends to histories, touches at most one of them, adds at most one entry, keeps the counter equal to the total, and leaves page, mode, name, clock and results unchanged |
| SessionMachine.GuidedEntry | BMT_Simulator.py:95-140 | an entry in the active column changes the lengths exactly as one guided step does |
| SessionMachine.RunInv | BMT_Simulator.py:30-174 | the invariant holds after any valid sequence of actions |
| SessionMachine.ReachableInv | BMT_Simulator.py:30-174 | every state reachable from the first load has its counter equal to the total number of entries and only shape symbols in the shapes history |
| SessionMachine.RunResults | BMT_Simulator.py:143-153 | over any sequence of actions the earlier results stay a prefix, and exactly one row is added per finish |
| SessionMachine.EntriesCount | BMT_Simulator.py:109-140 | during play any sequence of entry actions is possible; it keeps page, mode, name, clock and results, and raises the counter by the number of non-empty submissions and shape presses |
| SessionMachine.Experiment | BMT_Simulator.py:77-153 | start, entry actions, finish adds exactly one row, with the display name, the mode and the elapsed time, whose counts add up to the entries actually made |
| SessionMachine.GuidedRun | BMT_Simulator.py:95-140 | a participant who follows the guidance performs a valid sequence of actions, and the lengths evolve as the guided count says |
| SessionMachine.GuidedSessionCompletes | BMT_Simulator.py:77-140 | sixty guided actions right after a start leave twenty entries in each history, in either mode |
| LabSession.Session.constructor | BMT_Simulator.py:30-41 | the first load is the setup page with empty histories, a zero counter, an empty name and no results |
| LabSession.Session.Start | BMT_Simulator.py:77-89 | a start goes to play, records the mode, the name (or "Guest") and the clock, clears the histories and the counter, and keeps the results |
| LabSession.Session.SubmitNumber | BMT_Simulator.py:109-113 | non-empty number text is appended as typed and counted, and nothing else changes; empty text changes nothing |
| LabSession.Session.SubmitLetter | BMT_Simulator.py:118-122 | non-empty letter text is appended in upper case and counted, and nothing else changes; empty text changes nothing |
| LabSession.Session.PressShape | BMT_Simulator.py:129-140 | a shape button appends its own symbol and is counted, and nothing else changes |
| LabSession.Session.Finish | BMT_Simulator.py:143-154 | a finish appends one row with the session's name and mode, the elapsed time and the three history lengths; it moves to the report and changes nothing else |
| LabSession.Session.ReturnToSetup | BMT_Simulator.py:173-174 | a return changes only the page; histories, counter and results are kept |
| LabSession.Session.ActiveColumnNow | BMT_Simulator.py:95-101 | the column marked on the play page is the active column of the session's mode and counts |
| LabSession.Session.SummaryDeltas | BMT_Simulator.py:161-163 | the report's deltas are those of the row just appended (each count minus twenty), and each is negative exactly when its column is incomplete |

## Left out

- Page rendering is not modelled: styling, titles, columns, metrics, tables and the forced rerun after each action. It has no logic.
- The historical report at BMT_Simulator.py:43-51 is not modelled. It is a grouped mean with rounding, computed by a data-frame library in floating point.
- The wall clock and `round(duration, 2)` are not modelled. The clock is an injected natural number, and the elapsed time is kept exact.
- The clock is assumed never to run backwards: a finish whose clock reading is earlier than the start is excluded (SessionMachine.Enabled, Session.Finish's requires). The program's wall clock can step back, and it would then record a negative time; the model does not cover that.
- The widget keys built from the action counter (BMT_Simulator.py:109, 118) are not modelled. They only make an input box reset after each entry.
- LabTypes.UpperChar: maps only the ASCII letters a–z and keeps every other character. The program's upper-casing also maps the other lower-case letters, non-ASCII ones such as é included (é becomes É). A one-character result cannot express ß becoming SS.
- LabTypes.Upper: maps only the ASCII letters a–z. The program's upper-casing also maps non-ASCII letters, and it can lengthen a string (ß becomes SS).
- An action on a page that does not show its widget is a precondition here, not a modelled no-op or error. The program cannot receive such an action.
