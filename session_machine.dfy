/** The experiment session as a state machine over values: the fields the
    app keeps in its session state, the user actions that change them, and
    what holds of every state reachable from the first page load. This is
    the reference the mutable Session class is proved against. */
module SessionMachine {
  import opened LabTypes
  import opened Guidance

  /** Everything the app keeps between reruns. `mode` and `startTime` are
      absent until the first start. */
  datatype State = State(
    step: Step,
    mode: Option<Mode>,
    userName: string,
    historyN: seq<string>,
    historyL: seq<string>,
    historyS: seq<string>,
    totalActions: nat,
    startTime: Option<nat>,
    labResults: seq<RunRecord>)

  /** One user action. `name` is the text of the name field and `now` the
      reading of the injected clock at the moment of the action. */
  datatype Event =
    | Start(runMode: Mode, name: string, now: nat)
    | SubmitNumber(text: string)
    | SubmitLetter(text: string)
    | PressShape(shape: Shape)
    | Finish(now: nat)
    | ReturnToSetup

  /** The state on the first load: the setup page, empty histories, no
      results yet. */
  const Initial: State := State(Setup, None, "", [], [], [], 0, None, [])

  /** The name recorded for a run: the entered name, or "Guest" when the
      field is empty. */
  function DisplayName(name: string): (r: string)
    ensures r != ""
    ensures name != "" ==> r == name
  {
    if name == "" then "Guest" else name
  }

  /** The column the play page marks as active. */
  function Active(s: State): Column
    requires s.mode.Some?
  {
    ActiveColumn(s.mode.value, s.totalActions, |s.historyN|, |s.historyL|)
  }

  /** The row a finish at time `now` appends to the lab results. */
  function RecordOf(s: State, now: nat): (r: RunRecord)
    requires s.mode.Some? && s.startTime.Some? && now >= s.startTime.value
    ensures r.time + s.startTime.value == now
    ensures r.nCount + r.lCount + r.sCount == |s.historyN| + |s.historyL| + |s.historyS|
  {
    RunRecord(s.userName, s.mode.value, now - s.startTime.value,
              |s.historyN|, |s.historyL|, |s.historyS|)
  }

  /** An action is possible only on the page that shows its widget: the
      start buttons on the setup page, the inputs, shape buttons and the
      finish button on the play page, the return button on the report.
      Finishing also needs a clock reading no earlier than the start. */
  predicate Enabled(s: State, e: Event)
  {
    match e
    case Start(_, _, _) => s.step == Setup
    case SubmitNumber(_) => s.step == Play
    case SubmitLetter(_) => s.step == Play
    case PressShape(_) => s.step == Play
    case Finish(now) =>
      s.step == Play && s.mode.Some? && s.startTime.Some? && now >= s.startTime.value
    case ReturnToSetup => s.step == Summary
  }

  /** The effect of one action. */
  function Next(s: State, e: Event): State
    requires Enabled(s, e)
  {
    match e
    case Start(m, name, now) =>
      s.(step := Play, mode := Some(m), userName := DisplayName(name),
         historyN := [], historyL := [], historyS := [],
         totalActions := 0, startTime := Some(now))
    case SubmitNumber(text) =>
      if text == "" then s
      else s.(historyN := s.historyN + [text], totalActions := s.totalActions + 1)
    case SubmitLetter(text) =>
      if text == "" then s
      else s.(historyL := s.historyL + [Upper(text)], totalActions := s.totalActions + 1)
    case PressShape(sh) =>
      s.(historyS := s.historyS + [Symbol(sh)], totalActions := s.totalActions + 1)
    case Finish(now) =>
      s.(labResults := s.labResults + [RecordOf(s, now)], step := Summary)
    case ReturnToSetup =>
      s.(step := Setup)
  }

  /** The step that follows `st` in the cycle setup, play, summary. */
  function Advance(st: Step): Step
  {
    match st
    case Setup => Play
    case Play => Summary
    case Summary => Setup
  }

  // ---------------------------------------------------------------------
  // The session invariant
  // ---------------------------------------------------------------------

  predicate NumbersOk(h: seq<string>)
  {
    forall i :: 0 <= i < |h| ==> h[i] != ""
  }

  predicate LettersOk(h: seq<string>)
  {
    forall i :: 0 <= i < |h| ==> h[i] != "" && NoLowerAscii(h[i])
  }

  predicate ShapesOk(h: seq<string>)
  {
    forall i :: 0 <= i < |h| ==> IsShapeSymbol(h[i])
  }

  predicate NamesOk(rs: seq<RunRecord>)
  {
    forall i :: 0 <= i < |rs| ==> rs[i].name != ""
  }

  /** The report page describes the run that was just recorded: the last
      row of the results has the session's name, mode and history lengths. */
  predicate ReportMatchesLastRecord(s: State)
  {
    s.step == Summary ==>
      |s.labResults| > 0 &&
      var r := s.labResults[|s.labResults| - 1];
      r.name == s.userName && s.mode == Some(r.mode) &&
      r.nCount == |s.historyN| && r.lCount == |s.historyL| && r.sCount == |s.historyS|
  }

  /** What every reachable state satisfies: the action counter is the total
      number of entries; number entries are non-empty, letter entries are
      non-empty and upper-case, shape entries are the three symbols; once
      started, a session has a mode, a start time and a non-empty name; no
      result row has an empty name; and the report matches the last row. */
  predicate Inv(s: State)
  {
    && s.totalActions == |s.historyN| + |s.historyL| + |s.historyS|
    && NumbersOk(s.historyN)
    && LettersOk(s.historyL)
    && ShapesOk(s.historyS)
    && (s.step != Setup ==> s.mode.Some? && s.startTime.Some? && s.userName != "")
    && NamesOk(s.labResults)
    && ReportMatchesLastRecord(s)
  }

  lemma InitialInv()
    ensures Inv(Initial)
  {
  }

  /** Under the invariant the finish button is enabled exactly on the play
      page with a clock reading no earlier than the start. */
  lemma FinishEnabled(s: State, now: nat)
    requires Inv(s)
    ensures Enabled(s, Finish(now)) <==> s.step == Play && now >= s.startTime.value
  {
  }

  /** Every action keeps the invariant. */
  lemma NextInv(s: State, e: Event)
    requires Inv(s) && Enabled(s, e)
    ensures Inv(Next(s, e))
  {
    var t := Next(s, e);
    match e
    case Start(_, _, _) =>
    case SubmitNumber(text) =>
    case SubmitLetter(text) =>
      if text != "" {
        assert t.historyL[|s.historyL|] == Upper(text);
      }
    case PressShape(sh) =>
      assert t.historyS[|s.historyS|] == Symbol(sh);
    case Finish(now) =>
    case ReturnToSetup =>
  }

  /** Every action either keeps the page or moves to the next one in the
      cycle setup, play, summary; only the start, finish and return
      buttons move it. */
  lemma NextStep(s: State, e: Event)
    requires Enabled(s, e)
    ensures Next(s, e).step == (if e.Start? || e.Finish? || e.ReturnToSetup? then Advance(s.step) else s.step)
  {
  }

  /** The lab results only grow: each finish appends one row and no action
      alters an existing row. */
  lemma NextResults(s: State, e: Event)
    requires Enabled(s, e)
    ensures Next(s, e).labResults == s.labResults + (if e.Finish? then [RecordOf(s, e.now)] else [])
  {
  }

  /** Histories are append-only during play: an entry action extends one
      history by one entry and leaves the other two as they were. */
  lemma EntryAppends(s: State, e: Event)
    requires Enabled(s, e) && Inv(s)
    requires e.SubmitNumber? || e.SubmitLetter? || e.PressShape?
    ensures var t := Next(s, e);
      && s.historyN <= t.historyN && s.historyL <= t.historyL && s.historyS <= t.historyS
      && |t.historyN| + |t.historyL| + |t.historyS| <= |s.historyN| + |s.historyL| + |s.historyS| + 1
      && (|| (t.historyL == s.historyL && t.historyS == s.historyS)
          || (t.historyN == s.historyN && t.historyS == s.historyS)
          || (t.historyN == s.historyN && t.historyL == s.historyL))
      && t.totalActions == |t.historyN| + |t.historyL| + |t.historyS|
      && t.step == s.step && t.mode == s.mode && t.userName == s.userName
      && t.startTime == s.startTime && t.labResults == s.labResults
  {
    NextInv(s, e);
  }

  /** The three history lengths of a state. */
  function CountsOf(s: State): Counts
  {
    Counts(|s.historyN|, |s.historyL|, |s.historyS|)
  }

  /** `e` adds an entry to the column the play page marks as active. */
  predicate InActiveColumn(s: State, e: Event)
    requires s.mode.Some?
  {
    || (e.SubmitNumber? && e.text != "" && Active(s) == Numbers)
    || (e.SubmitLetter? && e.text != "" && Active(s) == Letters)
    || (e.PressShape? && Active(s) == Shapes)
  }

  /** An entry in the active column changes the history lengths exactly as
      one step of the guided count does. */
  lemma GuidedEntry(s: State, e: Event)
    requires Inv(s) && s.step == Play
    requires InActiveColumn(s, e)
    ensures Inv(Next(s, e)) && Next(s, e).step == Play && Next(s, e).mode == s.mode
    ensures CountsOf(Next(s, e)) == GuidedStep(s.mode.value, CountsOf(s))
  {
    NextInv(s, e);
  }

  // ---------------------------------------------------------------------
  // Runs of several actions
  // ---------------------------------------------------------------------

  /** Every action of `evs` is possible in the state left by the ones
      before it. */
  predicate ValidTrace(s: State, evs: seq<Event>)
    decreases |evs|
  {
    evs == [] || (Enabled(s, evs[0]) && ValidTrace(Next(s, evs[0]), evs[1..]))
  }

  /** The state after the actions `evs`. */
  function Run(s: State, evs: seq<Event>): State
    requires ValidTrace(s, evs)
    decreases |evs|
  {
    if evs == [] then s else Run(Next(s, evs[0]), evs[1..])
  }

  /** The number of finish actions in `evs`. */
  function Finishes(evs: seq<Event>): nat
  {
    if evs == [] then 0 else (if evs[0].Finish? then 1 else 0) + Finishes(evs[1..])
  }

  /** The invariant holds after any sequence of actions. */
  lemma {:induction false} RunInv(s: State, evs: seq<Event>)
    requires Inv(s) && ValidTrace(s, evs)
    ensures Inv(Run(s, evs))
    decreases |evs|
  {
    if evs != [] {
      NextInv(s, evs[0]);
      RunInv(Next(s, evs[0]), evs[1..]);
    }
  }

  /** In particular, every state the app can reach from its first load
      satisfies the invariant: the counter equals the number of entries and
      every shape entry is one of the three symbols. */
  lemma ReachableInv(evs: seq<Event>)
    requires ValidTrace(Initial, evs)
    ensures Inv(Run(Initial, evs))
    ensures var t := Run(Initial, evs);
      t.totalActions == |t.historyN| + |t.historyL| + |t.historyS| && ShapesOk(t.historyS)
  {
    InitialInv();
    RunInv(Initial, evs);
  }

  /** Over any sequence of actions the earlier lab results are kept as a
      prefix, and exactly one row is added per finish. */
  lemma {:induction false} RunResults(s: State, evs: seq<Event>)
    requires ValidTrace(s, evs)
    ensures s.labResults <= Run(s, evs).labResults
    ensures |Run(s, evs).labResults| == |s.labResults| + Finishes(evs)
    decreases |evs|
  {
    if evs != [] {
      NextResults(s, evs[0]);
      RunResults(Next(s, evs[0]), evs[1..]);
    }
  }

  /** Starting from a valid trace and then one more action is the same as
      running the longer trace. */
  lemma {:induction false} RunSnoc(s: State, evs: seq<Event>, e: Event)
    requires ValidTrace(s, evs) && Enabled(Run(s, evs), e)
    ensures ValidTrace(s, evs + [e])
    ensures Run(s, evs + [e]) == Next(Run(s, evs), e)
    decreases |evs|
  {
    if evs == [] {
      assert evs + [e] == [e];
    } else {
      assert (evs + [e])[1..] == evs[1..] + [e];
      RunSnoc(Next(s, evs[0]), evs[1..], e);
    }
  }

  /** During play any sequence of entry actions is possible. It keeps the
      page, the mode, the name, the start time and the lab results, and
      raises the counter by the number of actions that added an entry. */
  lemma {:induction false} EntriesCount(s: State, evs: seq<Event>)
    requires s.step == Play && Inv(s)
    requires forall i :: 0 <= i < |evs| ==> evs[i].SubmitNumber? || evs[i].SubmitLetter? || evs[i].PressShape?
    ensures ValidTrace(s, evs)
    ensures var t := Run(s, evs);
      && t.step == Play && Inv(t)
      && t.mode == s.mode && t.userName == s.userName && t.startTime == s.startTime
      && t.totalActions == s.totalActions + Effective(evs)
      && t.labResults == s.labResults
    decreases |evs|
  {
    if evs != [] {
      NextInv(s, evs[0]);
      EntriesCount(Next(s, evs[0]), evs[1..]);
    }
  }

  /** A whole experiment from the setup page: start in mode `m` at time
      `t0`, any entry actions, finish at time `t1`. It ends on the report
      page with exactly one new row; the row carries the display name, the
      mode and the elapsed time `t1 - t0`, and its three counts add up to
      the number of entry actions that added an entry. */
  lemma Experiment(s: State, m: Mode, name: string, t0: nat, evs: seq<Event>, t1: nat)
    requires s.step == Setup && Inv(s) && t0 <= t1
    requires forall i :: 0 <= i < |evs| ==> evs[i].SubmitNumber? || evs[i].SubmitLetter? || evs[i].PressShape?
    ensures ValidTrace(s, [Start(m, name, t0)] + evs + [Finish(t1)])
    ensures var t := Run(s, [Start(m, name, t0)] + evs + [Finish(t1)]);
      && t.step == Summary
      && |t.labResults| == |s.labResults| + 1
      && t.labResults[..|s.labResults|] == s.labResults
      && var r := t.labResults[|s.labResults|];
         r.name == DisplayName(name) && r.mode == m && r.time == t1 - t0
         && r.nCount + r.lCount + r.sCount == Effective(evs)
  {
    var started := Next(s, Start(m, name, t0));
    NextInv(s, Start(m, name, t0));
    EntriesCount(started, evs);
    RunSnoc(started, evs, Finish(t1));
    var all := [Start(m, name, t0)] + evs + [Finish(t1)];
    assert all[0] == Start(m, name, t0) && all[1..] == evs + [Finish(t1)];
  }

  /** The number of entry actions of `evs` that add an entry: every shape
      press, and every submission of non-empty text. */
  function Effective(evs: seq<Event>): nat
  {
    if evs == [] then 0
    else
      (if evs[0].PressShape? || (evs[0].SubmitNumber? && evs[0].text != "") || (evs[0].SubmitLetter? && evs[0].text != "") then 1 else 0)
      + Effective(evs[1..])
  }

  /** Every action of `evs` is taken on the play page and adds an entry to
      the column that is active at that moment. */
  predicate FollowsGuide(s: State, evs: seq<Event>)
    decreases |evs|
  {
    evs == [] ||
      (s.step == Play && s.mode.Some? && InActiveColumn(s, evs[0])
       && FollowsGuide(Next(s, evs[0]), evs[1..]))
  }

  /** A participant who follows the guidance performs a valid sequence of
      actions, and the history lengths evolve as the guided count says. */
  lemma {:induction false} GuidedRun(s: State, evs: seq<Event>)
    requires Inv(s) && s.step == Play && FollowsGuide(s, evs)
    ensures ValidTrace(s, evs)
    ensures Run(s, evs).step == Play && Run(s, evs).mode == s.mode
    ensures CountsOf(Run(s, evs)) == GuidedFrom(s.mode.value, CountsOf(s), |evs|)
    decreases |evs|
  {
    if evs != [] {
      GuidedEntry(s, evs[0]);
      GuidedRun(Next(s, evs[0]), evs[1..]);
    }
  }

  /** Sixty actions that follow the guidance right after a start leave
      exactly twenty entries in each column, in either mode. */
  lemma GuidedSessionCompletes(s: State, m: Mode, name: string, t0: nat, evs: seq<Event>)
    requires s.step == Setup && Inv(s)
    requires FollowsGuide(Next(s, Start(m, name, t0)), evs)
    requires |evs| == 3 * Target
    ensures ValidTrace(s, [Start(m, name, t0)] + evs)
    ensures CountsOf(Run(s, [Start(m, name, t0)] + evs)) == Counts(Target, Target, Target)
  {
    var started := Next(s, Start(m, name, t0));
    NextInv(s, Start(m, name, t0));
    GuidedRun(started, evs);
    GuidedFromZero(m, |evs|);
    GuidedCompletion();
    var all := [Start(m, name, t0)] + evs;
    assert all[0] == Start(m, name, t0) && all[1..] == evs;
  }
}
