/** The app's session state as a mutable object: the fields it keeps
    between reruns, updated in place by one method per user action. Every
    method states its new state field by field and also as one step of the
    SessionMachine, so the lemmas proved there hold of the object. */
module LabSession {
  import opened LabTypes
  import opened Guidance
  import M = SessionMachine

  /** The three summary deltas: each count minus the target. */
  datatype Deltas = Deltas(n: int, l: int, s: int)

  class Session {
    var step: Step
    var mode: Option<Mode>
    var userName: string
    var historyN: seq<string>
    var historyL: seq<string>
    var historyS: seq<string>
    var totalActions: nat
    var startTime: Option<nat>
    var labResults: seq<RunRecord>

    /** The fields as a value of the state machine. */
    function Snapshot(): M.State
      reads this
    {
      M.State(step, mode, userName, historyN, historyL, historyS,
              totalActions, startTime, labResults)
    }

    ghost predicate Valid()
      reads this
    {
      M.Inv(Snapshot())
    }

    /** The first load: setup page, empty histories, no results. */
    constructor ()
      ensures Valid()
      ensures step == Setup && userName == "" && totalActions == 0
      ensures historyN == [] && historyL == [] && historyS == [] && labResults == []
      ensures mode == None && startTime == None
      ensures Snapshot() == M.Initial
    {
      labResults := [];
      step, historyN, historyL, historyS := Setup, [], [], [];
      totalActions, userName := 0, "";
      mode, startTime := None, None;
    }

    /** Either start button: record the mode, the name (or "Guest") and the
        clock, clear the three histories and the counter, go to play. */
    method Start(m: Mode, name: string, now: nat)
      requires Valid() && step == Setup
      modifies this
      ensures Valid()
      ensures step == Play && mode == Some(m)
      ensures userName == (if name == "" then "Guest" else name)
      ensures historyN == [] && historyL == [] && historyS == [] && totalActions == 0
      ensures startTime == Some(now)
      ensures labResults == old(labResults)
      ensures Snapshot() == M.Next(old(Snapshot()), M.Start(m, name, now))
    {
      mode, step, userName := Some(m), Play, M.DisplayName(name);
      historyN, historyL, historyS := [], [], [];
      totalActions, startTime := 0, Some(now);
    }

    /** The number input: non-empty text is appended as it is and counted;
        empty text changes nothing. */
    method SubmitNumber(text: string)
      requires Valid() && step == Play
      modifies this
      ensures Valid()
      ensures text == "" ==> Snapshot() == old(Snapshot())
      ensures text != "" ==>
        Snapshot() == old(Snapshot()).(historyN := old(historyN) + [text],
                                       totalActions := old(totalActions) + 1)
      ensures Snapshot() == M.Next(old(Snapshot()), M.SubmitNumber(text))
    {
      if text != "" {
        historyN := historyN + [text];
        totalActions := totalActions + 1;
      }
      M.NextInv(old(Snapshot()), M.SubmitNumber(text));
    }

    /** The letter input: non-empty text is appended in upper case and
        counted; empty text changes nothing. */
    method SubmitLetter(text: string)
      requires Valid() && step == Play
      modifies this
      ensures Valid()
      ensures text == "" ==> Snapshot() == old(Snapshot())
      ensures text != "" ==>
        Snapshot() == old(Snapshot()).(historyL := old(historyL) + [Upper(text)],
                                       totalActions := old(totalActions) + 1)
      ensures Snapshot() == M.Next(old(Snapshot()), M.SubmitLetter(text))
    {
      if text != "" {
        historyL := historyL + [Upper(text)];
        totalActions := totalActions + 1;
      }
      M.NextInv(old(Snapshot()), M.SubmitLetter(text));
    }

    /** A shape button: its own symbol is appended and counted. */
    method PressShape(sh: Shape)
      requires Valid() && step == Play
      modifies this
      ensures Valid()
      ensures Snapshot() == old(Snapshot()).(historyS := old(historyS) + [Symbol(sh)],
                                             totalActions := old(totalActions) + 1)
      ensures Snapshot() == M.Next(old(Snapshot()), M.PressShape(sh))
    {
      historyS := historyS + [Symbol(sh)];
      totalActions := totalActions + 1;
      M.NextInv(old(Snapshot()), M.PressShape(sh));
    }

    /** The finish button: append one row with the name, the mode, the
        elapsed time and the three history lengths, and go to the report.
        Nothing else changes. */
    method Finish(now: nat)
      requires Valid() && step == Play
      requires startTime.Some? && now >= startTime.value
      modifies this
      ensures Valid()
      ensures labResults == old(labResults) + [RunRecord(old(userName), old(mode).value,
                                                         now - old(startTime).value,
                                                         |historyN|, |historyL|, |historyS|)]
      ensures Snapshot() == old(Snapshot()).(step := Summary, labResults := labResults)
      ensures Snapshot() == M.Next(old(Snapshot()), M.Finish(now))
    {
      labResults := labResults + [M.RecordOf(Snapshot(), now)];
      step := Summary;
      M.NextInv(old(Snapshot()), M.Finish(now));
    }

    /** The return button on the report: back to setup; histories, counter
        and results are kept. */
    method ReturnToSetup()
      requires Valid() && step == Summary
      modifies this
      ensures Valid()
      ensures Snapshot() == old(Snapshot()).(step := Setup)
      ensures Snapshot() == M.Next(old(Snapshot()), M.ReturnToSetup)
    {
      step := Setup;
    }

    /** The column the play page marks as active: by position in the
        twelve-action rotation in Chaos mode, by the first column short of
        twenty (numbers, then letters) in Focus mode. */
    function ActiveColumnNow(): (c: Column)
      reads this
      requires Valid() && step == Play
      ensures mode.value == Chaos ==> (c == Numbers <==> totalActions % ChaosPeriod < ChaosBlock)
      ensures mode.value == Chaos ==>
        (c == Letters <==> ChaosBlock <= totalActions % ChaosPeriod < 2 * ChaosBlock)
      ensures mode.value == Chaos ==> (c == Shapes <==> 2 * ChaosBlock <= totalActions % ChaosPeriod)
      ensures mode.value == Focus ==> (c == Numbers <==> |historyN| < Target)
      ensures mode.value == Focus ==> (c == Letters <==> Target <= |historyN| && |historyL| < Target)
      ensures mode.value == Focus ==> (c == Shapes <==> Target <= |historyN| && Target <= |historyL|)
    {
      ChaosColumnSpec(totalActions);
      ActiveColumn(mode.value, totalActions, |historyN|, |historyL|)
    }

    /** The deltas on the report page. They are those of the row the finish
        just appended, and each is negative exactly when its column is
        incomplete. */
    function SummaryDeltas(): (d: Deltas)
      reads this
      requires Valid() && step == Summary
      ensures var r := labResults[|labResults| - 1];
        d == Deltas(r.nCount - Target, r.lCount - Target, r.sCount - Target)
      ensures d.n < 0 <==> |historyN| < Target
      ensures d.l < 0 <==> |historyL| < Target
      ensures d.s < 0 <==> |historyS| < Target
    {
      Deltas(Delta(|historyN|), Delta(|historyL|), Delta(|historyS|))
    }
  }

  /** A client: a guest who enters one symbol per column, in Focus mode,
      and then returns to setup keeps one result row. */
  method Scenario()
  {
    var app := new Session();
    app.Start(Focus, "", 100);
    assert app.userName == "Guest";
    app.SubmitNumber("1");
    app.SubmitLetter("a");
    assert UpperChar('a') == 'A';
    assert Upper("a") == "A";
    assert app.historyL == ["A"];
    app.SubmitNumber("");
    app.PressShape(Circle);
    assert app.totalActions == 3;
    app.Finish(107);
    assert app.labResults == [RunRecord("Guest", Focus, 7, 1, 1, 1)];
    var d := app.SummaryDeltas();
    assert d == Deltas(-19, -19, -19);
    app.ReturnToSetup();
    assert app.step == Setup && |app.labResults| == 1;
  }
}
