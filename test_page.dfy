/** The test page (src/app/test/page.tsx): the active file, the countdown, and the
    terminal transcript driven by Run and Clear. The two-second timer that
    finishes a run is an explicit step: a click on Run queues the transcript it
    saw, and each `TimerFires` takes the oldest queued transcript. */
module TestPage {
  import opened SimulatedRun

  class Page {
    var activeFile: string
    var timeRemaining: int
    var terminalOutput: seq<string>
    var isRunning: bool
    /** The transcripts captured by runs whose timer has not fired yet, oldest first. */
    var pending: seq<seq<string>>
    /** The right-hand tab: "instructions", "team-chat" or "test-cases". */
    var activeRightTab: string

    constructor()
      ensures activeFile == "/index.js" && timeRemaining == 3600
      ensures terminalOutput == InitialOutput && !isRunning && pending == []
      ensures activeRightTab == "instructions"
    {
      activeFile := "/index.js";
      timeRemaining := 3600;
      terminalOutput := InitialOutput;
      isRunning := false;
      pending := [];
      activeRightTab := "instructions";
    }

    /** The right-hand `Tabs`' `onValueChange`. */
    method SetActiveRightTab(tab: string)
      modifies this
      ensures activeRightTab == tab
      ensures terminalOutput == old(terminalOutput) && isRunning == old(isRunning) && pending == old(pending)
      ensures activeFile == old(activeFile) && timeRemaining == old(timeRemaining)
    {
      activeRightTab := tab;
    }

    /** `handleRunCode`, the click: show the running line and start the timer. */
    method RunCode()
      modifies this
      ensures isRunning && terminalOutput == Started(old(terminalOutput))
      ensures pending == old(pending) + [old(terminalOutput)]
      ensures activeFile == old(activeFile) && timeRemaining == old(timeRemaining)
      ensures activeRightTab == old(activeRightTab)
    {
      isRunning := true;
      pending := pending + [terminalOutput];
      terminalOutput := terminalOutput + [RunningLine];
    }

    /** The timer callback of `handleRunCode`: the transcript it captured plus
        the result lines replace whatever is shown, and the run is over. */
    method TimerFires()
      requires pending != []
      modifies this
      ensures !isRunning && terminalOutput == Completed(old(pending[0]))
      ensures pending == old(pending[1..])
      ensures activeFile == old(activeFile) && timeRemaining == old(timeRemaining)
      ensures activeRightTab == old(activeRightTab)
    {
      terminalOutput := pending[0] + ResultLines;
      isRunning := false;
      pending := pending[1..];
    }

    /** `handleSaveCode` only logs. */
    method SaveCode()
      ensures unchanged(this)
    {
    }

    /** `handleSubmitCode` only logs. */
    method SubmitCode()
      ensures unchanged(this)
    {
    }

    /** `handleClearTerminal`. */
    method ClearTerminal()
      modifies this
      ensures terminalOutput == []
      ensures isRunning == old(isRunning) && pending == old(pending)
      ensures activeFile == old(activeFile) && timeRemaining == old(timeRemaining)
      ensures activeRightTab == old(activeRightTab)
    {
      terminalOutput := [];
    }

    /** `handleFileSelect`: only the active file changes. */
    method FileSelect(path: string)
      modifies this
      ensures activeFile == path
      ensures terminalOutput == old(terminalOutput) && isRunning == old(isRunning) && pending == old(pending)
      ensures timeRemaining == old(timeRemaining) && activeRightTab == old(activeRightTab)
    {
      activeFile := path;
    }
  }

  /** A run from rest: the click shows the running line, the timer then shows
      the same transcript followed by the result lines. */
  method RunToCompletion(page: Page)
    requires page.pending == []
    modifies page
    ensures page.terminalOutput == old(page.terminalOutput) + ResultLines && !page.isRunning
    ensures page.pending == []
  {
    page.RunCode();
    CompletedExtendsStarted(old(page.terminalOutput));
    page.TimerFires();
  }

  /** Clearing while a run is in progress does not last: the timer puts back
      the transcript from before the click. */
  method ClearDuringRunIsUndone(page: Page)
    requires page.pending == [] && page.terminalOutput != []
    modifies page
    ensures page.terminalOutput == old(page.terminalOutput) + ResultLines
    ensures page.terminalOutput[..|old(page.terminalOutput)|] == old(page.terminalOutput)
  {
    page.RunCode();
    page.ClearTerminal();
    assert page.terminalOutput == [];
    page.TimerFires();
  }

  /** Two clicks on Run before the timer fires: the first timer already turns
      the running flag off while the second run is still pending, and the
      second timer then shows the running line of the first click before its
      own result lines. */
  method DoubleRun(page: Page)
    requires page.pending == []
    modifies page
    ensures page.terminalOutput == old(page.terminalOutput) + [RunningLine] + ResultLines
  {
    ghost var before := page.terminalOutput;
    page.RunCode();
    page.RunCode();
    page.TimerFires();
    assert !page.isRunning && |page.pending| == 1;
    page.TimerFires();
    assert page.terminalOutput == before + [RunningLine] + ResultLines;
  }
}
