/** The simulated "run code" terminal shared by the IDE page (src/app/ide/page.tsx)
    and the test page (src/app/test/page.tsx): the starting transcript, what a
    click on Run shows at once and what the two-second timer writes afterwards. */
module SimulatedRun {

  /** The transcript both pages start with. */
  const InitialOutput: seq<string> := [
    "> npm run test",
    "Running tests...",
    "Test 1: Passed",
    "Test 2: Failed - Expected output: 42, Received: 41",
    "Test 3: Passed",
    "Test 4: Passed",
    "2 tests passing, 1 test failing",
    "",
    "> node solution.js",
    "Hello, world!",
    "Processing input...",
    "Result: 41"
  ]

  /** The line shown while the run is in progress. */
  const RunningLine: string := "> Running code..."

  /** The lines the timer writes after the transcript it captured. */
  const ResultLines: seq<string> := [RunningLine, "Hello, world!", "Result: 42", "Process completed successfully."]

  /** What a click on Run shows at once: the transcript and the running line. */
  function Started(output: seq<string>): (r: seq<string>)
    ensures |r| == |output| + 1 && r[..|output|] == output && r[|output|] == RunningLine
  {
    output + [RunningLine]
  }

  /** What the timer shows: the transcript captured at the click and the four
      result lines, whatever the transcript has become since. */
  function Completed(captured: seq<string>): (r: seq<string>)
    ensures |r| == |captured| + 4 && r[..|captured|] == captured && r[|captured|..] == ResultLines
  {
    captured + ResultLines
  }

  /** Completion only adds to what the click showed: the started transcript is
      a prefix of the completed one, so the running line stays in place. */
  lemma CompletedExtendsStarted(output: seq<string>)
    ensures Started(output) == Completed(output)[..|output| + 1]
    ensures Completed(output)[|output|] == RunningLine
  {
    assert Completed(output)[..|output| + 1] == output + [ResultLines[0]];
  }

  /** The starting transcript has twelve lines and none is the running line. */
  lemma InitialOutputShape()
    ensures |InitialOutput| == 12
    ensures RunningLine !in InitialOutput
  {
  }
}
