/**
 * The simulated npm life cycle of a container (components/ContainerCard.tsx,
 * lines 322-359, and the three buttons that start it, lines 395-397). A click
 * appends one `command` entry and moves the status to the command's loading
 * state; when the timer fires, a draw below the command's success chance sets
 * the next status (and a build writes `/dist`), any other draw sets `error`.
 */
module Lifecycle {
  import opened Types
  import opened Vfs
  import opened Shell

  function CommandText(cmd: NpmCommand): string {
    match cmd
    case Install => "npm install"
    case Build => "npm run build"
    case Start => "npm start"
  }

  /** What a button passes to `runCommand`: the delay in milliseconds, the success chance and the two statuses. */
  datatype Run = Run(durationMs: nat, successChance: real, nextStatus: Status, loadingStatus: Status)

  function RunOf(cmd: NpmCommand): Run {
    match cmd
    case Install => Run(3000, 0.9, Success, Installing)
    case Build => Run(4000, 0.85, Success, Building)
    case Start => Run(2000, 0.95, Running, Building)
  }

  /** A button is clickable: Install only in `initialized`, Build and Start only in `success`. */
  predicate Enabled(cmd: NpmCommand, status: Status) {
    match cmd
    case Install => status == Initialized
    case Build => status == Success
    case Start => status == Success
  }

  /** `Math.random() < successChance`, for a draw `roll` of `Math.random()`. */
  predicate Succeeds(cmd: NpmCommand, roll: real) {
    roll < RunOf(cmd).successChance
  }

  /** The `dist` directory a successful build writes at the root. */
  function DistTree(): FsNode {
    Directory("dist", [
      Entry("index.html", File("index.html", "<!-- Production Build -->")),
      Entry("assets", Directory("assets", [
        Entry("index.js", File("index.js", "/* Minified JS */")),
        Entry("index.css", File("index.css", "/* Minified CSS */"))]))])
  }

  function NoteText(note: Note): string {
    match note
    case BuildSucceeded => "Build successful. Output generated in /dist directory."
    case SimulatedError(cmd) => "Simulated error during " + CommandText(cmd) + ". Check logs for details."
  }

  /** The message a finished command records: only a build reports success in words. */
  function Message(cmd: NpmCommand, success: bool): Option<Note> {
    if !success then Some(SimulatedError(cmd))
    else if cmd == Build then Some(BuildSucceeded)
    else None
  }

  /** The container the click publishes: loading status and one open `command` entry. */
  function Started(c: Container, cmd: NpmCommand, at: string): Container {
    c.(status := RunOf(cmd).loadingStatus,
       history := c.history + [HandoverEntry(Command, Operator, at, CommandDetails(cmd, None, None))])
  }

  /**
   * The container the timer publishes, built from the container as it was at
   * the click: its status, a `dist` after a successful build, and the click's
   * entry completed with the outcome and message.
   */
  function Finished(c: Container, cmd: NpmCommand, at: string, roll: real): Container {
    var success := Succeeds(cmd, roll);
    var entry := HandoverEntry(Command, Operator, at,
      CommandDetails(cmd, Some(if success then Succeeded else Failed), Message(cmd, success)));
    c.(status := if success then RunOf(cmd).nextStatus else Error,
       filesystem := if success && cmd == Build then ModifyNodeChildren(c.filesystem, "/", AddEntry("dist", DistTree()))
                     else c.filesystem,
       history := c.history + [entry])
  }

  /** A click on a button and the draw of `Math.random()` its timer makes. */
  datatype Click = Click(cmd: NpmCommand, at: string, roll: real)

  /**
   * Clicks one after the other, each timer fired before the next click (the
   * loading statuses disable every button, so no two runs overlap); a click
   * on a disabled button does nothing.
   */
  function Session(c: Container, clicks: seq<Click>): Container
    decreases |clicks|
  {
    if |clicks| == 0 then c
    else
      var k := clicks[0];
      Session(if Enabled(k.cmd, c.status) then Finished(c, k.cmd, k.at, k.roll) else c, clicks[1..])
  }

  /** `runCommand`: the two containers it hands to `onUpdateContainer`, at the click and when the timer fires. */
  method RunCommand(container: Container, cmd: NpmCommand, at: string, roll: real)
    returns (started: Container, finished: Container)
    ensures started == Started(container, cmd, at)
    ensures finished == Finished(container, cmd, at, roll)
  {
    var run := RunOf(cmd);
    var entry := HandoverEntry(Command, Operator, at, CommandDetails(cmd, None, None));
    var updated := container.(status := run.loadingStatus, history := container.history + [entry]);
    started := updated;
    if roll < run.successChance {
      entry := entry.(details := entry.details.(outcome := Some(Succeeded)));
      updated := updated.(status := run.nextStatus);
      if cmd == Build {
        updated := updated.(filesystem := ModifyNodeChildren(updated.filesystem, "/", AddEntry("dist", DistTree())));
        entry := entry.(details := entry.details.(message := Message(cmd, true)));
      }
    } else {
      entry := entry.(details := entry.details.(outcome := Some(Failed), message := Message(cmd, false)));
      updated := updated.(status := Error);
    }
    finished := updated.(history := container.history + [entry]);
  }
}
