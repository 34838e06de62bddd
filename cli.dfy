/** The `ndict` command line of `cli/src/main.rs`: the subcommand chosen on the
    command line becomes one `Command`, and the reply (or the transport
    failure) becomes the printed lines and the exit status. The socket client
    is not part of this model; its answer is the `reply` argument. */
module Cli {
  import opened Common
  import Ipc

  datatype Subcommand = Start | Stop | Pause | Resume | Status | Test | Toggle

  /** The command sent for a subcommand. */
  function ToCommand(s: Subcommand): (c: Ipc.Command)
    ensures s == Test <==> c.SetLanguage?
    ensures s == Test ==> c == Ipc.SetLanguage("test")
  {
    match s
    case Start => Ipc.Start
    case Stop => Ipc.Stop
    case Pause => Ipc.Pause
    case Resume => Ipc.Resume
    case Status => Ipc.Command.Status
    case Test => Ipc.SetLanguage("test")
    case Toggle => Ipc.Toggle
  }

  /** Every subcommand but `Test` sends the command of the same name, and
      different subcommands send different commands. */
  lemma ToCommandNames(s: Subcommand, t: Subcommand)
    ensures ToCommand(s) == ToCommand(t) ==> s == t
    ensures s == Start <==> ToCommand(s) == Ipc.Start
    ensures s == Stop <==> ToCommand(s) == Ipc.Stop
    ensures s == Pause <==> ToCommand(s) == Ipc.Pause
    ensures s == Resume <==> ToCommand(s) == Ipc.Resume
    ensures s == Status <==> ToCommand(s) == Ipc.Command.Status
    ensures s == Toggle <==> ToCommand(s) == Ipc.Toggle
  {
  }

  /** What the process prints and the status it exits with. */
  datatype Outcome = Outcome(stdout: seq<string>, stderr: seq<string>, exitCode: int)

  function BoolText(b: bool): string
  {
    if b then "true" else "false"
  }

  /** The handling of the reply: `Ok` and `Status` print to standard output
      and exit normally; an error reply and a failed exchange print to
      standard error and exit with status 1. */
  function Report(reply: Result<Ipc.Response>): (o: Outcome)
    ensures o.exitCode == 0 <==> reply.Ok? && !reply.value.Error?
    ensures o.exitCode != 0 ==> o.exitCode == 1 && o.stdout == [] && |o.stderr| == 1
    ensures o.exitCode == 0 ==> o.stderr == [] && |o.stdout| >= 1
  {
    match reply
    case Ok(Ok) => Outcome(["Success"], [], 0)
    case Ok(Status(info)) =>
      Outcome(["Status:",
               "  Running: " + BoolText(info.isRunning),
               "  Active: " + BoolText(info.isActive),
               "  Language: " + info.language], [], 0)
    case Ok(Error(msg)) => Outcome([], ["Error: " + msg], 1)
    case Err(e) => Outcome([], ["Failed to connect to ndictd: " + e], 1)
  }

  /** The status lines carry the three reported fields. */
  lemma StatusLines(info: Ipc.StatusInfo)
    ensures var o := Report(Ok(Ipc.Response.Status(info)));
      |o.stdout| == 4 && o.stdout[0] == "Status:" &&
      o.stdout[3][..12] == "  Language: " && o.stdout[3][12..] == info.language &&
      (o.stdout[1][11..] == "true" <==> info.isRunning) &&
      (o.stdout[2][10..] == "true" <==> info.isActive)
  {
    var o := Report(Ok(Ipc.Response.Status(info)));
    assert o.stdout[1][11..] == BoolText(info.isRunning);
    assert o.stdout[2][10..] == BoolText(info.isActive);
  }
}
