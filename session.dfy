/** One run of the `ndict` command against the daemon: the command chosen on
    the command line is written to the socket as JSON
    (`cli/src/client.rs:32-74`), the daemon decodes it, executes it and
    writes the response back as JSON (`daemon/src/server.rs:295-340`), and
    the command line prints the decoded reply (`cli/src/main.rs:42-60`).

    When decoding or executing the command fails, the daemon closes the
    connection without writing anything, and the client then fails to decode
    an empty reply. The socket itself (connecting, timeouts, a read that
    returns only part of a message) is not part of this model. */
module Session {
  import opened Common
  import Ipc
  import Cli
  import RateLimit
  import State
  import Server

  /** The display text of serde_json's error for an empty input. */
  const EmptyReply: string := "EOF while parsing a value at line 1 column 0"

  /** What the daemon writes back: the encoded response, or nothing when the
      command failed. */
  function ReplyText(result: Result<Ipc.Response>): string
  {
    if result.Ok? then Ipc.EncodeResponse(result.value) else []
  }

  /** The client's decoding of the reply; `malformed` is serde_json's error
      text for a reply that is not empty and not a response. */
  function ReadReply(text: string, malformed: string): Result<Ipc.Response>
  {
    match Ipc.DecodeResponse(text)
    case Some(r) => Ok(r)
    case None =>
      Err(Ipc.Message(Ipc.Serialization(if text == [] then EmptyReply else malformed)))
  }

  /** The daemon's side of one connection: decode the request and execute
      it; a request that does not decode is dropped without a reply. */
  function Serve(d: State.Daemon, request: string, env: Server.Environment): (State.Daemon, string)
  {
    match Ipc.DecodeCommand(request)
    case None => (d, [])
    case Some(cmd) =>
      var (n, result) := Server.Execute(d, cmd, env);
      (n, ReplyText(result))
  }

  /** One run of `ndict <sub>`: the daemon's new state and what the command
      line prints and exits with. */
  function Run(d: State.Daemon, sub: Cli.Subcommand, env: Server.Environment): (State.Daemon, Cli.Outcome)
  {
    var (n, reply) := Serve(d, Ipc.EncodeCommand(Cli.ToCommand(sub)), env);
    (n, Cli.Report(ReadReply(reply, [])))
  }

  /** The reply the command line acts on: the daemon's response itself, or,
      when the command failed, the client's error for an empty reply. */
  function Seen(result: Result<Ipc.Response>): Result<Ipc.Response>
  {
    if result.Ok? then result else Err(Ipc.Message(Ipc.Serialization(EmptyReply)))
  }

  /** Nothing decodes from an empty reply. */
  lemma EmptyReplyFails(malformed: string)
    ensures ReadReply([], malformed) == Err("Serialization error: " + EmptyReply)
  {
  }

  /** The wire is transparent: the daemon executes exactly the command of the
      subcommand, and the command line acts on exactly the daemon's response;
      a failed command reaches it only as a failure to decode an empty
      reply, so its message is lost. */
  lemma RunIsExecute(d: State.Daemon, sub: Cli.Subcommand, env: Server.Environment)
    ensures var (n, result) := Server.Execute(d, Cli.ToCommand(sub), env);
      Run(d, sub, env) == (n, Cli.Report(Seen(result)))
  {
    var cmd := Cli.ToCommand(sub);
    Ipc.CommandRoundTrip(cmd);
    var result := Server.Execute(d, cmd, env).1;
    if result.Ok? {
      Ipc.ResponseRoundTrip(result.value);
    }
  }

  /** The command line exits normally exactly when the daemon admitted the
      command and its handler passed. */
  lemma ExitStatus(d: State.Daemon, sub: Cli.Subcommand, env: Server.Environment)
    ensures var result := Server.Execute(d, Cli.ToCommand(sub), env).1;
      (Run(d, sub, env).1.exitCode == 0 <==> result.Ok? && !result.value.Error?) &&
      (Run(d, sub, env).1.exitCode != 0 ==> Run(d, sub, env).1.exitCode == 1)
  {
    RunIsExecute(d, sub, env);
  }

  /** A failing handler is reported exactly as an empty reply would be:
      the handler's own message never reaches the user. */
  lemma HandlerFailureLooksLikeNoDaemon(d: State.Daemon, sub: Cli.Subcommand, env: Server.Environment)
    requires Server.Execute(d, Cli.ToCommand(sub), env).1.Err?
    ensures Run(d, sub, env).1 == Cli.Report(Err(Ipc.Message(Ipc.Serialization(EmptyReply))))
  {
    RunIsExecute(d, sub, env);
  }

  /** `ndict test` sends the language code "test", which is four bytes long:
      it always exits with status 1, and at most spends a cell. */
  lemma TestAlwaysFails(d: State.Daemon, env: Server.Environment)
    ensures Run(d, Cli.Test, env).1.exitCode == 1
    ensures Run(d, Cli.Test, env).0 in {d, d.(limiter := RateLimit.Admit(d.limiter).0)}
  {
    Server.TestCommandFails(d, env);
    RunIsExecute(d, Cli.Test, env);
    ExitStatus(d, Cli.Test, env);
  }

  /** `ndict status`, when admitted, prints the daemon's status as it was
      before the command and changes only the limiter. */
  lemma StatusReported(d: State.Daemon, env: Server.Environment)
    requires RateLimit.Admit(d.limiter).1
    ensures Run(d, Cli.Status, env).1 == Cli.Report(Ok(Ipc.Response.Status(State.StatusOf(d))))
    ensures Run(d, Cli.Status, env).0 == d.(limiter := RateLimit.Admit(d.limiter).0)
  {
    var reply := Server.Execute(d, Ipc.Command.Status, env).1;
    assert reply == Ok(Ipc.Response.Status(State.StatusOf(d))) by {
      assert State.StatusOf(d.(limiter := RateLimit.Admit(d.limiter).0)) == State.StatusOf(d);
    }
    RunIsExecute(d, Cli.Status, env);
  }
}
