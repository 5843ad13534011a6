/** The execute resource (resources/execute.go): run a shell command unless
    a guard command succeeds. Running a process is the `exec` parameter,
    which gives the error of the run, if any. */
module ExecuteResource {
  import opened Wrappers
  import opened Ambient
  import opened Contract
  import opened FileSystem
  import Text

  datatype Execute = Execute(command: string, workingDirectory: string, unless: string)

  /** `Exec(command)`. */
  function Exec(command: string): Execute
  {
    Execute(command, "", "")
  }

  /** `ExecUnless(command, unless)`. */
  function ExecUnless(command: string, unless: string): Execute
  {
    Execute(command, "", unless)
  }

  /** `Echo(message)`: the message in double quotes after `echo`. */
  function Echo(message: string): (e: Execute)
    ensures e.workingDirectory == "" && e.unless == ""
    ensures |e.command| == |message| + 7
    ensures e.command[..6] == "echo \"" && e.command[6..|e.command| - 1] == message
    ensures e.command[|e.command| - 1] == '"'
  {
    Execute("echo \"" + message + "\"", "", "")
  }

  function Params(e: Execute): (r: ResourceParams)
    ensures !r.globalLock
  {
    NewResourceParams()
  }

  function PreflightChecks(e: Execute, host: Host): (r: Checked<Execute>)
    ensures r.value == e
    ensures r.err.None? <==> e.command != ""
    ensures r.err.Some? ==> r.err == Some("Required parameter: Command")
  {
    if e.command == "" then Checked(e, Some("Required parameter: Command")) else Checked(e, None)
  }

  /** An echo always passes preflight. */
  lemma EchoPreflight(message: string, host: Host)
    ensures PreflightChecks(Echo(message), host).err.None?
  {
  }

  /** Always "Run". */
  function OperationName(e: Execute): string
  {
    "Run"
  }

  /** `Exec` is `ExecUnless` with no guard; either passes preflight exactly
      when the command is given, and runs in the current directory. */
  lemma ShortcutsSpec(command: string, unless: string, host: Host)
    ensures Exec(command) == ExecUnless(command, "")
    ensures ExecUnless(command, unless).unless == unless && ExecUnless(command, unless).workingDirectory == ""
    ensures OperationName(ExecUnless(command, unless)) == "Run"
    ensures PreflightChecks(ExecUnless(command, unless), host).err.None? <==> command != ""
  {
  }

  /** Where a started command's output goes. */
  datatype Routing = Routing(stdout: bool, stderr: bool)

  /** `setCommandOutput`: silent discards both streams, quiet keeps only
      standard error, otherwise both are kept. */
  function SetCommandOutput(cli: Flags): (r: Routing)
    ensures cli.silent ==> r == Routing(false, false)
    ensures !cli.silent && cli.quiet ==> r == Routing(false, true)
    ensures !cli.silent && !cli.quiet ==> r == Routing(true, true)
  {
    if cli.silent then Routing(false, false)
    else if cli.quiet then Routing(false, true)
    else Routing(true, true)
  }

  /** Quieter settings never route more output. */
  lemma SetCommandOutputMonotone(a: Flags, b: Flags)
    requires (a.silent ==> b.silent) && (a.quiet ==> b.quiet || b.silent)
    ensures SetCommandOutput(b).stdout ==> SetCommandOutput(a).stdout
    ensures SetCommandOutput(b).stderr ==> SetCommandOutput(a).stderr
  {
  }

  /** The process started for a command line: split at spaces and joined
      again, then handed to `bash -c`. */
  function ShellInvocation(commandLine: string, dir: string): (i: Invocation)
    ensures i.argv == ["bash", "-c", commandLine] && i.dir == dir
  {
    Text.JoinSplit(commandLine, ' ');
    Invocation(["bash", "-c", Text.Join(Text.Split(commandLine, ' '), " ")], dir)
  }

  /** A run's processes and error. */
  datatype Ran = Ran(commands: seq<Invocation>, err: Option<string>)

  /** The command itself is started: not in dry-run, and there is no guard or
      the guard failed. */
  predicate RunsCommand(e: Execute, env: Env, exec: Invocation -> Option<string>)
  {
    !env.cli.dryRun && (e.unless == "" || exec(ShellInvocation(e.unless, "")).Some?)
  }

  /** `runExecute`: a guard that succeeds ends the run without error; dry-run
      is consulted only afterwards; a failing command yields "command
      failed". */
  function RunExecute(e: Execute, env: Env, exec: Invocation -> Option<string>): (r: Ran)
    ensures var guard := ShellInvocation(e.unless, "");
      e.unless != "" && exec(guard).None? ==> r == Ran([guard], None)
    ensures e.unless != "" ==> |r.commands| >= 1 && r.commands[0] == ShellInvocation(e.unless, "")
    ensures |r.commands| == (if e.unless != "" then 1 else 0) + (if RunsCommand(e, env, exec) then 1 else 0)
    ensures RunsCommand(e, env, exec) ==> r.commands[|r.commands| - 1] == ShellInvocation(e.command, e.workingDirectory)
    ensures r.err.Some? <==> RunsCommand(e, env, exec) && exec(ShellInvocation(e.command, e.workingDirectory)).Some?
    ensures r.err.Some? ==> r.err == Some("command failed: " + e.command)
  {
    var guard := ShellInvocation(e.unless, "");
    var main := ShellInvocation(e.command, e.workingDirectory);
    var checked := if e.unless != "" then [guard] else [];
    if e.unless != "" && exec(guard).None? then Ran(checked, None)
    else if env.cli.dryRun then Ran(checked, None)
    else if exec(main).Some? then Ran(checked + [main], Some("command failed: " + e.command))
    else Ran(checked + [main], None)
  }
}
