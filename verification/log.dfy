/** The program's logger (log.go): a resource name and action label, two
    suppression flags, one line format and per-level suppression rules. */
module Log {
  import opened Wrappers
  import Text

  datatype Logger = Logger(resource: string, action: string, quiet: bool, silent: bool)

  /** `NewLogger`: a logger with neither flag. */
  function NewLogger(resource: string, action: string): Logger
  {
    Logger(resource, action, false, false)
  }

  /** `NewQuietLogger`: only errors get through. */
  function NewQuietLogger(resource: string, action: string): Logger
  {
    Logger(resource, action, true, false)
  }

  /** `NewSilentLogger`: nothing gets through, and there is no name or
      label. */
  function NewSilentLogger(): Logger
  {
    Logger("", "", false, true)
  }

  /** `LoggerOutput`: an arrow, the resource, the action in brackets, and the
      message. */
  function LoggerOutput(resource: string, action: string, msg: string): string
  {
    "==> " + resource + " [" + action + "] " + msg
  }

  /** Reads a formatted line back into its resource, action and message. */
  function ParseOutput(line: string): Option<(string, string, string)>
  {
    if !Text.StartsWith(line, "==> ") then None
    else
      var rest := line[4..];
      if ' ' !in rest then None
      else
        var tail := Text.After(rest, ' ');
        if |tail| == 0 || tail[0] != '[' || ']' !in tail[1..] then None
        else
          var after := Text.After(tail[1..], ']');
          if |after| == 0 || after[0] != ' ' then None
          else Some((Text.Before(rest, ' '), Text.Before(tail[1..], ']'), after[1..]))
  }

  /** A formatted line gives back its parts when the resource name has no
      space and the action no closing bracket. */
  lemma ParseLoggerOutput(resource: string, action: string, msg: string)
    requires ' ' !in resource && ']' !in action
    ensures ParseOutput(LoggerOutput(resource, action, msg)) == Some((resource, action, msg))
  {
    var after := " " + msg;
    var inner := action + [']'] + after;
    var tail := "[" + inner;
    var rest := resource + [' '] + tail;
    var line := LoggerOutput(resource, action, msg);
    assert line == "==> " + rest;
    assert line[..4] == "==> " && line[4..] == rest;
    Text.CutFirst(resource, ' ', tail);
    assert tail[0] == '[' && tail[1..] == inner;
    Text.CutFirst(action, ']', after);
    assert after[0] == ' ' && after[1..] == msg;
  }

  datatype Level = Fatal | Critical | Info | Warn | Noop

  /** What one call writes, and whether it ends the program. */
  datatype Emission = Emission(line: Option<string>, exits: bool)

  /** A call at `level` writes nothing: a silent logger writes nothing at
      all, and a quiet one only fatal and critical messages. */
  predicate Suppressed(l: Logger, level: Level)
  {
    l.silent || (l.quiet && level in {Info, Warn, Noop})
  }

  /** The action label a level shows; `Noop` marks the resource up to date. */
  function Label(l: Logger, level: Level): string
  {
    if level == Noop then l.action + " (up-to-date)" else l.action
  }

  /** `Fatal`, `Critical`, `Info`, `Warn` and `Noop` on message `msg`. */
  function Emit(l: Logger, level: Level, msg: string): (e: Emission)
    ensures e.exits <==> level == Fatal
    ensures e.line.None? <==> Suppressed(l, level)
    ensures e.line.Some? ==> e.line.value == LoggerOutput(l.resource, Label(l, level), msg)
  {
    match level
    case Fatal =>
      if l.silent then Emission(None, true) else Emission(Some(LoggerOutput(l.resource, l.action, msg)), true)
    case Critical =>
      if l.silent then Emission(None, false) else Emission(Some(LoggerOutput(l.resource, l.action, msg)), false)
    case Info =>
      if l.silent || l.quiet then Emission(None, false) else Emission(Some(LoggerOutput(l.resource, l.action, msg)), false)
    case Warn =>
      if l.silent || l.quiet then Emission(None, false) else Emission(Some(LoggerOutput(l.resource, l.action, msg)), false)
    case Noop =>
      if l.silent || l.quiet then Emission(None, false)
      else Emission(Some(LoggerOutput(l.resource, l.action + " (up-to-date)", msg)), false)
  }

  /** A written line reads back as the logger's resource, the level's label
      and the message. */
  lemma EmittedLineParses(l: Logger, level: Level, msg: string)
    requires ' ' !in l.resource && ']' !in l.action && !Suppressed(l, level)
    ensures ParseOutput(Emit(l, level, msg).line.value) == Some((l.resource, Label(l, level), msg))
  {
    assert ']' !in " (up-to-date)";
    ParseLoggerOutput(l.resource, Label(l, level), msg);
  }

  /** What each constructor lets through: a plain logger writes every level
      under its own name, a quiet one only fatal and critical messages, a
      silent one nothing; fatal ends the program whatever is written. */
  lemma LoggerLevels(resource: string, action: string, level: Level, msg: string)
    ensures !NewLogger(resource, action).quiet && !NewLogger(resource, action).silent
    ensures NewQuietLogger(resource, action).quiet && !NewQuietLogger(resource, action).silent
    ensures NewSilentLogger().silent && !NewSilentLogger().quiet
    ensures Emit(NewLogger(resource, action), level, msg).line.Some?
    ensures Emit(NewLogger(resource, action), level, msg).line.value == LoggerOutput(resource, Label(NewLogger(resource, action), level), msg)
    ensures Emit(NewQuietLogger(resource, action), level, msg).line.Some? <==> level == Fatal || level == Critical
    ensures Emit(NewSilentLogger(), level, msg).line.None?
    ensures Emit(NewSilentLogger(), level, msg).exits <==> level == Fatal
  {
  }

  /** Raising a flag only removes output: a logger at least as quiet writes
      a subset of the lines, and the lines it writes are the same. */
  lemma QuieterWritesLess(l: Logger, louder: Logger, level: Level, msg: string)
    requires l.resource == louder.resource && l.action == louder.action
    requires louder.silent ==> l.silent
    requires louder.quiet ==> l.quiet || l.silent
    ensures Emit(l, level, msg).line.Some? ==> Emit(louder, level, msg).line == Emit(l, level, msg).line
  {
  }
}
