/** Small helpers shared by the resources (helpers.go): prefixing a command
    with `sudo`, running a command line through `bash -c`, and recognising
    an Ubuntu-like platform. */
module Helpers {
  import opened Wrappers
  import opened FileSystem
  import Text
  import Attributes

  /** `PrependSudo`: a fresh sequence with `sudo` in front; the argument is a
      value and is left as it was. */
  function PrependSudo(args: seq<string>): (r: seq<string>)
    ensures |r| == |args| + 1
    ensures r[0] == "sudo" && r[1..] == args
  {
    ["sudo"] + args
  }

  /** The process `RunCommand` starts: the words joined by single spaces and
      handed to `bash -c`, in the current directory. */
  function RunCommand(command: seq<string>): (i: Invocation)
    ensures |i.argv| == 3 && i.argv[..2] == ["bash", "-c"] && i.dir == ""
    ensures SpaceFreeWords(command) ==> Text.Split(i.argv[2], ' ') == command
  {
    WordsRecoverable(command);
    Invocation(["bash", "-c", Text.Join(command, " ")], "")
  }

  /** At least one word, none containing a space. */
  predicate SpaceFreeWords(words: seq<string>)
  {
    |words| >= 1 && forall k :: 0 <= k < |words| ==> ' ' !in words[k]
  }

  /** Space-free words joined by spaces split back into the same words. */
  lemma WordsRecoverable(words: seq<string>)
    ensures SpaceFreeWords(words) ==> Text.Split(Text.Join(words, " "), ' ') == words
  {
    if SpaceFreeWords(words) {
      Text.SplitJoin(words, ' ');
    }
  }

  /** `SudoCommand`: `RunCommand` of the words with `sudo` in front. */
  function SudoCommand(command: seq<string>): Invocation
  {
    RunCommand(PrependSudo(command))
  }

  /** The command line `SudoCommand` runs is the plain one with `sudo `
      in front, or `sudo` alone for no words. */
  lemma SudoCommandLine(command: seq<string>)
    ensures SudoCommand(command) == RunCommand(PrependSudo(command))
    ensures |command| == 0 ==> SudoCommand(command).argv[2] == "sudo"
    ensures |command| > 0 ==> SudoCommand(command).argv[2] == "sudo " + RunCommand(command).argv[2]
  {
    if |command| > 0 {
      Text.JoinCons("sudo", command, " ");
    }
  }

  /** `IsUbuntu`: the platform's ID_LIKE mentions ubuntu anywhere. */
  function IsUbuntu(p: Attributes.Platform): (b: bool)
    ensures b <==> exists i :: Text.OccursAt(p.idLike, "ubuntu", i)
  {
    Text.ContainsSpec(p.idLike, "ubuntu");
    Text.Contains(p.idLike, "ubuntu")
  }
}
