/**
 * The shell tool's checks before anything runs: a required command, a blacklist of dangerous
 * substrings, and the timeout. Running the process is not modelled.
 */
module Bash {
  import opened Wrappers
  import opened Text

  /** The decoded arguments; an absent timeout decodes as 0. */
  datatype BashArgs = BashArgs(command: string, timeout: int)

  /** The blacklisted substrings, matched case-sensitively. */
  const Dangerous: seq<string> := [
    "rm ", "rm -", "sudo", "su ", "shutdown", "reboot", "halt", "poweroff", "mkfs", "dd ",
    ":(){:|:&};:", "> /dev/sda", "mv /", "chmod -R 777 /", "chown -R", "wget ", "curl "]

  /** `s` contains none of the entries of `list`. */
  predicate Clean(s: string, list: seq<string>) {
    forall k | 0 <= k < |list| :: !Contains(s, list[k])
  }

  /** A command is safe when its trimmed text contains no blacklisted substring. */
  predicate Safe(cmd: string) {
    Clean(TrimSpace(cmd), Dangerous)
  }

  /** `isCommandSafe`: scans the blacklist in order, stopping at the first hit. */
  method IsCommandSafe(cmd: string) returns (safe: bool)
    ensures safe <==> Safe(cmd)
  {
    safe := ScanList(TrimSpace(cmd), Dangerous);
  }

  /** The scan over the blacklist. */
  method ScanList(s: string, list: seq<string>) returns (clean: bool)
    ensures clean <==> Clean(s, list)
  {
    var k := 0;
    while k < |list|
      invariant 0 <= k <= |list|
      invariant forall j | 0 <= j < k :: !Contains(s, list[j])
    {
      if Contains(s, list[k]) {
        return false;
      }
      k := k + 1;
    }
    return true;
  }

  /** What `CallTool` does before executing: answer at once, or run the command with a timeout in seconds. */
  datatype Decision = Answer(text: string) | Run(command: string, timeoutSeconds: nat)

  const CommandRequired := "Error: 'command' argument is required."
  const Blocked := "Error: Command contains forbidden/dangerous keywords. Blocked for security."

  /** The timeout: 60 seconds unless a positive one is asked for. */
  function TimeoutOf(requested: int): (t: nat)
    ensures requested > 0 ==> t == requested
    ensures requested <= 0 ==> t == 60
  {
    if requested > 0 then requested else 60
  }

  /** `CallTool` up to the process start; `decode` is the JSON decoder of the arguments. */
  method Precheck(arguments: string, decode: string -> Result<BashArgs, string>) returns (d: Decision)
    ensures decode(arguments).Err? ==> d == Answer("Error parsing arguments: " + decode(arguments).error)
    ensures decode(arguments).Ok? ==>
      var a := decode(arguments).value;
      (a.command == "" ==> d == Answer(CommandRequired))
      && (a.command != "" && !Safe(a.command) ==> d == Answer(Blocked))
      && (a.command != "" && Safe(a.command) ==> d == Run(a.command, TimeoutOf(a.timeout)))
    ensures d.Run? ==> Safe(d.command) && d.timeoutSeconds > 0
  {
    var parsed := decode(arguments);
    if parsed.Err? {
      return Answer("Error parsing arguments: " + parsed.error);
    }
    var args := parsed.value;
    if args.command == "" {
      return Answer(CommandRequired);
    }
    var safe := IsCommandSafe(args.command);
    if !safe {
      return Answer(Blocked);
    }
    var timeout := 60;
    if args.timeout > 0 {
      timeout := args.timeout;
    }
    return Run(args.command, timeout);
  }

  /** An occurrence of a needle with no white space at either end survives trimming. */
  lemma OccurrenceSurvivesTrim(cmd: string, d: string, i: nat)
    requires |d| > 0 && !IsSpace(d[0]) && !IsSpace(d[|d| - 1])
    requires OccursAt(cmd, d, i)
    ensures Contains(TrimSpace(cmd), d)
  {
    var j := SurvivesTrimLeft(cmd, d, i);
    SurvivesTrimRight(TrimLeft(cmd), d, j);
  }

  /** Dropping leading white space keeps an occurrence that starts with a non-space. */
  lemma SurvivesTrimLeft(s: string, d: string, i: nat) returns (j: nat)
    requires |d| > 0 && !IsSpace(d[0]) && OccursAt(s, d, i)
    ensures OccursAt(TrimLeft(s), d, j)
  {
    var l := TrimLeft(s);
    var a := |s| - |l|;
    assert s[i] == d[0];
    assert i >= a;
    j := i - a;
    assert l[j..j + |d|] == s[i..i + |d|];
  }

  /** Dropping trailing white space keeps an occurrence that ends with a non-space. */
  lemma SurvivesTrimRight(s: string, d: string, i: nat)
    requires |d| > 0 && !IsSpace(d[|d| - 1]) && OccursAt(s, d, i)
    ensures OccursAt(TrimRight(s), d, i)
  {
    var r := TrimRight(s);
    assert s[i + |d| - 1] == d[|d| - 1];
    assert i + |d| <= |r|;
    assert r[i..i + |d|] == s[i..i + |d|];
  }

  /**
   * A blacklisted entry with no white space at either end blocks every command it occurs in,
   * wherever it occurs.
   */
  lemma InnerOccurrenceBlocks(cmd: string, k: nat, i: nat)
    requires k < |Dangerous| && |Dangerous[k]| > 0
    requires !IsSpace(Dangerous[k][0]) && !IsSpace(Dangerous[k][|Dangerous[k]| - 1])
    requires OccursAt(cmd, Dangerous[k], i)
    ensures !Safe(cmd)
  {
    OccurrenceSurvivesTrim(cmd, Dangerous[k], i);
  }
}
