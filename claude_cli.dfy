/** The local-process adapter (`call_claude_cli`): the argument vector given
    to the `claude` executable, the interpretation of its exit, and the
    clean-up of what it prints. Launching the process is outside the model;
    its outcome is an input. */
module ClaudeCli {
  import opened Wrappers
  import opened Text
  import opened UnifiedRequest

  const Program: string := "claude"

  /** Appended to a non-empty system prompt so that the CLI returns only
      the transformed text. */
  const OutputOnlySuffix: string :=
    "\n\nIMPORTANT: Return ONLY the processed text. Do not include any explanations, meta-commentary, questions, or conversational text. Just return the result directly."

  const Fence: string := "```"

  /** How the adapter's error messages name the executable. */
  const CliName: string := "Claude CLI"

  /** How the launch error says to install the tool. */
  const InstallHint: string := "brew install claude"

  /** A command line: the program and its arguments. */
  datatype Invocation = Invocation(program: string, args: seq<string>)

  /** What running the command produced. `stdout` is `Err` when standard
      output is not valid UTF-8; standard error is decoded lossily and so
      is always text. */
  datatype CliOutcome =
    | LaunchFailed(cause: string)
    | Exited(success: bool, stdout: Result<string>, stderr: string)

  /** The `--system-prompt` value; empty exactly when the system prompt is. */
  function EnhancedPrompt(systemPrompt: string): (r: string)
    ensures r == "" <==> systemPrompt == ""
  {
    if systemPrompt == "" then "" else systemPrompt + OutputOnlySuffix
  }

  /** The arguments passed to `claude`: the user content always follows `-p`
      unchanged, and the instruction argument appears only for a non-empty
      system prompt (raw passthrough otherwise). */
  function Arguments(request: LlmRequest): (r: seq<string>)
    ensures |r| >= 2 && r[0] == "-p" && r[1] == request.userContent
    ensures |r| == 2 <==> request.systemPrompt == ""
    ensures |r| != 2 ==> r == ["-p", request.userContent, "--system-prompt", request.systemPrompt + OutputOnlySuffix]
  {
    var enhanced := EnhancedPrompt(request.systemPrompt);
    if enhanced == "" then ["-p", request.userContent]
    else ["-p", request.userContent, "--system-prompt", enhanced]
  }

  function CommandFor(request: LlmRequest): Invocation {
    Invocation(Program, Arguments(request))
  }

  /** Reads a request back from an argument vector built by `Arguments`:
      the `--system-prompt` value minus the fixed suffix is the system prompt,
      its absence means an empty one. */
  function RequestFromArguments(args: seq<string>): Option<LlmRequest> {
    if |args| == 2 && args[0] == "-p" then Some(LlmRequest("", args[1]))
    else if |args| == 4 && args[0] == "-p" && args[2] == "--system-prompt"
      && |args[3]| > |OutputOnlySuffix| && EndsWith(args[3], OutputOnlySuffix)
    then Some(LlmRequest(args[3][..|args[3]| - |OutputOnlySuffix|], args[1]))
    else None
  }

  /** No part of the request is lost on the command line. */
  lemma ArgumentsRoundTrip(request: LlmRequest)
    ensures RequestFromArguments(Arguments(request)) == Some(request)
  {
    var args := Arguments(request);
    if request.systemPrompt != "" {
      var v := request.systemPrompt + OutputOnlySuffix;
      assert args[3] == v;
      assert v[|v| - |OutputOnlySuffix|..] == OutputOnlySuffix;
      assert v[..|v| - |OutputOnlySuffix|] == request.systemPrompt;
    }
  }

  /** The clean-up chain applied to the CLI's standard output: trim, remove
      every leading "```", remove every trailing "```", trim again. */
  function CleanOutput(stdout: string): (r: string)
    ensures Trimmed(r)
  {
    Trim(TrimEndMatches(TrimStartMatches(Trim(stdout), Fence), Fence))
  }

  /** The four stages of `CleanOutput`, one name per intermediate string. */
  lemma CleanStages(s: string, trimmed: string, unopened: string, unclosed: string)
    requires Trim(s) == trimmed
    requires TrimStartMatches(trimmed, Fence) == unopened
    requires TrimEndMatches(unopened, Fence) == unclosed
    ensures CleanOutput(s) == Trim(unclosed)
  {
  }

  /** Text with no outer whitespace and no fence at either end comes back
      unchanged. */
  lemma CleanKeepsPlainText(s: string)
    requires Trimmed(s) && !StartsWith(s, Fence) && !EndsWith(s, Fence)
    ensures CleanOutput(s) == s
  {
    TrimOfTrimmed(s);
    NoLeadingFence(s);
    NoTrailingFence(s);
    CleanStages(s, s, s, s);
  }

  lemma NoLeadingFence(s: string)
    requires !StartsWith(s, Fence)
    ensures TrimStartMatches(s, Fence) == s
  {
  }

  lemma NoTrailingFence(s: string)
    requires !EndsWith(s, Fence)
    ensures TrimEndMatches(s, Fence) == s
  {
  }

  /** In particular, text without backticks and without outer whitespace. */
  lemma CleanKeepsTextWithoutBackticks(s: string)
    requires Trimmed(s) && '`' !in s
    ensures CleanOutput(s) == s
  {
    if |s| >= 3 {
      assert s[0] != '`' && s[..3][0] == s[0];
      assert s[|s| - 1] != '`' && s[|s| - 3..][2] == s[|s| - 1];
    }
    CleanKeepsPlainText(s);
  }

  /** Cleaning twice changes nothing more unless the first pass leaves a
      fence at one end. */
  lemma CleanIdempotentUnlessFenced(s: string)
    ensures !StartsWith(CleanOutput(s), Fence) && !EndsWith(CleanOutput(s), Fence)
      ==> CleanOutput(CleanOutput(s)) == CleanOutput(s)
  {
    if !StartsWith(CleanOutput(s), Fence) && !EndsWith(CleanOutput(s), Fence) {
      CleanKeepsPlainText(CleanOutput(s));
    }
  }

  /** A fence run starts and ends with a backtick. */
  lemma FencesAreBackticks(count: nat)
    requires count >= 1
    ensures var f := Repeat(Fence, count); |f| >= 3 && f[0] == '`' && f[|f| - 1] == '`'
  {
    var f := Repeat(Fence, count);
    assert f == Fence + Repeat(Fence, count - 1);
    RepeatSnoc(Fence, count - 1);
    assert f == Repeat(Fence, count - 1) + Fence;
  }

  /** Output made only of a fence run between whitespace cleans to "". */
  lemma CleanFenceOnly(front: string, count: nat, back: string)
    requires AllWhitespace(front) && AllWhitespace(back)
    ensures CleanOutput(front + Repeat(Fence, count) + back) == ""
  {
    var s := front + Repeat(Fence, count) + back;
    if count == 0 {
      assert s == front + back;
      TrimAllWhitespace(s);
      NoLeadingFence([]);
      NoTrailingFence([]);
      CleanStages(s, [], [], []);
    } else {
      var fences := Repeat(Fence, count);
      FencesAreBackticks(count);
      TrimPadded(front, fences, back);
      FenceRunVanishes(count);
      NoTrailingFence([]);
      CleanStages(s, fences, [], []);
    }
  }

  lemma FenceRunVanishes(count: nat)
    ensures TrimStartMatches(Repeat(Fence, count), Fence) == []
  {
    assert Repeat(Fence, count) + [] == Repeat(Fence, count);
    TrimStartMatchesRepeat(Fence, count, []);
  }

  /** A string made only of whitespace trims to "". */
  lemma TrimAllWhitespace(s: string)
    requires AllWhitespace(s)
    ensures Trim(s) == ""
  {
    TrimStartPadded(s, []);
    assert s + [] == s;
  }

  /** A fenced block loses its fences and the whitespace inside them. */
  lemma CleanUnwrapsFencedBlock(front: string, opening: nat, body: string, closing: nat, back: string)
    requires AllWhitespace(front) && AllWhitespace(back)
    requires opening >= 1 && closing >= 1
    requires body != [] && body[0] != '`' && body[|body| - 1] != '`'
    ensures CleanOutput(front + Repeat(Fence, opening) + body + Repeat(Fence, closing) + back) == Trim(body)
  {
    var open, close := Repeat(Fence, opening), Repeat(Fence, closing);
    var rest := body + close;
    var block := open + rest;
    var s := front + open + body + close + back;
    ConcatAssoc(front, open, body);
    ConcatAssoc(front, open + body, close);
    ConcatAssoc(open, body, close);
    assert s == front + block + back;
    BlockIsTrimmed(open, body, close, opening, closing);
    TrimPadded(front, block, back);
    assert rest[0] == body[0];
    NotFenceStart(rest);
    TrimStartMatchesRepeat(Fence, opening, rest);
    NotFenceEnd(body);
    TrimEndMatchesRepeat(body, Fence, closing);
    CleanStages(s, block, rest, body);
  }

  lemma NotFenceStart(t: string)
    requires t != [] && t[0] != '`'
    ensures !StartsWith(t, Fence)
  {
    if |t| >= 3 {
      assert t[..3][0] == t[0];
    }
  }

  lemma NotFenceEnd(t: string)
    requires t != [] && t[|t| - 1] != '`'
    ensures !EndsWith(t, Fence)
  {
    if |t| >= 3 {
      assert t[|t| - 3..][2] == t[|t| - 1];
    }
  }

  lemma BlockIsTrimmed(open: string, body: string, close: string, opening: nat, closing: nat)
    requires opening >= 1 && closing >= 1
    requires open == Repeat(Fence, opening) && close == Repeat(Fence, closing)
    ensures var block := open + (body + close); block != [] && Trimmed(block)
  {
    FencesAreBackticks(opening);
    FencesAreBackticks(closing);
  }

  /** The clean-up is not idempotent: an inner fence surfaces only after a
      first pass. */
  lemma CleanNotIdempotent()
    ensures CleanOutput("``` ```x```") == "```x"
    ensures CleanOutput("```x") == "x"
  {
    FirstPassOfNested();
    SecondPassOfNested();
  }

  lemma FirstPassOfNested()
    ensures CleanOutput("``` ```x```") == "```x"
  {
    var s := "``` ```x```";
    TrimOfTrimmed(s);
    assert s == Repeat(Fence, 1) + " ```x```";
    TrimStartMatchesRepeat(Fence, 1, " ```x```");
    assert " ```x```" == " ```x" + Repeat(Fence, 1);
    TrimEndMatchesRepeat(" ```x", Fence, 1);
    assert " ```x" == " " + "```x" + "";
    TrimPadded(" ", "```x", "");
    CleanStages(s, s, " ```x```", " ```x");
  }

  lemma SecondPassOfNested()
    ensures CleanOutput("```x") == "x"
  {
    var t := "```x";
    TrimOfTrimmed(t);
    assert t == Repeat(Fence, 1) + "x";
    TrimStartMatchesRepeat(Fence, 1, "x");
    NoTrailingFence("x");
    TrimOfTrimmed("x");
    CleanStages(t, t, "x", "x");
  }

  /** The error when the program cannot be started. */
  function LaunchError(cause: string): string {
    "Failed to execute " + CliName + ": " + cause + ". Make sure " + CliName + " is installed (" + InstallHint + ")"
  }

  /** The error when the program exits unsuccessfully. */
  function RunError(stderr: string): string {
    CliName + " error: " + stderr + "\n\nMake sure " + CliName + " is installed and authenticated."
  }

  /** The error when standard output is not valid UTF-8. */
  function DecodeError(message: string): string {
    "Failed to parse " + CliName + " output: " + message
  }

  /** `call_claude_cli` after the launch: a launch failure, a non-zero exit
      and undecodable output are errors; otherwise the cleaned output. */
  function Outcome(outcome: CliOutcome): (r: Result<string>)
    ensures r.Ok? <==> outcome.Exited? && outcome.success && outcome.stdout.Ok?
    ensures r.Ok? ==> Trimmed(r.value)
  {
    match outcome
    case LaunchFailed(cause) => Err(LaunchError(cause))
    case Exited(success, stdout, stderr) =>
      if !success then Err(RunError(stderr))
      else if stdout.Err? then Err(DecodeError(stdout.error))
      else Ok(CleanOutput(stdout.value))
  }

  /** The launch error names the tool, gives the cause and the install hint. */
  lemma LaunchErrorCarries(cause: string)
    ensures StartsWith(LaunchError(cause), "Failed to execute")
    ensures Contains(LaunchError(cause), CliName)
    ensures Contains(LaunchError(cause), cause)
    ensures Contains(LaunchError(cause), InstallHint)
  {
    var named := "Failed to execute " + CliName;
    var caused := named + ": " + cause;
    var hinted := caused + ". Make sure " + CliName + " is installed (";
    assert named[..|"Failed to execute"|] == "Failed to execute";
    StartsWithExtend(named, ": ", "Failed to execute");
    StartsWithExtend(named + ": ", cause, "Failed to execute");
    StartsWithExtend(caused, ". Make sure ", "Failed to execute");
    StartsWithExtend(caused + ". Make sure ", CliName, "Failed to execute");
    StartsWithExtend(caused + ". Make sure " + CliName, " is installed (", "Failed to execute");
    StartsWithExtend(hinted, InstallHint, "Failed to execute");
    StartsWithExtend(hinted + InstallHint, ")", "Failed to execute");
    ContainsSelf(CliName);
    ContainsExtendLeft("Failed to execute ", CliName, CliName);
    ContainsExtendRight(named, ": ", CliName);
    ContainsExtendRight(named + ": ", cause, CliName);
    ContainsSelf(cause);
    ContainsExtendLeft(named + ": ", cause, cause);
    ExtendByHint(caused, cause);
    ContainsExtendRight(caused, ". Make sure ", CliName);
    ExtendByHint(caused, CliName);
    ContainsSelf(InstallHint);
    ContainsExtendLeft(hinted, InstallHint, InstallHint);
    ContainsExtendRight(hinted + InstallHint, ")", InstallHint);
  }

  /** What follows the cause in the launch error keeps an occurrence. */
  lemma ExtendByHint(caused: string, pattern: string)
    requires Contains(caused, pattern)
    ensures Contains(caused + ". Make sure " + CliName + " is installed (" + InstallHint + ")", pattern)
  {
    ContainsExtendRight(caused, ". Make sure ", pattern);
    ContainsExtendRight(caused + ". Make sure ", CliName, pattern);
    ContainsExtendRight(caused + ". Make sure " + CliName, " is installed (", pattern);
    ContainsExtendRight(caused + ". Make sure " + CliName + " is installed (", InstallHint, pattern);
    ContainsExtendRight(caused + ". Make sure " + CliName + " is installed (" + InstallHint, ")", pattern);
  }

  /** The failed-run error names the tool and quotes standard error. */
  lemma RunErrorCarries(stderr: string)
    ensures Contains(RunError(stderr), CliName)
    ensures Contains(RunError(stderr), stderr)
  {
    var head := CliName + " error: ";
    ContainsSelf(CliName);
    ContainsExtendRight(CliName, " error: ", CliName);
    ContainsExtendRight(head, stderr, CliName);
    ContainsSelf(stderr);
    ContainsExtendLeft(head, stderr, stderr);
    ExtendByAdvice(head + stderr, CliName);
    ExtendByAdvice(head + stderr, stderr);
  }

  /** What follows standard error in the failed-run error keeps an occurrence. */
  lemma ExtendByAdvice(quoted: string, pattern: string)
    requires Contains(quoted, pattern)
    ensures Contains(quoted + "\n\nMake sure " + CliName + " is installed and authenticated.", pattern)
  {
    ContainsExtendRight(quoted, "\n\nMake sure ", pattern);
    ContainsExtendRight(quoted + "\n\nMake sure ", CliName, pattern);
    ContainsExtendRight(quoted + "\n\nMake sure " + CliName, " is installed and authenticated.", pattern);
  }

  /** The decoding error names the tool and quotes the decoder's message. */
  lemma DecodeErrorCarries(message: string)
    ensures Contains(DecodeError(message), CliName)
    ensures Contains(DecodeError(message), message)
  {
    ContainsSelf(CliName);
    ContainsExtendLeft("Failed to parse ", CliName, CliName);
    ContainsExtendRight("Failed to parse " + CliName, " output: ", CliName);
    ContainsExtendRight("Failed to parse " + CliName + " output: ", message, CliName);
    ContainsSelf(message);
    ContainsExtendLeft("Failed to parse " + CliName + " output: ", message, message);
  }

  /** Every failure of this adapter says it came from the Claude CLI and
      carries what went wrong: the launch error its cause and the install
      hint, a failed run its standard error, undecodable output the
      decoder's message. A success is the cleaned standard output. */
  lemma OutcomeNamesTheCli(outcome: CliOutcome)
    ensures Outcome(outcome).Err? ==> Contains(Outcome(outcome).error, CliName)
    ensures outcome.LaunchFailed? ==>
      Outcome(outcome).Err? && Contains(Outcome(outcome).error, outcome.cause)
      && Contains(Outcome(outcome).error, InstallHint)
    ensures outcome.Exited? && !outcome.success ==>
      Outcome(outcome).Err? && Contains(Outcome(outcome).error, outcome.stderr)
    ensures outcome.Exited? && outcome.success && outcome.stdout.Err? ==>
      Outcome(outcome).Err? && Contains(Outcome(outcome).error, outcome.stdout.error)
    ensures Outcome(outcome).Ok? ==>
      outcome.Exited? && outcome.success && outcome.stdout.Ok?
      && Outcome(outcome).value == CleanOutput(outcome.stdout.value)
  {
    match outcome
    case LaunchFailed(cause) => LaunchErrorCarries(cause);
    case Exited(success, stdout, stderr) =>
      if !success {
        RunErrorCarries(stderr);
      } else if stdout.Err? {
        DecodeErrorCarries(stdout.error);
      }
  }
}
