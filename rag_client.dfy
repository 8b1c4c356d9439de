/**
 * The query runner: a process-wide cache of whether `scripts.ask` accepts
 * `--format`, filled once by a help-text probe; one query run; and the
 * one- or two-run `ask_with_evidence` built on it.
 */
module RagClient {
  import opened Wrappers
  import opened PyText
  import opened SearchPath
  import opened CommandLine
  import opened Evidence

  /** One child-process launch as the runner sets it up. */
  datatype Invocation = Invocation(argv: seq<string>, cwd: string, env: map<string, string>, timeout: int)

  /** How a launch ended: the child exited with captured output, or the launch
    * itself raised (the executable could not be started, the timeout hit,
    * or its output could not be decoded). */
  datatype Outcome = Exited(stdout: string, stderr: string, returncode: int) | Failed

  datatype Call = Call(invocation: Invocation, outcome: Outcome)

  /** Seconds allowed for the help probe. */
  const HelpTimeout: int := 15
  /** Default seconds allowed for one query run. */
  const AskTimeout: int := 120

  /**
   * The operating system as the runner sees it: the environment it copies for
   * every child, the platform's path-list separator, and launches whose
   * outcome it cannot predict. `Calls` logs every launch in order.
   */
  class ProcessHost {
    const environ: map<string, string>
    const pathsep: string
    ghost var Calls: seq<Call>

    constructor (environ: map<string, string>, pathsep: string)
      ensures this.environ == environ && this.pathsep == pathsep
      ensures Calls == []
    {
      this.environ := environ;
      this.pathsep := pathsep;
      Calls := [];
    }

    /** Runs a child process to completion; any outcome is possible. */
    method Launch(inv: Invocation) returns (o: Outcome)
      modifies this
      ensures Calls == old(Calls) + [Call(inv, o)]
    {
      o := *;
      Calls := Calls + [Call(inv, o)];
    }
  }

  /** What the probe concludes from one launch of `--help`: support exactly
    * when `--format` occurs in stdout, a newline and stderr; the exit code is
    * never looked at, and a launch that raised means no support. */
  function ProbeVerdict(o: Outcome): (supported: bool)
    ensures o.Exited? ==> (supported <==> IsSubstring(FormatFlag, o.stdout + "\n" + o.stderr))
    ensures o.Failed? ==> !supported
  {
    match o
    case Exited(out, err, _) =>
      ContainsIsSubstring(out + "\n" + err, FormatFlag);
      Contains(out + "\n" + err, FormatFlag)
    case Failed => false
  }

  /** What one query run returns for a launch outcome: both streams stripped
    * and the exit code passed through, or the launch's exception. */
  function RunOf(o: Outcome): (r: Result<RunResult>)
    ensures r.Ok? <==> o.Exited?
    ensures r.Ok? ==> IsStripOf(r.value.stdout, o.stdout) && IsStripOf(r.value.stderr, o.stderr)
    ensures r.Ok? ==> IsStrippedRun(r.value) && r.value.returncode == o.returncode
  {
    match o
    case Exited(out, err, rc) => Ok(RunResult(Strip(out), Strip(err), rc))
    case Failed => Raised
  }

  /** The runner module's state: the cached `--format` capability and the
    * fixed facts about where and how `scripts.ask` is launched. */
  class Client {
    /** `None` until the first probe; never changes once set. */
    var formatSupported: Option<bool>
    /** The repository root: the children's working directory and the entry
      * put in front of their search path. */
    const repoRoot: string
    /** The Python interpreter that runs `scripts.ask`. */
    const exe: string
    const host: ProcessHost

    constructor (repoRoot: string, exe: string, host: ProcessHost)
      ensures formatSupported == None
      ensures this.repoRoot == repoRoot && this.exe == exe && this.host == host
    {
      formatSupported := None;
      this.repoRoot := repoRoot;
      this.exe := exe;
      this.host := host;
    }

    /** The environment every child gets: the host's, with the search path
      * extended by the repository root. */
    function ChildEnv(): map<string, string> {
      WithSearchPath(host.environ, repoRoot, host.pathsep)
    }

    function HelpInvocation(): Invocation {
      Invocation([exe, "-m", "scripts.ask", "--help"], repoRoot, ChildEnv(), HelpTimeout)
    }

    function AskInvocation(argv: seq<string>, timeout: int): Invocation {
      Invocation(argv, repoRoot, ChildEnv(), timeout)
    }

    /** What one call of the probe does to the cache and to the launch log:
      * with a cached value, nothing; otherwise one help launch whose verdict
      * is cached. */
    ghost predicate ProbeStep(before: Option<bool>, after: Option<bool>, launched: seq<Call>) {
      if before.Some? then after == before && launched == []
      else |launched| == 1 && launched[0].invocation == HelpInvocation()
           && after == Some(ProbeVerdict(launched[0].outcome))
    }

    /** Number of help launches one probe call makes from a cache state. */
    static function ProbeLaunches(cache: Option<bool>): nat {
      if cache.None? then 1 else 0
    }

    /** `_detect_format_flag`. */
    method DetectFormatFlag() returns (supported: bool)
      modifies this, host
      ensures formatSupported == Some(supported)
      ensures |host.Calls| == |old(host.Calls)| + ProbeLaunches(old(formatSupported))
      ensures host.Calls[..|old(host.Calls)|] == old(host.Calls)
      ensures ProbeStep(old(formatSupported), formatSupported, host.Calls[|old(host.Calls)|..])
    {
      if formatSupported.Some? {
        supported := formatSupported.value;
        return;
      }
      var o := host.Launch(HelpInvocation());
      supported := ProbeVerdict(o);
      formatSupported := Some(supported);
      assert host.Calls[|old(host.Calls)|..] == [Call(HelpInvocation(), o)];
    }

    /** The `--format` group of `_run_ask`: the probe runs only when a
      * non-empty format is asked for, and the group is added only when the
      * probe reports support. */
    method FormatGroup(fmt: Option<string>) returns (group: seq<string>)
      modifies this, host
      ensures group == if Truthy(fmt) && formatSupported == Some(true) then [FormatFlag, fmt.value] else []
      ensures Truthy(fmt) ==>
        formatSupported.Some?
        && |host.Calls| == |old(host.Calls)| + ProbeLaunches(old(formatSupported))
        && host.Calls[..|old(host.Calls)|] == old(host.Calls)
        && ProbeStep(old(formatSupported), formatSupported, host.Calls[|old(host.Calls)|..])
      ensures !Truthy(fmt) ==> formatSupported == old(formatSupported) && host.Calls == old(host.Calls)
    {
      group := [];
      if Truthy(fmt) {
        var supported := DetectFormatFlag();
        if supported {
          group := [FormatFlag, fmt.value];
        }
      }
    }

    /** `_run_ask`: builds the argument vector (probing only when a format is
      * asked for), launches the query and returns its stripped output, or
      * passes on the launch's exception. */
    method RunAsk(req: AskRequest, fmt: Option<string>, timeout: int := AskTimeout)
      returns (r: Result<RunResult>)
      modifies this, host
      ensures Truthy(fmt) ==> formatSupported.Some?
      ensures var probes := if Truthy(fmt) then ProbeLaunches(old(formatSupported)) else 0;
        |host.Calls| == |old(host.Calls)| + probes + 1
        && host.Calls[..|old(host.Calls)|] == old(host.Calls)
        && (Truthy(fmt) ==> ProbeStep(old(formatSupported), formatSupported,
                                      host.Calls[|old(host.Calls)|..|old(host.Calls)| + probes]))
        && (!Truthy(fmt) ==> formatSupported == old(formatSupported))
      ensures var last := host.Calls[|host.Calls| - 1];
        last.invocation == AskInvocation(Argv(exe, req, fmt, formatSupported == Some(true)), timeout)
        && r == RunOf(last.outcome)
      ensures old(formatSupported).Some? || !Truthy(fmt) ==>
        formatSupported == old(formatSupported)
        && host.Calls == old(host.Calls) + [host.Calls[|host.Calls| - 1]]
    {
      ghost var n := |old(host.Calls)|;
      var group := FormatGroup(fmt);
      ghost var probed := host.Calls;
      var cmd := Prefix(exe, req) + group;
      ghost var tail := group;
      if req.backend != NoBackend && Truthy(req.model) {
        cmd := cmd + [ModelFlag, req.model.value];
        tail := tail + [ModelFlag, req.model.value];
        assert cmd == Prefix(exe, req) + tail;
      }
      if !req.rerank {
        cmd := cmd + [NoRerankFlag];
        tail := tail + [NoRerankFlag];
        assert cmd == Prefix(exe, req) + tail;
      }
      assert tail == FlagArgs(SelectFlags(req, fmt, formatSupported == Some(true)));
      var o := host.Launch(AskInvocation(cmd, timeout));
      r := RunOf(o);
      assert host.Calls == probed + [Call(AskInvocation(cmd, timeout), o)];
      assert host.Calls[..|probed|] == probed;
    }

    /** The query launches `ask_with_evidence` makes once the capability is
      * known, and the reply it builds from them: with support, a concise run
      * and then (unless it raised) a full run, folded together; without, one
      * run with no format, folded alone. An exception ends the call. */
    ghost predicate AskRuns(req: AskRequest, supported: bool, runs: seq<Call>, r: Result<Reply>) {
      if supported then
        |runs| >= 1
        && runs[0].invocation == AskInvocation(Argv(exe, req, Some("concise"), true), AskTimeout)
        && match RunOf(runs[0].outcome)
           case Raised => |runs| == 1 && r == Raised
           case Ok(concise) =>
             |runs| == 2
             && runs[1].invocation == AskInvocation(Argv(exe, req, Some("full"), true), AskTimeout)
             && r == match RunOf(runs[1].outcome)
                     case Ok(full) => Ok(FoldTwoRuns(concise, full))
                     case Raised => Raised
      else
        |runs| == 1
        && runs[0].invocation == AskInvocation(Argv(exe, req, None, false), AskTimeout)
        && r == match RunOf(runs[0].outcome)
                case Ok(run) => Ok(FoldOneRun(run))
                case Raised => Raised
    }

    /** The supported branch of `ask_with_evidence`: a concise run for the
      * answer, then a full run for the evidence. */
    method AskTwoRuns(req: AskRequest) returns (r: Result<Reply>)
      requires formatSupported == Some(true)
      modifies this, host
      ensures formatSupported == old(formatSupported)
      ensures |old(host.Calls)| <= |host.Calls| && host.Calls[..|old(host.Calls)|] == old(host.Calls)
      ensures AskRuns(req, true, host.Calls[|old(host.Calls)|..], r)
    {
      ghost var before := host.Calls;
      var concise := RunAsk(req, Some("concise"));
      ghost var c1 := host.Calls[|host.Calls| - 1];
      assert c1.invocation == AskInvocation(Argv(exe, req, Some("concise"), true), AskTimeout);
      assert host.Calls[|before|..] == [c1];
      if concise.Raised? {
        return Raised;
      }
      var full := RunAsk(req, Some("full"));
      ghost var c2 := host.Calls[|host.Calls| - 1];
      assert c2.invocation == AskInvocation(Argv(exe, req, Some("full"), true), AskTimeout);
      assert host.Calls == before + [c1, c2];
      assert host.Calls[|before|..] == [c1, c2];
      if full.Raised? {
        return Raised;
      }
      r := Ok(FoldTwoRuns(concise.value, full.value));
    }

    /** The unsupported branch of `ask_with_evidence`: one run without a
      * format, its stderr (if any) becoming the evidence. */
    method AskOneRun(req: AskRequest) returns (r: Result<Reply>)
      requires formatSupported == Some(false)
      modifies this, host
      ensures formatSupported == old(formatSupported)
      ensures |old(host.Calls)| <= |host.Calls| && host.Calls[..|old(host.Calls)|] == old(host.Calls)
      ensures AskRuns(req, false, host.Calls[|old(host.Calls)|..], r)
    {
      ghost var before := host.Calls;
      var run := RunAsk(req, None);
      ghost var c1 := host.Calls[|host.Calls| - 1];
      assert host.Calls[|before|..] == [c1];
      if run.Raised? {
        return Raised;
      }
      r := Ok(FoldOneRun(run.value));
    }

    /** `ask_with_evidence`: probe (or reuse the cached answer), then the runs
      * `AskRuns` describes. */
    method AskWithEvidence(req: AskRequest) returns (r: Result<Reply>)
      modifies this, host
      ensures formatSupported.Some?
      ensures var start := |old(host.Calls)| + ProbeLaunches(old(formatSupported));
        start <= |host.Calls|
        && host.Calls[..|old(host.Calls)|] == old(host.Calls)
        && ProbeStep(old(formatSupported), formatSupported, host.Calls[|old(host.Calls)|..start])
        && AskRuns(req, formatSupported.value, host.Calls[start..], r)
    {
      ghost var before := host.Calls;
      var supported := DetectFormatFlag();
      ghost var afterProbe := host.Calls;
      if supported {
        r := AskTwoRuns(req);
      } else {
        r := AskOneRun(req);
      }
      assert host.Calls[..|afterProbe|] == afterProbe;
      assert host.Calls[|before|..|afterProbe|] == afterProbe[|before|..];
    }
  }
}
