/**
 * The argument vector the query runner hands to `python -m scripts.ask`:
 * a fixed prefix, then up to three optional flag groups in a fixed order.
 */
module CommandLine {
  import opened Wrappers
  import opened PyText

  /** One query and its settings, with the defaults of the runner's keyword
    * arguments. */
  datatype AskRequest = AskRequest(
    query: string,
    storage: string := "storage",
    k: int := 4,
    backend: string := "openai",
    model: Option<string> := Some("gpt-5-mini"),
    rerank: bool := true)

  /** The optional part of a command line, as read back from it. */
  datatype Flags = Flags(format: Option<string>, model: Option<string>, noRerank: bool)

  const FormatFlag: string := "--format"
  const ModelFlag: string := "--llm-model"
  const NoRerankFlag: string := "--no-rerank"

  /** The model flag is suppressed for this backend. */
  const NoBackend: string := "none"

  /** The eleven arguments every query invocation starts with. */
  function Prefix(exe: string, req: AskRequest): seq<string> {
    [exe, "-m", "scripts.ask",
     "--storage", req.storage,
     "--k", IntToString(req.k),
     "--llm-backend", req.backend,
     "--q", req.query]
  }

  /** Which optional groups the runner appends. */
  function SelectFlags(req: AskRequest, fmt: Option<string>, formatSupported: bool): Flags {
    Flags(
      if Truthy(fmt) && formatSupported then fmt else None,
      if req.backend != NoBackend && Truthy(req.model) then req.model else None,
      !req.rerank)
  }

  /** The optional groups laid out in their fixed order. */
  function FlagArgs(f: Flags): seq<string> {
    (if f.format.Some? then [FormatFlag, f.format.value] else [])
    + (if f.model.Some? then [ModelFlag, f.model.value] else [])
    + (if f.noRerank then [NoRerankFlag] else [])
  }

  /** The whole argument vector of one query invocation. */
  function Argv(exe: string, req: AskRequest, fmt: Option<string>, formatSupported: bool): seq<string> {
    Prefix(exe, req) + FlagArgs(SelectFlags(req, fmt, formatSupported))
  }

  /** Reads the optional groups back from what follows the prefix, accepting
    * each group at most once and only in the fixed order, and nothing after
    * them (the partner of `FlagArgs`). */
  function ParseFlags(tail: seq<string>): Option<Flags> {
    var (format, t1) :=
      if |tail| >= 2 && tail[0] == FormatFlag then (Some(tail[1]), tail[2..]) else (None, tail);
    var (model, t2) :=
      if |t1| >= 2 && t1[0] == ModelFlag then (Some(t1[1]), t1[2..]) else (None, t1);
    var (noRerank, t3) :=
      if |t2| >= 1 && t2[0] == NoRerankFlag then (true, t2[1..]) else (false, t2);
    if t3 == [] then Some(Flags(format, model, noRerank)) else None
  }

  lemma ParseFlagArgs(f: Flags)
    ensures ParseFlags(FlagArgs(f)) == Some(f)
  {
    var m := if f.model.Some? then [ModelFlag, f.model.value] else [];
    var n := if f.noRerank then [NoRerankFlag] else [];
    var t1 := m + n;
    if f.format.Some? {
      assert FlagArgs(f)[2..] == t1;
    } else {
      assert FlagArgs(f) == t1;
    }
    if f.model.Some? {
      assert t1[2..] == n;
    }
  }

  lemma FlagArgsOfParse(tail: seq<string>, f: Flags)
    requires ParseFlags(tail) == Some(f)
    ensures FlagArgs(f) == tail
  {
    var t1 := if |tail| >= 2 && tail[0] == FormatFlag then tail[2..] else tail;
    var t2 := if |t1| >= 2 && t1[0] == ModelFlag then t1[2..] else t1;
    if f.format.Some? {
      assert tail == [FormatFlag, f.format.value] + t1;
    }
    if f.model.Some? {
      assert t1 == [ModelFlag, f.model.value] + t2;
    }
    if f.noRerank {
      assert t2 == [NoRerankFlag];
    }
  }

  /** The shape of every query invocation: the fixed prefix with the query as
    * one verbatim element, then exactly the flag groups the rules call for,
    * each at most once and in the order format, model, rerank. */
  lemma ArgvLayout(exe: string, req: AskRequest, fmt: Option<string>, formatSupported: bool)
    ensures var a := Argv(exe, req, fmt, formatSupported);
      |a| >= 11
      && a[..11] == [exe, "-m", "scripts.ask", "--storage", req.storage, "--k", IntToString(req.k),
                     "--llm-backend", req.backend, "--q", req.query]
      && IsIntLiteral(a[6]) && ParseInt(a[6]) == req.k
      && ParseFlags(a[11..]).Some?
    ensures var f := ParseFlags(Argv(exe, req, fmt, formatSupported)[11..]).value;
      (f.format.Some? <==> Truthy(fmt) && formatSupported)
      && (f.format.Some? ==> f.format == fmt)
      && (f.model.Some? <==> req.backend != NoBackend && Truthy(req.model))
      && (f.model.Some? ==> f.model == req.model)
      && (f.noRerank <==> !req.rerank)
  {
    var a := Argv(exe, req, fmt, formatSupported);
    var f := SelectFlags(req, fmt, formatSupported);
    assert a[11..] == FlagArgs(f);
    ParseFlagArgs(f);
    ParseIntToString(req.k);
  }

  /** With the extraction-only backend no model is ever passed, whatever the
    * model field holds. */
  lemma NoModelWithoutBackend(exe: string, req: AskRequest, fmt: Option<string>, formatSupported: bool)
    requires req.backend == NoBackend
    ensures ParseFlags(Argv(exe, req, fmt, formatSupported)[11..]) == Some(Flags(
      if Truthy(fmt) && formatSupported then fmt else None, None, !req.rerank))
  {
    ArgvLayout(exe, req, fmt, formatSupported);
  }

  /** An extraction-only query with the default storage and top-k, when
    * `--format` is not supported: just the prefix, no model, no rerank flag. */
  lemma ExtractOnlyQueryArgv(exe: string)
    ensures Argv(exe, AskRequest("東京の人口は？", backend := "none"), None, false)
      == [exe, "-m", "scripts.ask", "--storage", "storage", "--k", "4",
          "--llm-backend", "none", "--q", "東京の人口は？"]
  {
  }
}
