/**
 * The command-construction half of `UlsInputCli` (bin/modules/UlsInputCli.py):
 * choosing the feed and the output format, building the proxy, EdgeGrid
 * authentication and user-agent flags, and assembling the argument vector
 * that starts one producer CLI (EAA, ETP or MFA).
 *
 * Python's `None` is `None` of `Option`; Python truthiness of an optional
 * string ("not x") is `!Truthy(x)`.  `str.lower` and `shlex.split` belong to
 * the Python runtime and are passed in as the functions `lower` and
 * `tokenize`; `tokenize` gives `None` where `shlex.split` raises
 * `ValueError` (an unbalanced quote, say).
 */
module CommandBuilder {
  import opened Wrappers

  /** `bool(x)` for a value that is `None` or a string. */
  predicate Truthy(x: Option<string>) {
    x.Some? && x.value != ""
  }

  /** How an f-string renders a value that is `None` or a string. */
  function Render(x: Option<string>): string {
    if x.Some? then x.value else "None"
  }

  /**
   * The conditions that end `proc_create` abnormally: the first four through
   * `sys.exit(1)`; a raw command `shlex.split` cannot split raises
   * `ValueError` out of `proc_create` before any spawn, with no retry.
   */
  datatype Fatal =
    | InvalidFeed(feed: string)
    | InvalidFormat(format: string)
    | UnknownProduct(product: string)
    | RetriesExhausted(retries: int)
    | UnsplittableRawCommand(rawcmd: string)

  /** The three producers the supervisor can start. */
  datatype Product = EAA | ETP | MFA

  /** Parses the `--input` product name; only the three exact names are known. */
  function ParseProduct(name: string): (p: Option<Product>)
    ensures p.Some? <==> name == "EAA" || name == "ETP" || name == "MFA"
    ensures p.Some? ==> ProductName(p.value) == name
  {
    if name == "EAA" then Some(EAA)
    else if name == "ETP" then Some(ETP)
    else if name == "MFA" then Some(MFA)
    else None
  }

  function ProductName(p: Product): (name: string)
    ensures |name| == 3 && '-' !in name && '_' !in name
  {
    match p
    case EAA => "EAA"
    case ETP => "ETP"
    case MFA => "MFA"
  }

  /**
   * The values the supervisor reads from the global configuration module:
   * interpreter and producer binaries, the ordered feed list of each
   * producer (its first entry is the default), the accepted output formats,
   * the supervisor's version, and the retry timing.
   */
  datatype Config = Config(
    binPython: string,
    binEaaCli: string,
    binEtpCli: string,
    binMfaCli: string,
    eaaCliFeeds: seq<string>,
    etpCliFeeds: seq<string>,
    mfaCliFeeds: seq<string>,
    inputFormatChoices: seq<string>,
    version: string,
    inputRunDelay: int,
    inputRerunRetries: int,
    inputRerunDelay: int)
  {
    /** Every producer has a default feed. */
    predicate Valid() {
      |eaaCliFeeds| > 0 && |etpCliFeeds| > 0 && |mfaCliFeeds| > 0
    }

    function BinPath(p: Product): string {
      match p
      case EAA => binEaaCli
      case ETP => binEtpCli
      case MFA => binMfaCli
    }

    function Feeds(p: Product): (feeds: seq<string>)
      requires Valid()
      ensures |feeds| > 0
    {
      match p
      case EAA => eaaCliFeeds
      case ETP => etpCliFeeds
      case MFA => mfaCliFeeds
    }
  }

  /** The arguments of `proc_create`. */
  datatype Request = Request(
    product: string,
    feed: Option<string>,
    cliformat: Option<string>,
    credentialsFile: string,
    credentialsSection: string,
    rawcmd: Option<string>,
    inproxy: Option<string>)

  /** A non-empty raw command replaces the structured command. */
  predicate RawMode(req: Request) {
    Truthy(req.rawcmd)
  }

  /**
   * `_feed_selector`: a listed feed is kept (membership is tested first), an
   * absent or empty feed becomes the first listed feed, anything else is fatal.
   */
  function FeedSelector(feed: Option<string>, productFeeds: seq<string>): (r: Result<string, Fatal>)
    requires |productFeeds| > 0
    ensures r.Success? <==> (feed.Some? && feed.value in productFeeds) || !Truthy(feed)
    ensures r.Success? ==> r.value in productFeeds
    ensures feed.Some? && feed.value in productFeeds ==> r == Success(feed.value)
    ensures r.Success? && !(feed.Some? && feed.value in productFeeds) ==> r.value == productFeeds[0]
    ensures r.Failure? ==> feed.Some? && r.error == InvalidFeed(feed.value)
  {
    if feed.Some? && feed.value in productFeeds then Success(feed.value)
    else if !Truthy(feed) then Success(productFeeds[0])
    else Failure(InvalidFeed(feed.value))
  }

  /** Selecting the feed once more from its own result changes nothing. */
  lemma FeedSelectorIdempotent(feed: Option<string>, productFeeds: seq<string>)
    requires |productFeeds| > 0
    requires FeedSelector(feed, productFeeds).Success?
    ensures FeedSelector(Some(FeedSelector(feed, productFeeds).value), productFeeds)
         == FeedSelector(feed, productFeeds)
  {
  }

  /**
   * `_format_selector`: a listed format is kept (membership is tested first),
   * an absent or empty format becomes "JSON", anything else is fatal.
   */
  function FormatSelector(cliformat: Option<string>, choices: seq<string>): (r: Result<string, Fatal>)
    ensures r.Success? <==> (cliformat.Some? && cliformat.value in choices) || !Truthy(cliformat)
    ensures r.Success? ==> r.value in choices || r.value == "JSON"
    ensures cliformat.Some? && cliformat.value in choices ==> r == Success(cliformat.value)
    ensures !Truthy(cliformat) && !(cliformat.Some? && cliformat.value in choices) ==> r == Success("JSON")
    ensures r.Failure? ==> cliformat.Some? && r.error == InvalidFormat(cliformat.value)
  {
    if cliformat.Some? && cliformat.value in choices then Success(cliformat.value)
    else if !Truthy(cliformat) then Success("JSON")
    else Failure(InvalidFormat(cliformat.value))
  }

  /** `_prep_proxy`: no tokens without a proxy, otherwise exactly the flag and its value. */
  function PrepProxy(proxy: Option<string>): (r: seq<string>)
    ensures !Truthy(proxy) ==> r == []
    ensures Truthy(proxy) ==> r == ["--proxy", proxy.value]
  {
    if Truthy(proxy) then ["--proxy", proxy.value] else []
  }

  /** `_prep_edgegridauth`: the credentials file and its section, never validated here. */
  function PrepEdgegridAuth(credentialsFile: string, credentialsSection: string): (r: seq<string>)
    ensures |r| == 4 && r[0] == "--edgerc" && r[1] == credentialsFile
    ensures r[2] == "--section" && r[3] == credentialsSection
  {
    ["--edgerc", credentialsFile, "--section", credentialsSection]
  }

  /** The tag `ULS/<version>_<product>-<feed>`. */
  function UserAgentTag(version: string, product: string, feed: string): string {
    "ULS/" + version + "_" + product + "-" + feed
  }

  /** `_uls_useragent`: exactly two tokens, the flag and the tag. */
  function UlsUserAgent(version: string, product: string, feed: string): (r: seq<string>)
    ensures |r| == 2 && r[0] == "--user-agent-prefix"
    ensures r[1] == UserAgentTag(version, product, feed)
    ensures |r[1]| >= 4 && r[1][..4] == "ULS/"
  {
    ["--user-agent-prefix", UserAgentTag(version, product, feed)]
  }

  /** Splits `s` at the first occurrence of `c`. */
  function SplitAt(s: string, c: char): (r: Option<(string, string)>)
    ensures r.Some? ==> s == r.value.0 + [c] + r.value.1 && c !in r.value.0
    ensures r.None? ==> c !in s
  {
    if |s| == 0 then None
    else if s[0] == c then Some(([], s[1..]))
    else match SplitAt(s[1..], c)
      case None => None
      case Some((before, after)) => Some(([s[0]] + before, after))
  }

  lemma {:induction false} SplitAtFirst(before: string, c: char, after: string)
    requires c !in before
    ensures SplitAt(before + [c] + after, c) == Some((before, after))
  {
    var s := before + [c] + after;
    if |before| > 0 {
      assert s[0] == before[0];
      assert s[1..] == before[1..] + [c] + after;
      SplitAtFirst(before[1..], c, after);
      assert [before[0]] + before[1..] == before;
    } else {
      assert s == [c] + after;
    }
  }

  /** Reads a user-agent tag back into version, product and feed. */
  function ParseUserAgentTag(tag: string): (r: Option<(string, string, string)>)
    ensures r.Some? ==> UserAgentTag(r.value.0, r.value.1, r.value.2) == tag
  {
    if |tag| < 4 || tag[..4] != "ULS/" then None
    else match SplitAt(tag[4..], '_')
      case None => None
      case Some((version, rest)) =>
        match SplitAt(rest, '-')
        case None => None
        case Some((product, feed)) =>
          assert tag == tag[..4] + tag[4..];
          Some((version, product, feed))
  }

  /** The tag names its version, product and feed unambiguously. */
  lemma UserAgentTagRoundTrip(version: string, p: Product, feed: string)
    requires '_' !in version
    ensures ParseUserAgentTag(UserAgentTag(version, ProductName(p), feed)) == Some((version, ProductName(p), feed))
  {
    var name := ProductName(p);
    var tag := UserAgentTag(version, name, feed);
    assert tag[..4] == "ULS/";
    assert tag[4..] == version + ['_'] + (name + ['-'] + feed);
    SplitAtFirst(version, '_', name + ['-'] + feed);
    SplitAtFirst(name, '-', feed);
  }

  /** How a producer's option parser reads `--name value` pairs: a later value for a name wins. */
  function Options(tokens: seq<string>): map<string, string>
    decreases |tokens|
  {
    if |tokens| < 2 then map[] else map[tokens[0] := tokens[1]] + Options(tokens[2..])
  }

  lemma OptionsPair(name: string, value: string, rest: seq<string>)
    ensures Options([name, value] + rest) == map[name := value] + Options(rest)
  {
    assert ([name, value] + rest)[2..] == rest;
  }

  /** The option map a proxy argument contributes. */
  function ProxyOption(proxy: Option<string>): map<string, string> {
    if Truthy(proxy) then map["--proxy" := proxy.value] else map[]
  }

  /** The producer reads back exactly the proxy, credentials and tag the builders put in. */
  lemma FlagBlockOptions(proxy: Option<string>, credentialsFile: string, credentialsSection: string,
                         version: string, product: string, feed: string)
    ensures Options(PrepProxy(proxy) + PrepEdgegridAuth(credentialsFile, credentialsSection)
                    + UlsUserAgent(version, product, feed))
         == ProxyOption(proxy) + map["--edgerc" := credentialsFile, "--section" := credentialsSection,
                                     "--user-agent-prefix" := UserAgentTag(version, product, feed)]
  {
    var ua := UlsUserAgent(version, product, feed);
    var tail := ["--section", credentialsSection] + ua;
    OptionsPair(ua[0], ua[1], []);
    assert ua == [ua[0], ua[1]] + [];
    OptionsPair("--section", credentialsSection, ua);
    var auth := PrepEdgegridAuth(credentialsFile, credentialsSection) + ua;
    assert auth == ["--edgerc", credentialsFile] + tail;
    OptionsPair("--edgerc", credentialsFile, tail);
    if Truthy(proxy) {
      assert PrepProxy(proxy) + PrepEdgegridAuth(credentialsFile, credentialsSection) + ua
          == ["--proxy", proxy.value] + auth;
      OptionsPair("--proxy", proxy.value, auth);
    } else {
      assert PrepProxy(proxy) + PrepEdgegridAuth(credentialsFile, credentialsSection) + ua == auth;
    }
  }

  /** The producer's own subcommand: EAA's connector health shape, or stream a feed and follow. */
  function Subcommand(p: Product, feed: string, lower: string -> string): (r: seq<string>)
    ensures |r| >= 3
    ensures r[|r| - 1] != "--json"
    ensures p == EAA && feed == "CONHEALTH" ==> r == ["connector", "list", "--perf", "--tail"]
    ensures !(p == EAA && feed == "CONHEALTH") ==> r[1..] == [lower(feed), "-f"]
    ensures p == EAA && feed != "CONHEALTH" ==> r[0] == "log"
    ensures p != EAA ==> r[0] == "event"
  {
    match p
    case EAA =>
      if feed == "CONHEALTH" then ["connector", "list", "--perf", "--tail"]
      else ["log", lower(feed), "-f"]
    case ETP => ["event", lower(feed), "-f"]
    case MFA => ["event", lower(feed), "-f"]
  }

  /** A finished argument vector and the value `proc_create`'s `feed` variable holds afterwards. */
  datatype Built = Built(command: seq<string>, feed: Option<string>)

  /**
   * The argument vector one loop iteration of `proc_create` builds, in its
   * final token order.  Structured mode: interpreter, producer binary, proxy
   * flags, authentication flags, user-agent flags, subcommand, and for EAA
   * `--json` when the format resolves to "JSON".  Raw mode: interpreter,
   * producer binary, user-agent flags for the feed as given, raw tokens.
   */
  function BuildCommand(cfg: Config, req: Request, lower: string -> string,
                        tokenize: string -> Option<seq<string>>): (r: Result<Built, Fatal>)
    requires cfg.Valid()
    ensures r.Failure? ==> !r.error.RetriesExhausted?
    ensures r.Failure? && r.error.UnknownProduct? <==> ParseProduct(req.product).None?
    ensures r.Failure? && r.error.UnsplittableRawCommand? <==>
              ParseProduct(req.product).Some? && RawMode(req) && tokenize(req.rawcmd.value).None?
    ensures r.Success? ==> var p := ParseProduct(req.product).value;
              && |r.value.command| >= 4
              && r.value.command[..2] == [cfg.binPython, cfg.BinPath(p)]
              && (!RawMode(req) ==> r.value.feed.Some? && r.value.feed.value in cfg.Feeds(p))
              && (RawMode(req) ==> r.value.feed == req.feed)
  {
    match ParseProduct(req.product)
    case None => Failure(UnknownProduct(req.product))
    case Some(p) =>
      var prefix := [cfg.binPython, cfg.BinPath(p)];
      if RawMode(req) then
        match tokenize(req.rawcmd.value)
        case None => Failure(UnsplittableRawCommand(req.rawcmd.value))
        case Some(tokens) =>
          Success(Built(prefix + UlsUserAgent(cfg.version, req.product, Render(req.feed)) + tokens, req.feed))
      else
        match FeedSelector(req.feed, cfg.Feeds(p))
        case Failure(e) => Failure(e)
        case Success(feed) =>
          var cmd := prefix + PrepProxy(req.inproxy)
                     + PrepEdgegridAuth(req.credentialsFile, req.credentialsSection)
                     + UlsUserAgent(cfg.version, req.product, feed) + Subcommand(p, feed, lower);
          if p != EAA then Success(Built(cmd, Some(feed)))
          else
            match FormatSelector(req.cliformat, cfg.inputFormatChoices)
            case Failure(e) => Failure(e)
            case Success(format) =>
              Success(Built(if format == "JSON" then cmd + ["--json"] else cmd, Some(feed)))
  }

  /**
   * The command-building branches of `proc_create` as written: start from
   * `[python, binary, subcommand...]`, insert the user-agent, authentication
   * and proxy flags one after another at index 2, then append `--json`.
   */
  method AssembleCommand(cfg: Config, req: Request, lower: string -> string,
                         tokenize: string -> Option<seq<string>>) returns (r: Result<Built, Fatal>)
    requires cfg.Valid()
    ensures r == BuildCommand(cfg, req, lower, tokenize)
  {
    var edgegridAuth := PrepEdgegridAuth(req.credentialsFile, req.credentialsSection);
    var product := ParseProduct(req.product);
    if product.None? {
      return Failure(UnknownProduct(req.product));
    }
    var p := product.value;
    var productPath := cfg.BinPath(p);
    var productFeeds := cfg.Feeds(p);
    if RawMode(req) {
      var tokens := tokenize(req.rawcmd.value);
      if tokens.None? {
        return Failure(UnsplittableRawCommand(req.rawcmd.value));
      }
      var cliCommand := [cfg.binPython, productPath]
                        + UlsUserAgent(cfg.version, req.product, Render(req.feed))
                        + tokens.value;
      return Success(Built(cliCommand, req.feed));
    }
    var selected := FeedSelector(req.feed, productFeeds);
    if selected.Failure? {
      return Failure(selected.error);
    }
    var feed := selected.value;
    var cliCommand: seq<string>;
    if p == EAA && feed == "CONHEALTH" {
      cliCommand := [cfg.binPython, productPath, "connector", "list", "--perf", "--tail"];
    } else if p == EAA {
      cliCommand := [cfg.binPython, productPath, "log", lower(feed), "-f"];
    } else {
      cliCommand := [cfg.binPython, productPath, "event", lower(feed), "-f"];
    }
    ghost var subcommand := cliCommand[2..];
    assert subcommand == Subcommand(p, feed, lower);
    cliCommand := cliCommand[..2] + UlsUserAgent(cfg.version, req.product, feed) + cliCommand[2..];
    cliCommand := cliCommand[..2] + edgegridAuth + cliCommand[2..];
    cliCommand := cliCommand[..2] + PrepProxy(req.inproxy) + cliCommand[2..];
    assert cliCommand == [cfg.binPython, productPath] + PrepProxy(req.inproxy) + edgegridAuth
                         + UlsUserAgent(cfg.version, req.product, feed) + subcommand;
    if p == EAA {
      var format := FormatSelector(req.cliformat, cfg.inputFormatChoices);
      if format.Failure? {
        return Failure(format.error);
      }
      if format.value == "JSON" {
        cliCommand := cliCommand + ["--json"];
      }
    }
    return Success(Built(cliCommand, Some(feed)));
  }

  /**
   * Every later iteration of the retry loop rebuilds the same command from
   * the rebound `feed` variable, because selecting a feed is idempotent.
   */
  lemma BuildCommandStable(cfg: Config, req: Request, lower: string -> string,
                           tokenize: string -> Option<seq<string>>)
    requires cfg.Valid()
    requires BuildCommand(cfg, req, lower, tokenize).Success?
    ensures BuildCommand(cfg, req.(feed := BuildCommand(cfg, req, lower, tokenize).value.feed), lower, tokenize)
         == BuildCommand(cfg, req, lower, tokenize)
  {
    var p := ParseProduct(req.product).value;
    if !RawMode(req) {
      FeedSelectorIdempotent(req.feed, cfg.Feeds(p));
    }
  }

  /** In structured mode the first tokens are interpreter and binary, then the flags in fixed order. */
  lemma StructuredFlagsFollowBinary(cfg: Config, req: Request, lower: string -> string,
                                    tokenize: string -> Option<seq<string>>)
    requires cfg.Valid()
    requires !RawMode(req)
    requires BuildCommand(cfg, req, lower, tokenize).Success?
    ensures var cmd := BuildCommand(cfg, req, lower, tokenize).value.command;
            var p := ParseProduct(req.product).value;
            var feed := FeedSelector(req.feed, cfg.Feeds(p)).value;
            var n := if Truthy(req.inproxy) then 2 else 0;
            && |cmd| >= 11 + n
            && cmd[..2] == [cfg.binPython, cfg.BinPath(p)]
            && (Truthy(req.inproxy) <==> cmd[2] == "--proxy")
            && cmd[2 + n] == "--edgerc" && cmd[4 + n] == "--section" && cmd[6 + n] == "--user-agent-prefix"
            && Options(cmd[2..8 + n])
               == ProxyOption(req.inproxy)
                  + map["--edgerc" := req.credentialsFile, "--section" := req.credentialsSection,
                        "--user-agent-prefix" := UserAgentTag(cfg.version, req.product, feed)]
            && cmd[8 + n..8 + n + |Subcommand(p, feed, lower)|] == Subcommand(p, feed, lower)
  {
    var cmd := BuildCommand(cfg, req, lower, tokenize).value.command;
    var p := ParseProduct(req.product).value;
    var feed := FeedSelector(req.feed, cfg.Feeds(p)).value;
    var block := PrepProxy(req.inproxy) + PrepEdgegridAuth(req.credentialsFile, req.credentialsSection)
                 + UlsUserAgent(cfg.version, req.product, feed);
    var sub := Subcommand(p, feed, lower);
    var n := if Truthy(req.inproxy) then 2 else 0;
    assert |block| == 6 + n;
    assert cmd[..8 + n + |sub|] == [cfg.binPython, cfg.BinPath(p)] + block + sub;
    assert cmd[2..8 + n] == block;
    FlagBlockOptions(req.inproxy, req.credentialsFile, req.credentialsSection, cfg.version, req.product, feed);
  }

  /**
   * EAA in structured mode ends with `--json` exactly when the format
   * resolves to "JSON"; the connector-health feed is no exception.
   */
  lemma EaaJsonFlag(cfg: Config, req: Request, lower: string -> string,
                    tokenize: string -> Option<seq<string>>)
    requires cfg.Valid()
    requires req.product == "EAA" && !RawMode(req)
    requires BuildCommand(cfg, req, lower, tokenize).Success?
    ensures var cmd := BuildCommand(cfg, req, lower, tokenize).value.command;
            |cmd| > 0
            && (cmd[|cmd| - 1] == "--json" <==> FormatSelector(req.cliformat, cfg.inputFormatChoices) == Success("JSON"))
  {
  }

  /**
   * The connector-health feed uses `connector list --perf --tail` and, when
   * the format resolves to "JSON", still gets `--json` appended.
   */
  lemma ConnectorHealthCommand(cfg: Config, req: Request, lower: string -> string,
                               tokenize: string -> Option<seq<string>>)
    requires cfg.Valid()
    requires req.product == "EAA" && !RawMode(req) && req.feed == Some("CONHEALTH")
    requires "CONHEALTH" in cfg.eaaCliFeeds
    requires FormatSelector(req.cliformat, cfg.inputFormatChoices) == Success("JSON")
    ensures BuildCommand(cfg, req, lower, tokenize).Success?
    ensures var cmd := BuildCommand(cfg, req, lower, tokenize).value.command;
            |cmd| >= 5 && cmd[|cmd| - 5..] == ["connector", "list", "--perf", "--tail", "--json"]
  {
  }

  /**
   * ETP and MFA never consult the format: any format gives the same result,
   * and a structured command ends with the follow flag.
   */
  lemma FormatIgnoredOutsideEaa(cfg: Config, req: Request, otherFormat: Option<string>,
                                lower: string -> string, tokenize: string -> Option<seq<string>>)
    requires cfg.Valid()
    requires req.product == "ETP" || req.product == "MFA"
    ensures BuildCommand(cfg, req.(cliformat := otherFormat), lower, tokenize)
         == BuildCommand(cfg, req, lower, tokenize)
    ensures var r := BuildCommand(cfg, req, lower, tokenize);
            r.Success? && !RawMode(req) ==> |r.value.command| > 0 && r.value.command[|r.value.command| - 1] == "-f"
  {
  }

  /**
   * Raw mode, for a known product, fails only when the raw command cannot be
   * split; it takes the feed as given and ignores proxy, format and
   * credentials.
   */
  lemma RawCommandShape(cfg: Config, req: Request, other: Request, lower: string -> string,
                        tokenize: string -> Option<seq<string>>)
    requires cfg.Valid()
    requires RawMode(req) && ParseProduct(req.product).Some?
    requires other.product == req.product && other.feed == req.feed && other.rawcmd == req.rawcmd
    ensures tokenize(req.rawcmd.value).None? ==>
              BuildCommand(cfg, req, lower, tokenize) == Failure(UnsplittableRawCommand(req.rawcmd.value))
    ensures tokenize(req.rawcmd.value).Some? ==>
              BuildCommand(cfg, req, lower, tokenize)
              == Success(Built([cfg.binPython, cfg.BinPath(ParseProduct(req.product).value),
                                "--user-agent-prefix", UserAgentTag(cfg.version, req.product, Render(req.feed))]
                               + tokenize(req.rawcmd.value).value, req.feed))
    ensures BuildCommand(cfg, other, lower, tokenize) == BuildCommand(cfg, req, lower, tokenize)
  {
    var p := ParseProduct(req.product).value;
    var ua := UlsUserAgent(cfg.version, req.product, Render(req.feed));
    assert [cfg.binPython, cfg.BinPath(p)] + ua
        == [cfg.binPython, cfg.BinPath(p), "--user-agent-prefix", UserAgentTag(cfg.version, req.product, Render(req.feed))];
  }

  /**
   * EAA with neither feed nor format given streams the first configured
   * feed, lower-cased, in follow mode and as JSON.
   */
  lemma EaaDefaultsScenario(cfg: Config, req: Request, lower: string -> string,
                            tokenize: string -> Option<seq<string>>)
    requires cfg.Valid()
    requires req.product == "EAA" && !RawMode(req)
    requires !Truthy(req.feed) && !Truthy(req.cliformat)
    requires cfg.eaaCliFeeds == ["AUDIT", "CONHEALTH"]
    requires req.cliformat.None? || req.cliformat.value !in cfg.inputFormatChoices
    requires lower("AUDIT") == "audit"
    ensures BuildCommand(cfg, req, lower, tokenize).Success?
    ensures var b := BuildCommand(cfg, req, lower, tokenize).value;
            b.feed == Some("AUDIT")
            && |b.command| >= 4 && b.command[|b.command| - 4..] == ["log", "audit", "-f", "--json"]
  {
  }
}
