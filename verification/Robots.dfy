/** The robots.txt middleware of server/robotstxt.mw.go: before a fetch it
    fetches `scheme://host/robots.txt` (the location section 2.3 of RFC 9309
    fixes), asks whether the agent "DataflowKitBot" may fetch the target's
    path, and either forwards the request with the group's crawl delay or
    refuses it.

    The policy is permissive: when the robots location cannot be built, the
    robots fetch fails, or the robots data does not parse, the target is
    fetched anyway. URL parsing, robots.txt parsing and group lookup are
    parameters (`parse`, `fromBytes`, `testAgent`, `groupDelay`), and the
    wrapped service's Fetch is `inner`. */
module Robots {
  import opened Base

  /** The parts of a parsed URL the middleware reads. */
  datatype URL = URL(scheme: string, host: string, path: string)

  /** A splash.Request: the target URL, the form data it carries, and the
      crawl delay the middleware sets. */
  datatype SplashRequest = SplashRequest(url: string, formData: string, crawlDelay: nat)

  /** A splash.Response; `content` is GetContent followed by ReadAll, with
      the first error either of them reports. */
  datatype SplashResponse = SplashResponse(content: Result<Bytes, string>)

  /** Parsed robots.txt data (robotstxt.RobotsData), left uninterpreted. */
  datatype RobotsData = RobotsData(source: Bytes)

  const Agent: string := "DataflowKitBot"
  const RobotsPath: string := "/robots.txt"

  /** NewRobotsTxt: an empty URL or one that does not parse is an error;
      otherwise the robots.txt location at the root of the same scheme and
      host. */
  function NewRobotsTxt(url: string, parse: string -> Option<URL>): (r: Result<string, string>)
    ensures url == [] ==> r == Err("empty URL")
    ensures url != [] && parse(url).None? ==> r.Err?
    ensures r.Ok? <==> url != [] && parse(url).Some?
    ensures r.Ok? ==> r.value == parse(url).value.scheme + "://" + parse(url).value.host + RobotsPath
  {
    if url == [] then Err("empty URL")
    else
      match parse(url)
      case None => Err("parse error")
      case Some(u) => Ok(u.scheme + "://" + u.host + RobotsPath)
  }

  /** GetCrawlDelay: nothing for missing robots data, otherwise the delay of
      the group that applies to the agent. */
  function GetCrawlDelay(r: Option<RobotsData>, groupDelay: (RobotsData, string) -> nat): (d: nat)
    ensures r.None? ==> d == 0
    ensures r.Some? ==> d == groupDelay(r.value, Agent)
  {
    match r
    case None => 0
    case Some(data) => groupDelay(data, Agent)
  }

  /** What the middleware decides before touching the target. */
  datatype Decision =
    | Allow(robots: Option<RobotsData>)  // forward, with this robots data's crawl delay
    | Deny                               // forbidden by robots.txt
    | Abort(err: string)                 // reading the robots content failed

  /** The decision, from the robots location, the answer of the robots
      fetch, and the oracles. */
  function Decide(req: SplashRequest, parse: string -> Option<URL>,
                  robotsAnswer: Result<SplashResponse, string>,
                  fromBytes: Bytes -> Option<RobotsData>,
                  testAgent: (RobotsData, string, string) -> bool): Decision
  {
    match NewRobotsTxt(req.url, parse)
    case Err(_) => Allow(None)
    case Ok(_) =>
      match robotsAnswer
      case Err(_) => Allow(None)
      case Ok(resp) =>
        match resp.content
        case Err(e) => Abort(e)
        case Ok(data) =>
          match fromBytes(data)
          case None => Allow(None)
          case Some(rd) =>
            if testAgent(rd, parse(req.url).value.path, Agent) then Allow(Some(rd)) else Deny
  }

  /** The robots.txt request: only the URL is set. */
  function RobotsRequest(robotsURL: string): SplashRequest
  {
    SplashRequest(robotsURL, [], 0)
  }

  /** robotstxtmw.Fetch. `calls` lists the requests handed to the wrapped
      service, in order. */
  method Fetch(req: SplashRequest, parse: string -> Option<URL>,
               inner: SplashRequest -> Result<SplashResponse, string>,
               fromBytes: Bytes -> Option<RobotsData>,
               testAgent: (RobotsData, string, string) -> bool,
               groupDelay: (RobotsData, string) -> nat)
    returns (output: Option<SplashResponse>, err: Option<string>, calls: seq<SplashRequest>)
    ensures
      var robotsURL := NewRobotsTxt(req.url, parse);
      var robotsCalls := if robotsURL.Ok? then [RobotsRequest(robotsURL.value)] else [];
      var answer := if robotsURL.Ok? then inner(RobotsRequest(robotsURL.value)) else Err("");
      match Decide(req, parse, answer, fromBytes, testAgent)
      case Abort(e) =>
        output.None? && err == Some(e) && calls == robotsCalls
      case Deny =>
        output.None? && err == Some(req.url + ": forbidden by robots.txt") && calls == robotsCalls
      case Allow(rd) =>
        var target := req.(crawlDelay := GetCrawlDelay(rd, groupDelay));
        calls == robotsCalls + [target]
        && (match inner(target)
            case Ok(o) => output == Some(o) && err.None?
            case Err(e) => output.None? && err == Some(e))
  {
    var allow := true;
    var robotsData: Option<RobotsData> := None;
    calls := [];
    ghost var answer: Result<SplashResponse, string> := Err("");
    var robotsURL := NewRobotsTxt(req.url, parse);
    if robotsURL.Ok? {
      var r := RobotsRequest(robotsURL.value);
      var robots := inner(r);
      answer := robots;
      calls := calls + [r];
      if robots.Ok? {
        var content := robots.value.content;
        if content.Err? {
          return None, Some(content.error), calls;
        }
        robotsData := fromBytes(content.value);
        var parsedURL := parse(req.url).value;
        if robotsData.Some? {
          allow := testAgent(robotsData.value, parsedURL.path, Agent);
        }
      }
    }
    assert Decide(req, parse, answer, fromBytes, testAgent)
           == (if allow then Allow(robotsData) else Deny);
    if allow {
      var target := req.(crawlDelay := GetCrawlDelay(robotsData, groupDelay));
      calls := calls + [target];
      var o := inner(target);
      if o.Ok? {
        output, err := Some(o.value), None;
      } else {
        output, err := None, Some(o.error);
      }
    } else {
      output := None;
      err := Some(req.url + ": forbidden by robots.txt");
    }
  }

  /** The permissive default: when the robots location cannot be built, the
      robots fetch fails, or the robots data does not parse, the target is
      allowed with no crawl delay. */
  lemma PermissiveDefault(req: SplashRequest, parse: string -> Option<URL>,
                          answer: Result<SplashResponse, string>,
                          fromBytes: Bytes -> Option<RobotsData>,
                          testAgent: (RobotsData, string, string) -> bool,
                          groupDelay: (RobotsData, string) -> nat)
    requires NewRobotsTxt(req.url, parse).Err?
             || answer.Err?
             || (answer.value.content.Ok? && fromBytes(answer.value.content.value).None?)
    ensures Decide(req, parse, answer, fromBytes, testAgent).Allow?
    ensures GetCrawlDelay(Decide(req, parse, answer, fromBytes, testAgent).robots, groupDelay) == 0
  {
  }

  /** The only refusal is the agent test failing on the target's path
      against robots data that did parse; it is the only case besides a
      content error in which the target is not fetched. */
  lemma DenyIffAgentRefused(req: SplashRequest, parse: string -> Option<URL>,
                            answer: Result<SplashResponse, string>,
                            fromBytes: Bytes -> Option<RobotsData>,
                            testAgent: (RobotsData, string, string) -> bool)
    ensures Decide(req, parse, answer, fromBytes, testAgent).Deny?
      <==> (NewRobotsTxt(req.url, parse).Ok? && answer.Ok? && answer.value.content.Ok?
            && fromBytes(answer.value.content.value).Some?
            && !testAgent(fromBytes(answer.value.content.value).value, parse(req.url).value.path, Agent))
  {
  }
}
