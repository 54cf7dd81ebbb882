/** The OpenTSDB client: its base URL and configuration, the URIs and the
    write command it builds, and the wiring of queries, pipelined batches and
    synthetic queries around an abstract HTTP transport. */
module Client {
  import opened Ruby
  import opened Formula
  import opened Synthetic
  import opened Metrics
  import opened Results

  /** The output format a query asks for; only PNG changes the client's
      behaviour. */
  datatype Format = JsonFormat | AsciiFormat | PngFormat

  /** A query, seen through what the client reads of it: its format, its
      request parameters and its graph-URL query string. */
  datatype Query = Query(format: Format, request: seq<(string, string)>, graph: string)

  datatype Verb = Get

  /** An HTTP request handed to the transport. */
  datatype Request = Request(verb: Verb, path: string, params: seq<(string, string)>)

  /** What run_query returns: a URI string, or a Result. */
  datatype Reply = Uri(uri: string) | Answer(result: Result)

  /** "#{protocol}://#{host}:#{port}/" */
  function BaseUrl(protocol: string, host: string, port: int): string {
    protocol + "://" + host + ":" + DecimalText(port) + "/"
  }

  lemma PortText()
    ensures DecimalText(4242) == "4242"
  {
    assert NatText(42) == "42";
    assert NatText(424) == "424";
  }

  /** With the default host, port and protocol the base URL is
      http://127.0.0.1:4242/. */
  lemma DefaultBaseUrl()
    ensures BaseUrl("http", "127.0.0.1", 4242) == "http://127.0.0.1:4242/"
  {
    PortText();
  }

  const DefaultConfig: map<string, Value> := map["dry_run" := Bool(false), "version" := Str("2.0")]

  /** The keys configure accepts: those of the defaults. */
  const ValidConfigKeys: set<string> := {"dry_run", "version"}

  /** The configuration after configure(cfg): the defaults, overwritten in
      order by every setting whose key is valid. Keys are the names of the
      symbols the settings' keys convert to. */
  function ApplyConfig(cfg: seq<(string, Value)>): map<string, Value> {
    if cfg == [] then DefaultConfig
    else
      var config := ApplyConfig(cfg[..|cfg| - 1]);
      var (key, value) := cfg[|cfg| - 1];
      if key in ValidConfigKeys then config[key := value] else config
  }

  /** Whatever the settings, the configuration has exactly the two valid keys:
      unknown keys are ignored and no default is lost. */
  lemma {:induction false} ConfigureKeys(cfg: seq<(string, Value)>)
    ensures ApplyConfig(cfg).Keys == ValidConfigKeys
    decreases |cfg|
  {
    if cfg != [] {
      ConfigureKeys(cfg[..|cfg| - 1]);
    }
  }

  /** A valid key takes the value of its last setting. */
  lemma {:induction false} ConfigureLastWins(cfg: seq<(string, Value)>, key: string, i: int)
    requires key in ValidConfigKeys
    requires 0 <= i < |cfg| && cfg[i].0 == key
    requires forall j :: i < j < |cfg| ==> cfg[j].0 != key
    ensures key in ApplyConfig(cfg) && ApplyConfig(cfg)[key] == cfg[i].1
    decreases |cfg|
  {
    ConfigureKeys(cfg);
    if i < |cfg| - 1 {
      ConfigureLastWins(cfg[..|cfg| - 1], key, i);
    }
  }

  /** A valid key that is never set keeps its default. */
  lemma {:induction false} ConfigureDefault(cfg: seq<(string, Value)>, key: string)
    requires key in ValidConfigKeys
    requires forall j :: 0 <= j < |cfg| ==> cfg[j].0 != key
    ensures key in ApplyConfig(cfg) && ApplyConfig(cfg)[key] == DefaultConfig[key]
    decreases |cfg|
  {
    ConfigureKeys(cfg);
    if cfg != [] {
      ConfigureDefault(cfg[..|cfg| - 1], key);
    }
  }

  /** configure(dry_run: true, validation: true, version: '2.1') */
  lemma ConfigureExample()
    ensures ApplyConfig([("dry_run", Bool(true)), ("validation", Bool(true)), ("version", Str("2.1"))]) ==
            map["dry_run" := Bool(true), "version" := Str("2.1")]
  {
    var cfg := [("dry_run", Bool(true)), ("validation", Bool(true)), ("version", Str("2.1"))];
    assert cfg[..2][..1] == cfg[..1] && cfg[..1][..0] == [];
    assert ApplyConfig(cfg[..1]) == map["dry_run" := Bool(true), "version" := Str("2.0")];
    assert "validation" !in ValidConfigKeys;
    assert ApplyConfig(cfg[..2]) == ApplyConfig(cfg[..1]);
  }

  /** The GET request for a query: path api/query with the query's
      parameters. */
  function QueryRequest(q: Query): Request {
    Request(Get, "api/query", q.request)
  }

  /** One request per query, in query order. */
  function QueryRequests(queries: seq<Query>): (r: seq<Request>)
    ensures |r| == |queries|
    ensures forall i :: 0 <= i < |queries| ==> r[i] == QueryRequest(queries[i])
  {
    if queries == [] then [] else [QueryRequest(queries[0])] + QueryRequests(queries[1..])
  }

  /** The requests of a pipelined batch, with the configuration and queries
      they came from. */
  datatype PipelineWrapper = PipelineWrapper(config: map<string, Value>, queries: seq<Query>, requests: seq<Request>)

  /** PipelineWrapper.new(config, queries) */
  function NewPipelineWrapper(config: map<string, Value>, queries: seq<Query>): (w: PipelineWrapper)
    ensures w.config == config && w.queries == queries
    ensures |w.requests| == |queries|
    ensures forall i :: 0 <= i < |queries| ==>
      w.requests[i].verb == Get && w.requests[i].path == "api/query" && w.requests[i].params == queries[i].request
  {
    PipelineWrapper(config, queries, QueryRequests(queries))
  }

  /** responses.map { |response| Result.new(response) }: one Result per
      response, in order; the first response whose Result raises aborts
      the map with that exception. */
  function MakeResults(responses: seq<Response>): (r: Try<seq<Result>>)
    ensures r.Ok? <==> forall i :: 0 <= i < |responses| ==> NewResult(responses[i]).Ok?
    ensures r.Ok? ==>
      |r.value| == |responses| &&
      forall i :: 0 <= i < |responses| ==> NewResult(responses[i]) == Ok(r.value[i])
    ensures r.Raised? ==>
      exists i :: 0 <= i < |responses| && NewResult(responses[i]) == Raised(r.error) &&
        forall j :: 0 <= j < i ==> NewResult(responses[j]).Ok?
  {
    if responses == [] then Ok([])
    else
      match NewResult(responses[0])
      case Raised(e) => Raised(e)
      case Ok(first) =>
        match MakeResults(responses[1..])
        case Raised(e) =>
          assert forall i :: 0 < i <= |responses[1..]| ==> responses[1..][i - 1] == responses[i];
          Raised(e)
        case Ok(rest) => Ok([first] + rest)
  }

  /** The transport of a pipelined batch: given the idempotent setting of
      the connection and the requests, it answers with responses, or raises. */
  type Transport = (bool, seq<Request>) -> Try<seq<Response>>

  /** run_pipelined_request: builds the wrapper's requests, sends them in one
      batch and wraps every response in a Result, in order. */
  function Pipelined(config: map<string, Value>, queries: seq<Query>, transport: Transport, idempotent: bool)
    : (r: Try<seq<Result>>)
    ensures var sent := transport(idempotent, NewPipelineWrapper(config, queries).requests);
      && (sent.Raised? ==> r == Raised(sent.error))
      && (sent.Ok? ==> r == MakeResults(sent.value))
    ensures r.Ok? ==> var sent := transport(idempotent, QueryRequests(queries));
      sent.Ok? && |r.value| == |sent.value| &&
      forall i :: 0 <= i < |sent.value| ==> Ok(r.value[i]) == NewResult(sent.value[i])
  {
    var wrapper := NewPipelineWrapper(config, queries);
    match transport(idempotent, wrapper.requests)
    case Raised(e) => Raised(e)
    case Ok(responses) => MakeResults(responses)
  }

  /** What run_synthetic_query reads from one query's reply:
      run_query(query).results[0].fetch('dps'), as a series. */
  function FirstDps(reply: Try<Reply>): (r: Try<Series>)
    ensures reply.Raised? ==> r == Raised(reply.error)
    ensures reply.Ok? && reply.value.Uri? ==> r.Raised?
    ensures r.Ok? ==>
      reply.Ok? && reply.value.Answer? && reply.value.result.results.PArray? &&
      var items := reply.value.result.results.items;
      items != [] && items[0].JObj? && "dps" in items[0].fields &&
      var dps := items[0].fields["dps"];
      dps.JObj? && dps.fields.Keys == r.value.Keys &&
      forall ts :: ts in r.value ==> dps.fields[ts] == JNum(r.value[ts])
    ensures reply.Ok? && reply.value.Answer? && reply.value.result.results.PArray? &&
            reply.value.result.results.items != [] && reply.value.result.results.items[0].JObj? &&
            "dps" in reply.value.result.results.items[0].fields ==>
              r == AsSeries(reply.value.result.results.items[0].fields["dps"])
  {
    match reply
    case Raised(e) => Raised(e)
    case Ok(Uri(_)) => Raised(NoMethodError("undefined method `results' for String"))
    case Ok(Answer(result)) =>
      var first := match result.results
        case PArray(items) => if items == [] then JNull else items[0]
        case PObject(_) => JNull;
      match Fetch(first, "dps")
      case Raised(e) => Raised(e)
      case Ok(dps) => AsSeries(dps)
  }

  /** v.fetch(key), as Ruby evaluates it on each kind of value. */
  function Fetch(v: Json, key: string): Try<Json> {
    match v
    case JObj(fields) => if key in fields then Ok(fields[key]) else Raised(KeyError(key))
    case JArr(_) => Raised(TypeError("no implicit conversion of String into Integer"))
    case JNull => Raised(NoMethodError("undefined method `fetch' for nil"))
    case JBool(_) => Raised(NoMethodError("undefined method `fetch'"))
    case JNum(_) => Raised(NoMethodError("undefined method `fetch'"))
    case JStr(_) => Raised(NoMethodError("undefined method `fetch' for String"))
  }

  /** A dps object as a series: every timestamp key mapped to its integer. */
  function AsSeries(dps: Json): (r: Try<Series>)
    ensures r.Ok? <==> dps.JObj? && forall ts :: ts in dps.fields ==> dps.fields[ts].JNum?
    ensures r.Ok? ==> r.value.Keys == dps.fields.Keys && forall ts :: ts in r.value ==> dps.fields[ts] == JNum(r.value[ts])
  {
    if dps.JObj? && forall ts :: ts in dps.fields ==> dps.fields[ts].JNum? then
      Ok(map ts | ts in dps.fields :: dps.fields[ts].n)
    else
      Raised(TypeError("dps is not a map of integers"))
  }

  /** The names of a query hash. */
  function Names<T>(named: seq<(Name, T)>): set<Name> {
    set i | 0 <= i < |named| :: named[i].0
  }

  lemma NamesCons<T>(named: seq<(Name, T)>)
    requires named != []
    ensures Names(named) == {named[0].0} + Names(named[1..])
  {
    forall i | 0 < i < |named|
      ensures named[i].0 in Names(named[1..])
    {
      assert named[1..][i - 1] == named[i];
    }
  }

  /** The keys of a Hash are distinct. */
  predicate DistinctNames(named: seq<(Name, Query)>) {
    forall i, j :: 0 <= i < j < |named| ==> named[i].0 != named[j].0
  }

  lemma MaxText()
    ensures DecimalText(25) == "25"
  {
    assert NatText(2) == "2";
  }

  lemma FooBaseUrl()
    ensures BaseUrl("http", "opentsdb.foo.com", 4242) == "http://opentsdb.foo.com:4242/"
  {
    PortText();
  }

  /** For a client of opentsdb.foo.com:4242 over http, the default suggest
      URI of "mtest". */
  lemma SuggestExample(c: TSClient)
    requires c.client == BaseUrl("http", "opentsdb.foo.com", 4242)
    ensures c.SuggestUri("mtest") == "http://opentsdb.foo.com:4242/api/suggest?type=metrics&q=mtest&max=25"
  {
    FooBaseUrl();
    MaxText();
    assert "http://opentsdb.foo.com:4242/" + "api/suggest?type=" + "metrics" + "&q=" + "mtest" + "&max=" + "25" ==
           "http://opentsdb.foo.com:4242/api/suggest?type=metrics&q=mtest&max=25";
  }

  lemma ClientPortText()
    ensures DecimalText(60000) == "60000"
  {
    assert NatText(60) == "60";
    assert NatText(600) == "600";
    assert NatText(6000) == "6000";
  }

  lemma WriteText()
    ensures "echo \"put " + "test1.test2 12132342 1 host=localhost" + "\" | nc -w 30 " + "127.0.0.1" + " " + "60000" ==
            "echo \"put test1.test2 12132342 1 host=localhost\" | nc -w 30 127.0.0.1 60000"
  {
    assert "echo \"put " + "test1.test2 12132342 1 host=localhost" == "echo \"put test1.test2 12132342 1 host=localhost";
    assert "echo \"put test1.test2 12132342 1 host=localhost" + "\" | nc -w 30 " ==
           "echo \"put test1.test2 12132342 1 host=localhost\" | nc -w 30 ";
    assert "echo \"put test1.test2 12132342 1 host=localhost\" | nc -w 30 " + "127.0.0.1" ==
           "echo \"put test1.test2 12132342 1 host=localhost\" | nc -w 30 127.0.0.1";
    assert "echo \"put test1.test2 12132342 1 host=localhost\" | nc -w 30 127.0.0.1" + " " ==
           "echo \"put test1.test2 12132342 1 host=localhost\" | nc -w 30 127.0.0.1 ";
  }

  /** In dry-run mode, a client of 127.0.0.1:60000 writing the example metric
      returns the netcat command, whatever the shell would have done. */
  lemma WriteExample(c: TSClient, shellSucceeded: bool)
    requires c.host == "127.0.0.1" && c.port == 60000 && c.DryRun()
    ensures c.Write(Metric(Str("test1.test2"), Int(1), 12132342, [Tag("host", Str("localhost"))]), shellSucceeded) ==
            Ok(Str("echo \"put test1.test2 12132342 1 host=localhost\" | nc -w 30 127.0.0.1 60000"))
  {
    PutLineExample();
    ClientPortText();
    WriteText();
  }

  /** The configured client of an OpenTSDB instance. */
  class TSClient {
    const host: string
    const port: int
    /** The base URL every URI is built on. */
    const client: string
    var config: map<string, Value>
    /** The idempotent setting of the persistent connection. */
    var idempotent: bool

    /** TSClient.new: records host and port, builds the base URL, opens an
        idempotent connection and applies the default configuration. */
    constructor (host: string := "127.0.0.1", port: int := 4242, protocol: string := "http")
      ensures this.host == host && this.port == port
      ensures client == BaseUrl(protocol, host, port)
      ensures config == DefaultConfig && idempotent
    {
      this.host := host;
      this.port := port;
      client := BaseUrl(protocol, host, port);
      idempotent := true;
      new;
      Configure([]);
    }

    /** configure(cfg): resets to the defaults, then applies each valid
        setting in order. */
    method Configure(cfg: seq<(string, Value)>)
      modifies this`config
      ensures config == ApplyConfig(cfg)
    {
      config := DefaultConfig;
      var validKeys := DefaultConfig.Keys;
      for i := 0 to |cfg|
        invariant validKeys == ValidConfigKeys
        invariant config == ApplyConfig(cfg[..i])
      {
        assert cfg[..i + 1][..i] == cfg[..i];
        var (key, value) := cfg[i];
        if key in validKeys {
          config := config[key := value];
        }
      }
      assert cfg[..|cfg|] == cfg;
    }

    /** @config[:dry_run] is truthy. */
    predicate DryRun()
      reads this
    {
      "dry_run" in config && Truthy(config["dry_run"])
    }

    /** suggest_uri(query, type, max) */
    function SuggestUri(query: string, kind: string := "metrics", max: int := 25): (uri: string)
      reads this
      ensures client <= uri && uri[|client|..] == "api/suggest?type=" + kind + "&q=" + query + "&max=" + DecimalText(max)
    {
      client + "api/suggest?type=" + kind + "&q=" + query + "&max=" + DecimalText(max)
    }

    /** The shell command write runs: the put line piped into netcat. */
    function WriteCommand(m: Metric): string
      reads this
    {
      "echo \"put " + PutLine(m) + "\" | nc -w 30 " + host + " " + DecimalText(port)
    }

    /** write(metric): in dry-run mode, the command; otherwise the command's
        outcome, given as shellSucceeded, decides between nil and an
        IOError naming the metric. */
    function Write(m: Metric, shellSucceeded: bool): (r: Try<Value>)
      reads this
      ensures DryRun() ==> r == Ok(Str(WriteCommand(m)))
      ensures !DryRun() ==> (r.Ok? <==> shellSucceeded) && (r.Ok? ==> r.value == Nil)
      ensures !DryRun() && !shellSucceeded ==>
        r == Raised(IOError("Failed to insert metric " + Text(m.name) + " with value of " + Text(m.value) + " into OpenTSDB."))
    {
      if DryRun() then Ok(Str(WriteCommand(m)))
      else if shellSucceeded then Ok(Nil)
      else Raised(IOError("Failed to insert metric " + Text(m.name) + " with value of " + Text(m.value) + " into OpenTSDB."))
    }

    /** query_uri(query) */
    function QueryUri(q: Query): (uri: string)
      reads this
      ensures client <= uri && uri[|client|..] == "api/query?" + q.graph
    {
      client + "api/query?" + q.graph
    }

    /** run_query(query) with get as the connection: in dry-run mode or for
        PNG, the query URI; otherwise the Result of the GET request, or the
        exception of the transport or of Result.new. */
    function RunQuery(q: Query, get: Request -> Try<Response>): (r: Try<Reply>)
      reads this
      ensures DryRun() || q.format == PngFormat ==> r == Ok(Uri(QueryUri(q)))
      ensures !DryRun() && q.format != PngFormat ==>
        match get(QueryRequest(q))
        case Raised(e) => r == Raised(e)
        case Ok(response) =>
          (r.Ok? <==> NewResult(response).Ok?) &&
          (r.Ok? ==> r.value == Answer(NewResult(response).value)) &&
          (r.Raised? ==> r.error == NewResult(response).error)
    {
      if DryRun() || q.format == PngFormat then Ok(Uri(QueryUri(q)))
      else
        match get(QueryRequest(q))
        case Raised(e) => Raised(e)
        case Ok(response) =>
          match NewResult(response)
          case Raised(e) => Raised(e)
          case Ok(result) => Ok(Answer(result))
    }

    /** The map over the query hash followed by the merge: each query is
        run in order and the first one whose reply raises, or yields no dps,
        aborts; otherwise each name maps to the dps of its query. */
    function SyntheticData(named: seq<(Name, Query)>, get: Request -> Try<Response>): (r: Try<map<Name, Series>>)
      reads this
      ensures r.Ok? <==> forall i :: 0 <= i < |named| ==> FirstDps(RunQuery(named[i].1, get)).Ok?
      ensures r.Ok? ==> r.value.Keys == Names(named)
      ensures r.Raised? ==>
        exists i :: 0 <= i < |named| && FirstDps(RunQuery(named[i].1, get)) == Raised(r.error) &&
          forall j :: 0 <= j < i ==> FirstDps(RunQuery(named[j].1, get)).Ok?
      decreases |named|
    {
      if named == [] then Ok(map[])
      else
        match FirstDps(RunQuery(named[0].1, get))
        case Raised(e) => Raised(e)
        case Ok(series) =>
          match SyntheticData(named[1..], get)
          case Raised(e) =>
            assert forall i :: 0 < i <= |named[1..]| ==> named[1..][i - 1] == named[i];
            Raised(e)
          case Ok(rest) =>
            NamesCons(named);
            Ok(rest[named[0].0 := series])
    }

    /** With distinct names, each name maps to the dps of its own query. */
    lemma {:induction false} SyntheticDataAt(named: seq<(Name, Query)>, get: Request -> Try<Response>, i: int)
      requires DistinctNames(named)
      requires SyntheticData(named, get).Ok? && 0 <= i < |named|
      ensures named[i].0 in SyntheticData(named, get).value
      ensures FirstDps(RunQuery(named[i].1, get)) == Ok(SyntheticData(named, get).value[named[i].0])
      decreases |named|
    {
      if i > 0 {
        assert named[1..][i - 1] == named[i];
        SyntheticDataAt(named[1..], get, i - 1);
      }
    }

    /** run_synthetic_query(name, formula, query_hash): runs every query,
        takes the dps of the first series of each, and evaluates the formula
        over them; pick is the series sample chooses. An empty query hash
        leaves nil as the data, on which FormulaMap fails. */
    method RunSyntheticQuery(name: string, formula: Expr, named: seq<(Name, Query)>,
                             get: Request -> Try<Response>, pick: Name)
      returns (r: Try<SyntheticResult>)
      requires DistinctNames(named)
      requires named != [] ==> pick in Names(named)
      ensures SyntheticData(named, get).Raised? ==> r == Raised(SyntheticData(named, get).error)
      ensures named == [] ==> r.Raised?
      ensures var data := SyntheticData(named, get);
        data.Ok? && named != [] ==>
          && (r.Ok? <==> AllEvaluate(formula, Aligned(data.value)))
          && (r.Ok? ==> fresh(r.value) && r.value.data == data.value &&
                        r.value.results == Evaluated(formula, Aligned(data.value)))
    {
      var data := SyntheticData(named, get);
      if data.Raised? {
        return Raised(data.error);
      }
      if named == [] {
        return Raised(NoMethodError("undefined method `keys' for nil"));
      }
      r := SyntheticResult.New(name, formula, data.value, pick);
    }

    /** run_queries(queries): disables idempotency, runs the pipelined batch,
        and re-enables idempotency when the batch returns; an exception
        leaves it disabled. */
    method RunQueries(queries: seq<Query>, transport: Transport) returns (r: Try<seq<Result>>)
      modifies this`idempotent
      ensures r == Pipelined(config, queries, transport, false)
      ensures idempotent <==> r.Ok?
    {
      idempotent := false;
      r := Pipelined(config, queries, transport, idempotent);
      if r.Raised? {
        return;
      }
      idempotent := true;
    }
  }
}
