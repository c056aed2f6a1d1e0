/**
 * The analyze request builder: a mutable service object that accumulates
 * indices, analysis options and the text to analyze, and on Do derives one
 * GET request from that state, hands it to the client's transport and decodes
 * the reply into an AnalyzeResult.
 */
module Analyze {
  import opened Wrappers
  import opened Strings

  /** Go's int64, the type of the token offsets and positions. */
  newtype int64 = x: int | -0x8000_0000_0000_0000 <= x < 0x8000_0000_0000_0000

  /** One token of analyzed text; equality compares all five fields. */
  datatype Token = Token(
    token: string,
    startOffset: int64,
    endOffset: int64,
    position: int64,
    tokenType: string)

  /** The decoded reply; `None` is a reply without a token list (a nil slice). */
  datatype AnalyzeResult = AnalyzeResult(tokens: Option<seq<Token>>)

  /** An error handed back unchanged from the template expander, the transport or the decoder. */
  datatype Error = Error(message: string)

  /** What Do hands to the transport: method, path, query parameters (one value per key) and body. */
  datatype Request = Request(httpMethod: string, path: string, params: map<string, string>, body: string)

  /** The raw reply of the transport. */
  datatype Response = Response(body: seq<bv8>)

  /**
   * Expansion of the URI template "{index}" for one index name (simple string
   * expansion, section 3.2.2 of RFC 6570). Its package is not part of this
   * model, so callers supply it; it may fail.
   */
  type Expander = string -> Result<string, Error>

  /** The builder's configuration, one component per field of the service. */
  datatype Config = Config(
    indices: seq<string>,
    pretty: bool,
    timeout: string,
    masterTimeout: string,
    analyzer: string,
    tokenizer: string,
    tokenFilters: seq<string>,
    charFilters: seq<string>,
    body: string)

  /** The configuration of a freshly made service: every field at its zero value. */
  const EmptyConfig := Config([], false, "", "", "", "", [], [], "")

  // ---------------------------------------------------------------------------
  // Request derivation as functions of the configuration

  /** Index k is the first name whose expansion fails. */
  ghost predicate FirstFailure(expand: Expander, names: seq<string>, k: int)
  {
    && 0 <= k < |names|
    && expand(names[k]).Failure?
    && forall j :: 0 <= j < k ==> expand(names[j]).Success?
  }

  /**
   * Expands every name in order. Succeeds exactly when every expansion does,
   * with the expansions in the order of the names; otherwise fails with the
   * error of the first name that fails.
   */
  function ExpandAll(expand: Expander, names: seq<string>): (r: Result<seq<string>, Error>)
    ensures r.Success? <==> forall i :: 0 <= i < |names| ==> expand(names[i]).Success?
    ensures r.Success? ==>
      |r.value| == |names| && forall i :: 0 <= i < |names| ==> expand(names[i]) == Success(r.value[i])
    ensures r.Failure? ==> exists k :: FirstFailure(expand, names, k) && expand(names[k]) == Failure(r.error)
  {
    if names == [] then Success([])
    else
      match expand(names[0])
      case Failure(e) =>
        assert FirstFailure(expand, names, 0);
        Failure(e)
      case Success(x) =>
        var rest := ExpandAll(expand, names[1..]);
        assert forall k :: FirstFailure(expand, names[1..], k) ==> FirstFailure(expand, names, k + 1);
        match rest
        case Failure(e) => Failure(e)
        case Success(xs) => Success([x] + xs)
  }

  /** The path for the expanded index names: "/" + the names joined by "," + "/_analyze". */
  function AnalyzePath(expanded: seq<string>): string
  {
    "/" + Join(expanded, ",") + "/_analyze"
  }

  /**
   * Query parameters: pretty=1 when pretty-printing is on, and master_timeout,
   * timeout and analyzer each exactly when set to a non-empty string. No other
   * key; in particular the tokenizer and the filters never appear.
   */
  function QueryParams(c: Config): (params: map<string, string>)
    ensures "pretty" in params <==> c.pretty
    ensures "pretty" in params ==> params["pretty"] == "1"
    ensures "master_timeout" in params <==> c.masterTimeout != ""
    ensures "master_timeout" in params ==> params["master_timeout"] == c.masterTimeout
    ensures "timeout" in params <==> c.timeout != ""
    ensures "timeout" in params ==> params["timeout"] == c.timeout
    ensures "analyzer" in params <==> c.analyzer != ""
    ensures "analyzer" in params ==> params["analyzer"] == c.analyzer
    ensures forall key :: key in params ==> key in {"pretty", "master_timeout", "timeout", "analyzer"}
  {
    var p0: map<string, string> := map[];
    var p1 := if c.pretty then p0["pretty" := "1"] else p0;
    var p2 := if c.masterTimeout != "" then p1["master_timeout" := c.masterTimeout] else p1;
    var p3 := if c.timeout != "" then p2["timeout" := c.timeout] else p2;
    if c.analyzer != "" then p3["analyzer" := c.analyzer] else p3
  }

  /**
   * The request Do derives from a configuration: the first failing expansion's
   * error, or a GET with the analyze path, the query parameters and the body
   * passed through unchanged.
   */
  function DeriveRequest(c: Config, expand: Expander): (r: Result<Request, Error>)
    ensures r.Failure? <==> exists i :: 0 <= i < |c.indices| && expand(c.indices[i]).Failure?
    ensures r.Failure? ==> exists k :: FirstFailure(expand, c.indices, k) && expand(c.indices[k]) == Failure(r.error)
    ensures r.Success? ==> r.value.httpMethod == "GET" && r.value.body == c.body && r.value.params == QueryParams(c)
  {
    match ExpandAll(expand, c.indices)
    case Failure(e) => Failure(e)
    case Success(parts) => Success(Request("GET", AnalyzePath(parts), QueryParams(c), c.body))
  }

  /** Reads the index names back out of an analyze path; None if the path has not that shape. */
  function IndicesOfPath(path: string): Option<seq<string>>
  {
    if |path| >= 10 && path[..1] == "/" && path[|path| - 9..] == "/_analyze"
    then Some(Split(path[1..|path| - 9], ','))
    else None
  }

  /** The analyze path lists the expanded names, in order, whenever there is one and none holds a comma. */
  lemma PathRoundTrip(expanded: seq<string>)
    requires expanded != []
    requires forall i :: 0 <= i < |expanded| ==> ',' !in expanded[i]
    ensures IndicesOfPath(AnalyzePath(expanded)) == Some(expanded)
  {
    var path := AnalyzePath(expanded);
    var middle := Join(expanded, ",");
    assert path[1..|path| - 9] == middle;
    assert path[|path| - 9..] == "/_analyze";
    SplitJoin(expanded, ',');
  }

  /**
   * When every index expands to a comma-free name, a derived request's path
   * names each index's expansion, in the order the indices were added.
   */
  lemma DerivedPathListsIndices(c: Config, expand: Expander)
    requires c.indices != []
    requires forall i :: 0 <= i < |c.indices| ==> expand(c.indices[i]).Success? && ',' !in expand(c.indices[i]).value
    ensures DeriveRequest(c, expand).Success?
    ensures var names := IndicesOfPath(DeriveRequest(c, expand).value.path);
      && names.Some?
      && |names.value| == |c.indices|
      && forall i :: 0 <= i < |c.indices| ==> expand(c.indices[i]) == Success(names.value[i])
  {
    var parts := ExpandAll(expand, c.indices).value;
    PathRoundTrip(parts);
  }

  /** With no indices the path has an empty index segment: "//_analyze". */
  lemma NoIndicesPath(c: Config, expand: Expander)
    requires c.indices == []
    ensures DeriveRequest(c, expand) == Success(Request("GET", "//_analyze", QueryParams(c), c.body))
  {
    assert ExpandAll(expand, c.indices) == Success([]);
    assert Join([], ",") == "";
    assert AnalyzePath([]) == "//_analyze";
    assert DeriveRequest(c, expand) == Success(Request("GET", AnalyzePath([]), QueryParams(c), c.body));
  }

  /** An expansion that leaves every name unchanged, as it does for names of unreserved characters. */
  function Verbatim(name: string): Result<string, Error>
  {
    Success(name)
  }

  /** Indices ["idx1", "idx2"], expanded unchanged, give "/idx1,idx2/_analyze". */
  lemma TwoIndicesPath(c: Config)
    requires c.indices == ["idx1", "idx2"]
    ensures DeriveRequest(c, Verbatim) == Success(Request("GET", "/idx1,idx2/_analyze", QueryParams(c), c.body))
  {
    assert ExpandAll(Verbatim, c.indices).value == ["idx1", "idx2"];
    assert Join(["idx1", "idx2"], ",") == "idx1" + "," + Join(["idx2"], ",");
    assert Join(["idx2"], ",") == "idx2";
    assert AnalyzePath(["idx1", "idx2"]) == "/idx1,idx2/_analyze";
  }

  /** The path for no index at all is the same as the path for one empty index name. */
  lemma EmptyIndexLooksLikeNoIndex()
    ensures AnalyzePath([]) == AnalyzePath([""]) == "//_analyze"
  {
  }

  /** The tokenizer, token filters and char filters have no effect on the derived request. */
  lemma FiltersNotSent(c: Config, expand: Expander, tokenizer: string, tokenFilters: seq<string>, charFilters: seq<string>)
    ensures DeriveRequest(c.(tokenizer := tokenizer, tokenFilters := tokenFilters, charFilters := charFilters), expand)
         == DeriveRequest(c, expand)
  {
  }

  /** What Do returns once the request is out: the transport's error, or the decoder's result on its body. */
  function Outcome(reply: Result<Response, Error>, decoder: seq<bv8> -> Result<AnalyzeResult, Error>): Result<AnalyzeResult, Error>
  {
    match reply
    case Failure(e) => Failure(e)
    case Success(response) => decoder(response.body)
  }

  // ---------------------------------------------------------------------------
  // The client and the service object

  /**
   * The network's reply to one request. It may depend on how many requests
   * the client has sent before, so two sends of the same request need not get
   * the same reply.
   */
  type Transport = (nat, Request) -> Result<Response, Error>

  /**
   * The client's transport and decoder, supplied as functions, with a log of
   * every request handed to the transport.
   */
  class Client {
    var requests: seq<Request>
    const transport: Transport
    const decoder: seq<bv8> -> Result<AnalyzeResult, Error>

    constructor (transport: Transport, decoder: seq<bv8> -> Result<AnalyzeResult, Error>)
      ensures requests == [] && this.transport == transport && this.decoder == decoder
    {
      requests := [];
      this.transport := transport;
      this.decoder := decoder;
    }

    /** Sends one request: it is logged and the transport's reply is returned. */
    method PerformRequest(httpMethod: string, path: string, params: map<string, string>, body: string)
      returns (r: Result<Response, Error>)
      modifies this
      ensures requests == old(requests) + [Request(httpMethod, path, params, body)]
      ensures r == transport(|old(requests)|, Request(httpMethod, path, params, body))
    {
      var request := Request(httpMethod, path, params, body);
      r := transport(|requests|, request);
      requests := requests + [request];
    }
  }

  class AnalyzeService {
    const client: Client
    var indices: seq<string>
    var pretty: bool
    var timeout: string
    var masterTimeout: string
    var analyzer: string
    var tokenizer: string
    var tokenFilters: seq<string>
    var charFilters: seq<string>
    var body: string

    /** The current configuration as a value. */
    function Snapshot(): Config
      reads this
    {
      Config(indices, pretty, timeout, masterTimeout, analyzer, tokenizer, tokenFilters, charFilters, body)
    }

    /** NewAnalyzeService: a service on the given client with every field at its zero value. */
    constructor (client: Client)
      ensures this.client == client && Snapshot() == EmptyConfig
    {
      this.client := client;
      indices, pretty, timeout, masterTimeout := [], false, "", "";
      analyzer, tokenizer, tokenFilters, charFilters, body := "", "", [], [], "";
    }

    /** Appends one index name; duplicates are kept. */
    method Index(index: string) returns (s: AnalyzeService)
      modifies this
      ensures s == this
      ensures Snapshot() == old(Snapshot()).(indices := old(indices) + [index])
    {
      indices := indices + [index];
      s := this;
    }

    /** Appends several index names, in order. */
    method Indices(names: seq<string>) returns (s: AnalyzeService)
      modifies this
      ensures s == this
      ensures Snapshot() == old(Snapshot()).(indices := old(indices) + names)
    {
      indices := indices + names;
      s := this;
    }

    method Timeout(timeout: string) returns (s: AnalyzeService)
      modifies this
      ensures s == this
      ensures Snapshot() == old(Snapshot()).(timeout := timeout)
    {
      this.timeout := timeout;
      s := this;
    }

    method MasterTimeout(masterTimeout: string) returns (s: AnalyzeService)
      modifies this
      ensures s == this
      ensures Snapshot() == old(Snapshot()).(masterTimeout := masterTimeout)
    {
      this.masterTimeout := masterTimeout;
      s := this;
    }

    method Analyzer(analyzer: string) returns (s: AnalyzeService)
      modifies this
      ensures s == this
      ensures Snapshot() == old(Snapshot()).(analyzer := analyzer)
    {
      this.analyzer := analyzer;
      s := this;
    }

    method Tokenizer(tokenizer: string) returns (s: AnalyzeService)
      modifies this
      ensures s == this
      ensures Snapshot() == old(Snapshot()).(tokenizer := tokenizer)
    {
      this.tokenizer := tokenizer;
      s := this;
    }

    /** Appends token filter names, in order. */
    method TokenFilters(filters: seq<string>) returns (s: AnalyzeService)
      modifies this
      ensures s == this
      ensures Snapshot() == old(Snapshot()).(tokenFilters := old(tokenFilters) + filters)
    {
      tokenFilters := tokenFilters + filters;
      s := this;
    }

    /** Appends char filter names, in order. */
    method CharFilters(filters: seq<string>) returns (s: AnalyzeService)
      modifies this
      ensures s == this
      ensures Snapshot() == old(Snapshot()).(charFilters := old(charFilters) + filters)
    {
      charFilters := charFilters + filters;
      s := this;
    }

    method Body(body: string) returns (s: AnalyzeService)
      modifies this
      ensures s == this
      ensures Snapshot() == old(Snapshot()).(body := body)
    {
      this.body := body;
      s := this;
    }

    method Pretty(pretty: bool) returns (s: AnalyzeService)
      modifies this
      ensures s == this
      ensures Snapshot() == old(Snapshot()).(pretty := pretty)
    {
      this.pretty := pretty;
      s := this;
    }

    /**
     * The derivation part of Do: expands each index in order, stopping at the
     * first failure, then builds the path, the query parameters and the body.
     * Changes no field.
     */
    method BuildRequest(expand: Expander) returns (r: Result<Request, Error>)
      ensures r == DeriveRequest(Snapshot(), expand)
    {
      var path := "/";
      var indexPart: seq<string> := [];
      var i := 0;
      while i < |indices|
        invariant 0 <= i <= |indices|
        invariant |indexPart| == i
        invariant forall j :: 0 <= j < i ==> expand(indices[j]) == Success(indexPart[j])
      {
        var expanded := expand(indices[i]);
        if expanded.Failure? {
          assert FirstFailure(expand, indices, i);
          return Failure(expanded.error);
        }
        indexPart := indexPart + [expanded.value];
        i := i + 1;
      }
      var all := ExpandAll(expand, indices);
      assert all.Success?;
      assert |all.value| == |indexPart|;
      assert forall j :: 0 <= j < |indexPart| ==> all.value[j] == indexPart[j];
      assert all.value == indexPart;
      path := path + Join(indexPart, ",");
      path := path + "/_analyze";

      var params: map<string, string> := map[];
      if pretty {
        params := params["pretty" := "1"];
      }
      if masterTimeout != "" {
        params := params["master_timeout" := masterTimeout];
      }
      if timeout != "" {
        params := params["timeout" := timeout];
      }
      if analyzer != "" {
        params := params["analyzer" := analyzer];
      }

      assert params == QueryParams(Snapshot());
      var body := this.body;
      r := Success(Request("GET", path, params, body));
    }

    /**
     * Executes the operation: derives the request; on an expansion error
     * returns it and sends nothing; otherwise sends exactly that request once
     * and returns the transport's error or the decoded reply.
     */
    method Do(expand: Expander) returns (r: Result<AnalyzeResult, Error>)
      modifies client
      ensures Snapshot() == old(Snapshot())
      ensures DeriveRequest(Snapshot(), expand).Failure? ==>
        && r == Failure(DeriveRequest(Snapshot(), expand).error)
        && client.requests == old(client.requests)
      ensures DeriveRequest(Snapshot(), expand).Success? ==>
        && client.requests == old(client.requests) + [DeriveRequest(Snapshot(), expand).value]
        && r == Outcome(client.transport(|old(client.requests)|, DeriveRequest(Snapshot(), expand).value), client.decoder)
    {
      var request := BuildRequest(expand);
      if request.Failure? {
        return Failure(request.error);
      }
      var req := request.value;
      var res := client.PerformRequest(req.httpMethod, req.path, req.params, req.body);
      if res.Failure? {
        return Failure(res.error);
      }
      r := client.decoder(res.value.body);
    }
  }

  /** Deriving twice from an unchanged service gives the same request both times. */
  method RepeatedBuildsAgree(s: AnalyzeService, expand: Expander) returns (first: Result<Request, Error>, second: Result<Request, Error>)
    ensures first == second
  {
    first := s.BuildRequest(expand);
    second := s.BuildRequest(expand);
  }

  /**
   * Executing twice on an unchanged service sends the same request twice, or,
   * when an index fails to expand, sends nothing and fails the same way twice.
   */
  method RepeatedDoSendsSameRequest(s: AnalyzeService, expand: Expander)
    returns (first: Result<AnalyzeResult, Error>, second: Result<AnalyzeResult, Error>)
    modifies s.client
    ensures DeriveRequest(s.Snapshot(), expand).Failure? ==>
      && first == second == Failure(DeriveRequest(s.Snapshot(), expand).error)
      && s.client.requests == old(s.client.requests)
    ensures DeriveRequest(s.Snapshot(), expand).Success? ==>
      var request := DeriveRequest(s.Snapshot(), expand).value;
      s.client.requests == old(s.client.requests) + [request, request]
  {
    first := s.Do(expand);
    second := s.Do(expand);
  }

  /**
   * The builder chain of the integration test: one index, the "standard"
   * analyzer and the body "a test", with an expansion that leaves the index
   * name unchanged.
   */
  method IntegrationTestRequest(client: Client, indexName: string) returns (r: Result<Request, Error>)
    ensures r == Success(Request("GET", "/" + indexName + "/_analyze", map["analyzer" := "standard"], "a test"))
  {
    var s := new AnalyzeService(client);
    s := s.Index(indexName);
    s := s.Analyzer("standard");
    s := s.Body("a test");
    r := s.BuildRequest(Verbatim);
  }
}
