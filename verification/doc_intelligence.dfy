/**
 * AzureDocumentIntelligenceClient: sends a document to the analysis service,
 * under the current base path and then the legacy one when the first answers
 * 404, polls an accepted (202) analysis at most 15 times, and maps the
 * fields of the first recognised document to a DocumentExtractionResult.
 * Every failure gives the sentinel ("", "", "", "", 0.0).
 *
 * The network is abstract: the reply to a POST is a function of the URL and
 * the bytes, the reply to the n-th poll a function of the URL and n. A reply
 * body is given as already parsed.
 */
module DocIntelligence {
  import opened Wrappers
  import opened Text
  import opened ExtractionRecord

  // ---------------------------------------------------------------------------
  // JSON trees (the parts of Jackson's JsonNode the client uses)

  /** A JSON value. A numeric node keeps its value and its textual form. */
  datatype Json =
    | JNull
    | JBool(b: bool)
    | JNumber(value: real, text: string)
    | JString(s: string)
    | JArray(items: seq<Json>)
    | JObject(props: map<string, Json>)

  /** `node.path(key)`: the member of an object, with None for Jackson's missing node. */
  function Path(node: Option<Json>, key: string): Option<Json> {
    if node.Some? && node.value.JObject? && key in node.value.props then Some(node.value.props[key])
    else None
  }

  /** `asText("")` of a node that is present; a null node gives the default. */
  function AsText(node: Json): string {
    match node
    case JNull => ""
    case JBool(b) => if b then "true" else "false"
    case JNumber(_, text) => text
    case JString(s) => s
    case _ => ""
  }

  /** `asText("")` of a node that may be missing. */
  function AsTextOr(node: Option<Json>): string {
    if node.None? then "" else AsText(node.value)
  }

  /** `asDouble(0.0)`: numbers give their value, booleans 1.0 or 0.0, everything else 0.0. */
  function AsDouble(node: Json): real {
    match node
    case JNumber(v, _) => v
    case JBool(b) => if b then 1.0 else 0.0
    case _ => 0.0
  }

  /** getFieldValue: the `valueKey` member of field `key` as text; "" when either is missing. */
  function GetFieldValue(fields: Option<Json>, key: string, valueKey: string): (r: string)
    ensures Path(fields, key).None? || Path(Path(fields, key), valueKey).None? ==> r == ""
  {
    var node := Path(fields, key);
    if node.None? then ""
    else
      var valueNode := Path(node, valueKey);
      if valueNode.None? then "" else AsText(valueNode.value)
  }

  /** getFieldConfidence: the confidence of field `key`; 0.0 when it is missing or not a number. */
  function GetFieldConfidence(fields: Option<Json>, key: string): (r: real)
    ensures Path(fields, key).None? || Path(Path(fields, key), "confidence").None? ==> r == 0.0
  {
    var node := Path(fields, key);
    if node.None? then 0.0
    else
      var valueNode := Path(node, "confidence");
      if valueNode.None? then 0.0 else AsDouble(valueNode.value)
  }

  // ---------------------------------------------------------------------------
  // Field mapping

  /** The analysis result lists at least one document. */
  predicate HasDocuments(root: Option<Json>) {
    var documents := Path(root, "documents");
    documents.Some? && documents.value.JArray? && documents.value.items != []
  }

  /** The fields of the first document. */
  function FirstFields(root: Option<Json>): Option<Json>
    requires HasDocuments(root)
  {
    Path(Some(Path(root, "documents").value.items[0]), "fields")
  }

  /** The name: FullName, or FirstName and LastName trimmed when FullName is blank. */
  function NameOf(fields: Option<Json>): string {
    var full := GetFieldValue(fields, "FullName", "content");
    if IsBlank(full) then
      JavaTrim(GetFieldValue(fields, "FirstName", "content") + " " + GetFieldValue(fields, "LastName", "content"))
    else full
  }

  /** The confidence: that of DocumentNumber, or that of FullName when it is exactly 0.0. */
  function ConfidenceOf(fields: Option<Json>): real {
    var c := GetFieldConfidence(fields, "DocumentNumber");
    if c == 0.0 then GetFieldConfidence(fields, "FullName") else c
  }

  /**
   * The field mapping of analyzeDocument after the analysis: the sentinel
   * without documents, otherwise the five fields of the first document.
   */
  function FieldsToResult(root: Option<Json>, isIncome: bool): (r: Extracted)
    ensures !HasDocuments(root) ==> r == Sentinel
    ensures r.name.Some? && r.dob.Some? && r.idNumber.Some? && r.annualIncome.Some?
    ensures !isIncome ==> r.annualIncome == Some("")
    ensures HasDocuments(root) ==>
      var fields := FirstFields(root);
      && r.name == Some(NameOf(fields))
      && r.dob == Some(GetFieldValue(fields, "DateOfBirth", "valueDate"))
      && r.idNumber == Some(GetFieldValue(fields, "DocumentNumber", "content"))
      && (isIncome ==> r.annualIncome == Some(GetFieldValue(fields, "TotalIncome", "content")))
      && r.confidence == ConfidenceOf(fields)
  {
    if !HasDocuments(root) then Sentinel
    else
      var fields := FirstFields(root);
      Extracted(
        Some(NameOf(fields)),
        Some(GetFieldValue(fields, "DateOfBirth", "valueDate")),
        Some(GetFieldValue(fields, "DocumentNumber", "content")),
        Some(if isIncome then GetFieldValue(fields, "TotalIncome", "content") else ""),
        ConfidenceOf(fields))
  }

  /** A non-blank FullName is the name as given; otherwise the first and last names are joined and trimmed. */
  lemma NameFallback(fields: Option<Json>)
    ensures var full := GetFieldValue(fields, "FullName", "content");
      (!IsBlank(full) ==> NameOf(fields) == full)
      && (IsBlank(full) ==> NameOf(fields) == JavaTrim(GetFieldValue(fields, "FirstName", "content") + " "
                                                        + GetFieldValue(fields, "LastName", "content")))
  {
  }

  /** A joined name never starts or ends with a space, even when a part is missing. */
  lemma JoinedNameIsTrimmed(fields: Option<Json>)
    requires IsBlank(GetFieldValue(fields, "FullName", "content"))
    ensures var n := NameOf(fields); n == [] || (n[0] > ' ' && n[|n| - 1] > ' ')
  {
    TrimEnds(GetFieldValue(fields, "FirstName", "content") + " " + GetFieldValue(fields, "LastName", "content"),
             IsJavaTrimmable);
  }

  /**
   * The confidence is one of the two field confidences, and it is 0.0 only
   * when both are.
   */
  lemma ConfidenceFallback(fields: Option<Json>)
    ensures var dn, fn := GetFieldConfidence(fields, "DocumentNumber"), GetFieldConfidence(fields, "FullName");
      (dn != 0.0 ==> ConfidenceOf(fields) == dn)
      && (dn == 0.0 ==> ConfidenceOf(fields) == fn)
      && (ConfidenceOf(fields) == 0.0 <==> dn == 0.0 && fn == 0.0)
  {
  }

  // ---------------------------------------------------------------------------
  // Model resolution

  const IdModel := "prebuilt-idDocument"
  const IncomeModel := "prebuilt-document"

  /** resolveIdModel: null, blank, "aadhaar" and "pan" (in any case, with spaces around) use the ID model. */
  function ResolveIdModel(modelId: Option<string>): (r: string)
    ensures modelId.None? ==> r == IdModel
    ensures modelId.Some? && (IsBlank(modelId.value) || Lower(JavaTrim(modelId.value)) in {"aadhaar", "pan"})
            ==> r == IdModel
    ensures modelId.Some? && !IsBlank(modelId.value) && Lower(JavaTrim(modelId.value)) !in {"aadhaar", "pan"}
            ==> r == modelId.value
  {
    if modelId.None? || IsBlank(modelId.value) then IdModel
    else
      var normalized := Lower(JavaTrim(modelId.value));
      if normalized == "aadhaar" || normalized == "pan" then IdModel else modelId.value
  }

  lemma IdModelIsPlain()
    ensures !IsBlank(IdModel) && JavaTrim(IdModel) == IdModel && |IdModel| == 19
  {
    assert !IsJavaWhitespace(IdModel[0]);
    TrimKeeps(IdModel, IsJavaTrimmable);
  }

  /** Resolving a resolved model changes nothing. */
  lemma ResolveIdModelIdempotent(modelId: Option<string>)
    ensures ResolveIdModel(Some(ResolveIdModel(modelId))) == ResolveIdModel(modelId)
  {
    IdModelIsPlain();
  }

  /** " PAN " is a PAN card: it resolves to the ID model. */
  lemma PanWithSpacesResolves()
    ensures ResolveIdModel(Some(" PAN ")) == IdModel
  {
    PanWithSpacesTrims();
    LowerPan();
  }

  lemma LowerPan()
    ensures Lower("PAN") == "pan"
  {
  }

  lemma PanWithSpacesTrims()
    ensures !IsBlank(" PAN ") && JavaTrim(" PAN ") == "PAN"
  {
    var core := "PAN";
    assert " PAN " == [' '] + core + [' '];
    assert !IsJavaWhitespace(" PAN "[1]);
    PaddedTrims(core);
  }

  /** One space on each side of a string that starts and ends with kept characters is trimmed away. */
  lemma PaddedTrims(core: string)
    requires core != [] && !IsJavaTrimmable(core[0]) && !IsJavaTrimmable(core[|core| - 1])
    ensures JavaTrim([' '] + core + [' ']) == core
  {
    var padded, right := [' '] + core + [' '], core + [' '];
    assert padded[1..] == right;
    assert TrimStart(padded, IsJavaTrimmable) == right;
    assert right[..|core|] == core;
    assert TrimEnd(right, IsJavaTrimmable) == TrimEnd(core, IsJavaTrimmable);
    TrimKeeps(core, IsJavaTrimmable);
  }


  // ---------------------------------------------------------------------------
  // The network

  /** A reply body: parsed JSON, empty (Jackson's missing node) or text that does not parse. */
  datatype Body = Parsed(json: Json) | NoContent | Malformed

  datatype Reply = Reply(status: int, operationLocation: Option<string>, body: Body)

  /** One HTTP exchange: a reply, or an exception while building or sending the request. */
  datatype Exchange = Answered(reply: Reply) | Threw

  datatype Network = Network(
    post: (string, seq<bv8>) -> Exchange,
    get: (string, nat) -> Exchange)

  /** `readTree(body)` for a body that parses: the root node, None for the missing node. */
  function BodyRoot(body: Body): Option<Json> {
    if body.Parsed? then Some(body.json) else None
  }

  const MaxPolls: nat := 15

  /** The `status` member of a polled body, case-folded comparison aside. */
  function PollStatus(body: Body): string {
    AsTextOr(Path(BodyRoot(body), "status"))
  }

  /** A poll reply after which polling goes on: 2xx, parsed, neither succeeded nor failed. */
  predicate Running(x: Exchange) {
    x.Answered? && x.reply.status < 300 && !x.reply.body.Malformed?
    && !EqualsIgnoreCase("succeeded", PollStatus(x.reply.body))
    && !EqualsIgnoreCase("failed", PollStatus(x.reply.body))
  }

  /** A poll reply that ends polling with the body. */
  predicate Succeeded(x: Exchange) {
    x.Answered? && x.reply.status < 300 && !x.reply.body.Malformed?
    && EqualsIgnoreCase("succeeded", PollStatus(x.reply.body))
  }

  /** The result of polling and the number of requests made. */
  datatype PollOutcome = PollOutcome(result: Option<Json>, requests: nat)

  /** pollForResult from attempt `i` on. */
  function PollFrom(get: (string, nat) -> Exchange, location: string, i: nat): (r: PollOutcome)
    requires i <= MaxPolls
    ensures i <= r.requests <= MaxPolls
    ensures r.result.Some? ==> i < r.requests && Succeeded(get(location, r.requests - 1))
    decreases MaxPolls - i
  {
    if i == MaxPolls then PollOutcome(None, MaxPolls)
    else
      var x := get(location, i);
      if x.Threw? || x.reply.status >= 300 || x.reply.body.Malformed? then PollOutcome(None, i + 1)
      else
        var status := PollStatus(x.reply.body);
        if EqualsIgnoreCase("succeeded", status) then PollOutcome(BodyRoot(x.reply.body), i + 1)
        else if EqualsIgnoreCase("failed", status) then PollOutcome(None, i + 1)
        else PollFrom(get, location, i + 1)
  }

  /**
   * Polling stops at the first reply that is not running, or after the
   * fifteenth: every earlier reply was running, and the body of the last
   * reply is returned exactly when that reply succeeded.
   */
  lemma {:induction false} PollStopsAtFirstNonRunning(get: (string, nat) -> Exchange, location: string, i: nat)
    requires i <= MaxPolls
    ensures var r := PollFrom(get, location, i);
      (forall j :: i <= j < r.requests - 1 ==> Running(get(location, j)))
      && (r.requests > i && Running(get(location, r.requests - 1)) ==> r.requests == MaxPolls && r.result.None?)
      && (r.requests > i && !Running(get(location, r.requests - 1)) ==>
            (r.result.Some? <==> Succeeded(get(location, r.requests - 1))))
      && (r.result.Some? ==> r.result == BodyRoot(get(location, r.requests - 1).reply.body))
    decreases MaxPolls - i
  {
    if i < MaxPolls {
      var x := get(location, i);
      if Running(x) {
        PollStopsAtFirstNonRunning(get, location, i + 1);
      }
    }
  }

  /** A running reply moves polling on to the next attempt. */
  lemma PollContinues(get: (string, nat) -> Exchange, location: string, i: nat)
    requires i < MaxPolls && Running(get(location, i))
    ensures PollFrom(get, location, i) == PollFrom(get, location, i + 1)
  {
  }

  /** A reply that is not running ends polling: its body when it succeeded, nothing otherwise. */
  lemma PollStops(get: (string, nat) -> Exchange, location: string, i: nat)
    requires i < MaxPolls && !Running(get(location, i))
    ensures var x := get(location, i);
      PollFrom(get, location, i) == PollOutcome(if Succeeded(x) then BodyRoot(x.reply.body) else None, i + 1)
  {
  }

  /** Fifteen running replies: polling gives up, after exactly fifteen requests. */
  lemma {:induction false} PollTimesOut(get: (string, nat) -> Exchange, location: string, i: nat)
    requires i <= MaxPolls
    requires forall j :: i <= j < MaxPolls ==> Running(get(location, j))
    ensures PollFrom(get, location, i) == PollOutcome(None, MaxPolls)
    decreases MaxPolls - i
  {
    if i < MaxPolls {
      PollTimesOut(get, location, i + 1);
    }
  }

  const BasePaths: seq<string> := ["/documentintelligence/documentModels/", "/formrecognizer/documentModels/"]

  function AnalyzeUrl(endpoint: string, basePath: string, modelId: string): string {
    endpoint + basePath + modelId + ":analyze?api-version=2023-07-31"
  }

  /** The analysis root, the URLs posted to, and the number of polls. */
  datatype Analysis = Analysis(root: Option<Json>, posts: seq<string>, polls: nat)

  /** Whether `x` is a reply with status 404. */
  predicate NotFound(x: Exchange) {
    x.Answered? && x.reply.status == 404
  }

  /**
   * What one base path gives when its exchange `x` is not a 404: an
   * exception or an error status gives nothing, a 202 polls the operation
   * location, any other status is the reply's body.
   */
  function Settle(url: string, x: Exchange, get: (string, nat) -> Exchange): Analysis {
    if x.Threw? then Analysis(None, [url], 0)
    else if x.reply.status >= 300 && x.reply.status != 202 then Analysis(None, [url], 0)
    else if x.reply.status == 202 then
      var location := x.reply.operationLocation.GetOr("");
      if IsBlank(location) then Analysis(None, [url], 0)
      else
        var polled := PollFrom(get, location, 0);
        Analysis(if polled.result.None? then None else Path(polled.result, "analyzeResult"), [url], polled.requests)
    else Analysis(BodyRoot(x.reply.body), [url], 0)
  }

  /** analyzeWithFallback from base path `k` on: a 404 moves on to the next path. */
  function FallbackFrom(endpoint: string, modelId: string, bytes: seq<bv8>, net: Network, k: nat): (r: Analysis)
    requires k <= |BasePaths|
    ensures |r.posts| == |BasePaths| - k || (|r.posts| < |BasePaths| - k && r.posts != [])
    decreases |BasePaths| - k
  {
    if k == |BasePaths| then Analysis(None, [], 0)
    else
      var url := AnalyzeUrl(endpoint, BasePaths[k], modelId);
      var x := net.post(url, bytes);
      if NotFound(x) then
        var rest := FallbackFrom(endpoint, modelId, bytes, net, k + 1);
        Analysis(rest.root, [url] + rest.posts, rest.polls)
      else Settle(url, x, net.get)
  }

  /** The URLs posted to are the base paths in order, each with the model id. */
  lemma {:induction false} FallbackPostsInOrder(endpoint: string, modelId: string, bytes: seq<bv8>, net: Network, k: nat)
    requires k <= |BasePaths|
    ensures var r := FallbackFrom(endpoint, modelId, bytes, net, k);
      forall j :: 0 <= j < |r.posts| ==> r.posts[j] == AnalyzeUrl(endpoint, BasePaths[k + j], modelId)
    decreases |BasePaths| - k
  {
    if k < |BasePaths| {
      FallbackPostsInOrder(endpoint, modelId, bytes, net, k + 1);
    }
  }

  /**
   * The legacy path is tried only after a 404 on the current one, and two
   * 404s give no result.
   */
  lemma FallbackOnlyOnNotFound(endpoint: string, modelId: string, bytes: seq<bv8>, net: Network)
    ensures var r := FallbackFrom(endpoint, modelId, bytes, net, 0);
      var first := AnalyzeUrl(endpoint, BasePaths[0], modelId);
      var second := AnalyzeUrl(endpoint, BasePaths[1], modelId);
      r.posts[0] == first
      && (|r.posts| == 2 <==> NotFound(net.post(first, bytes)))
      && (NotFound(net.post(first, bytes)) && NotFound(net.post(second, bytes)) ==> r.root.None?)
  {
  }

  /** Any other status of 300 or more, except 202, ends the analysis at once with no result. */
  lemma ErrorStatusStops(endpoint: string, modelId: string, bytes: seq<bv8>, net: Network)
    requires var x := net.post(AnalyzeUrl(endpoint, BasePaths[0], modelId), bytes);
      x.Threw? || (x.reply.status >= 300 && x.reply.status != 202 && x.reply.status != 404)
    ensures FallbackFrom(endpoint, modelId, bytes, net, 0)
            == Analysis(None, [AnalyzeUrl(endpoint, BasePaths[0], modelId)], 0)
  {
  }

  /** Polling happens only after a 202 that names where to poll, and at most 15 times. */
  lemma PollsOnlyAfterAccepted(endpoint: string, modelId: string, bytes: seq<bv8>, net: Network)
    ensures var r := FallbackFrom(endpoint, modelId, bytes, net, 0);
      r.polls <= MaxPolls
      && (r.polls > 0 ==>
            var x := net.post(r.posts[|r.posts| - 1], bytes);
            x.Answered? && x.reply.status == 202 && x.reply.operationLocation.Some?
            && !IsBlank(x.reply.operationLocation.value))
  {
    var r1 := FallbackFrom(endpoint, modelId, bytes, net, 1);
    assert r1.polls <= MaxPolls;
  }

  // ---------------------------------------------------------------------------
  // The whole analysis

  /** The endpoint and the key are both set and not blank. */
  predicate Configured(endpoint: Option<string>, apiKey: Option<string>) {
    endpoint.Some? && !IsBlank(endpoint.value) && apiKey.Some? && !IsBlank(apiKey.value)
  }

  /** analyzeDocument. */
  function Analyze(endpoint: Option<string>, apiKey: Option<string>, net: Network,
                   bytes: seq<bv8>, modelId: string, isIncome: bool): Extracted
  {
    if !Configured(endpoint, apiKey) then Sentinel
    else FieldsToResult(FallbackFrom(Show(endpoint), modelId, bytes, net, 0).root, isIncome)
  }

  /** No configuration, no result from the service, or no document: the sentinel. */
  lemma FailuresGiveSentinel(endpoint: Option<string>, apiKey: Option<string>, net: Network,
                             bytes: seq<bv8>, modelId: string, isIncome: bool)
    requires !Configured(endpoint, apiKey)
             || !HasDocuments(FallbackFrom(Show(endpoint), modelId, bytes, net, 0).root)
    ensures Analyze(endpoint, apiKey, net, bytes, modelId, isIncome) == Sentinel
  {
  }

  /** The analysis never gives a null string, and an ID document never has an income. */
  lemma AnalyzeShape(endpoint: Option<string>, apiKey: Option<string>, net: Network,
                     bytes: seq<bv8>, modelId: string, isIncome: bool)
    ensures var r := Analyze(endpoint, apiKey, net, bytes, modelId, isIncome);
      r.name.Some? && r.dob.Some? && r.idNumber.Some? && r.annualIncome.Some?
      && (!isIncome ==> r.annualIncome == Some(""))
  {
  }

  class AzureDocumentIntelligenceClient {
    const endpoint: Option<string>
    const apiKey: Option<string>
    /** The HTTP client, as the replies it receives. */
    const net: Network

    constructor (endpoint: Option<string>, apiKey: Option<string>, net: Network)
      ensures this.endpoint == endpoint && this.apiKey == apiKey && this.net == net
    {
      this.endpoint := endpoint;
      this.apiKey := apiKey;
      this.net := net;
    }

    /** analyzeIdDocument: the model resolved from `modelId`, no income. */
    method AnalyzeIdDocument(bytes: seq<bv8>, modelId: Option<string>) returns (r: DocumentExtractionResult)
      ensures fresh(r) && r.Value() == Analyze(endpoint, apiKey, net, bytes, ResolveIdModel(modelId), false)
    {
      var resolved := ResolveIdModel(modelId);
      r := AnalyzeDocument(bytes, resolved, false);
    }

    /** analyzeIncomeDocument: the general document model, with income. */
    method AnalyzeIncomeDocument(bytes: seq<bv8>) returns (r: DocumentExtractionResult)
      ensures fresh(r) && r.Value() == Analyze(endpoint, apiKey, net, bytes, IncomeModel, true)
    {
      r := AnalyzeDocument(bytes, IncomeModel, true);
    }

    /** analyzeDocument, proved against Analyze. */
    method AnalyzeDocument(bytes: seq<bv8>, modelId: string, isIncome: bool) returns (r: DocumentExtractionResult)
      ensures fresh(r) && r.Value() == Analyze(endpoint, apiKey, net, bytes, modelId, isIncome)
    {
      if !Configured(endpoint, apiKey) {
        r := new DocumentExtractionResult(Some(""), Some(""), Some(""), Some(""), 0.0);
        return;
      }
      var root, _, _ := AnalyzeWithFallback(bytes, modelId);
      if root.None? {
        r := new DocumentExtractionResult(Some(""), Some(""), Some(""), Some(""), 0.0);
        return;
      }
      var documents := Path(root, "documents");
      if documents.None? || !documents.value.JArray? || documents.value.items == [] {
        r := new DocumentExtractionResult(Some(""), Some(""), Some(""), Some(""), 0.0);
        return;
      }
      var fields := Path(Some(documents.value.items[0]), "fields");
      var name := GetFieldValue(fields, "FullName", "content");
      if IsBlank(name) {
        var first := GetFieldValue(fields, "FirstName", "content");
        var last := GetFieldValue(fields, "LastName", "content");
        name := JavaTrim(first + " " + last);
      }
      var dob := GetFieldValue(fields, "DateOfBirth", "valueDate");
      var idNumber := GetFieldValue(fields, "DocumentNumber", "content");
      var income := if isIncome then GetFieldValue(fields, "TotalIncome", "content") else "";
      var confidence := GetFieldConfidence(fields, "DocumentNumber");
      if confidence == 0.0 {
        confidence := GetFieldConfidence(fields, "FullName");
      }
      r := new DocumentExtractionResult(Some(name), Some(dob), Some(idNumber), Some(income), confidence);
    }

    /**
     * analyzeWithFallback, proved against FallbackFrom; it also returns the
     * URLs it posted to and the number of polls.
     */
    method AnalyzeWithFallback(bytes: seq<bv8>, modelId: string)
      returns (root: Option<Json>, posts: seq<string>, polls: nat)
      ensures Analysis(root, posts, polls) == FallbackFrom(Show(endpoint), modelId, bytes, net, 0)
    {
      var e := Show(endpoint);
      posts := [];
      var k := 0;
      while k < |BasePaths|
        invariant 0 <= k <= |BasePaths|
        invariant var rest := FallbackFrom(e, modelId, bytes, net, k);
          FallbackFrom(e, modelId, bytes, net, 0) == Analysis(rest.root, posts + rest.posts, rest.polls)
      {
        var url := AnalyzeUrl(e, BasePaths[k], modelId);
        var x := net.post(url, bytes);
        if x.Answered? && x.reply.status == 404 {
          assert posts + FallbackFrom(e, modelId, bytes, net, k).posts
              == (posts + [url]) + FallbackFrom(e, modelId, bytes, net, k + 1).posts;
          posts := posts + [url];
          k := k + 1;
          continue;
        }
        var settled: Analysis := SettleAttempt(url, x);
        return settled.root, posts + settled.posts, settled.polls;
      }
      return None, posts, 0;
    }

    /** The body of one attempt after an exchange that is not a 404, proved against Settle. */
    method SettleAttempt(url: string, x: Exchange) returns (r: Analysis)
      ensures r == Settle(url, x, net.get)
    {
      if x.Threw? {
        return Analysis(None, [url], 0);
      }
      if x.reply.status >= 300 && x.reply.status != 202 {
        return Analysis(None, [url], 0);
      }
      if x.reply.status == 202 {
        var location := x.reply.operationLocation.GetOr("");
        if IsBlank(location) {
          return Analysis(None, [url], 0);
        }
        var polled, n := PollForResult(location);
        if polled.None? {
          return Analysis(None, [url], n);
        }
        return Analysis(Path(polled, "analyzeResult"), [url], n);
      }
      return Analysis(BodyRoot(x.reply.body), [url], 0);
    }

    /** pollForResult, proved against PollFrom; it also returns the number of requests. */
    method PollForResult(location: string) returns (result: Option<Json>, requests: nat)
      ensures PollOutcome(result, requests) == PollFrom(net.get, location, 0)
    {
      var i := 0;
      while i < MaxPolls
        invariant 0 <= i <= MaxPolls
        invariant PollFrom(net.get, location, i) == PollFrom(net.get, location, 0)
      {
        var x := net.get(location, i);
        if x.Threw? || x.reply.status >= 300 || x.reply.body.Malformed? {
          PollStops(net.get, location, i);
          return None, i + 1;
        }
        var status := PollStatus(x.reply.body);
        if EqualsIgnoreCase("succeeded", status) {
          PollStops(net.get, location, i);
          return BodyRoot(x.reply.body), i + 1;
        }
        if EqualsIgnoreCase("failed", status) {
          PollStops(net.get, location, i);
          return None, i + 1;
        }
        PollContinues(net.get, location, i);
        i := i + 1;
      }
      return None, MaxPolls;
    }
  }

  // ---------------------------------------------------------------------------
  // Trimming a body for the log

  /** `replaceAll("\\s+", " ")`: every maximal run of regex whitespace becomes one space. */
  function CollapseWhitespace(s: string): (r: string)
    ensures |r| <= |s| && (r == [] <==> s == [])
    ensures r != [] ==> (r[0] == ' ' <==> IsRegexSpace(s[0]))
    ensures forall i :: 0 <= i < |r| && IsRegexSpace(r[i]) ==> r[i] == ' '
    ensures forall i :: 0 <= i < |r| - 1 ==> !(r[i] == ' ' && r[i + 1] == ' ')
  {
    if s == [] then []
    else if !IsRegexSpace(s[0]) then [s[0]] + CollapseWhitespace(s[1..])
    else if |s| > 1 && IsRegexSpace(s[1]) then CollapseWhitespace(s[1..])
    else " " + CollapseWhitespace(s[1..])
  }

  /** The characters of `s` that are not regex whitespace, in order. */
  function NonSpace(s: string): (r: string)
    ensures |r| <= |s|
    ensures forall i :: 0 <= i < |r| ==> !IsRegexSpace(r[i])
  {
    if s == [] then []
    else if IsRegexSpace(s[0]) then NonSpace(s[1..])
    else [s[0]] + NonSpace(s[1..])
  }

  /** Collapsing whitespace changes whitespace only: every other character is kept, in order. */
  lemma {:induction false} CollapseKeepsNonSpace(s: string)
    ensures NonSpace(CollapseWhitespace(s)) == NonSpace(s)
  {
    if s != [] {
      CollapseKeepsNonSpace(s[1..]);
      var rest := CollapseWhitespace(s[1..]);
      if !IsRegexSpace(s[0]) {
        assert ([s[0]] + rest)[1..] == rest;
      } else if !(|s| > 1 && IsRegexSpace(s[1])) {
        assert (" " + rest)[1..] == rest;
      }
    }
  }

  /** A character other than whitespace is copied as it is. */
  lemma CollapseKeepsWord(c: char, s: string)
    requires !IsRegexSpace(c)
    ensures CollapseWhitespace([c] + s) == [c] + CollapseWhitespace(s)
  {
    assert ([c] + s)[1..] == s;
  }

  /** A whole run of whitespace, up to the next other character or the end, becomes one space. */
  lemma {:induction false} CollapseRun(w: string, b: string)
    requires w != [] && forall i :: 0 <= i < |w| ==> IsRegexSpace(w[i])
    requires b == [] || !IsRegexSpace(b[0])
    ensures CollapseWhitespace(w + b) == " " + CollapseWhitespace(b)
    decreases |w|
  {
    var s := w + b;
    assert s[1..] == w[1..] + b;
    if |w| > 1 {
      assert s[1] == w[1];
      CollapseRun(w[1..], b);
    }
  }

  const MaxBodyLength: nat := 500

  /** trimBody: "" for null; otherwise whitespace collapsed, trimmed and cut to 500 characters plus an ellipsis. */
  function TrimBody(body: Option<string>): (r: string)
    ensures body.None? ==> r == ""
    ensures |r| <= MaxBodyLength + 1
    ensures body.Some? && |JavaTrim(CollapseWhitespace(body.value))| > MaxBodyLength
            ==> r == JavaTrim(CollapseWhitespace(body.value))[..MaxBodyLength] + "\U{2026}"
  {
    if body.None? then ""
    else
      var trimmed := JavaTrim(CollapseWhitespace(body.value));
      if |trimmed| > MaxBodyLength then trimmed[..MaxBodyLength] + "\U{2026}" else trimmed
  }

  /** No whitespace other than single spaces. */
  predicate SingleSpaced(r: string) {
    (forall i :: 0 <= i < |r| && IsRegexSpace(r[i]) ==> r[i] == ' ')
    && (forall i :: 0 <= i < |r| - 1 ==> !(r[i] == ' ' && r[i + 1] == ' '))
  }

  /** A slice of a single-spaced string is single-spaced. */
  lemma SliceIsSingleSpaced(c: string, d: nat, n: nat)
    requires SingleSpaced(c) && d + n <= |c|
    ensures SingleSpaced(c[d..d + n])
  {
    var t := c[d..d + n];
    assert forall i :: 0 <= i < n ==> t[i] == c[d + i];
  }

  /** Trimming keeps a collapsed body single-spaced. */
  lemma CollapsedTrimIsSingleSpaced(body: string)
    ensures SingleSpaced(JavaTrim(CollapseWhitespace(body)))
  {
    var c := CollapseWhitespace(body);
    assert SingleSpaced(c);
    TrimSlice(c, IsJavaTrimmable);
    SliceIsSingleSpaced(c, |c| - |TrimStart(c, IsJavaTrimmable)|, |JavaTrim(c)|);
  }

  /** A prefix of a single-spaced string followed by an ellipsis is single-spaced. */
  lemma CutIsSingleSpaced(t: string, n: nat)
    requires SingleSpaced(t) && n <= |t|
    ensures SingleSpaced(t[..n] + "\U{2026}")
  {
    var r := t[..n] + "\U{2026}";
    assert forall i :: 0 <= i < n ==> r[i] == t[i];
    assert r[n] == '\U{2026}';
  }

  /** A trimmed body has no whitespace other than single spaces. */
  lemma TrimBodyWhitespace(body: Option<string>)
    ensures SingleSpaced(TrimBody(body))
  {
    if body.Some? {
      var t := JavaTrim(CollapseWhitespace(body.value));
      CollapsedTrimIsSingleSpaced(body.value);
      if |t| > MaxBodyLength {
        CutIsSingleSpaced(t, MaxBodyLength);
      }
    }
  }

  /** A body of at most 500 characters after collapsing and trimming is kept whole. */
  lemma ShortBodyKept(body: string)
    requires |JavaTrim(CollapseWhitespace(body))| <= MaxBodyLength
    ensures TrimBody(Some(body)) == JavaTrim(CollapseWhitespace(body))
  {
  }
}
