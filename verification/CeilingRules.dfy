/** The pure rules of `eval/ceiling.py`: how a request body is clamped and bounded before it is sent, and how a response
    settles its reservation. */
module CeilingRules {
  import opened JsonValues
  import opened Options
  import opened Prices

  datatype Host = OpenAIHost | AnthropicHost | OtherHost

  /** What a (host, path) names: a chat endpoint, the embeddings endpoint, or nothing the ceiling admits. */
  datatype Endpoint = Responses | ChatCompletions | Messages | Embeddings | Elsewhere

  const LIMIT_FIELDS := ["max_output_tokens", "max_completion_tokens", "max_tokens"]
  const REQUEST_ALLOWANCE_TOKENS := 4096
  const THROTTLE_STATUSES := {429, 503, 529}

  predicate Unbilled(status: int) {
    400 <= status < 500 || status in THROTTLE_STATUSES
  }

  function HostOf(endpoint: Endpoint): Host {
    match endpoint
    case Messages => AnthropicHost
    case Elsewhere => OtherHost
    case _ => OpenAIHost
  }

  /** The output-limit field the endpoint itself reads; the embeddings endpoint has none. */
  function OwnField(endpoint: Endpoint): Option<string> {
    match endpoint
    case Responses => Some("max_output_tokens")
    case ChatCompletions => Some("max_completion_tokens")
    case Messages => Some("max_tokens")
    case _ => None
  }

  /** What `json.loads` makes of some bytes: a `ValueError`, a `RecursionError`, or a value. */
  datatype Parsing = NotJson | TooDeep | Parsed(json: Json)

  /** A request body: what it reads as, and the number of its bytes. */
  datatype Content = Content(parsing: Parsing, length: nat)

  /** The parts of Python this module does not define: `int(text)`, `None` for its `ValueError`; the number of bytes
      a body is encoded to, `None` when encoding raises, as it does for a text with a lone surrogate; and the least
      integer too large for a float. */
  datatype Python = Python(
    intOf: string -> Option<int>, encodedLength: Json -> Option<nat>, floatLimit: nat)

  /** What reading one limit gives: an integer, a `TypeError` or `ValueError`, or an `OverflowError`. */
  datatype Reading = Reads(number: int) | Unreadable | Overflows

  function Truncated(value: real): int {
    if value >= 0.0 then value.Floor else -((-value).Floor)
  }

  /** `int(value)`. */
  function IntOf(value: Json, python: Python): Reading {
    match value
    case Bool(truth) => Reads(if truth then 1 else 0)
    case Int(number) => Reads(number)
    case Float(number) => Reads(Truncated(number))
    case Infinite => Overflows
    case Text(text) => (match python.intOf(text) case Some(number) => Reads(number) case None => Unreadable)
    case _ => Unreadable
  }

  /** `int` of a float drops its fraction: it is the whole number no further from zero and less than one away. */
  lemma TruncatedExactly(value: real)
    ensures var n := Truncated(value) as real;
            if value >= 0.0 then 0.0 <= n <= value < n + 1.0 else n - 1.0 < value <= n <= 0.0
  {
  }

  /** What each kind of limit reads as: a truth as one or zero, a number without its fraction, a text as Python reads
      it, an infinity as an overflow, and nothing else. */
  lemma ReadingsExactly(value: Json, python: Python)
    ensures IntOf(Bool(true), python) == Reads(1) && IntOf(Bool(false), python) == Reads(0)
    ensures forall n: int :: IntOf(Int(n), python) == Reads(n) && IntOf(Float(n as real), python) == Reads(n)
    ensures IntOf(value, python).Overflows? <==> value == Infinite
    ensures IntOf(value, python).Unreadable? <==>
              value.Null? || value.NotANumber? || value.List? || value.Dict?
              || (value.Text? && python.intOf(value.text).None?)
    ensures value.Text? && python.intOf(value.text).Some? ==>
              IntOf(value, python) == Reads(python.intOf(value.text).value)
  {
    forall n: int
      ensures IntOf(Float(n as real), python) == Reads(n)
    {
      TruncatedExactly(n as real);
    }
  }

  function Min(a: int, b: int): int {
    if a <= b then a else b
  }

  datatype Clamping = Clamped(fields: map<string, Json>) | Refused(why: Reading)

  /** The loop over the limit fields: each one that is set is read and clamped, in order. */
  function ClampEach(names: seq<string>, body: map<string, Json>, clamped: map<string, Json>, limit: int,
                     python: Python): Clamping
  {
    if names == [] then Clamped(clamped)
    else if Get(body, names[0]).Null? then ClampEach(names[1..], body, clamped, limit, python)
    else
      var reading := IntOf(Get(body, names[0]), python);
      if !reading.Reads? then Refused(reading)
      else ClampEach(names[1..], body, clamped[names[0] := Int(Min(reading.number, limit))], limit, python)
  }

  /** Then the endpoint's own field is set, from its value if that is truthy and from the limit otherwise. */
  function Clamp(body: map<string, Json>, own: string, limit: int, python: Python): Clamping {
    match ClampEach(LIMIT_FIELDS, body, body, limit, python)
    case Refused(why) => Refused(why)
    case Clamped(clamped) =>
      var asked := if Truthy(Get(body, own)) then IntOf(Get(body, own), python) else Reads(limit);
      if asked.Reads? then Clamped(clamped[own := Int(Min(asked.number, limit))]) else Refused(asked)
  }

  /** Whether some limit of the clamped body is not already that integer in the original one. */
  predicate Changed(body: map<string, Json>, clamped: map<string, Json>) {
    exists name | name in LIMIT_FIELDS :: FieldChanged(body, clamped, name)
  }

  datatype Bounded =
    | Bounded(sent: Content, model: string, embeddings: bool)
    | Unsupported       // counted and refused
    | Crashed           // an exception no handler catches

  /** `_bounded`. */
  function BoundBody(endpoint: Endpoint, content: Content, limit: int, python: Python): Bounded {
    if endpoint.Elsewhere? then Unsupported
    else
      match content.parsing
      case NotJson => Unsupported
      case TooDeep => Crashed
      case Parsed(json) =>
        if !json.Dict? || Truthy(Get(json.fields, "stream")) || !Get(json.fields, "model").Text? then Unsupported
        else
          var model := Get(json.fields, "model").text;
          if endpoint.Embeddings? then
            if model in EMBEDDING_MODELS then Bounded(content, model, true) else Unsupported
          else
            match Clamp(json.fields, OwnField(endpoint).value, limit, python)
            case Refused(why) => if why.Overflows? then Crashed else Unsupported
            case Clamped(clamped) =>
              match Encoded(json.fields, clamped, content, python)
              case Some(sent) => Bounded(sent, model, false)
              case None => Crashed
  }

  /** The body to send: the same bytes if no limit changed, otherwise the clamped body encoded anew. */
  function Encoded(body: map<string, Json>, clamped: map<string, Json>, content: Content, python: Python)
    : Option<Content>
  {
    if !Changed(body, clamped) then Some(content)
    else
      match python.encodedLength(Dict(clamped))
      case Some(length) => Some(Content(Parsed(Dict(clamped)), length))
      case None => None
  }

  datatype Admission =
    | Admissible(sent: Content, model: string, amount: real)
    | NotBounded
    | AdmissionCrash

  /** The worst case `admit_body` reserves, before it asks the budget; a count too large for a float cannot be priced,
      and no handler catches that. */
  function WorstCase(endpoint: Endpoint, content: Content, limit: nat, python: Python, catalog: seq<Listed>): Admission {
    match BoundBody(endpoint, content, limit, python)
    case Unsupported => NotBounded
    case Crashed => AdmissionCrash
    case Bounded(sent, model, embeddings) =>
      PricedCase(sent, model, if embeddings then 0 else limit, python, catalog)
  }

  /** What a bounded body would cost at worst. */
  function PricedCase(sent: Content, model: string, output: nat, python: Python, catalog: seq<Listed>): Admission {
    var tokens := sent.length + REQUEST_ALLOWANCE_TOKENS;
    if model in PRICED_INPUT_TOKENS && tokens > PRICED_INPUT_TOKENS[model] then NotBounded
    else
      match CallBound(model, tokens, output, catalog)
      case None => NotBounded
      case Some(amount) =>
        if tokens >= python.floatLimit || output >= python.floatLimit then AdmissionCrash
        else Admissible(sent, model, amount)
  }

  // ---- What the clamp guarantees ----

  /** Every limit field of a body is unset, null, or an integer within the limit. */
  predicate LimitsWithin(body: map<string, Json>, limit: int) {
    forall name | name in LIMIT_FIELDS ::
      Get(body, name).Null? || (Get(body, name).Int? && Get(body, name).number <= limit)
  }

  lemma {:induction false} ClampEachBounds(names: seq<string>, body: map<string, Json>, clamped: map<string, Json>,
                                           limit: int, python: Python)
    requires ClampEach(names, body, clamped, limit, python).Clamped?
    ensures var result := ClampEach(names, body, clamped, limit, python).fields;
            && (forall name | name in names && !Get(body, name).Null? ::
                  name in result && result[name].Int? && result[name].number <= limit)
            && (forall name | name !in names || Get(body, name).Null? :: Get(result, name) == Get(clamped, name))
  {
    if names != [] {
      var rest := names[1..];
      assert names == [names[0]] + rest;
      if Get(body, names[0]).Null? {
        ClampEachBounds(rest, body, clamped, limit, python);
      } else {
        var next := clamped[names[0] := Int(Min(IntOf(Get(body, names[0]), python).number, limit))];
        ClampEachBounds(rest, body, next, limit, python);
      }
    }
  }

  lemma ClampBounds(body: map<string, Json>, own: string, limit: int, python: Python)
    requires own in LIMIT_FIELDS && Clamp(body, own, limit, python).Clamped?
    ensures var clamped := Clamp(body, own, limit, python).fields;
            LimitsWithin(clamped, limit) && own in clamped && clamped[own].Int?
            && forall name | name !in LIMIT_FIELDS :: Get(clamped, name) == Get(body, name)
  {
    ClampEachBounds(LIMIT_FIELDS, body, body, limit, python);
  }

  predicate AlreadyBounded(body: map<string, Json>, own: string, limit: int) {
    && own in body && (body[own] == Int(0) ==> limit == 0)
    && forall name | name in LIMIT_FIELDS && name in body :: body[name].Int? && body[name].number <= limit
  }

  predicate FieldChanged(body: map<string, Json>, clamped: map<string, Json>, name: string) {
    name in clamped && (!Get(body, name).Int? || Get(body, name) != clamped[name])
  }

  /** What a body becomes: each limit it sets is cut to the limit, and the endpoint's own field is the limit unless the
      body sets it to something truthy. */
  function Rewritten(body: map<string, Json>, own: string, limit: int, python: Python): map<string, Json>
    requires own in LIMIT_FIELDS && AllReadable(body, python)
  {
    map name | name in body.Keys + {own} ::
      if name == own && !Truthy(Get(body, own)) then Int(limit)
      else if name in LIMIT_FIELDS && !Get(body, name).Null? then Int(Min(IntOf(body[name], python).number, limit))
      else body[name]
  }

  /** The clamp's loop and its own-field step, each field on its own. */
  lemma ClampIsRewritten(body: map<string, Json>, own: string, limit: int, python: Python)
    requires own in LIMIT_FIELDS && AllReadable(body, python)
    ensures Clamp(body, own, limit, python) == Clamped(Rewritten(body, own, limit, python))
  {
    ClampSteps(body, own, limit, python);
    var clamped, rewritten := Clamp(body, own, limit, python).fields, Rewritten(body, own, limit, python);
    forall name | name in rewritten
      ensures clamped[name] == rewritten[name]
    {
      EachRewritten(body, name, own, limit, python);
    }
    assert clamped == rewritten;
  }

  lemma ClampSteps(body: map<string, Json>, own: string, limit: int, python: Python)
    requires own in LIMIT_FIELDS && AllReadable(body, python)
    ensures ClampEach(LIMIT_FIELDS, body, body, limit, python).Clamped?
    ensures Clamp(body, own, limit, python).Clamped?
    ensures var each := ClampEach(LIMIT_FIELDS, body, body, limit, python).fields;
            each.Keys == body.Keys
            && Clamp(body, own, limit, python).fields == each[own := Rewritten(body, own, limit, python)[own]]
  {
    ClampEachReads(LIMIT_FIELDS, body, body, limit, python);
    ClampEachExact(LIMIT_FIELDS, body, body, limit, python);
    OwnReads(body, own, python);
  }

  lemma EachRewritten(body: map<string, Json>, name: string, own: string, limit: int, python: Python)
    requires own in LIMIT_FIELDS && AllReadable(body, python) && name in body.Keys + {own}
    requires ClampEach(LIMIT_FIELDS, body, body, limit, python).Clamped?
    ensures var each := ClampEach(LIMIT_FIELDS, body, body, limit, python).fields;
            each.Keys == body.Keys && (name != own ==> each[name] == Rewritten(body, own, limit, python)[name])
  {
    ClampEachExact(LIMIT_FIELDS, body, body, limit, python);
  }

  lemma OwnReads(body: map<string, Json>, own: string, python: Python)
    requires own in LIMIT_FIELDS && AllReadable(body, python)
    ensures Truthy(Get(body, own)) ==> own in body && IntOf(body[own], python).Reads?
  {
    assert Readable(body, own, python);
  }

  /** A body is re-encoded exactly when it did not already meet the bound. */
  lemma ChangedExactly(body: map<string, Json>, own: string, limit: int, python: Python)
    requires own in LIMIT_FIELDS && AllReadable(body, python)
    ensures Changed(body, Rewritten(body, own, limit, python)) <==> !AlreadyBounded(body, own, limit)
  {
    forall name | name in LIMIT_FIELDS
      ensures FieldChanged(body, Rewritten(body, own, limit, python), name) <==> Unbounded(body, own, limit, name)
    {
      assert Readable(body, name, python);
    }
  }

  /** What keeps one field from meeting the bound. */
  predicate Unbounded(body: map<string, Json>, own: string, limit: int, name: string) {
    || (name in body && !(body[name].Int? && body[name].number <= limit))
    || (name == own && (name !in body || (body[name] == Int(0) && limit != 0)))
  }

  lemma {:induction false} ClampEachExact(names: seq<string>, body: map<string, Json>, clamped: map<string, Json>,
                                          limit: int, python: Python)
    requires ClampEach(names, body, clamped, limit, python).Clamped?
    ensures var result := ClampEach(names, body, clamped, limit, python).fields;
            && result.Keys == clamped.Keys + (set name | name in names && !Get(body, name).Null?)
            && (forall name | name in names && !Get(body, name).Null? ::
                  IntOf(body[name], python).Reads?
                  && result[name] == Int(Min(IntOf(body[name], python).number, limit)))
            && (forall name | name in clamped && (name !in names || Get(body, name).Null?) ::
                  result[name] == clamped[name])
  {
    if names != [] {
      var rest := names[1..];
      assert names == [names[0]] + rest;
      if Get(body, names[0]).Null? {
        ClampEachExact(rest, body, clamped, limit, python);
      } else {
        var next := clamped[names[0] := Int(Min(IntOf(Get(body, names[0]), python).number, limit))];
        ClampEachExact(rest, body, next, limit, python);
      }
    }
  }

  // ---- Which requests are bounded ----

  /** What every admitted request has, whatever its limits. */
  predicate Addressed(endpoint: Endpoint, content: Content) {
    !endpoint.Elsewhere? && content.parsing.Parsed? && content.parsing.json.Dict?
    && !Truthy(Get(content.parsing.json.fields, "stream")) && Get(content.parsing.json.fields, "model").Text?
  }

  predicate Readable(body: map<string, Json>, name: string, python: Python) {
    Get(body, name).Null? || IntOf(body[name], python).Reads?
  }

  predicate AllReadable(body: map<string, Json>, python: Python) {
    forall name | name in LIMIT_FIELDS :: Readable(body, name, python)
  }

  /** The first of the fields that does not read as an integer is an infinity. */
  predicate FirstBadInfinite(names: seq<string>, body: map<string, Json>, python: Python) {
    names != [] &&
    if Readable(body, names[0], python) then FirstBadInfinite(names[1..], body, python)
    else Get(body, names[0]).Infinite?
  }

  lemma {:induction false} ClampEachReads(names: seq<string>, body: map<string, Json>, clamped: map<string, Json>,
                                          limit: int, python: Python)
    ensures ClampEach(names, body, clamped, limit, python).Clamped?
            <==> forall name | name in names :: Readable(body, name, python)
    ensures ClampEach(names, body, clamped, limit, python) == Refused(Overflows)
            <==> FirstBadInfinite(names, body, python)
  {
    if names != [] {
      var rest := names[1..];
      assert names == [names[0]] + rest;
      if Get(body, names[0]).Null? {
        ClampEachReads(rest, body, clamped, limit, python);
      } else if IntOf(body[names[0]], python).Reads? {
        var next := clamped[names[0] := Int(Min(IntOf(body[names[0]], python).number, limit))];
        ClampEachReads(rest, body, next, limit, python);
      } else {
        assert names[0] in names && !Readable(body, names[0], python);
      }
    }
  }

  /** A body whose clamped form cannot be encoded, although it has to be. */
  predicate Unencodable(body: map<string, Json>, own: string, limit: int, python: Python)
    requires own in LIMIT_FIELDS && AllReadable(body, python)
  {
    !AlreadyBounded(body, own, limit) && python.encodedLength(Dict(Rewritten(body, own, limit, python))).None?
  }

  /** What a chat endpoint does with the limits of an addressed body. */
  lemma ChatBounded(endpoint: Endpoint, content: Content, limit: int, python: Python)
    requires Addressed(endpoint, content) && !endpoint.Embeddings?
    ensures var body, own := content.parsing.json.fields, OwnField(endpoint).value;
            var bounded := BoundBody(endpoint, content, limit, python);
            if AllReadable(body, python) then
              bounded == if AlreadyBounded(body, own, limit) then Bounded(content, body["model"].text, false)
                         else if Unencodable(body, own, limit, python) then Crashed
                         else Bounded(Reencoded(body, own, limit, python), body["model"].text, false)
            else bounded == if FirstBadInfinite(LIMIT_FIELDS, body, python) then Crashed else Unsupported
  {
    var body, own := content.parsing.json.fields, OwnField(endpoint).value;
    ClampEachReads(LIMIT_FIELDS, body, body, limit, python);
    if AllReadable(body, python) {
      ClampIsRewritten(body, own, limit, python);
      ChangedExactly(body, own, limit, python);
    }
  }

  function Reencoded(body: map<string, Json>, own: string, limit: int, python: Python): Content
    requires own in LIMIT_FIELDS && AllReadable(body, python)
    requires python.encodedLength(Dict(Rewritten(body, own, limit, python))).Some?
  {
    var rewritten := Dict(Rewritten(body, own, limit, python));
    Content(Parsed(rewritten), python.encodedLength(rewritten).value)
  }

  /** A request is bounded exactly when it is addressed and names a priced embedding model, or every limit it sets reads
      as an integer and the body, if it has to change, can be encoded. */
  lemma BoundedExactly(endpoint: Endpoint, content: Content, limit: int, python: Python)
    ensures BoundBody(endpoint, content, limit, python).Bounded? <==>
              Addressed(endpoint, content) &&
              var body := content.parsing.json.fields;
              if endpoint.Embeddings? then body["model"].text in EMBEDDING_MODELS
              else AllReadable(body, python) && !Unencodable(body, OwnField(endpoint).value, limit, python)
  {
    if Addressed(endpoint, content) && !endpoint.Embeddings? {
      ChatBounded(endpoint, content, limit, python);
    }
  }

  /** Not every request the ceiling cannot bound is refused as unsupported. Bounding raises past every handler for
      three kinds of request, and for no other: a body nested too deep to parse; one whose first unreadable limit is
      an infinity; and one that has to be encoded anew and cannot be. */
  lemma CrashesExactly(endpoint: Endpoint, content: Content, limit: int, python: Python)
    ensures BoundBody(endpoint, content, limit, python).Crashed? <==>
              !endpoint.Elsewhere? &&
              (content.parsing.TooDeep?
               || (Addressed(endpoint, content) && !endpoint.Embeddings? &&
                   var body := content.parsing.json.fields;
                   if AllReadable(body, python) then Unencodable(body, OwnField(endpoint).value, limit, python)
                   else FirstBadInfinite(LIMIT_FIELDS, body, python)))
  {
    if Addressed(endpoint, content) && !endpoint.Embeddings? {
      ChatBounded(endpoint, content, limit, python);
    }
  }

  /** And admission raises for one kind more: a bounded request that has a price and stays within its model's priced
      input, but whose tokens or output limit do not convert to a float. With a limit that converts, and a body
      shorter than the numbers a float holds, there is none of that kind. */
  lemma AdmissionCrashesExactly(endpoint: Endpoint, content: Content, limit: nat, python: Python, catalog: seq<Listed>)
    ensures var bounded := BoundBody(endpoint, content, limit, python);
            WorstCase(endpoint, content, limit, python, catalog).AdmissionCrash? <==>
              bounded.Crashed? || (bounded.Bounded? && Inconvertible(bounded, limit, python, catalog))
    ensures var bounded := BoundBody(endpoint, content, limit, python);
            limit < python.floatLimit && bounded.Bounded?
            && bounded.sent.length + REQUEST_ALLOWANCE_TOKENS < python.floatLimit ==>
              !WorstCase(endpoint, content, limit, python, catalog).AdmissionCrash?
  {
  }

  /** A request is admissible exactly when it is bounded, its sent body and the allowance are within its model's priced
      input, its model has a price, and its counts convert; it is then sent as bounded. */
  lemma AdmissibleExactly(endpoint: Endpoint, content: Content, limit: nat, python: Python, catalog: seq<Listed>)
    ensures var bounded, worst := BoundBody(endpoint, content, limit, python),
                                  WorstCase(endpoint, content, limit, python, catalog);
            && (worst.Admissible? <==>
                  bounded.Bounded? &&
                  var tokens := bounded.sent.length + REQUEST_ALLOWANCE_TOKENS;
                  && PriceOf(bounded.model, catalog).Some? && tokens < python.floatLimit
                  && (bounded.model in PRICED_INPUT_TOKENS ==> tokens <= PRICED_INPUT_TOKENS[bounded.model])
                  && (endpoint.Embeddings? || limit < python.floatLimit))
            && (worst.Admissible? ==> worst.sent == bounded.sent && worst.model == bounded.model)
  {
    EmbeddingsAreEmbeddings(endpoint, content, limit, python);
    assert endpoint.Embeddings? && python.floatLimit == 0 ==> REQUEST_ALLOWANCE_TOKENS >= python.floatLimit;
  }

  /** A bounded request with a price but with a count that does not convert. */
  predicate Inconvertible(bounded: Bounded, limit: nat, python: Python, catalog: seq<Listed>)
    requires bounded.Bounded?
  {
    var tokens, output := bounded.sent.length + REQUEST_ALLOWANCE_TOKENS, if bounded.embeddings then 0 else limit;
    && (bounded.model in PRICED_INPUT_TOKENS ==> tokens <= PRICED_INPUT_TOKENS[bounded.model])
    && CallBound(bounded.model, tokens, output, catalog).Some?
    && (tokens >= python.floatLimit || output >= python.floatLimit)
  }

  /** Which of two bad limits comes first decides: an infinite one before an unreadable one crashes, and the same two
      the other way round are refused. */
  lemma InfiniteLimitCrashes(length: nat, limit: int, python: Python)
    ensures var early := map["model" := Text("m"), "max_output_tokens" := Infinite, "max_tokens" := List([])];
            BoundBody(Responses, Content(Parsed(Dict(early)), length), limit, python) == Crashed
    ensures var late := map["model" := Text("m"), "max_output_tokens" := List([]), "max_tokens" := Infinite];
            BoundBody(Responses, Content(Parsed(Dict(late)), length), limit, python) == Unsupported
  {
    var early := map["model" := Text("m"), "max_output_tokens" := Infinite, "max_tokens" := List([])];
    var late := map["model" := Text("m"), "max_output_tokens" := List([]), "max_tokens" := Infinite];
    assert !Readable(early, LIMIT_FIELDS[0], python) && !Readable(late, LIMIT_FIELDS[0], python);
    ChatBounded(Responses, Content(Parsed(Dict(early)), length), limit, python);
    ChatBounded(Responses, Content(Parsed(Dict(late)), length), limit, python);
  }

  /** A chat request that sets no limit has to be encoded anew, so it crashes exactly when one of its texts, such as a
      message with a lone surrogate, has no encoding. */
  lemma UnlimitedCrashesExactly(endpoint: Endpoint, content: Content, limit: int, python: Python)
    requires Addressed(endpoint, content) && !endpoint.Embeddings?
    requires forall name | name in LIMIT_FIELDS :: name !in content.parsing.json.fields
    ensures var body, own := content.parsing.json.fields, OwnField(endpoint).value;
            BoundBody(endpoint, content, limit, python).Crashed?
            <==> python.encodedLength(Dict(body[own := Int(limit)])).None?
  {
    var body, own := content.parsing.json.fields, OwnField(endpoint).value;
    UnlimitedRewritten(body, own, limit, python);
    CrashesExactly(endpoint, content, limit, python);
  }

  lemma UnlimitedRewritten(body: map<string, Json>, own: string, limit: int, python: Python)
    requires own in LIMIT_FIELDS && forall name | name in LIMIT_FIELDS :: name !in body
    ensures AllReadable(body, python) && !AlreadyBounded(body, own, limit)
    ensures Rewritten(body, own, limit, python) == body[own := Int(limit)]
  {
  }

  /** The body sent for a chat request: every limit field is null or an integer within the limit, the endpoint's own
      field is such an integer, and nothing else changed. */
  lemma SentBodyBounded(endpoint: Endpoint, content: Content, limit: int, python: Python)
    requires BoundBody(endpoint, content, limit, python).Bounded? && !endpoint.Embeddings?
    ensures var sent := BoundBody(endpoint, content, limit, python).sent;
            var own := OwnField(endpoint).value;
            sent.parsing.Parsed? && sent.parsing.json.Dict? && LimitsWithin(sent.parsing.json.fields, limit)
            && own in sent.parsing.json.fields && sent.parsing.json.fields[own].Int?
            && (forall name | name !in LIMIT_FIELDS ::
                  Get(sent.parsing.json.fields, name) == Get(content.parsing.json.fields, name))
  {
    var body, own := content.parsing.json.fields, OwnField(endpoint).value;
    BoundedExactly(endpoint, content, limit, python);
    ChatBounded(endpoint, content, limit, python);
    if !AlreadyBounded(body, own, limit) {
      ClampIsRewritten(body, own, limit, python);
      ClampBounds(body, own, limit, python);
    }
  }

  /** A chat request's bytes are encoded anew exactly when its body did not already meet the bound, whatever the
      limit; a null limit is kept but does count as not meeting it. */
  lemma SentUnchangedExactly(endpoint: Endpoint, content: Content, limit: int, python: Python)
    requires BoundBody(endpoint, content, limit, python).Bounded? && !endpoint.Embeddings?
    ensures content.parsing.Parsed? && content.parsing.json.Dict?
    ensures var body, own := content.parsing.json.fields, OwnField(endpoint).value;
            !Changed(body, Clamp(body, own, limit, python).fields) <==> AlreadyBounded(body, own, limit)
  {
    var body, own := content.parsing.json.fields, OwnField(endpoint).value;
    BoundedExactly(endpoint, content, limit, python);
    ClampIsRewritten(body, own, limit, python);
    ChangedExactly(body, own, limit, python);
  }

  // ---- What a response settles ----

  /** What came back: `status` is `None` when nothing did, and `answer` when no body could be decoded. `terminalWord`
      says whether the body's text names a credit, quota, or billing failure. */
  datatype Response = Response(status: Option<int>, answer: Option<Parsing>, terminalWord: bool)

  datatype Outcome = Throttled | Rejected | Failed | Unreported | Billed

  /** `_tokens`: a non-negative integer count; an optional one may be absent or null. */
  function Tokens(usage: map<string, Json>, key: string, required: bool): Option<nat> {
    var value := Get(usage, key);
    if value.Null? && !required then Some(0)
    else if value.Int? && value.number >= 0 then Some(value.number)
    else None
  }

  function Reported(input: nat, output: nat, read: nat, write: nat): Usage {
    Usage(1, 0, 0, input, output, read, write, 0)
  }

  /** `usage_of`. */
  function UsageOf(endpoint: Endpoint, json: Json): Option<Usage> {
    if !json.Dict? || !Get(json.fields, "usage").Dict? then None
    else
      var usage := json.fields["usage"].fields;
      if endpoint.Embeddings? then EmbeddingsUsage(usage)
      else if HostOf(endpoint).AnthropicHost? then AnthropicUsage(usage)
      else OpenAIUsage(usage)
  }

  function EmbeddingsUsage(usage: map<string, Json>): Option<Usage> {
    var input := Tokens(usage, "prompt_tokens", true);
    if input.None? then None else Some(Reported(input.value, 0, 0, 0))
  }

  function AnthropicUsage(usage: map<string, Json>): Option<Usage> {
    var plain, output := Tokens(usage, "input_tokens", true), Tokens(usage, "output_tokens", true);
    var read := Tokens(usage, "cache_read_input_tokens", false);
    var write := Tokens(usage, "cache_creation_input_tokens", false);
    if plain.None? || output.None? || read.None? || write.None? then None
    else Some(Reported(plain.value + read.value + write.value, output.value, read.value, write.value))
  }

  function OpenAIUsage(usage: map<string, Json>): Option<Usage> {
    var responses := "input_tokens" in usage;
    var input := Tokens(usage, if responses then "input_tokens" else "prompt_tokens", true);
    var output := Tokens(usage, if responses then "output_tokens" else "completion_tokens", true);
    var named := Get(usage, if responses then "input_tokens_details" else "prompt_tokens_details");
    var details := if named.Null? then Dict(map[]) else named;
    if input.None? || output.None? || !details.Dict? then None
    else
      var read := Tokens(details.fields, "cached_tokens", false);
      var write := Tokens(details.fields, "cache_write_tokens", false);
      if read.None? || write.None? then None
      else Some(Reported(input.value, output.value, read.value, write.value))
  }

  predicate Counted(usage: map<string, Json>, key: string) {
    key in usage && usage[key].Int? && usage[key].number >= 0
  }

  /** An optional count may be absent or null. */
  predicate MayCount(usage: map<string, Json>, key: string) {
    key !in usage || usage[key].Null? || Counted(usage, key)
  }

  /** A usage is reported exactly when each required count is a non-negative integer and each optional one such an
      integer, null, or absent, under the names of the provider's own format. */
  lemma UsageReadExactly(endpoint: Endpoint, usage: map<string, Json>)
    ensures UsageOf(endpoint, Dict(map["usage" := Dict(usage)])).Some? <==>
              match endpoint
              case Embeddings => Counted(usage, "prompt_tokens")
              case Messages =>
                Counted(usage, "input_tokens") && Counted(usage, "output_tokens")
                && MayCount(usage, "cache_read_input_tokens") && MayCount(usage, "cache_creation_input_tokens")
              case _ =>
                if "input_tokens" in usage then
                  Counted(usage, "input_tokens") && Counted(usage, "output_tokens")
                  && DetailsCount(usage, "input_tokens_details")
                else
                  Counted(usage, "prompt_tokens") && Counted(usage, "completion_tokens")
                  && DetailsCount(usage, "prompt_tokens_details")
  {
  }

  predicate DetailsCount(usage: map<string, Json>, key: string) {
    key !in usage || usage[key].Null?
    || (usage[key].Dict? && MayCount(usage[key].fields, "cached_tokens")
        && MayCount(usage[key].fields, "cache_write_tokens"))
  }

  /** An Anthropic report reads back as the call it describes, its input including the cache traffic. */
  lemma AnthropicReadsBack(plain: nat, output: nat, read: nat, write: nat)
    ensures UsageOf(Messages, Dict(map["usage" := Dict(
              map["input_tokens" := Int(plain), "output_tokens" := Int(output), "cache_read_input_tokens" := Int(read),
                  "cache_creation_input_tokens" := Int(write)])]))
         == Some(Usage(1, 0, 0, plain + read + write, output, read, write, 0))
    ensures UsageOf(Messages, Dict(map["usage" := Dict(
              map["input_tokens" := Int(plain), "output_tokens" := Int(output), "cache_read_input_tokens" := Null])]))
         == Some(Usage(1, 0, 0, plain, output, 0, 0, 0))
  {
  }

  /** So does an OpenAI report, in any of its three formats, its input already including that traffic; an optional count
      that is missing reads as zero. */
  lemma UsageReadsBack(plain: nat, output: nat, read: nat, write: nat)
    ensures UsageOf(Responses, Dict(map["usage" := Dict(
              map["input_tokens" := Int(plain), "output_tokens" := Int(output), "input_tokens_details" := Dict(
                    map["cached_tokens" := Int(read), "cache_write_tokens" := Int(write)])])]))
         == Some(Usage(1, 0, 0, plain, output, read, write, 0))
    ensures UsageOf(ChatCompletions, Dict(map["usage" := Dict(
              map["prompt_tokens" := Int(plain), "completion_tokens" := Int(output), "prompt_tokens_details" := Dict(
                    map["cached_tokens" := Int(read), "cache_write_tokens" := Int(write)])])]))
         == Some(Usage(1, 0, 0, plain, output, read, write, 0))
    ensures UsageOf(ChatCompletions, Dict(map["usage" := Dict(
              map["prompt_tokens" := Int(plain), "completion_tokens" := Int(output), "prompt_tokens_details" := Null])]))
         == Some(Usage(1, 0, 0, plain, output, 0, 0, 0))
    ensures UsageOf(Embeddings, Dict(map["usage" := Dict(map["prompt_tokens" := Int(plain)])]))
         == Some(Usage(1, 0, 0, plain, 0, 0, 0, 0))
  {
  }

  /** `clamped`: whether an answer stopped at the output limit. */
  predicate StoppedAtLimit(json: Json) {
    json.Dict? &&
    (Get(json.fields, "stop_reason") == Text("max_tokens")
     || (Get(json.fields, "incomplete_details").Dict?
         && Get(json.fields["incomplete_details"].fields, "reason") == Text("max_output_tokens"))
     || (Get(json.fields, "choices").List?
         && exists item | item in json.fields["choices"].items ::
              item.Dict? && Get(item.fields, "finish_reason") == Text("length")))
  }

  /** Each provider's word for an answer cut at the limit is recognized in its own place, and no other word is. */
  lemma CutAnswersRecognized(reason: string)
    ensures StoppedAtLimit(Dict(map["stop_reason" := Text(reason)])) <==> reason == "max_tokens"
    ensures StoppedAtLimit(Dict(map["incomplete_details" := Dict(map["reason" := Text(reason)])]))
            <==> reason == "max_output_tokens"
    ensures StoppedAtLimit(Dict(map["choices" := List([Null, Dict(map["finish_reason" := Text(reason)])])]))
            <==> reason == "length"
  {
    var choice := Dict(map["finish_reason" := Text(reason)]);
    var choices := [Null, choice];
    assert choices[1] == choice && forall item | item in choices :: item == Null || item == choice;
  }

  predicate Terminal(response: Response) {
    response.status.Some?
    && (response.status.value in {401, 402, 403}
        || (response.status.value in {400, 429} && response.terminalWord))
  }

  /** The value of a response that came with a status and a readable body. */
  function JsonOf(response: Response): Option<Json> {
    if response.status.Some? && response.answer.Some? && response.answer.value.Parsed? then
      Some(response.answer.value.json)
    else None
  }

  function UsageIn(endpoint: Endpoint, response: Response): Option<Usage> {
    match JsonOf(response)
    case Some(json) => UsageOf(endpoint, json)
    case None => None
  }

  predicate Refusal(response: Response) {
    response.status.Some? && Unbilled(response.status.value)
  }

  predicate Stopped(response: Response) {
    !Refusal(response) && response.status == Some(200) && JsonOf(response).Some? && StoppedAtLimit(JsonOf(response).value)
  }

  /** Whether every count of a usage converts to a float, so that it can be priced. */
  predicate Priceable(usage: Usage, python: Python) {
    FreshInputTokens(usage) < python.floatLimit && usage.cacheReadTokens < python.floatLimit
    && usage.cacheWriteTokens < python.floatLimit && usage.outputTokens < python.floatLimit
  }

  /** Whether `settle_body` reaches its settlement: a usage that cannot be priced raises an `OverflowError` before
      it. */
  predicate Settleable(endpoint: Endpoint, response: Response, python: Python) {
    Refusal(response) || (UsageIn(endpoint, response).Some? ==> Priceable(UsageIn(endpoint, response).value, python))
  }

  /** How a response is counted. */
  function OutcomeOf(endpoint: Endpoint, response: Response): Outcome {
    if Refusal(response) then (if response.status.value in THROTTLE_STATUSES then Throttled else Rejected)
    else if UsageIn(endpoint, response).Some? then Billed
    else if response.status.None? || response.status.value >= 400 then Failed
    else Unreported
  }

  /** What a response settles its reservation at. */
  function SettledCost(endpoint: Endpoint, response: Response, rates: Price): Cost {
    if Refusal(response) then Cost(0.0, true)
    else
      match UsageIn(endpoint, response)
      case None => Cost(0.0, false)
      case Some(usage) => Cost(UsageCost(usage, rates), Known(usage))
  }

  /** What a response means, by its status: a refusal, any 4xx and the overload statuses 503 and 529, costs nothing
      whatever its body; any other response costs its usage when one is reported; and without one it costs the whole
      reservation, and has failed when nothing came back or the status is an error. */
  lemma ResponseOutcomes(endpoint: Endpoint, response: Response, rates: Price)
    ensures var refused := response.status.Some? &&
                           (400 <= response.status.value <= 499 || response.status.value in {503, 529});
            var usage := UsageIn(endpoint, response);
            var outcome, cost := OutcomeOf(endpoint, response), SettledCost(endpoint, response, rates);
            if refused then
              cost == Cost(0.0, true)
              && outcome == if response.status.value in {429, 503, 529} then Throttled else Rejected
            else if usage.Some? then cost == Cost(UsageCost(usage.value, rates), true) && outcome == Billed
            else
              cost == Cost(0.0, false)
              && outcome == if response.status.None? || response.status.value >= 500 then Failed else Unreported
  {
    if UsageIn(endpoint, response).Some? {
      ReportedAreKnown(endpoint, JsonOf(response).value);
    }
  }

  /** Whatever is reported, a usage is known. */
  lemma ReportedAreKnown(endpoint: Endpoint, json: Json)
    ensures UsageOf(endpoint, json).Some? ==> Known(UsageOf(endpoint, json).value)
  {
  }

  /** The settlement is unknown exactly for the outcomes counted as failed or unreported. */
  lemma UnknownExactly(endpoint: Endpoint, response: Response, rates: Price)
    ensures !SettledCost(endpoint, response, rates).known <==> OutcomeOf(endpoint, response) in {Failed, Unreported}
  {
  }

  /** The ceiling's stated assumptions about one response: a reported usage stays within the input the bound was
      computed for, the output limit, and cache traffic no larger than that input. */
  ghost predicate WithinAssumptions(endpoint: Endpoint, response: Response, inputTokens: nat, outputTokens: nat) {
    UsageIn(endpoint, response).Some? ==>
      Within(UsageIn(endpoint, response).value, inputTokens, outputTokens, inputTokens)
  }

  /** Anthropic's cache traffic is part of the input by construction, so its last assumption is the first. */
  lemma AnthropicCacheWithinInput(endpoint: Endpoint, json: Json)
    requires HostOf(endpoint).AnthropicHost? && UsageOf(endpoint, json).Some?
    ensures var usage := UsageOf(endpoint, json).value;
            usage.cacheReadTokens + usage.cacheWriteTokens <= usage.inputTokens
  {
  }

  /** OpenAI's is reported beside the input, and nothing in the code relates the two: any counts can be reported. */
  lemma OpenAICacheIsFree(input: nat, output: nat, read: nat, write: nat)
    ensures exists json :: UsageOf(Responses, json) == Some(Reported(input, output, read, write))
  {
    var details := map["cached_tokens" := Int(read), "cache_write_tokens" := Int(write)];
    var usage := map["input_tokens" := Int(input), "output_tokens" := Int(output),
                     "input_tokens_details" := Dict(details)];
    var json := Dict(map["usage" := Dict(usage)]);
    assert UsageOf(Responses, json) == OpenAIUsage(usage);
    assert OpenAIUsage(usage) == Some(Reported(input, output, read, write));
  }

  /** An admitted request as the ledger and the settlement see it: what is sent, under which output limit, at which
      prices, and the amount reserved for it. */
  datatype Call = Call(endpoint: Endpoint, rates: Price, sent: Content, limit: nat, amount: real)

  function CallOf(endpoint: Endpoint, content: Content, limit: nat, python: Python, catalog: seq<Listed>): Option<Call> {
    match WorstCase(endpoint, content, limit, python, catalog)
    case Admissible(sent, model, amount) =>
      (match PriceOf(model, catalog)
       case Some(rates) => Some(Call(endpoint, rates, sent, limit, amount))
       case None => None)
    case _ => None
  }

  /** The ceiling's stated assumptions about one response, from what was sent: the input and the cache traffic are
      each at most the body's bytes and the allowance, and the output is at most the limit; an embedding has none. */
  ghost predicate KeepsLimits(call: Call, response: Response) {
    WithinAssumptions(call.endpoint, response, call.sent.length + REQUEST_ALLOWANCE_TOKENS,
                      if call.endpoint.Embeddings? then 0 else call.limit)
  }

  /** Every count within a call's limits converts to a float. */
  predicate Convertible(call: Call, python: Python) {
    call.sent.length + REQUEST_ALLOWANCE_TOKENS < python.floatLimit
    && (call.endpoint.Embeddings? || call.limit < python.floatLimit)
  }

  /** The reservation is the bound at the call's own prices, for what was sent and for its output limit. */
  ghost predicate Priced(call: Call) {
    && Ordered(call.rates) && call.amount >= 0.0
    && call.amount == Bound(call.rates, call.sent.length + REQUEST_ALLOWANCE_TOKENS,
                            if call.endpoint.Embeddings? then 0 else call.limit)
  }

  /** Every admissible request is a priced call, at the price of the model it names. */
  lemma CallsArePriced(endpoint: Endpoint, content: Content, limit: nat, python: Python, catalog: seq<Listed>)
    ensures var call := CallOf(endpoint, content, limit, python, catalog);
            (call.Some? <==> WorstCase(endpoint, content, limit, python, catalog).Admissible?)
            && (call.Some? ==> Priced(call.value) && Convertible(call.value, python)
                               && call.value.endpoint == endpoint && call.value.limit == limit
                               && Addressed(endpoint, content)
                               && PriceOf(content.parsing.json.fields["model"].text, catalog) == Some(call.value.rates))
  {
    var admitted := WorstCase(endpoint, content, limit, python, catalog);
    if admitted.Admissible? {
      PricesOrdered(admitted.model, catalog);
      EmbeddingsAreEmbeddings(endpoint, content, limit, python);
      BoundNonNegative(PriceOf(admitted.model, catalog).value, admitted.sent.length + REQUEST_ALLOWANCE_TOKENS,
                       if endpoint.Embeddings? then 0 else limit);
    }
  }

  lemma BoundNonNegative(rates: Price, inputTokens: nat, outputTokens: nat)
    requires Ordered(rates)
    ensures Bound(rates, inputTokens, outputTokens) >= 0.0
  {
    BoundCovers(NO_USAGE, rates, inputTokens, outputTokens);
  }

  /** An addressed embedding request is sent as it is when its model is a priced embedding model, and refused otherwise;
      no other endpoint's request is an embedding. */
  lemma EmbeddingsAreEmbeddings(endpoint: Endpoint, content: Content, limit: int, python: Python)
    ensures var bounded := BoundBody(endpoint, content, limit, python);
            && (bounded.Bounded? ==> (bounded.embeddings <==> endpoint.Embeddings?))
            && (endpoint.Embeddings? && Addressed(endpoint, content) ==>
                  var model := content.parsing.json.fields["model"].text;
                  bounded == if model in EMBEDDING_MODELS then Bounded(content, model, true) else Unsupported)
  {
  }

  /** The worst case is exactly that: the most that any usage can cost whose input and cache traffic are each within the
      sent body's bytes and the allowance, and whose output is within the limit. */
  lemma WorstCaseExact(endpoint: Endpoint, content: Content, limit: nat, python: Python, catalog: seq<Listed>)
    requires WorstCase(endpoint, content, limit, python, catalog).Admissible?
    ensures var worst := WorstCase(endpoint, content, limit, python, catalog);
            var input, output := worst.sent.length + REQUEST_ALLOWANCE_TOKENS, if endpoint.Embeddings? then 0 else limit;
            PriceOf(worst.model, catalog).Some? &&
            var rates := PriceOf(worst.model, catalog).value;
            && (forall usage | Within(usage, input, output, input) :: 0.0 <= UsageCost(usage, rates) <= worst.amount)
            && (exists usage | Within(usage, input, output, input) :: UsageCost(usage, rates) == worst.amount)
  {
    var worst := WorstCase(endpoint, content, limit, python, catalog);
    var input, output := worst.sent.length + REQUEST_ALLOWANCE_TOKENS, if endpoint.Embeddings? then 0 else limit;
    CallsArePriced(endpoint, content, limit, python, catalog);
    var rates := PriceOf(worst.model, catalog).value;
    BoundReached(rates, input, output);
    forall usage | Within(usage, input, output, input)
      ensures 0.0 <= UsageCost(usage, rates) <= worst.amount
    {
      BoundCovers(usage, rates, input, output);
    }
  }

  /** Under the assumptions a call never costs more than its reservation. */
  lemma ReservationSuffices(call: Call, response: Response)
    requires Priced(call) && KeepsLimits(call, response)
    ensures 0.0 <= SettledCost(call.endpoint, response, call.rates).usd <= call.amount
  {
    var usage := UsageIn(call.endpoint, response);
    if usage.Some? {
      BoundCovers(usage.value, call.rates, call.sent.length + REQUEST_ALLOWANCE_TOKENS,
                  if call.endpoint.Embeddings? then 0 else call.limit);
    }
  }

  /** And every one of its responses can be priced and is settled: its own bound was. */
  lemma AssumptionsSettle(call: Call, response: Response, python: Python)
    requires Convertible(call, python) && KeepsLimits(call, response)
    ensures Settleable(call.endpoint, response, python)
  {
  }

  /** A report is settled exactly when each of its four priced counts converts: the input beyond the cache traffic, both
      kinds of cache traffic, and the output. */
  lemma ReportSettlesExactly(input: nat, output: nat, read: nat, write: nat, python: Python)
    ensures var details := map["cached_tokens" := Int(read), "cache_write_tokens" := Int(write)];
            var json := Dict(map["usage" := Dict(map["input_tokens" := Int(input), "output_tokens" := Int(output),
                                                     "input_tokens_details" := Dict(details)])]);
            Settleable(Responses, Response(Some(200), Some(Parsed(json)), false), python) <==>
              && (read + write < input ==> input - read - write < python.floatLimit)
              && (read + write >= input ==> 0 < python.floatLimit)
              && read < python.floatLimit && write < python.floatLimit && output < python.floatLimit
  {
    UsageReadsBack(input, output, read, write);
  }

  /** Without them a provider can report a usage that no settlement prices. */
  lemma UnpriceableReported(python: Python)
    ensures exists json ::
              !Settleable(Responses, Response(Some(200), Some(Parsed(json)), false), python)
  {
    OpenAICacheIsFree(python.floatLimit, 0, 0, 0);
    var json :| UsageOf(Responses, json) == Some(Reported(python.floatLimit, 0, 0, 0));
    assert !Settleable(Responses, Response(Some(200), Some(Parsed(json)), false), python);
  }

  /** Whatever a provider reports, a settlement is never negative. */
  lemma SettledNonNegative(endpoint: Endpoint, response: Response, rates: Price)
    requires Ordered(rates)
    ensures SettledCost(endpoint, response, rates).usd >= 0.0
  {
    var usage := UsageIn(endpoint, response);
    if usage.Some? {
      var u := usage.value;
      var most := u.inputTokens + u.cacheReadTokens + u.cacheWriteTokens;
      BoundCovers(u, rates, most, u.outputTokens);
    }
  }
}
