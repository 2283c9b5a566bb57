// Turning a source-queue message into the unified job message, with all its defaults.

module Normalise {
  import opened Prelude
  import opened JsValues
  import Decimal

  type Table = map<string, string>

  datatype Context = Context(path: Field<string>, resourcePath: Field<string>, httpMethod: Field<string>, other: Table)

  datatype Lambda = Lambda(body: Body, resource: Field<string>, path: Field<string>, httpMethod: Field<string>,
                           isBase64: Field<bool>, pathParameters: Field<Table>, query: Field<Table>,
                           headers: Field<Table>, context: Field<Context>)

  datatype Execution = Execution(kind: Field<string>, baseUrl: Field<string>, functionName: Field<string>,
                                 functionUrl: Field<string>, invocationType: Field<string>)

  datatype Metadata = Metadata(jobId: Field<string>, appId: Field<string>, groupId: Field<string>,
                               idempotencyKey: Field<string>, createdAt: Field<string>, retryCount: Field<int>)

  datatype Source = Source(
    lambda: Field<Lambda>, body: Body, path: Field<string>, verb: Field<string>, httpMethod: Field<string>,
    resource: Field<string>, isBase64: Field<bool>, pathParameters: Field<Table>,
    executionType: Field<string>, baseUrl: Field<string>, functionName: Field<string>,
    functionUrl: Field<string>, invocationType: Field<string>,
    appId: Field<string>, jobId: Field<string>, groupId: Field<string>, idempotencyKey: Field<string>,
    retryCount: Field<int>, query: Field<Table>, headers: Field<Table>, context: Field<Context>,
    execution: Field<Execution>, metadata: Field<Metadata>, rawBody: Field<string>)

  datatype Unified = Unified(lambda: Lambda, execution: Execution, metadata: Metadata)

  // What each call generates: two random ids, the clock's number and its ISO text.
  datatype Fresh = Fresh(jobId: string, uuid: string, timestamp: nat, createdAt: string)

  const NO_LAMBDA: Lambda :=
    Lambda(NoBody, Undefined, Undefined, Undefined, Undefined, Undefined, Undefined, Undefined, Undefined)
  const NO_EXECUTION: Execution := Execution(Undefined, Undefined, Undefined, Undefined, Undefined)
  const NO_METADATA: Metadata := Metadata(Undefined, Undefined, Undefined, Undefined, Undefined, Undefined)
  const BLANK: Source := Source(Undefined, NoBody, Undefined, Undefined, Undefined, Undefined, Undefined, Undefined,
    Undefined, Undefined, Undefined, Undefined, Undefined, Undefined, Undefined, Undefined, Undefined, Undefined,
    Undefined, Undefined, Undefined, Undefined, Undefined, Undefined)

  // a ?? b, and a || b for objects, which are never falsy.
  function Else<T>(a: Field<T>, b: Field<T>): Field<T> { if a.Val? then a else b }

  // a?.b through an optional object
  function Inner<T>(f: Field<T>, none: T): T { if f.Val? then f.value else none }

  function OrCount(a: Field<int>, b: Field<int>): Field<int> {
    if a.Val? && a.value != 0 then a else if b.Val? && b.value != 0 then b else Val(0)
  }

  function StripSlash(path: string): string { if path != "" && path[0] == '/' then path[1..] else path }

  function ResolveBody(body: Body, raw: Field<string>): Body {
    if body.Text? then body
    else if body.Obj? then Text(body.json)
    else if Truthy(raw) then Text(raw.value)
    else NullBody
  }

  function ResolveHeaders(headers: Field<Table>): Field<Table> {
    if headers.Val? && headers.value != map[] then headers else Val(map["Content-Type" := "application/json"])
  }

  function BuildLambda(s: Source): Lambda {
    var given := Inner(s.lambda, NO_LAMBDA);
    var requested := Inner(s.context, Context(Undefined, Undefined, Undefined, map[]));
    var path := Or(Or(Or(given.path, s.path), requested.path), Val("/"));
    var httpMethod := Or(Or(Or(given.httpMethod, s.httpMethod), s.verb), Val("POST"));
    var resource := Or(Or(Or(given.resource, s.resource), requested.resourcePath), Val("/{proxy+}"));
    Lambda(
      ResolveBody(if given.body.NoBody? || given.body.NullBody? then s.body else given.body, s.rawBody),
      resource, path, httpMethod,
      Else(Else(given.isBase64, s.isBase64), Val(false)),
      Else(Else(given.pathParameters, s.pathParameters),
           Val(map["proxy" := StripSlash(if path.Val? then path.value else "")])),
      Else(given.query, s.query),
      ResolveHeaders(Else(given.headers, s.headers)),
      Else(given.context, Val(Context(path, resource, httpMethod, map[]))))
  }

  function Transform(s: Source, queue: string, f: Fresh): Unified {
    var execution := Inner(s.execution, NO_EXECUTION);
    var metadata := Inner(s.metadata, NO_METADATA);
    Unified(
      BuildLambda(s),
      Execution(Or(Or(s.executionType, execution.kind), Val("rest-api")),
                Or(s.baseUrl, execution.baseUrl),
                Or(s.functionName, execution.functionName),
                Or(s.functionUrl, execution.functionUrl),
                Or(s.invocationType, execution.invocationType)),
      Metadata(Or(s.jobId, Val(f.jobId)),
               Or(s.appId, metadata.appId),
               Or(Or(s.groupId, metadata.groupId), Val(queue)),
               Or(Or(s.idempotencyKey, metadata.idempotencyKey),
                  Val(queue + "-" + Decimal.Text(f.timestamp) + "-" + f.uuid)),
               Val(f.createdAt),
               OrCount(s.retryCount, metadata.retryCount)))
  }

  // --- parsing --------------------------------------------------------------------------

  const METHODS: set<string> := {"GET", "POST", "PUT", "DELETE"}
  const EXECUTION_TYPES: set<string> := {"lambda-invoke", "lambda-url", "rest-api", "schedule"}
  const INVOCATION_TYPES: set<string> := {"DryRun", "Event", "RequestResponse"}

  predicate OptionalIn(f: Field<string>, allowed: set<string>) { f.Val? ==> f.value in allowed }
  predicate TextOrNone(b: Body) { !b.Obj? }

  // Validation of the nested message; every field but body and query is required.
  predicate LambdaAccepts(l: Lambda) {
    && TextOrNone(l.body) && l.resource.Val? && l.path.Val? && l.httpMethod.Val? && l.httpMethod.value in METHODS
    && l.isBase64.Val? && l.pathParameters.Val? && l.headers.Val? && l.context.Val?
  }

  // Validation of a source message; its nested execution and metadata are only checked to
  // be objects.
  predicate SourceAccepts(s: Source) {
    && (s.lambda.Val? ==> LambdaAccepts(s.lambda.value))
    && OptionalIn(s.executionType, EXECUTION_TYPES)
    && OptionalIn(s.invocationType, INVOCATION_TYPES)
  }

  // A message body on the queue and what JSON.parse makes of it, if anything.
  datatype Raw = Raw(text: Field<string>, parsed: Option<Source>)

  function Fallback(text: Field<string>): Source {
    BLANK.(rawBody := text, body := Obj("{}"))
  }

  function Parse(m: Raw): Source {
    if m.parsed.Some? && SourceAccepts(m.parsed.value) then m.parsed.value else Fallback(m.text)
  }

  // From queue message to unified message, as the bridge does it.
  function Bridge(m: Raw, queue: string, f: Fresh): Unified {
    Transform(Parse(m), queue, f)
  }

  // Validation of a unified message on the main queue.
  predicate MainAccepts(u: Unified) {
    && LambdaAccepts(u.lambda)
    && u.execution.kind.Val? && u.execution.kind.value in EXECUTION_TYPES
    && OptionalIn(u.execution.invocationType, INVOCATION_TYPES)
    && Truthy(u.metadata.groupId) && u.metadata.createdAt.Val?
  }

  // --- what normalising guarantees ------------------------------------------------------

  // The unified message sent back in as a source message.
  function AsSource(u: Unified): Source {
    BLANK.(lambda := Val(u.lambda), execution := Val(u.execution), metadata := Val(u.metadata))
  }

  // Equal but for the job id and the creation time.
  predicate Same(a: Unified, b: Unified) {
    && a.lambda == b.lambda && a.execution == b.execution
    && a.metadata == b.metadata.(jobId := a.metadata.jobId, createdAt := a.metadata.createdAt)
  }

  // One pass leaves nothing that must be there empty; only the group can be, and only when
  // neither the message nor the queue has a name for it.
  lemma {:induction false} Complete(s: Source, queue: string, f: Fresh)
    ensures var u := Transform(s, queue, f);
      && NonEmpty(u.lambda.path) && NonEmpty(u.lambda.httpMethod) && NonEmpty(u.lambda.resource)
      && u.lambda.headers.Val? && u.lambda.headers.value != map[]
      && u.lambda.isBase64.Val? && u.lambda.pathParameters.Val? && u.lambda.context.Val?
      && (u.lambda.body.Text? || u.lambda.body.NullBody?)
      && NonEmpty(u.execution.kind) && NonEmpty(u.metadata.idempotencyKey) && u.metadata.retryCount.Val?
      && (NonEmpty(u.metadata.groupId) <==>
            queue != "" || NonEmpty(s.groupId) || (s.metadata.Val? && NonEmpty(s.metadata.value.groupId)))
  {
    var h := map["Content-Type" := "application/json"];
    assert "Content-Type" in h;
    assert |queue + "-" + Decimal.Text(f.timestamp) + "-" + f.uuid| > 0;
  }

  ghost predicate IsNonEmptyFirst(r: Field<string>, options: seq<Field<string>>) {
    exists i :: 0 <= i < |options| && NonEmpty(options[i]) && r == options[i]
                && forall j :: 0 <= j < i ==> !NonEmpty(options[j])
  }

  // The first non-empty of the options, else the default.
  ghost predicate IsFirst(r: Field<string>, options: seq<Field<string>>, default: string) {
    || IsNonEmptyFirst(r, options)
    || ((forall i :: 0 <= i < |options| ==> !NonEmpty(options[i])) && r == Val(default))
  }

  // The first non-empty of the options; without a default, nothing but an empty field.
  ghost predicate IsFirstIfAny(r: Field<string>, options: seq<Field<string>>) {
    || IsNonEmptyFirst(r, options)
    || ((forall i :: 0 <= i < |options| ==> !NonEmpty(options[i])) && !NonEmpty(r))
  }

  // Which field wins: the nested message before the flat fields before the request context,
  // and flat fields before the nested execution and metadata.
  lemma {:induction false} FieldsTakeFirst(s: Source, queue: string, f: Fresh)
    ensures var u, l := Transform(s, queue, f), if s.lambda.Val? then s.lambda.value else NO_LAMBDA;
      var c := if s.context.Val? then s.context.value else Context(Undefined, Undefined, Undefined, map[]);
      var e := if s.execution.Val? then s.execution.value else NO_EXECUTION;
      var m := if s.metadata.Val? then s.metadata.value else NO_METADATA;
      && IsFirst(u.lambda.path, [l.path, s.path, c.path], "/")
      && IsFirst(u.lambda.httpMethod, [l.httpMethod, s.httpMethod, s.verb], "POST")
      && IsFirst(u.lambda.resource, [l.resource, s.resource, c.resourcePath], "/{proxy+}")
      && IsFirst(u.execution.kind, [s.executionType, e.kind], "rest-api")
      && IsFirst(u.metadata.groupId, [s.groupId, m.groupId], queue)
      && IsFirst(u.metadata.idempotencyKey, [s.idempotencyKey, m.idempotencyKey],
                 queue + "-" + Decimal.Text(f.timestamp) + "-" + f.uuid)
      && IsFirst(u.metadata.jobId, [s.jobId], f.jobId)
      && IsFirstIfAny(u.metadata.appId, [s.appId, m.appId])
      && IsFirstIfAny(u.execution.baseUrl, [s.baseUrl, e.baseUrl])
      && IsFirstIfAny(u.execution.functionName, [s.functionName, e.functionName])
      && IsFirstIfAny(u.execution.functionUrl, [s.functionUrl, e.functionUrl])
      && IsFirstIfAny(u.execution.invocationType, [s.invocationType, e.invocationType])
  {
    var l, c := Inner(s.lambda, NO_LAMBDA), Inner(s.context, Context(Undefined, Undefined, Undefined, map[]));
    var e, m := Inner(s.execution, NO_EXECUTION), Inner(s.metadata, NO_METADATA);
    ThreeOptions(l.path, s.path, c.path, "/");
    ThreeOptions(l.httpMethod, s.httpMethod, s.verb, "POST");
    ThreeOptions(l.resource, s.resource, c.resourcePath, "/{proxy+}");
    TwoOptions(s.executionType, e.kind, "rest-api");
    TwoOptions(s.groupId, m.groupId, queue);
    TwoOptions(s.idempotencyKey, m.idempotencyKey, queue + "-" + Decimal.Text(f.timestamp) + "-" + f.uuid);
    assert [s.jobId][0] == s.jobId;
    TwoIfAny(s.appId, m.appId);
    TwoIfAny(s.baseUrl, e.baseUrl);
    TwoIfAny(s.functionName, e.functionName);
    TwoIfAny(s.functionUrl, e.functionUrl);
    TwoIfAny(s.invocationType, e.invocationType);
  }

  // The first of the options that is there, else the default; null counts as missing.
  ghost predicate IsFirstGiven<T>(r: Field<T>, options: seq<Field<T>>, default: Field<T>) {
    || (exists i :: 0 <= i < |options| && options[i].Val? && r == options[i]
                    && forall j :: 0 <= j < i ==> !options[j].Val?)
    || ((forall i :: 0 <= i < |options| ==> !options[i].Val?) && r == default)
  }

  lemma {:induction false} TwoGiven<T>(a: Field<T>, b: Field<T>, default: Field<T>)
    ensures IsFirstGiven(Else(Else(a, b), default), [a, b], default)
    ensures IsFirstGiven(Else(a, b), [a, b], b)
  {
    var options := [a, b];
    assert options[0] == a && options[1] == b;
  }

  // The path without its leading slash.
  ghost predicate Stripped(path: string, p: string) {
    path == "/" + p || (path == p && (p == "" || p[0] != '/'))
  }

  // The payload is never lost: the nested body if there is one, else the flat one; a text is
  // kept, an object becomes its JSON text, and without either the raw text stands in.
  lemma {:induction false} BodyKept(s: Source, queue: string, f: Fresh)
    ensures var nested := if s.lambda.Val? then s.lambda.value.body else NoBody;
      var given := if nested.Text? || nested.Obj? then nested else s.body;
      var body := Transform(s, queue, f).lambda.body;
      && (given.Text? ==> body == Text(given.text))
      && (given.Obj? ==> body == Text(given.json))
      && (!given.Text? && !given.Obj? ==> body == (if NonEmpty(s.rawBody) then Text(s.rawBody.value) else NullBody))
  {
  }

  // And the other fields: the nested value, else the flat one, else the default.
  lemma {:induction false} RestTakesFirst(s: Source, queue: string, f: Fresh)
    ensures var u, l := Transform(s, queue, f), if s.lambda.Val? then s.lambda.value else NO_LAMBDA;
      var m := if s.metadata.Val? then s.metadata.value else NO_METADATA;
      && IsFirstGiven(u.lambda.isBase64, [l.isBase64, s.isBase64], Val(false))
      && u.lambda.path.Val?
      && (exists p :: Stripped(u.lambda.path.value, p)
                      && IsFirstGiven(u.lambda.pathParameters, [l.pathParameters, s.pathParameters],
                                      Val(map["proxy" := p])))
      && IsFirstGiven(u.lambda.query, [l.query, s.query], s.query)
      && (exists h :: IsFirstGiven(h, [l.headers, s.headers], s.headers)
                      && u.lambda.headers == (if h.Val? && h.value != map[] then h
                                              else Val(map["Content-Type" := "application/json"])))
      && IsFirstGiven(u.lambda.context, [l.context],
                      Val(Context(u.lambda.path, u.lambda.resource, u.lambda.httpMethod, map[])))
      && (u.metadata.retryCount ==
            if s.retryCount.Val? && s.retryCount.value != 0 then s.retryCount
            else if m.retryCount.Val? then m.retryCount else Val(0))
      && u.metadata.createdAt == Val(f.createdAt)
  {
    var u, l := Transform(s, queue, f), if s.lambda.Val? then s.lambda.value else NO_LAMBDA;
    Complete(s, queue, f);
    TwoGiven(l.isBase64, s.isBase64, Val(false));
    var p := StripSlash(u.lambda.path.value);
    assert Stripped(u.lambda.path.value, p) by {
      if u.lambda.path.value[0] == '/' { assert u.lambda.path.value == "/" + p; }
    }
    TwoGiven(l.pathParameters, s.pathParameters, Val(map["proxy" := p]));
    TwoGiven(l.query, s.query, s.query);
    TwoGiven(l.headers, s.headers, s.headers);
    assert [l.context][0] == l.context;
  }

  lemma {:induction false} ThreeOptions(a: Field<string>, b: Field<string>, c: Field<string>, default: string)
    ensures IsFirst(Or(Or(Or(a, b), c), Val(default)), [a, b, c], default)
  {
    var options := [a, b, c];
    assert options[0] == a && options[1] == b && options[2] == c;
  }

  lemma {:induction false} TwoOptions(a: Field<string>, b: Field<string>, default: string)
    ensures IsFirst(Or(Or(a, b), Val(default)), [a, b], default)
  {
    var options := [a, b];
    assert options[0] == a && options[1] == b;
  }

  lemma {:induction false} TwoIfAny(a: Field<string>, b: Field<string>)
    ensures IsFirstIfAny(Or(a, b), [a, b])
  {
    var options := [a, b];
    assert options[0] == a && options[1] == b;
  }

  // Query parameters given as null, and no others given.
  predicate NullQuery(s: Source) {
    s.query.Null? && !(s.lambda.Val? && s.lambda.value.query.Val?)
  }

  // The method is one the nested validation knows: the first non-empty of the three fields
  // that can carry it, or none of them non-empty.
  ghost predicate KnownMethod(s: Source) {
    var given := if s.lambda.Val? then s.lambda.value.httpMethod else Undefined;
    var known := ["GET", "POST", "PUT", "DELETE"];
    if NonEmpty(given) then given.value in known
    else if NonEmpty(s.httpMethod) then s.httpMethod.value in known
    else NonEmpty(s.verb) ==> s.verb.value in known
  }

  // A second pass changes nothing exactly when the message did not give its query
  // parameters as null: a null stays null the first time and turns into undefined the next.
  lemma {:induction false} SecondPassIff(s: Source, queue: string, f: Fresh, g: Fresh)
    ensures var u := Transform(s, queue, f);
      Same(u, Transform(AsSource(u), queue, g)) <==> !NullQuery(s)
  {
    Complete(s, queue, f);
  }

  // Through parsing as well, the second pass changes nothing exactly when moreover the
  // method is a known one; any other sends the message to the fallback.
  lemma {:induction false} SecondBridgeIff(m: Raw, text: Field<string>, queue: string, f: Fresh, g: Fresh)
    ensures var u := Bridge(m, queue, f);
      Same(u, Bridge(Raw(text, Some(AsSource(u))), queue, g)) <==> !NullQuery(Parse(m)) && KnownMethod(Parse(m))
  {
    var u := Bridge(m, queue, f);
    Complete(Parse(m), queue, f);
    assert u.lambda.httpMethod.value in METHODS <==> KnownMethod(Parse(m));
    if u.lambda.httpMethod.value in METHODS {
      SecondPassIff(Parse(m), queue, f, g);
    } else {
      assert Bridge(Raw(text, Some(AsSource(u))), queue, g).lambda.httpMethod == Val("POST");
    }
  }

  // Two messages that a second pass changes: a PATCH becomes a POST, a null query vanishes.
  lemma SecondPassChanges(f: Fresh)
    ensures var patch := BLANK.(verb := Val("PATCH"));
      var u := Bridge(Raw(Undefined, Some(patch)), "crypto", f);
      u.lambda.httpMethod == Val("PATCH")
      && Bridge(Raw(Undefined, Some(AsSource(u))), "crypto", f).lambda.httpMethod == Val("POST")
    ensures var nullQuery := BLANK.(query := Null);
      var u := Bridge(Raw(Undefined, Some(nullQuery)), "crypto", f);
      u.lambda.query.Null? && Bridge(Raw(Undefined, Some(AsSource(u))), "crypto", f).lambda.query.Undefined?
  {
    Complete(BLANK.(verb := Val("PATCH")), "crypto", f);
    Complete(BLANK.(query := Null), "crypto", f);
  }

  // A body that does not parse or validate is forwarded as an empty object posted to "/",
  // whatever it was: the raw text kept beside it is never used.
  lemma {:induction false} FallbackForgets(text: Field<string>, queue: string, f: Fresh)
    ensures Transform(Fallback(text), queue, f) ==
      Unified(
        Lambda(Text("{}"), Val("/{proxy+}"), Val("/"), Val("POST"), Val(false), Val(map["proxy" := ""]), Undefined,
               Val(map["Content-Type" := "application/json"]),
               Val(Context(Val("/"), Val("/{proxy+}"), Val("POST"), map[]))),
        Execution(Val("rest-api"), Undefined, Undefined, Undefined, Undefined),
        Metadata(Val(f.jobId), Undefined, Val(queue),
                 Val(queue + "-" + Decimal.Text(f.timestamp) + "-" + f.uuid), Val(f.createdAt), Val(0)))
  {
    assert |queue + "-" + Decimal.Text(f.timestamp) + "-" + f.uuid| > 0;
    assert StripSlash("/") == "";
  }

  // --- validation, field by field -------------------------------------------------------

  ghost predicate OneOf(f: Field<string>, known: seq<string>) { f.Val? && f.value in known }

  // A nested message has every field but body and query, and a method the API knows; its body
  // is a text, null or missing.
  ghost predicate WellFormed(l: Lambda) {
    && (l.body.Text? || l.body.NullBody? || l.body.NoBody?)
    && l.resource.Val? && l.path.Val? && OneOf(l.httpMethod, ["GET", "POST", "PUT", "DELETE"])
    && l.isBase64.Val? && l.pathParameters.Val? && l.headers.Val? && l.context.Val?
  }

  // A source message is taken as it is exactly when it parses, its nested message, if any, is
  // well-formed, and its execution and invocation types, if any, are known; else only its raw
  // text is kept, beside an empty body.
  lemma {:induction false} ParseMeaning(m: Raw)
    ensures var ok :=
        m.parsed.Some?
        && (m.parsed.value.lambda.Val? ==> WellFormed(m.parsed.value.lambda.value))
        && (m.parsed.value.executionType.Val? ==>
              OneOf(m.parsed.value.executionType, ["lambda-invoke", "lambda-url", "rest-api", "schedule"]))
        && (m.parsed.value.invocationType.Val? ==>
              OneOf(m.parsed.value.invocationType, ["DryRun", "Event", "RequestResponse"]));
      && (ok ==> Parse(m) == m.parsed.value)
      && (!ok ==> Parse(m) == BLANK.(rawBody := m.text, body := Obj("{}")))
  {
  }

  // The main queue's consumer takes a message exactly when it is complete and its types are
  // known.
  lemma {:induction false} MainValidation(u: Unified)
    ensures MainAccepts(u) <==>
      && WellFormed(u.lambda)
      && OneOf(u.execution.kind, ["lambda-invoke", "lambda-url", "rest-api", "schedule"])
      && (u.execution.invocationType.Val? ==>
            OneOf(u.execution.invocationType, ["DryRun", "Event", "RequestResponse"]))
      && NonEmpty(u.metadata.groupId) && u.metadata.createdAt.Val?
  {
  }

  // What the bridge forwards passes the main queue's validation exactly when its method,
  // execution type and invocation type are known ones and it has a group.
  lemma {:induction false} ForwardedAcceptedIff(m: Raw, queue: string, f: Fresh)
    ensures var u := Bridge(m, queue, f);
      MainAccepts(u) <==>
        && KnownMethod(Parse(m))
        && OneOf(u.execution.kind, ["lambda-invoke", "lambda-url", "rest-api", "schedule"])
        && (u.execution.invocationType.Val? ==>
              OneOf(u.execution.invocationType, ["DryRun", "Event", "RequestResponse"]))
        && NonEmpty(u.metadata.groupId)
  {
    Complete(Parse(m), queue, f);
    MainValidation(Bridge(m, queue, f));
  }

  // The key a message brings along, if any; otherwise one is generated.
  ghost predicate BringsKey(s: Source) {
    NonEmpty(s.idempotencyKey) || (s.metadata.Val? && NonEmpty(s.metadata.value.idempotencyKey))
  }

  // Two forwards of a message, with different random ids of one length, carry the same key
  // exactly when the message brings one along.
  lemma {:induction false} KeyStaysIff(s: Source, queue: string, f: Fresh, g: Fresh)
    requires |f.uuid| == |g.uuid| && f.uuid != g.uuid
    ensures Transform(s, queue, f).metadata.idempotencyKey == Transform(s, queue, g).metadata.idempotencyKey
            <==> BringsKey(s)
  {
    EndsWith(queue + "-" + Decimal.Text(f.timestamp) + "-", f.uuid);
    EndsWith(queue + "-" + Decimal.Text(g.timestamp) + "-", g.uuid);
  }

  lemma EndsWith(a: string, b: string)
    ensures (a + b)[|a + b| - |b|..] == b
  {
  }
}
