/** How an inbound message of a continuation is classified, and what it turns into for the caller or the handler. */
module Routing {
  import opened Rpc

  const CONTENT_TYPE_HEADER := ":content-type"
  const CONTENT_TYPE_APPLICATION_JSON := "application/json"
  const SERVICE_MODEL_TYPE_HEADER := "service-model-type"

  datatype HeaderValue = Text(text: string) | NotText
  datatype Header = Header(name: string, value: HeaderValue)

  datatype MessageType = ApplicationMessage | OtherMessage

  datatype Message = Message(kind: MessageType, terminatesStream: bool, headers: seq<Header>, payload: Option<string>)

  /** A modeled shape, by identity. */
  type Shape = nat

  /** OperationModelContext: the names it expects and its allocators, which may fail. */
  datatype Model = Model(
    initialResponseName: string,
    streamingResponseName: Option<string>,
    allocateInitial: string -> Option<Shape>,
    allocateStreaming: string -> Option<Shape>,
    allocateError: (string, string) -> Option<Shape>)

  datatype Route = Response | Stream | Error

  datatype Deserialized = Deserialized(route: Route, shape: Option<Shape>)

  datatype Result = Result(status: Status, message: Option<Deserialized>)

  /* ----- header lookup ----- */

  /** `h` is the first header called `name`. */
  ghost predicate IsFirst(headers: seq<Header>, name: string, h: Header) {
    exists i :: 0 <= i < |headers| && headers[i] == h && h.name == name
                && forall j :: 0 <= j < i ==> headers[j].name != name
  }

  function FirstHeader(headers: seq<Header>, name: string): (r: Option<Header>)
    ensures r.Some? ==> IsFirst(headers, name, r.value)
    ensures r == None <==> forall h :: h in headers ==> h.name != name
    decreases |headers|
  {
    if headers == [] then None
    else if headers[0].name == name then Some(headers[0])
    else
      var rest := FirstHeader(headers[1..], name);
      assert rest.Some? ==> IsFirst(headers, name, rest.value) by {
        if rest.Some? {
          var i :| 0 <= i < |headers[1..]| && headers[1..][i] == rest.value && rest.value.name == name
                   && forall j :: 0 <= j < i ==> headers[1..][j].name != name;
          assert headers[i + 1] == rest.value;
          assert forall j :: 0 < j < i + 1 ==> headers[j] == headers[1..][j - 1];
        }
      }
      assert headers == [headers[0]] + headers[1..];
      rest
  }

  method GetHeaderByName(headers: seq<Header>, name: string) returns (found: Option<Header>)
    ensures found == FirstHeader(headers, name)
  {
    var i := 0;
    while i < |headers|
      invariant 0 <= i <= |headers|
      invariant FirstHeader(headers, name) == FirstHeader(headers[i..], name)
    {
      if headers[i].name == name {
        return Some(headers[i]);
      }
      assert headers[i..][1..] == headers[i + 1..];
      i := i + 1;
    }
    return None;
  }

  /** Adding headers in front of others hides those of the same name behind them. */
  lemma {:induction false} FirstHeaderOfConcatenation(front: seq<Header>, back: seq<Header>, name: string)
    ensures FirstHeader(front + back, name)
            == (if FirstHeader(front, name).Some? then FirstHeader(front, name) else FirstHeader(back, name))
    decreases |front|
  {
    if front == [] {
      assert front + back == back;
    } else {
      assert (front + back)[1..] == front[1..] + back;
      FirstHeaderOfConcatenation(front[1..], back, name);
    }
  }

  /* ----- classification ----- */

  /** The text of the model header; a header that is no string leaves the name empty. */
  function ModelName(m: Message): Option<string> {
    match FirstHeader(m.headers, SERVICE_MODEL_TYPE_HEADER)
    case None => None
    case Some(h) => Some(if h.value.Text? then h.value.text else "")
  }

  /** The message names the model this continuation expects at this point. */
  predicate NameFits(model: Model, m: Message, expectResponse: bool) {
    && ModelName(m).Some?
    && (m.kind == ApplicationMessage ==>
          if expectResponse then ModelName(m).value == model.initialResponseName
          else model.streamingResponseName.Some? ==> ModelName(m).value == model.streamingResponseName.value)
  }

  predicate ContentIsJson(m: Message) {
    var h := FirstHeader(m.headers, CONTENT_TYPE_HEADER);
    h.Some? && h.value.value == Text(CONTENT_TYPE_APPLICATION_JSON)
  }

  function Payload(m: Message): string {
    if m.payload.Some? then m.payload.value else ""
  }

  function RouteOf(m: Message, expectResponse: bool): Route {
    if m.kind != ApplicationMessage then Error else if expectResponse then Response else Stream
  }

  function Allocate(model: Model, m: Message, expectResponse: bool): Option<Shape>
    requires ModelName(m).Some?
  {
    match RouteOf(m, expectResponse)
    case Response => model.allocateInitial(Payload(m))
    case Stream => model.allocateStreaming(Payload(m))
    case Error => model.allocateError(ModelName(m).value, Payload(m))
  }

  /** What a message is, read off from its headers alone. */
  function Classify(model: Model, m: Message, expectResponse: bool): Result {
    if !NameFits(model, m, expectResponse) then Result(UnmappedData, None)
    else if !ContentIsJson(m) then Result(UnsupportedContentType, None)
    else
      var shape := Allocate(model, m, expectResponse);
      Result(if shape.Some? then Success else UnmappedData, Some(Deserialized(RouteOf(m, expectResponse), shape)))
  }

  method DeserializeRawMessage(model: Model, rawMessage: Message, shouldBeActivationResponse: bool)
    returns (result: Result)
    ensures result == Classify(model, rawMessage, shouldBeActivationResponse)
  {
    result := Result(Success, None);
    var modelHeader := GetHeaderByName(rawMessage.headers, SERVICE_MODEL_TYPE_HEADER);
    if modelHeader == None {
      return result.(status := UnmappedData);
    }
    var modelName := "";
    if modelHeader.value.value.Text? {
      modelName := modelHeader.value.value.text;
    }
    if rawMessage.kind == ApplicationMessage {
      if shouldBeActivationResponse {
        if model.initialResponseName != modelName {
          return result.(status := UnmappedData);
        }
      } else {
        if model.streamingResponseName.Some? && model.streamingResponseName.value != modelName {
          return result.(status := UnmappedData);
        }
      }
    }
    var contentHeader := GetHeaderByName(rawMessage.headers, CONTENT_TYPE_HEADER);
    if contentHeader == None {
      return result.(status := UnsupportedContentType);
    }
    if contentHeader.value.value.Text? {
      if contentHeader.value.value.text != CONTENT_TYPE_APPLICATION_JSON {
        return result.(status := UnsupportedContentType);
      }
    } else {
      return result.(status := UnsupportedContentType);
    }
    var payload := "";
    if rawMessage.payload.Some? {
      payload := rawMessage.payload.value;
    }
    if rawMessage.kind == ApplicationMessage {
      if shouldBeActivationResponse {
        result := result.(message := Some(Deserialized(Response, model.allocateInitial(payload))));
      } else {
        result := result.(message := Some(Deserialized(Stream, model.allocateStreaming(payload))));
      }
    } else {
      result := result.(message := Some(Deserialized(Error, model.allocateError(modelName, payload))));
    }
    if result.message.value.shape == None {
      result := result.(status := UnmappedData);
    }
  }

  /* ----- what the message becomes ----- */

  /** The one argument an activation's result callback is given. */
  datatype Answer = ModeledResponse(response: Shape) | ModeledError(error: Shape) | RpcFailure(failure: RpcError)

  /** The message is the response the activation was waiting for. */
  predicate IsInitialResponse(r: Result) {
    r.status == Success && r.message.Some? && r.message.value.route == Response
  }

  ghost predicate WellFormed(r: Result) {
    r.status == Success ==> r.message.Some? && r.message.value.shape.Some?
  }

  function AnswerOf(r: Result): Answer
    requires WellFormed(r)
  {
    if r.status != Success then RpcFailure(RpcError(r.status, CrtSuccess))
    else if r.message.value.route == Response then ModeledResponse(r.message.value.shape.value)
    else ModeledError(r.message.value.shape.value)
  }

  /** The one call made on the stream handler. */
  datatype HandlerCall = OnStreamEvent(event: Option<Shape>) | OnStreamError(error: Option<Shape>, rpcError: RpcError)

  function HandlerCallOf(r: Result): HandlerCall
    requires r.message.Some? ==> r.message.value.route != Response
  {
    if r.message.Some? then
      match r.message.value.route
      case Stream => OnStreamEvent(r.message.value.shape)
      case Error => OnStreamError(r.message.value.shape, NO_ERROR)
      case Response => assert false; OnStreamError(None, NO_ERROR)
    else OnStreamError(None, RpcError(r.status, CrtSuccess))
  }

  /** For every message: SUCCESS comes with a shape, the Response route is taken only while an activation waits, the
      Stream route only when none does, and an activation's answer names exactly what the message was. */
  lemma ClassificationSound(model: Model, m: Message, expectResponse: bool)
    ensures var r := Classify(model, m, expectResponse);
            && WellFormed(r)
            && (r.message.Some? && r.message.value.route == Response ==> expectResponse)
            && (r.message.Some? && r.message.value.route == Stream ==> !expectResponse)
            && (r.status == Success <==>
                  NameFits(model, m, expectResponse) && ContentIsJson(m) && Allocate(model, m, expectResponse).Some?)
            && (r.status == UnsupportedContentType <==> NameFits(model, m, expectResponse) && !ContentIsJson(m))
            && (expectResponse ==>
                  && (AnswerOf(r).ModeledResponse? <==> IsInitialResponse(r))
                  && (AnswerOf(r).ModeledError? <==> r.status == Success && m.kind != ApplicationMessage)
                  && (AnswerOf(r).RpcFailure? <==> r.status != Success))
  {
  }

  /** The classification in terms of the message itself, whose first model header is number `i` and whose first content
      type header is number `j`, one past the last if there is none. */
  lemma {:induction false} ClassifiedByHeaders(model: Model, m: Message, expectResponse: bool, i: nat, j: nat)
    requires i < |m.headers| && m.headers[i].name == "service-model-type"
    requires forall k :: 0 <= k < i ==> m.headers[k].name != "service-model-type"
    requires j <= |m.headers| && (j < |m.headers| ==> m.headers[j].name == ":content-type")
    requires forall k :: 0 <= k < j ==> m.headers[k].name != ":content-type"
    ensures var name := if m.headers[i].value.Text? then m.headers[i].value.text else "";
            var payload := if m.payload.Some? then m.payload.value else "";
            var shape := if m.kind != ApplicationMessage then model.allocateError(name, payload)
                         else if expectResponse then model.allocateInitial(payload)
                         else model.allocateStreaming(payload);
            var route := if m.kind != ApplicationMessage then Error else if expectResponse then Response else Stream;
            Classify(model, m, expectResponse) ==
            if m.kind == ApplicationMessage && expectResponse && name != model.initialResponseName then
              Result(UnmappedData, None)
            else if m.kind == ApplicationMessage && !expectResponse && model.streamingResponseName.Some?
                    && name != model.streamingResponseName.value then
              Result(UnmappedData, None)
            else if j == |m.headers| || m.headers[j].value != Text("application/json") then
              Result(UnsupportedContentType, None)
            else
              Result(if shape.Some? then Success else UnmappedData, Some(Deserialized(route, shape)))
  {
    FirstAt(m.headers, "service-model-type", i);
    if j < |m.headers| {
      FirstAt(m.headers, ":content-type", j);
    }
  }

  /** And of one without a model header. */
  lemma {:induction false} ClassifiedWithoutName(model: Model, m: Message, expectResponse: bool)
    requires forall h | h in m.headers :: h.name != "service-model-type"
    ensures Classify(model, m, expectResponse) == Result(UnmappedData, None)
  {
  }

  /** Success on the Response route means the message said what the activation expects, in so many words. (A model
      header that is no string reads as the empty name.) */
  lemma {:induction false} ResponseIsNamed(model: Model, m: Message) returns (i: nat, j: nat)
    requires Classify(model, m, true).status == Success && Classify(model, m, true).message.value.route == Response
    ensures i < |m.headers| && m.headers[i].name == "service-model-type"
    ensures m.headers[i].value == Text(model.initialResponseName)
            || (m.headers[i].value == NotText && model.initialResponseName == "")
    ensures j < |m.headers| && m.headers[j] == Header(":content-type", Text("application/json"))
    ensures forall k :: 0 <= k < i ==> m.headers[k].name != "service-model-type"
    ensures forall k :: 0 <= k < j ==> m.headers[k].name != ":content-type"
    ensures Classify(model, m, true).message.value.shape
            == model.allocateInitial(if m.payload.Some? then m.payload.value else "")
    ensures m.kind == ApplicationMessage
  {
    var name := FirstHeader(m.headers, "service-model-type").value;
    var content := FirstHeader(m.headers, ":content-type").value;
    i :| i < |m.headers| && m.headers[i] == name && name.name == "service-model-type"
         && forall k :: 0 <= k < i ==> m.headers[k].name != "service-model-type";
    j :| j < |m.headers| && m.headers[j] == content && content.name == ":content-type"
         && forall k :: 0 <= k < j ==> m.headers[k].name != ":content-type";
  }

  lemma {:induction false} FirstAt(headers: seq<Header>, name: string, i: nat)
    requires i < |headers| && headers[i].name == name && forall k :: 0 <= k < i ==> headers[k].name != name
    ensures FirstHeader(headers, name) == Some(headers[i])
  {
    var found := FirstHeader(headers, name);
    assert headers[i] in headers;
    var k :| 0 <= k < |headers| && headers[k] == found.value && found.value.name == name
             && forall j :: 0 <= j < k ==> headers[j].name != name;
    assert k == i;
  }
}
