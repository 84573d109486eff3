/**
 * Topics of the commands service: how they are built, split by the cursor loop, matched by the broker
 * (section 4.7.1 of MQTT 5.0) and attributed to a request.
 */
module Topics {
  import opened Rpc
  import opened Json

  /* ----- splitting and joining ----- */

  predicate SlashFree(s: string) {
    '/' !in s
  }

  /** Length of the part before the first slash. */
  function FirstPart(s: string): (n: nat)
    ensures n <= |s| && SlashFree(s[..n]) && (n < |s| ==> s[n] == '/')
  {
    if s == "" || s[0] == '/' then 0
    else
      var n := FirstPart(s[1..]);
      assert s[..n + 1] == [s[0]] + s[1..][..n];
      n + 1
  }

  function Split(s: string): (parts: seq<string>)
    ensures parts != [] && forall p | p in parts :: SlashFree(p)
    decreases |s|
  {
    var n := FirstPart(s);
    if n == |s| then [s[..n]] else [s[..n]] + Split(s[n + 1..])
  }

  function Join(parts: seq<string>): string
    requires parts != []
    decreases |parts|
  {
    if |parts| == 1 then parts[0] else parts[0] + "/" + Join(parts[1..])
  }

  lemma {:induction false} FirstPartOf(head: string, tail: string)
    requires SlashFree(head) && (tail == "" || tail[0] == '/')
    ensures FirstPart(head + tail) == |head|
  {
    if head == "" {
      assert head + tail == tail;
    } else {
      assert (head + tail)[0] == head[0] && head[0] in head;
      assert (head + tail)[1..] == head[1..] + tail;
      FirstPartOf(head[1..], tail);
    }
  }

  lemma {:induction false} SplitJoin(parts: seq<string>)
    requires parts != [] && forall p | p in parts :: SlashFree(p)
    ensures Split(Join(parts)) == parts
    decreases |parts|
  {
    if |parts| == 1 {
      assert parts[0] + "" == parts[0];
      FirstPartOf(parts[0], "");
      assert parts == [parts[0]];
    } else {
      var rest := Join(parts[1..]);
      assert Join(parts) == parts[0] + ("/" + rest);
      FirstPartOf(parts[0], "/" + rest);
      assert (parts[0] + ("/" + rest))[|parts[0]| + 1..] == rest;
      SplitJoin(parts[1..]);
      assert parts == [parts[0]] + parts[1..];
    }
  }

  lemma {:induction false} JoinSplit(s: string)
    ensures Join(Split(s)) == s
    decreases |s|
  {
    var n := FirstPart(s);
    if n < |s| {
      var rest := Split(s[n + 1..]);
      JoinSplit(s[n + 1..]);
      assert Split(s) == [s[..n]] + rest;
      JoinCons(s[..n], rest);
      Cut(s, n);
    } else {
      assert s[..n] == s;
    }
  }

  lemma {:induction false} JoinCons(head: string, rest: seq<string>)
    requires rest != []
    ensures Join([head] + rest) == head + "/" + Join(rest)
  {
    assert ([head] + rest)[1..] == rest;
  }

  lemma {:induction false} Cut(s: string, n: nat)
    requires n < |s| && s[n] == '/'
    ensures s == s[..n] + "/" + s[n + 1..]
  {
  }

  /* ----- the cursor loop ----- */

  /** An aws_byte_cursor into the topic; None is the zeroed cursor an iteration starts from. */
  datatype Cursor = Cursor(start: nat, len: nat)

  /** aws_byte_cursor_next_split with '/': the next segment after `current`, if there is one. */
  function NextSplit(topic: string, current: Option<Cursor>): Option<Cursor> {
    var start := if current.Some? then current.value.start + current.value.len + 1 else 0;
    if start > |topic| then None else Some(Cursor(start, FirstPart(topic[start..])))
  }

  /** With `next` the coming segment, `parts[position..]` are the ones still to come. */
  ghost predicate Coming(topic: string, parts: seq<string>, position: nat, next: Option<Cursor>) {
    && position <= |parts|
    && (next == None ==> position == |parts|)
    && (next.Some? ==>
          && next.value.start <= |topic|
          && next.value.len == FirstPart(topic[next.value.start..])
          && parts[position..] == Split(topic[next.value.start..]))
  }

  lemma {:induction false} CursorStep(topic: string, parts: seq<string>, position: nat, here: Cursor)
    requires Coming(topic, parts, position, Some(here))
    ensures position < |parts| && here.start + here.len <= |topic|
    ensures parts[position] == topic[here.start..here.start + here.len]
    ensures Coming(topic, parts, position + 1, NextSplit(topic, Some(here)))
  {
    var rest := topic[here.start..];
    var len := FirstPart(rest);
    assert parts[position..][0] == rest[..len];
    assert rest[..len] == topic[here.start..here.start + len];
    assert parts[position..][1..] == parts[position + 1..];
    if len < |rest| {
      assert rest[len + 1..] == topic[here.start + len + 1..];
      assert Split(rest)[1..] == Split(rest[len + 1..]);
    }
  }

  method GetSegmentFromTopic(topic: string, segment: int) returns (r: Option<string>)
    ensures r == if 0 <= segment < |Split(topic)| then Some(Split(topic)[segment]) else None
  {
    ghost var parts := Split(topic);
    var topicSegment: Option<Cursor> := None;
    var segmentPosition := 0;
    var next := NextSplit(topic, topicSegment);
    assert topic[0..] == topic;
    while next.Some?
      invariant 0 <= segmentPosition && !(0 <= segment < segmentPosition)
      invariant Coming(topic, parts, segmentPosition, next)
      decreases if next.Some? then |topic| - next.value.start + 1 else 0
    {
      topicSegment := next;
      CursorStep(topic, parts, segmentPosition, topicSegment.value);
      if segmentPosition == segment {
        return Some(topic[topicSegment.value.start..topicSegment.value.start + topicSegment.value.len]);
      }
      assert Coming(topic, parts, segmentPosition + 1, NextSplit(topic, topicSegment));
      segmentPosition := segmentPosition + 1;
      next := NextSplit(topic, topicSegment);
    }
    return None;
  }

  /* ----- events ----- */

  datatype Publish = Publish(
    topic: string, payload: seq<int>, contentType: Option<string>, messageExpiryIntervalSeconds: Option<int>)

  datatype Event = Event(
    executionId: string, payload: seq<int>, contentType: Option<string>, timeout: Option<int>)

  /** The event delivered for a publish, if one is. */
  function ModeledEvent(p: Publish): Option<Event> {
    var levels := Split(p.topic);
    if |levels| <= 5 || levels[5] == "" then None
    else Some(Event(levels[5], p.payload, p.contentType, p.messageExpiryIntervalSeconds))
  }

  method InitModeledEvent(publishEvent: Publish) returns (delivered: bool, modeledEvent: Event)
    ensures delivered <==> ModeledEvent(publishEvent).Some?
    ensures delivered ==> modeledEvent == ModeledEvent(publishEvent).value
    ensures delivered <==> |Split(publishEvent.topic)| > 5 && Split(publishEvent.topic)[5] != ""
    ensures delivered ==>
              modeledEvent == Event(Split(publishEvent.topic)[5], publishEvent.payload, publishEvent.contentType,
                                    publishEvent.messageExpiryIntervalSeconds)
  {
    modeledEvent := Event("", [], None, None);
    var segmentExecutionId := GetSegmentFromTopic(publishEvent.topic, 5);
    if segmentExecutionId == None || |segmentExecutionId.value| == 0 {
      return false, modeledEvent;
    }
    modeledEvent := modeledEvent.(executionId := segmentExecutionId.value);
    modeledEvent := modeledEvent.(payload := publishEvent.payload);
    if publishEvent.contentType.Some? {
      modeledEvent := modeledEvent.(contentType := publishEvent.contentType);
    }
    if publishEvent.messageExpiryIntervalSeconds.Some? {
      modeledEvent := modeledEvent.(timeout := publishEvent.messageExpiryIntervalSeconds);
    }
    return true, modeledEvent;
  }

  /* ----- topics and filters ----- */

  datatype DeviceType = THING | CLIENT

  function TypeName(t: DeviceType): string {
    match t
    case THING => "things"
    case CLIENT => "clients"
  }

  /** The three streams, by the last part of their filters. */
  datatype PayloadKind = Cbor | Generic | JsonText

  function KindSuffix(k: PayloadKind): string {
    match k
    case Cbor => "/cbor"
    case Generic => ""
    case JsonText => "/json"
  }

  function KindLevels(k: PayloadKind): seq<string> {
    match k
    case Cbor => ["cbor"]
    case Generic => []
    case JsonText => ["json"]
  }

  function StreamFilter(k: PayloadKind, t: DeviceType, deviceId: string): string {
    "$aws/commands/" + TypeName(t) + "/" + deviceId + "/executions/+/request" + KindSuffix(k)
  }

  /** The topic on which the service announces an execution. */
  function RequestTopic(k: PayloadKind, t: DeviceType, deviceId: string, executionId: string): string {
    "$aws/commands/" + TypeName(t) + "/" + deviceId + "/executions/" + executionId + "/request" + KindSuffix(k)
  }

  function Outcome(accepted: bool): string {
    if accepted then "accepted" else "rejected"
  }

  function ResponseTopic(accepted: bool, t: DeviceType, deviceId: string, executionId: string): string {
    "$aws/commands/" + TypeName(t) + "/" + deviceId + "/executions/" + executionId
    + ("/response/" + Outcome(accepted) + "/json")
  }

  function PublishTopic(t: DeviceType, deviceId: string, executionId: string): string {
    "$aws/commands/" + TypeName(t) + "/" + deviceId + "/executions/" + executionId + "/response/json"
  }

  /** Topic matching by levels: '+' matches one level, '#' as the last level matches whatever is left. */
  predicate LevelsMatch(filter: seq<string>, topic: seq<string>)
    decreases |filter|
  {
    if filter == ["#"] then true
    else if filter == [] || topic == [] then filter == topic
    else (filter[0] == "+" || filter[0] == topic[0]) && LevelsMatch(filter[1..], topic[1..])
  }

  predicate Matches(filter: string, topic: string) {
    LevelsMatch(Split(filter), Split(topic))
  }

  /** Levels of the topics and filters that name a device and an execution. */
  function Levels(t: DeviceType, deviceId: string, executionId: string, tail: seq<string>): seq<string> {
    ["$aws", "commands", TypeName(t), deviceId, "executions", executionId] + tail
  }

  function Slashed(tail: seq<string>): string {
    if tail == [] then "" else "/" + Join(tail)
  }

  lemma {:induction false} JoinAppend(head: seq<string>, tail: seq<string>)
    requires head != []
    ensures Join(head + tail) == Join(head) + Slashed(tail)
    decreases |head|
  {
    if tail == [] {
      assert head + tail == head;
      assert Join(head) + "" == Join(head);
    } else if |head| == 1 {
      assert (head + tail)[1..] == tail;
    } else {
      assert (head + tail)[1..] == head[1..] + tail;
      JoinAppend(head[1..], tail);
      assert Join(head + tail) == head[0] + "/" + (Join(head[1..]) + Slashed(tail));
    }
  }

  lemma {:induction false} JoinSix(a: string, b: string, c: string, d: string, e: string, f: string, tail: seq<string>)
    ensures Join([a, b, c, d, e, f] + tail) == Join([a, b]) + "/" + Join([c, d]) + "/" + Join([e, f]) + Slashed(tail)
  {
    assert [a, b, c, d, e, f] + tail == [a, b] + ([c, d] + ([e, f] + tail));
    JoinAppend([a, b], [c, d] + ([e, f] + tail));
    JoinAppend([c, d], [e, f] + tail);
    JoinAppend([e, f], tail);
  }

  lemma {:induction false} JoinTwo(a: string, b: string)
    ensures Join([a, b]) == a + "/" + b
  {
    assert [a, b][1..] == [b];
  }

  lemma {:induction false} Regroup(
    front: string, c: string, d: string, e: string, f: string, tail: string, prefix: string, infix: string)
    requires prefix == front + "/" && infix == "/" + e + "/"
    ensures front + "/" + (c + "/" + d) + "/" + (e + "/" + f) + tail == prefix + c + "/" + d + infix + f + tail
  {
    var x := front + "/" + c + "/" + d;
    assert front + "/" + (c + "/" + d) == x;
    assert x + "/" + (e + "/" + f) == x + infix + f;
  }

  lemma {:induction false} JoinLevels(t: DeviceType, deviceId: string, executionId: string, tail: seq<string>)
    ensures Join(Levels(t, deviceId, executionId, tail))
            == "$aws/commands/" + TypeName(t) + "/" + deviceId + "/executions/" + executionId + Slashed(tail)
  {
    JoinSix("$aws", "commands", TypeName(t), deviceId, "executions", executionId, tail);
    JoinTwo("$aws", "commands");
    JoinTwo(TypeName(t), deviceId);
    JoinTwo("executions", executionId);
    Regroup("$aws" + "/" + "commands", TypeName(t), deviceId, "executions", executionId, Slashed(tail),
            "$aws/commands/", "/executions/");
  }

  /** The levels of a built topic are its parts, as long as the identifiers contain no slash. */
  lemma {:induction false} SplitLevels(t: DeviceType, deviceId: string, executionId: string, tail: seq<string>)
    requires SlashFree(deviceId) && SlashFree(executionId) && forall p | p in tail :: SlashFree(p)
    ensures Split("$aws/commands/" + TypeName(t) + "/" + deviceId + "/executions/" + executionId + Slashed(tail))
            == Levels(t, deviceId, executionId, tail)
  {
    JoinLevels(t, deviceId, executionId, tail);
    assert forall p | p in Levels(t, deviceId, executionId, tail) :: SlashFree(p);
    SplitJoin(Levels(t, deviceId, executionId, tail));
  }

  /* ----- what a stream delivers ----- */

  lemma {:induction false} RequestLevels(k: PayloadKind, t: DeviceType, deviceId: string, executionId: string)
    requires SlashFree(deviceId) && SlashFree(executionId)
    ensures Split(RequestTopic(k, t, deviceId, executionId))
            == Levels(t, deviceId, executionId, ["request"] + KindLevels(k))
  {
    SplitLevels(t, deviceId, executionId, ["request"] + KindLevels(k));
    RequestTail(k);
    Reassociate("$aws/commands/" + TypeName(t) + "/" + deviceId + "/executions/" + executionId, "/request",
                KindSuffix(k));
  }

  lemma RequestTail(k: PayloadKind)
    ensures Slashed(["request"] + KindLevels(k)) == "/request" + KindSuffix(k)
  {
    match k
    case Generic => assert ["request"] + [] == ["request"];
    case Cbor => JoinTwo("request", "cbor");
    case JsonText => JoinTwo("request", "json");
  }

  lemma Reassociate(a: string, b: string, c: string)
    ensures a + b + c == a + (b + c)
  {
  }

  /** The topics and filters in full. */
  lemma {:induction false} TopicsSpelledOut(t: DeviceType, d: string, e: string)
    ensures var front := if t == THING then "$aws/commands/things/" else "$aws/commands/clients/";
            && StreamFilter(Cbor, t, d) == front + d + "/executions/+/request/cbor"
            && StreamFilter(Generic, t, d) == front + d + "/executions/+/request"
            && StreamFilter(JsonText, t, d) == front + d + "/executions/+/request/json"
            && PublishTopic(t, d, e) == front + d + "/executions/" + e + "/response/json"
            && ResponseTopic(true, t, d, e) == front + d + "/executions/" + e + "/response/accepted/json"
            && ResponseTopic(false, t, d, e) == front + d + "/executions/" + e + "/response/rejected/json"
  {
    FrontSpelledOut(t);
    var front := if t == THING then "$aws/commands/things/" else "$aws/commands/clients/";
    Reassociate(front + d, "/executions/+/request", "/cbor");
    Reassociate(front + d, "/executions/+/request", "");
    Reassociate(front + d, "/executions/+/request", "/json");
    BacksSpelledOut();
  }

  lemma {:induction false} FrontSpelledOut(t: DeviceType)
    ensures "$aws/commands/" + TypeName(t) + "/"
            == if t == THING then "$aws/commands/things/" else "$aws/commands/clients/"
  {
  }

  lemma {:induction false} BacksSpelledOut()
    ensures "/executions/+/request" + "/cbor" == "/executions/+/request/cbor"
    ensures "/executions/+/request" + "/json" == "/executions/+/request/json"
    ensures "/executions/+/request" + "" == "/executions/+/request"
    ensures "/response/" + Outcome(true) + "/json" == "/response/accepted/json"
    ensures "/response/" + Outcome(false) + "/json" == "/response/rejected/json"
  {
  }

  lemma {:induction false} FilterMatches(t: DeviceType, deviceId: string, tail: seq<string>, topic: seq<string>)
    requires forall p | p in tail :: p != "+" && p != "#"
    ensures LevelsMatch(Levels(t, deviceId, "+", tail), topic) <==>
              && |topic| == 6 + |tail|
              && (deviceId == "+" || topic[3] == deviceId)
              && topic == Levels(t, topic[3], topic[5], tail)
  {
    var f := Levels(t, deviceId, "+", tail);
    assert f[|f| - 1] != "#" by {
      assert "+"[0] != "#"[0];
      if tail == [] {
        assert |f| == 6 && f[5] == "+";
      } else {
        assert f[|f| - 1] == tail[|tail| - 1] && tail[|tail| - 1] in tail;
      }
    }
    LevelsMatchAt(f, topic);
    LevelNamesPlain(t);
    if |topic| == |f| {
      var g := Levels(t, topic[3], topic[5], tail);
      assert forall i :: 6 <= i < |f| ==> f[i] == tail[i - 6] && g[i] == tail[i - 6] && f[i] in tail;
      if LevelsMatch(f, topic) {
        assert topic[0] == g[0] && topic[1] == g[1] && topic[2] == g[2] && topic[4] == g[4];
        assert topic == g;
      }
    }
  }

  lemma LevelNamesPlain(t: DeviceType)
    ensures "$aws" != "+" && "commands" != "+" && TypeName(t) != "+" && "executions" != "+"
  {
    assert |"+"| == 1;
  }

  /** Without a '#' as the last level, a filter matches level by level. */
  lemma {:induction false} LevelsMatchAt(filter: seq<string>, topic: seq<string>)
    requires filter == [] || filter[|filter| - 1] != "#"
    ensures LevelsMatch(filter, topic) <==>
            |filter| == |topic| && forall i :: 0 <= i < |filter| ==> filter[i] == "+" || filter[i] == topic[i]
    decreases |filter|
  {
    if filter != [] && topic != [] {
      LevelsMatchAt(filter[1..], topic[1..]);
      assert forall i :: 0 < i < |filter| ==> filter[i] == filter[1..][i - 1];
      assert forall i :: 0 < i < |topic| ==> topic[i] == topic[1..][i - 1];
    }
  }

  lemma FilterIsRequest(k: PayloadKind, t: DeviceType, deviceId: string)
    ensures StreamFilter(k, t, deviceId) == RequestTopic(k, t, deviceId, "+")
  {
    assert "/executions/+/request" == "/executions/" + "+" + "/request";
    var front := "$aws/commands/" + TypeName(t) + "/" + deviceId;
    assert front + "/executions/+/request" == front + "/executions/" + "+" + "/request";
  }

  lemma {:induction false} SplitInjective(a: string, b: string)
    requires Split(a) == Split(b)
    ensures a == b
  {
    JoinSplit(a);
    JoinSplit(b);
  }

  lemma KindLevelsPlain(k: PayloadKind)
    ensures forall p | p in ["request"] + KindLevels(k) :: p != "+" && p != "#"
  {
    assert forall p | p in ["request"] + KindLevels(k) :: |p| > 1;
  }

  /** `p` was published for execution `e` of device `d`, and is delivered as such unless `e` is empty. */
  ghost predicate DeliveredFor(k: PayloadKind, t: DeviceType, p: Publish, d: string, e: string) {
    && SlashFree(d) && SlashFree(e)
    && p.topic == RequestTopic(k, t, d, e)
    && ModeledEvent(p) == if e == "" then None
                          else Some(Event(e, p.payload, p.contentType, p.messageExpiryIntervalSeconds))
  }

  /** For a device identifier without slashes, the broker hands a stream exactly the request topics of its kind and
      device, and the stream delivers each with the execution the '+' stood for, unless that is empty. */
  lemma {:induction false} StreamDelivers(k: PayloadKind, t: DeviceType, deviceId: string, p: Publish)
    requires SlashFree(deviceId)
    ensures Matches(StreamFilter(k, t, deviceId), p.topic) <==>
            exists d, e :: (deviceId == "+" || d == deviceId) && DeliveredFor(k, t, p, d, e)
  {
    if Matches(StreamFilter(k, t, deviceId), p.topic) {
      FilterLevels(k, t, deviceId, p.topic);
      MatchDelivers(k, t, p);
      assert DeliveredFor(k, t, p, Split(p.topic)[3], Split(p.topic)[5]);
    }
    if d, e :| (deviceId == "+" || d == deviceId) && DeliveredFor(k, t, p, d, e) {
      RequestReachesStream(k, t, deviceId, d, e);
    }
  }

  lemma {:induction false} RequestReachesStream(
    k: PayloadKind, t: DeviceType, deviceId: string, d: string, executionId: string)
    requires SlashFree(deviceId) && SlashFree(d) && SlashFree(executionId) && (deviceId == "+" || d == deviceId)
    ensures Matches(StreamFilter(k, t, deviceId), RequestTopic(k, t, d, executionId))
  {
    FilterLevels(k, t, deviceId, RequestTopic(k, t, d, executionId));
    RequestLevels(k, t, d, executionId);
  }

  lemma {:induction false} FilterLevels(k: PayloadKind, t: DeviceType, deviceId: string, topic: string)
    requires SlashFree(deviceId)
    ensures var tail := ["request"] + KindLevels(k);
            var levels := Split(topic);
            Matches(StreamFilter(k, t, deviceId), topic) <==>
              && |levels| == 6 + |tail|
              && (deviceId == "+" || levels[3] == deviceId)
              && levels == Levels(t, levels[3], levels[5], tail)
  {
    FilterIsRequest(k, t, deviceId);
    RequestLevels(k, t, deviceId, "+");
    KindLevelsPlain(k);
    FilterMatches(t, deviceId, ["request"] + KindLevels(k), Split(topic));
  }

  lemma {:induction false} MatchDelivers(k: PayloadKind, t: DeviceType, p: Publish)
    requires var topic := Split(p.topic);
             |topic| > 6 && topic == Levels(t, topic[3], topic[5], ["request"] + KindLevels(k))
    ensures DeliveredFor(k, t, p, Split(p.topic)[3], Split(p.topic)[5])
  {
    var topic := Split(p.topic);
    RequestLevels(k, t, topic[3], topic[5]);
    SplitInjective(p.topic, RequestTopic(k, t, topic[3], topic[5]));
  }

  /* ----- attributing responses ----- */

  function ResponseTail(accepted: bool): seq<string> {
    ["response", Outcome(accepted), "json"]
  }

  lemma JoinThree(a: string, b: string, c: string, prefix: string, suffix: string)
    requires prefix == "/" + a + "/" && suffix == "/" + c
    ensures Slashed([a, b, c]) == prefix + b + suffix
  {
    assert [a, b, c][1..] == [b, c];
    JoinTwo(b, c);
  }

  lemma {:induction false} ResponseLevels(accepted: bool, t: DeviceType, deviceId: string, executionId: string)
    requires SlashFree(deviceId) && SlashFree(executionId)
    ensures Split(ResponseTopic(accepted, t, deviceId, executionId))
            == Levels(t, deviceId, executionId, ResponseTail(accepted))
  {
    JoinThree("response", Outcome(accepted), "json", "/response/", "/json");
    assert forall p | p in ResponseTail(accepted) :: SlashFree(p);
    SplitLevels(t, deviceId, executionId, ResponseTail(accepted));
  }

  /** No two requests, and not the two outcomes of one request, share a response topic. */
  lemma {:induction false} ResponseTopicsInjective(
    accepted: bool, t: DeviceType, deviceId: string, executionId: string,
    accepted': bool, t': DeviceType, deviceId': string, executionId': string)
    requires SlashFree(deviceId) && SlashFree(executionId) && SlashFree(deviceId') && SlashFree(executionId')
    ensures ResponseTopic(accepted, t, deviceId, executionId) == ResponseTopic(accepted', t', deviceId', executionId')
            <==> accepted == accepted' && t == t' && deviceId == deviceId' && executionId == executionId'
  {
    ResponseLevels(accepted, t, deviceId, executionId);
    ResponseLevels(accepted', t', deviceId', executionId');
    var a := Levels(t, deviceId, executionId, ResponseTail(accepted));
    var b := Levels(t', deviceId', executionId', ResponseTail(accepted'));
    if a == b {
      assert a[2] == b[2] && a[3] == b[3] && a[5] == b[5] && a[7] == b[7];
      assert |"things"| != |"clients"|;
      assert "accepted"[0] != "rejected"[0];
    }
  }

  /** A response topic cut into its fixed ends and what the identifiers make of the middle. */
  lemma ResponseTopicParts(accepted: bool, t: DeviceType, deviceId: string, executionId: string)
    ensures ResponseTopic(accepted, t, deviceId, executionId)
            == ("$aws/commands/" + TypeName(t) + "/") + (deviceId + "/executions/" + executionId)
               + ("/response/" + Outcome(accepted) + "/json")
  {
    var front := "$aws/commands/" + TypeName(t) + "/";
    assert front + deviceId + "/executions/" + executionId == front + (deviceId + "/executions/" + executionId);
  }

  lemma EndsDiffer(front: string, front': string, middle: string, middle': string, back: string, back': string)
    requires |back| == |back'| > 13 && |front| > 14 && |front'| > 14
    requires front[14] != front'[14] || back[|back| - 13] != back'[|back| - 13]
    ensures front + middle + back != front' + middle' + back'
  {
    var s, s' := front + middle + back, front' + middle' + back';
    assert s[14] == front[14] && s'[14] == front'[14];
    assert s[|s| - 13] == back[|back| - 13] && s'[|s'| - 13] == back'[|back'| - 13];
  }

  lemma SameEnds(front: string, middle: string, middle': string, back: string)
    ensures front + middle + back == front + middle' + back <==> middle == middle'
  {
    var s, s' := front + middle + back, front + middle' + back;
    if s == s' {
      assert s[|front|..|s| - |back|] == middle;
      assert s'[|front|..|s'| - |back|] == middle';
    }
  }

  lemma FixedEnds(t: DeviceType, accepted: bool)
    ensures var front := "$aws/commands/" + TypeName(t) + "/";
            |front| > 14 && front[14] == (if t == THING then 't' else 'c')
    ensures var back := "/response/" + Outcome(accepted) + "/json";
            |back| == 23 && back[|back| - 13] == (if accepted then 'a' else 'r')
  {
  }

  /** For identifiers of any shape, two response topics are equal exactly when the outcome, the device type and the
      text the two identifiers make around "/executions/" are. */
  lemma {:induction false} ResponseTopicsEqual(
    accepted: bool, t: DeviceType, deviceId: string, executionId: string,
    accepted': bool, t': DeviceType, deviceId': string, executionId': string)
    ensures ResponseTopic(accepted, t, deviceId, executionId) == ResponseTopic(accepted', t', deviceId', executionId')
            <==> accepted == accepted' && t == t'
                 && deviceId + "/executions/" + executionId == deviceId' + "/executions/" + executionId'
  {
    ResponseTopicParts(accepted, t, deviceId, executionId);
    ResponseTopicParts(accepted', t', deviceId', executionId');
    FixedEnds(t, accepted);
    FixedEnds(t', accepted');
    var front, front' := "$aws/commands/" + TypeName(t) + "/", "$aws/commands/" + TypeName(t') + "/";
    var back, back' := "/response/" + Outcome(accepted) + "/json", "/response/" + Outcome(accepted') + "/json";
    var middle, middle' := deviceId + "/executions/" + executionId, deviceId' + "/executions/" + executionId';
    if accepted == accepted' && t == t' {
      SameEnds(front, middle, middle', back);
    } else {
      EndsDiffer(front, front', middle, middle', back, back');
    }
  }

  /** So with slashes in the identifiers two different executions can share one. */
  lemma ResponseTopicsCollide(accepted: bool, t: DeviceType)
    ensures ResponseTopic(accepted, t, "d", "x/executions/e") == ResponseTopic(accepted, t, "d/executions/x", "e")
  {
    assert "d" + "/executions/" + "x/executions/e" == "d/executions/x" + "/executions/" + "e";
    ResponseTopicsEqual(accepted, t, "d", "x/executions/e", accepted, t, "d/executions/x", "e");
  }

  datatype UpdateCommandExecutionResponse = UpdateCommandExecutionResponse(executionId: Option<string>)

  /** The error code is kept by its name. */
  datatype V2ErrorResponse =
    V2ErrorResponse(error: Option<string>, errorMessage: Option<string>, executionId: Option<string>)

  /** UnmodeledResult: an error, or a response whose payload may or may not parse as JSON. */
  datatype UnmodeledResult = Failed(error: int) | Response(topic: string, json: Option<Json>)

  datatype Result =
    | Modeled(response: UpdateCommandExecutionResponse)
    | ModeledError(modeledError: V2ErrorResponse)
    | UnmodeledError(error: int)
    | PayloadParseError
    | InvalidResponsePath

  function StringMember(view: Json, key: string): Option<string> {
    if ValueExists(view, key) then Some(GetString(view, key)) else None
  }

  function ResponseFrom(view: Json): UpdateCommandExecutionResponse {
    UpdateCommandExecutionResponse(StringMember(view, "executionId"))
  }

  function ErrorFrom(view: Json): V2ErrorResponse {
    V2ErrorResponse(StringMember(view, "error"), StringMember(view, "errorMessage"), StringMember(view, "executionId"))
  }

  /** Which member of a document goes where. */
  lemma {:induction false} RecordsOfDocuments(m: Members)
    ensures MemberText(m, "executionId", ResponseFrom(JObject(m)).executionId)
    ensures var error := ErrorFrom(JObject(m));
            && MemberText(m, "error", error.error) && MemberText(m, "errorMessage", error.errorMessage)
            && MemberText(m, "executionId", error.executionId)
  {
  }

  /** `got` is the text of member `key`, if there is such a member. */
  predicate MemberText(m: Members, key: string, got: Option<string>) {
    if key !in m then got == None else got == Some(if m[key].JString? then m[key].text else "")
  }

  method LoadResponse(view: Json) returns (val: UpdateCommandExecutionResponse)
    ensures val == ResponseFrom(view)
  {
    val := UpdateCommandExecutionResponse(None);
    if ValueExists(view, "executionId") {
      val := val.(executionId := Some(GetString(view, "executionId")));
    }
  }

  method LoadError(view: Json) returns (val: V2ErrorResponse)
    ensures val == ErrorFrom(view)
  {
    val := V2ErrorResponse(None, None, None);
    if ValueExists(view, "error") {
      val := val.(error := Some(GetString(view, "error")));
    }
    if ValueExists(view, "errorMessage") {
      val := val.(errorMessage := Some(GetString(view, "errorMessage")));
    }
    if ValueExists(view, "executionId") {
      val := val.(executionId := Some(GetString(view, "executionId")));
    }
  }

  method UpdateCommandExecutionResponseHandler(
    result: UnmodeledResult, successPathTopic: string, failurePathTopic: string) returns (finalResult: Result)
    ensures finalResult == Handled(result, successPathTopic, failurePathTopic)
    ensures result.Failed? ==> finalResult == UnmodeledError(result.error)
    ensures result.Response? ==>
              if result.json == None then finalResult == PayloadParseError
              else if result.topic == successPathTopic then finalResult == Modeled(ResponseFrom(result.json.value))
              else if result.topic == failurePathTopic then finalResult == ModeledError(ErrorFrom(result.json.value))
              else finalResult == InvalidResponsePath
  {
    if result.Failed? {
      return UnmodeledError(result.error);
    }
    if result.json == None {
      return PayloadParseError;
    }
    if result.topic == successPathTopic {
      var modeledResponse := LoadResponse(result.json.value);
      return Modeled(modeledResponse);
    } else if result.topic == failurePathTopic {
      var modeledError := LoadError(result.json.value);
      return ModeledError(modeledError);
    } else {
      return InvalidResponsePath;
    }
  }

  function Handled(result: UnmodeledResult, successPathTopic: string, failurePathTopic: string): Result {
    match result
    case Failed(error) => UnmodeledError(error)
    case Response(topic, None) => PayloadParseError
    case Response(topic, Some(json)) =>
      if topic == successPathTopic then Modeled(ResponseFrom(json))
      else if topic == failurePathTopic then ModeledError(ErrorFrom(json))
      else InvalidResponsePath
  }

  /** A request takes a parsed response as its own exactly when it was sent for its device and execution, as a success
      exactly when it was accepted. */
  lemma {:induction false} ResponsesAttributed(
    t: DeviceType, deviceId: string, executionId: string,
    accepted: bool, t': DeviceType, deviceId': string, executionId': string, json: Json)
    requires SlashFree(deviceId) && SlashFree(executionId) && SlashFree(deviceId') && SlashFree(executionId')
    ensures Handled(Response(ResponseTopic(accepted, t', deviceId', executionId'), Some(json)),
                    ResponseTopic(true, t, deviceId, executionId), ResponseTopic(false, t, deviceId, executionId))
            == if t == t' && deviceId == deviceId' && executionId == executionId'
               then (if accepted then Modeled(ResponseFrom(json)) else ModeledError(ErrorFrom(json)))
               else InvalidResponsePath
  {
    ResponseTopicsInjective(accepted, t', deviceId', executionId', true, t, deviceId, executionId);
    ResponseTopicsInjective(accepted, t', deviceId', executionId', false, t, deviceId, executionId);
  }

  /** For identifiers of any shape the request does so exactly when their texts around "/executions/" agree. */
  lemma {:induction false} ResponsesAttributedExactly(
    t: DeviceType, deviceId: string, executionId: string,
    accepted: bool, t': DeviceType, deviceId': string, executionId': string, json: Json)
    ensures Handled(Response(ResponseTopic(accepted, t', deviceId', executionId'), Some(json)),
                    ResponseTopic(true, t, deviceId, executionId), ResponseTopic(false, t, deviceId, executionId))
            == if t == t' && deviceId + "/executions/" + executionId == deviceId' + "/executions/" + executionId'
               then (if accepted then Modeled(ResponseFrom(json)) else ModeledError(ErrorFrom(json)))
               else InvalidResponsePath
  {
    ResponseTopicsEqual(accepted, t', deviceId', executionId', true, t, deviceId, executionId);
    ResponseTopicsEqual(accepted, t', deviceId', executionId', false, t, deviceId, executionId);
  }
}
