/** The serialisers and loaders of the modeled shapes, proved against the documents and records of `Shapes`. */
module ShapeCodec {
  import opened Rpc
  import opened Json
  import opened Shapes
  import opened Unions
  import Base64

  method SerializeUserProperty(u: UserProperty, payloadObject: JsonObject)
    modifies payloadObject
    ensures payloadObject.members ==
            With(With(old(payloadObject.members), "key", OfString(u.key)), "value", OfString(u.value))
  {
    SerializeString(u.key, "key", payloadObject);
    SerializeString(u.value, "value", payloadObject);
  }

  method SerializeContext(c: MessageContext, payloadObject: JsonObject)
    modifies payloadObject
    ensures payloadObject.members == With(old(payloadObject.members), "topic", OfString(c.topic))
  {
    SerializeString(c.topic, "topic", payloadObject);
  }

  method SerializeString(v: Option<string>, key: string, payloadObject: JsonObject)
    modifies payloadObject
    ensures payloadObject.members == With(old(payloadObject.members), key, OfString(v))
  {
    if v.Some? {
      payloadObject.WithValue(key, JString(v.value));
    }
  }

  method SerializeBlob(v: Option<Blob>, key: string, payloadObject: JsonObject)
    modifies payloadObject
    ensures payloadObject.members == With(old(payloadObject.members), key, OfBlob(v))
  {
    if v.Some? {
      if |v.value| > 0 {
        payloadObject.WithValue(key, JString(Base64.Encode(v.value)));
      }
    }
  }

  method SerializeUserProperties(us: seq<UserProperty>) returns (items: seq<Json>)
    ensures items == UserPropertyList(us)
  {
    items := [];
    for i := 0 to |us|
      invariant items == UserPropertyList(us[..i])
    {
      var item := new JsonObject();
      SerializeUserProperty(us[i], item);
      items := items + [JObject(item.members)];
      assert us[..i + 1] == us[..i] + [us[i]];
    }
    assert us[..|us|] == us;
  }

  method SerializeMQTTMessage(x: MQTTMessage, payloadObject: JsonObject)
    modifies payloadObject
    ensures payloadObject.members == Build(old(payloadObject.members), MqttFields(x))
  {
    ghost var base := payloadObject.members;
    SerializeString(x.topicName, "topicName", payloadObject);
    SerializeBlob(x.payload, "payload", payloadObject);
    if x.retain.Some? {
      payloadObject.WithValue("retain", JBool(x.retain.value));
    }
    if x.userProperties.Some? {
      var items := SerializeUserProperties(x.userProperties.value);
      payloadObject.WithValue("userProperties", JArray(items));
    }
    if x.messageExpiryIntervalSeconds.Some? {
      payloadObject.WithValue("messageExpiryIntervalSeconds", JInt(x.messageExpiryIntervalSeconds.value));
    }
    SerializeBlob(x.correlationData, "correlationData", payloadObject);
    SerializeString(x.responseTopic, "responseTopic", payloadObject);
    SerializeString(x.payloadFormat, "payloadFormat", payloadObject);
    SerializeString(x.contentType, "contentType", payloadObject);
    MqttChain(base, x);
  }

  method LoadUserProperties(items: seq<Json>) returns (us: seq<UserProperty>)
    ensures us == UserPropertiesFrom(items)
  {
    us := [];
    for i := 0 to |items|
      invariant us == UserPropertiesFrom(items[..i])
    {
      var item := NO_USER_PROPERTY;
      if ValueExists(items[i], "key") {
        item := item.(key := Some(GetString(items[i], "key")));
      }
      if ValueExists(items[i], "value") {
        item := item.(value := Some(GetString(items[i], "value")));
      }
      us := us + [item];
      assert items[..i + 1] == items[..i] + [items[i]];
    }
    assert items[..|items|] == items;
  }

  method LoadBlob(given: Option<Blob>, view: Json, key: string) returns (v: Option<Blob>)
    ensures v == ToBlob(given, view, key)
  {
    v := given;
    if ValueExists(view, key) {
      if |GetString(view, key)| > 0 {
        v := Some(Base64.Decode(GetString(view, key)));
      }
    }
  }

  /** Loads into a message that may already hold values: members missing from the document leave them alone. */
  method LoadMQTTMessage(given: MQTTMessage, view: Json) returns (m: MQTTMessage)
    ensures m == MqttFrom(given, view)
  {
    var topicName, retain, userProperties := given.topicName, given.retain, given.userProperties;
    var expiry, responseTopic := given.messageExpiryIntervalSeconds, given.responseTopic;
    var payloadFormat, contentType := given.payloadFormat, given.contentType;
    if ValueExists(view, "topicName") {
      topicName := Some(GetString(view, "topicName"));
    }
    var payload := LoadBlob(given.payload, view, "payload");
    if ValueExists(view, "retain") {
      retain := Some(GetBool(view, "retain"));
    }
    if ValueExists(view, "userProperties") {
      var us := LoadUserProperties(GetArray(view, "userProperties"));
      userProperties := Some(us);
    }
    if ValueExists(view, "messageExpiryIntervalSeconds") {
      expiry := Some(GetInt64(view, "messageExpiryIntervalSeconds"));
    }
    var correlationData := LoadBlob(given.correlationData, view, "correlationData");
    if ValueExists(view, "responseTopic") {
      responseTopic := Some(GetString(view, "responseTopic"));
    }
    if ValueExists(view, "payloadFormat") {
      payloadFormat := Some(GetString(view, "payloadFormat"));
    }
    if ValueExists(view, "contentType") {
      contentType := Some(GetString(view, "contentType"));
    }
    m := MQTTMessage(topicName, payload, retain, userProperties, expiry, correlationData, responseTopic, payloadFormat,
                     contentType);
  }

  method SerializeRunWithInfo(x: RunWithInfo, payloadObject: JsonObject)
    modifies payloadObject
    ensures payloadObject.members == old(payloadObject.members) + RunWithJson(x)
  {
    RunWithOver(payloadObject.members, x);
    SerializeString(x.posixUser, "posixUser", payloadObject);
    SerializeString(x.windowsUser, "windowsUser", payloadObject);
    if x.systemResourceLimits.Some? {
      var limits := new JsonObject();
      if x.systemResourceLimits.value.memory.Some? {
        limits.WithValue("memory", JInt(x.systemResourceLimits.value.memory.value));
      }
      if x.systemResourceLimits.value.cpus.Some? {
        limits.WithValue("cpus", JDouble(x.systemResourceLimits.value.cpus.value));
      }
      payloadObject.WithValue("systemResourceLimits", JObject(limits.members));
    }
  }

  method SerializeVersionMap(m: map<string, string>) returns (members: Members)
    ensures members == VersionMapJson(m)
  {
    members := map[];
    var rest := m.Keys;
    while rest != {}
      invariant rest <= m.Keys
      invariant members.Keys == m.Keys - rest && forall k | k in members :: members[k] == JString(m[k])
      decreases |rest|
    {
      var k :| k in rest;
      members := members[k := JString(m[k])];
      rest := rest - {k};
    }
  }

  method SerializeConfigurationMap(m: map<string, Members>) returns (members: Members)
    ensures members == ConfigurationMapJson(m)
  {
    members := map[];
    var rest := m.Keys;
    while rest != {}
      invariant rest <= m.Keys
      invariant members.Keys == m.Keys - rest && forall k | k in members :: members[k] == JObject(m[k])
      decreases |rest|
    {
      var k :| k in rest;
      members := members[k := JObject(m[k])];
      rest := rest - {k};
    }
  }

  method SerializeRunWithMap(m: map<string, RunWithInfo>) returns (members: Members)
    ensures members == RunWithMapJson(m)
  {
    members := map[];
    var rest := m.Keys;
    while rest != {}
      invariant rest <= m.Keys
      invariant members.Keys == m.Keys - rest && forall k | k in members :: members[k] == JObject(RunWithJson(m[k]))
      decreases |rest|
    {
      var k :| k in rest;
      var item := new JsonObject();
      SerializeRunWithInfo(m[k], item);
      members := members[k := JObject(item.members)];
      rest := rest - {k};
    }
  }

  method SerializeStrings(ss: seq<string>) returns (items: seq<Json>)
    ensures items == StringList(ss)
  {
    items := [];
    for i := 0 to |ss|
      invariant items == StringList(ss[..i])
    {
      items := items + [JString(ss[i])];
      assert ss[..i + 1] == ss[..i] + [ss[i]];
    }
    assert ss[..|ss|] == ss;
  }

  method SerializeCreateLocalDeploymentRequest(x: CreateLocalDeploymentRequest, payloadObject: JsonObject)
    modifies payloadObject
    ensures payloadObject.members == Build(old(payloadObject.members), DeploymentFields(x))
  {
    ghost var base := payloadObject.members;
    SerializeString(x.groupName, "groupName", payloadObject);
    if x.rootComponentVersionsToAdd.Some? {
      var members := SerializeVersionMap(x.rootComponentVersionsToAdd.value);
      payloadObject.WithValue("rootComponentVersionsToAdd", JObject(members));
    }
    if x.rootComponentsToRemove.Some? {
      var items := SerializeStrings(x.rootComponentsToRemove.value);
      payloadObject.WithValue("rootComponentsToRemove", JArray(items));
    }
    if x.componentToConfiguration.Some? {
      var members := SerializeConfigurationMap(x.componentToConfiguration.value);
      payloadObject.WithValue("componentToConfiguration", JObject(members));
    }
    if x.componentToRunWithInfo.Some? {
      var members := SerializeRunWithMap(x.componentToRunWithInfo.value);
      payloadObject.WithValue("componentToRunWithInfo", JObject(members));
    }
    SerializeString(x.recipeDirectoryPath, "recipeDirectoryPath", payloadObject);
    SerializeString(x.artifactsDirectoryPath, "artifactsDirectoryPath", payloadObject);
    SerializeString(x.failureHandlingPolicy, "failureHandlingPolicy", payloadObject);
    DeploymentChain(base, x);
  }

  method LoadStrings(items: seq<Json>) returns (ss: seq<string>)
    ensures ss == StringsFrom(items)
  {
    ss := [];
    for i := 0 to |items|
      invariant ss == StringsFrom(items[..i])
    {
      ss := ss + [AsString(items[i])];
      assert items[..i + 1] == items[..i] + [items[i]];
    }
    assert items[..|items|] == items;
  }

  method LoadRunWithInfo(view: Json) returns (x: RunWithInfo)
    ensures x == RunWithFrom(view)
  {
    x := NO_RUN_WITH;
    if ValueExists(view, "posixUser") {
      x := x.(posixUser := Some(GetString(view, "posixUser")));
    }
    if ValueExists(view, "windowsUser") {
      x := x.(windowsUser := Some(GetString(view, "windowsUser")));
    }
    if ValueExists(view, "systemResourceLimits") {
      var limitsView := GetJsonObject(view, "systemResourceLimits");
      var limits := NO_LIMITS;
      if ValueExists(limitsView, "memory") {
        limits := limits.(memory := Some(GetInt64(limitsView, "memory")));
      }
      if ValueExists(limitsView, "cpus") {
        limits := limits.(cpus := Some(GetDouble(limitsView, "cpus")));
      }
      x := x.(systemResourceLimits := Some(limits));
    }
  }

  method LoadVersionMap(members: Members) returns (m: map<string, string>)
    ensures m == VersionMapFrom(members)
  {
    m := map[];
    var rest := members.Keys;
    while rest != {}
      invariant rest <= members.Keys
      invariant m.Keys == members.Keys - rest && forall k | k in m :: m[k] == AsString(members[k])
      decreases |rest|
    {
      var k :| k in rest;
      m := m[k := AsString(members[k])];
      rest := rest - {k};
    }
  }

  method LoadConfigurationMap(members: Members) returns (m: map<string, Members>)
    ensures m == ConfigurationMapFrom(members)
  {
    m := map[];
    var rest := members.Keys;
    while rest != {}
      invariant rest <= members.Keys
      invariant m.Keys == members.Keys - rest && forall k | k in m :: m[k] == AsObject(members[k])
      decreases |rest|
    {
      var k :| k in rest;
      m := m[k := AsObject(members[k])];
      rest := rest - {k};
    }
  }

  method LoadRunWithMap(members: Members) returns (m: map<string, RunWithInfo>)
    ensures m == RunWithMapFrom(members)
  {
    m := map[];
    var rest := members.Keys;
    while rest != {}
      invariant rest <= members.Keys
      invariant m.Keys == members.Keys - rest && forall k | k in m :: m[k] == RunWithFrom(members[k])
      decreases |rest|
    {
      var k :| k in rest;
      var item := LoadRunWithInfo(members[k]);
      m := m[k := item];
      rest := rest - {k};
    }
  }

  method LoadCreateLocalDeploymentRequest(given: CreateLocalDeploymentRequest, view: Json)
    returns (x: CreateLocalDeploymentRequest)
    ensures x == DeploymentFrom(given, view)
  {
    x := given;
    if ValueExists(view, "groupName") {
      x := x.(groupName := Some(GetString(view, "groupName")));
    }
    if ValueExists(view, "rootComponentVersionsToAdd") {
      var m := LoadVersionMap(AsObject(GetJsonObject(view, "rootComponentVersionsToAdd")));
      x := x.(rootComponentVersionsToAdd := Some(m));
    }
    if ValueExists(view, "rootComponentsToRemove") {
      var ss := LoadStrings(GetArray(view, "rootComponentsToRemove"));
      x := x.(rootComponentsToRemove := Some(ss));
    }
    if ValueExists(view, "componentToConfiguration") {
      var m := LoadConfigurationMap(AsObject(GetJsonObject(view, "componentToConfiguration")));
      x := x.(componentToConfiguration := Some(m));
    }
    if ValueExists(view, "componentToRunWithInfo") {
      var m := LoadRunWithMap(AsObject(GetJsonObject(view, "componentToRunWithInfo")));
      x := x.(componentToRunWithInfo := Some(m));
    }
    if ValueExists(view, "recipeDirectoryPath") {
      x := x.(recipeDirectoryPath := Some(GetString(view, "recipeDirectoryPath")));
    }
    if ValueExists(view, "artifactsDirectoryPath") {
      x := x.(artifactsDirectoryPath := Some(GetString(view, "artifactsDirectoryPath")));
    }
    if ValueExists(view, "failureHandlingPolicy") {
      x := x.(failureHandlingPolicy := Some(GetString(view, "failureHandlingPolicy")));
    }
  }

  method SerializeContextMember(c: Option<MessageContext>, payloadObject: JsonObject)
    modifies payloadObject
    ensures payloadObject.members == With(old(payloadObject.members), "context", OfContext(c))
  {
    if c.Some? {
      var context := new JsonObject();
      SerializeContext(c.value, context);
      payloadObject.WithValue("context", JObject(context.members));
    }
  }

  method SerializeMessageUnion(u: UnionObject<JsonMessage, BinaryMessage>, payloadObject: JsonObject)
    modifies payloadObject
    ensures payloadObject.members == old(payloadObject.members) + MessageUnionJson(u.View())
  {
    if u.chosenMember == TagFirst && u.first.Some? {
      var value := new JsonObject();
      if u.first.value.message.Some? {
        value.WithValue("message", JObject(u.first.value.message.value));
      }
      SerializeContextMember(u.first.value.context, value);
      payloadObject.WithValue("jsonMessage", JObject(value.members));
    } else if u.chosenMember == TagSecond && u.second.Some? {
      var value := new JsonObject();
      SerializeBlob(u.second.value.message, "message", value);
      SerializeContextMember(u.second.value.context, value);
      payloadObject.WithValue("binaryMessage", JObject(value.members));
    }
  }

  method LoadContext(view: Json) returns (c: MessageContext)
    ensures c == ContextFrom(view)
  {
    c := NO_CONTEXT;
    if ValueExists(view, "topic") {
      c := c.(topic := Some(GetString(view, "topic")));
    }
  }

  method LoadMessageUnion(u: UnionObject<JsonMessage, BinaryMessage>, view: Json)
    modifies u
    ensures u.View() == MessageUnionFrom(old(u.View()), view)
  {
    if ValueExists(view, "jsonMessage") {
      var messageView := GetJsonObject(view, "jsonMessage");
      var m := NO_JSON_MESSAGE;
      if ValueExists(messageView, "message") {
        m := m.(message := Some(AsObject(GetJsonObject(messageView, "message"))));
      }
      if ValueExists(messageView, "context") {
        var context := LoadContext(GetJsonObject(messageView, "context"));
        m := m.(context := Some(context));
      }
      u.SetFirst(m);
    } else if ValueExists(view, "binaryMessage") {
      var messageView := GetJsonObject(view, "binaryMessage");
      var m := NO_BINARY_MESSAGE;
      var message := LoadBlob(m.message, messageView, "message");
      m := m.(message := message);
      if ValueExists(messageView, "context") {
        var context := LoadContext(GetJsonObject(messageView, "context"));
        m := m.(context := Some(context));
      }
      u.SetSecond(m);
    }
  }

  method SerializeSecretValue(u: UnionObject<string, Blob>, payloadObject: JsonObject)
    modifies payloadObject
    ensures payloadObject.members == old(payloadObject.members) + SecretJson(u.View())
  {
    if u.chosenMember == TagFirst && u.first.Some? {
      payloadObject.WithValue("secretString", JString(u.first.value));
    } else if u.chosenMember == TagSecond && u.second.Some? {
      if |u.second.value| > 0 {
        payloadObject.WithValue("secretBinary", JString(Base64.Encode(u.second.value)));
      }
    }
  }

  method LoadSecretValue(u: UnionObject<string, Blob>, view: Json)
    modifies u
    ensures u.View() == SecretFrom(old(u.View()), view)
  {
    if ValueExists(view, "secretString") {
      u.first := Some(GetString(view, "secretString"));
      u.chosenMember := TagFirst;
    } else if ValueExists(view, "secretBinary") {
      var secretBinary := LoadBlob(u.second, view, "secretBinary");
      u.second := secretBinary;
      u.chosenMember := TagSecond;
    }
  }
}
