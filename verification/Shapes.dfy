/**
 * The modeled shapes of the Greengrass IPC service with the deepest structure, what their JSON is, and what loading
 * that JSON gives back.
 */
module Shapes {
  import opened Rpc
  import opened Json
  import Base64

  type Blob = seq<Base64.byte>

  datatype UserProperty = UserProperty(key: Option<string>, value: Option<string>)

  datatype MessageContext = MessageContext(topic: Option<string>)

  datatype MQTTMessage = MQTTMessage(
    topicName: Option<string>,
    payload: Option<Blob>,
    retain: Option<bool>,
    userProperties: Option<seq<UserProperty>>,
    messageExpiryIntervalSeconds: Option<int>,
    correlationData: Option<Blob>,
    responseTopic: Option<string>,
    payloadFormat: Option<string>,
    contentType: Option<string>)

  datatype JsonMessage = JsonMessage(message: Option<Members>, context: Option<MessageContext>)

  datatype BinaryMessage = BinaryMessage(message: Option<Blob>, context: Option<MessageContext>)

  datatype SystemResourceLimits = SystemResourceLimits(memory: Option<int>, cpus: Option<real>)

  datatype RunWithInfo = RunWithInfo(
    posixUser: Option<string>,
    windowsUser: Option<string>,
    systemResourceLimits: Option<SystemResourceLimits>)

  datatype CreateLocalDeploymentRequest = CreateLocalDeploymentRequest(
    groupName: Option<string>,
    rootComponentVersionsToAdd: Option<map<string, string>>,
    rootComponentsToRemove: Option<seq<string>>,
    componentToConfiguration: Option<map<string, Members>>,
    componentToRunWithInfo: Option<map<string, RunWithInfo>>,
    recipeDirectoryPath: Option<string>,
    artifactsDirectoryPath: Option<string>,
    failureHandlingPolicy: Option<string>)

  const NO_USER_PROPERTY := UserProperty(None, None)
  const NO_CONTEXT := MessageContext(None)
  const NO_MQTT_MESSAGE := MQTTMessage(None, None, None, None, None, None, None, None, None)
  const NO_JSON_MESSAGE := JsonMessage(None, None)
  const NO_BINARY_MESSAGE := BinaryMessage(None, None)
  const NO_LIMITS := SystemResourceLimits(None, None)
  const NO_RUN_WITH := RunWithInfo(None, None, None)
  const NO_DEPLOYMENT := CreateLocalDeploymentRequest(None, None, None, None, None, None, None, None)

  /* ----- what a shape's JSON is ----- */

  function With(m: Members, key: string, value: Option<Json>): Members {
    if value.Some? then m[key := value.value] else m
  }

  /** The members of a large shape, in the order they are written. */
  type Fields = seq<(string, Option<Json>)>

  function Build(base: Members, fields: Fields): Members {
    if fields == [] then base
    else With(Build(base, fields[..|fields| - 1]), fields[|fields| - 1].0, fields[|fields| - 1].1)
  }

  predicate DistinctKeys(fields: Fields) {
    forall i, j :: 0 <= i < j < |fields| ==> fields[i].0 != fields[j].0
  }

  function OfString(v: Option<string>): Option<Json> {
    if v.Some? then Some(JString(v.value)) else None
  }

  function OfInt(v: Option<int>): Option<Json> {
    if v.Some? then Some(JInt(v.value)) else None
  }

  /** An empty blob is not written. */
  function OfBlob(v: Option<Blob>): Option<Json> {
    if v.Some? && |v.value| > 0 then Some(JString(Base64.Encode(v.value))) else None
  }

  function UserPropertyJson(u: UserProperty): Members {
    With(With(map[], "key", OfString(u.key)), "value", OfString(u.value))
  }

  function ContextJson(c: MessageContext): Members {
    With(map[], "topic", OfString(c.topic))
  }

  function OfContext(c: Option<MessageContext>): Option<Json> {
    if c.Some? then Some(JObject(ContextJson(c.value))) else None
  }

  function UserPropertyList(us: seq<UserProperty>): seq<Json> {
    seq(|us|, i requires 0 <= i < |us| => JObject(UserPropertyJson(us[i])))
  }

  function MqttFields(x: MQTTMessage): Fields {
    [ ("topicName", OfString(x.topicName)),
      ("payload", OfBlob(x.payload)),
      ("retain", if x.retain.Some? then Some(JBool(x.retain.value)) else None),
      ("userProperties",
       if x.userProperties.Some? then Some(JArray(UserPropertyList(x.userProperties.value))) else None),
      ("messageExpiryIntervalSeconds", OfInt(x.messageExpiryIntervalSeconds)),
      ("correlationData", OfBlob(x.correlationData)),
      ("responseTopic", OfString(x.responseTopic)),
      ("payloadFormat", OfString(x.payloadFormat)),
      ("contentType", OfString(x.contentType)) ]
  }

  function JsonMessageJson(x: JsonMessage): Members {
    With(With(map[], "message", if x.message.Some? then Some(JObject(x.message.value)) else None),
         "context", OfContext(x.context))
  }

  function BinaryMessageJson(x: BinaryMessage): Members {
    With(With(map[], "message", OfBlob(x.message)), "context", OfContext(x.context))
  }

  function LimitsJson(x: SystemResourceLimits): Members {
    With(With(map[], "memory", OfInt(x.memory)), "cpus", if x.cpus.Some? then Some(JDouble(x.cpus.value)) else None)
  }

  function RunWithJson(x: RunWithInfo): Members {
    var m1 := With(map[], "posixUser", OfString(x.posixUser));
    var m2 := With(m1, "windowsUser", OfString(x.windowsUser));
    With(m2, "systemResourceLimits",
         if x.systemResourceLimits.Some? then Some(JObject(LimitsJson(x.systemResourceLimits.value))) else None)
  }

  function VersionMapJson(m: map<string, string>): Members {
    map k | k in m :: JString(m[k])
  }

  function ConfigurationMapJson(m: map<string, Members>): Members {
    map k | k in m :: JObject(m[k])
  }

  function RunWithMapJson(m: map<string, RunWithInfo>): Members {
    map k | k in m :: JObject(RunWithJson(m[k]))
  }

  function StringList(ss: seq<string>): seq<Json> {
    seq(|ss|, i requires 0 <= i < |ss| => JString(ss[i]))
  }

  function DeploymentFields(x: CreateLocalDeploymentRequest): Fields {
    [ ("groupName", OfString(x.groupName)),
      ("rootComponentVersionsToAdd",
       if x.rootComponentVersionsToAdd.Some? then Some(JObject(VersionMapJson(x.rootComponentVersionsToAdd.value)))
       else None),
      ("rootComponentsToRemove",
       if x.rootComponentsToRemove.Some? then Some(JArray(StringList(x.rootComponentsToRemove.value))) else None),
      ("componentToConfiguration",
       if x.componentToConfiguration.Some? then Some(JObject(ConfigurationMapJson(x.componentToConfiguration.value)))
       else None),
      ("componentToRunWithInfo",
       if x.componentToRunWithInfo.Some? then Some(JObject(RunWithMapJson(x.componentToRunWithInfo.value))) else None),
      ("recipeDirectoryPath", OfString(x.recipeDirectoryPath)),
      ("artifactsDirectoryPath", OfString(x.artifactsDirectoryPath)),
      ("failureHandlingPolicy", OfString(x.failureHandlingPolicy)) ]
  }

  /* ----- what loading a document into a shape gives ----- */

  function ToString(given: Option<string>, view: Json, key: string): Option<string> {
    if ValueExists(view, key) then Some(GetString(view, key)) else given
  }

  function ToInt(given: Option<int>, view: Json, key: string): Option<int> {
    if ValueExists(view, key) then Some(GetInt64(view, key)) else given
  }

  function ToBlob(given: Option<Blob>, view: Json, key: string): Option<Blob> {
    if ValueExists(view, key) && |GetString(view, key)| > 0 then Some(Base64.Decode(GetString(view, key))) else given
  }

  function UserPropertyFrom(view: Json): UserProperty {
    UserProperty(ToString(None, view, "key"), ToString(None, view, "value"))
  }

  function ContextFrom(view: Json): MessageContext {
    MessageContext(ToString(None, view, "topic"))
  }

  function ToContext(given: Option<MessageContext>, view: Json): Option<MessageContext> {
    if ValueExists(view, "context") then Some(ContextFrom(GetJsonObject(view, "context"))) else given
  }

  function UserPropertiesFrom(items: seq<Json>): seq<UserProperty> {
    seq(|items|, i requires 0 <= i < |items| => UserPropertyFrom(items[i]))
  }

  function MqttFrom(given: MQTTMessage, view: Json): MQTTMessage {
    MQTTMessage(
      ToString(given.topicName, view, "topicName"),
      ToBlob(given.payload, view, "payload"),
      if ValueExists(view, "retain") then Some(GetBool(view, "retain")) else given.retain,
      if ValueExists(view, "userProperties") then Some(UserPropertiesFrom(GetArray(view, "userProperties")))
      else given.userProperties,
      ToInt(given.messageExpiryIntervalSeconds, view, "messageExpiryIntervalSeconds"),
      ToBlob(given.correlationData, view, "correlationData"),
      ToString(given.responseTopic, view, "responseTopic"),
      ToString(given.payloadFormat, view, "payloadFormat"),
      ToString(given.contentType, view, "contentType"))
  }

  function JsonMessageFrom(view: Json): JsonMessage {
    JsonMessage(if ValueExists(view, "message") then Some(AsObject(GetJsonObject(view, "message"))) else None,
                ToContext(None, view))
  }

  function BinaryMessageFrom(view: Json): BinaryMessage {
    BinaryMessage(ToBlob(None, view, "message"), ToContext(None, view))
  }

  function LimitsFrom(view: Json): SystemResourceLimits {
    SystemResourceLimits(ToInt(None, view, "memory"),
                         if ValueExists(view, "cpus") then Some(GetDouble(view, "cpus")) else None)
  }

  function RunWithFrom(view: Json): RunWithInfo {
    RunWithInfo(ToString(None, view, "posixUser"), ToString(None, view, "windowsUser"),
                if ValueExists(view, "systemResourceLimits")
                then Some(LimitsFrom(GetJsonObject(view, "systemResourceLimits"))) else None)
  }

  function VersionMapFrom(members: Members): map<string, string> {
    map k | k in members :: AsString(members[k])
  }

  function ConfigurationMapFrom(members: Members): map<string, Members> {
    map k | k in members :: AsObject(members[k])
  }

  function RunWithMapFrom(members: Members): map<string, RunWithInfo> {
    map k | k in members :: RunWithFrom(members[k])
  }

  function StringsFrom(items: seq<Json>): seq<string> {
    seq(|items|, i requires 0 <= i < |items| => AsString(items[i]))
  }

  function DeploymentFrom(given: CreateLocalDeploymentRequest, view: Json): CreateLocalDeploymentRequest {
    CreateLocalDeploymentRequest(
      ToString(given.groupName, view, "groupName"),
      if ValueExists(view, "rootComponentVersionsToAdd")
      then Some(VersionMapFrom(AsObject(GetJsonObject(view, "rootComponentVersionsToAdd"))))
      else given.rootComponentVersionsToAdd,
      if ValueExists(view, "rootComponentsToRemove") then Some(StringsFrom(GetArray(view, "rootComponentsToRemove")))
      else given.rootComponentsToRemove,
      if ValueExists(view, "componentToConfiguration")
      then Some(ConfigurationMapFrom(AsObject(GetJsonObject(view, "componentToConfiguration"))))
      else given.componentToConfiguration,
      if ValueExists(view, "componentToRunWithInfo")
      then Some(RunWithMapFrom(AsObject(GetJsonObject(view, "componentToRunWithInfo"))))
      else given.componentToRunWithInfo,
      ToString(given.recipeDirectoryPath, view, "recipeDirectoryPath"),
      ToString(given.artifactsDirectoryPath, view, "artifactsDirectoryPath"),
      ToString(given.failureHandlingPolicy, view, "failureHandlingPolicy"))
  }

  /* ----- normal forms ----- */

  /** A present but empty blob is lost. */
  function NormalBlob(v: Option<Blob>): Option<Blob> {
    if v == Some([]) then None else v
  }

  function NormalMqtt(x: MQTTMessage): MQTTMessage {
    x.(payload := NormalBlob(x.payload), correlationData := NormalBlob(x.correlationData))
  }

  function NormalBinaryMessage(x: BinaryMessage): BinaryMessage {
    x.(message := NormalBlob(x.message))
  }

  /* ----- round trips ----- */

  lemma {:induction false} BlobRoundTrip(v: Option<Blob>, view: Json, key: string)
    requires OfBlob(v).Some? ==> ValueExists(view, key) && view.members[key] == OfBlob(v).value
    requires OfBlob(v) == None ==> !ValueExists(view, key)
    ensures ToBlob(None, view, key) == NormalBlob(v)
  {
    if v.Some? {
      Base64.Inverse(v.value);
    }
  }

  lemma {:induction false} UserPropertyRoundTrip(u: UserProperty)
    ensures UserPropertyFrom(JObject(UserPropertyJson(u))) == u
  {
    assert "key" != "value";
  }

  lemma {:induction false} UserPropertiesRoundTrip(us: seq<UserProperty>)
    ensures UserPropertiesFrom(UserPropertyList(us)) == us
  {
    forall i | 0 <= i < |us| ensures UserPropertiesFrom(UserPropertyList(us))[i] == us[i] {
      UserPropertyRoundTrip(us[i]);
    }
  }

  lemma {:induction false} RunWithOver(base: Members, x: RunWithInfo)
    ensures base + RunWithJson(x) ==
            With(With(With(base, "posixUser", OfString(x.posixUser)), "windowsUser", OfString(x.windowsUser)),
                 "systemResourceLimits",
                 if x.systemResourceLimits.Some? then Some(JObject(LimitsJson(x.systemResourceLimits.value))) else None)
  {
    var m1 := With(map[], "posixUser", OfString(x.posixUser));
    var m2 := With(m1, "windowsUser", OfString(x.windowsUser));
    WithOver(base, map[], "posixUser", OfString(x.posixUser));
    WithOver(base, m1, "windowsUser", OfString(x.windowsUser));
    WithOver(base, m2, "systemResourceLimits",
             if x.systemResourceLimits.Some? then Some(JObject(LimitsJson(x.systemResourceLimits.value))) else None);
    assert base + map[] == base;
  }

  lemma {:induction false} WithOver(base: Members, m: Members, key: string, value: Option<Json>)
    ensures With(base + m, key, value) == base + With(m, key, value)
  {
  }

  lemma {:induction false} BuildStep(base: Members, fields: Fields, i: nat)
    requires i < |fields|
    ensures Build(base, fields[..i + 1]) == With(Build(base, fields[..i]), fields[i].0, fields[i].1)
  {
    assert fields[..i + 1][..i] == fields[..i];
  }

  /** Nine, or eight, members written one after the other. */
  lemma {:induction false} Unroll(base: Members, f: Fields)
    requires |f| == 9 || |f| == 8
    ensures var m := With(With(With(With(With(With(With(With(base, f[0].0, f[0].1), f[1].0, f[1].1), f[2].0, f[2].1),
                     f[3].0, f[3].1), f[4].0, f[4].1), f[5].0, f[5].1), f[6].0, f[6].1), f[7].0, f[7].1);
            Build(base, f) == if |f| == 8 then m else With(m, f[8].0, f[8].1)
  {
    forall i | 0 <= i < |f|
      ensures Build(base, f[..i + 1]) == With(Build(base, f[..i]), f[i].0, f[i].1)
    {
      BuildStep(base, f, i);
    }
    assert f[..0] == [] && f[..|f|] == f;
    assert Build(base, f[..1]) == With(base, f[0].0, f[0].1);
    assert Build(base, f[..4]) == With(With(With(Build(base, f[..1]), f[1].0, f[1].1), f[2].0, f[2].1), f[3].0, f[3].1);
    assert Build(base, f[..8]) == With(With(With(With(Build(base, f[..4]), f[4].0, f[4].1), f[5].0, f[5].1),
                                            f[6].0, f[6].1), f[7].0, f[7].1);
  }

  lemma {:induction false} MqttChain(base: Members, x: MQTTMessage)
    ensures var f := MqttFields(x);
            Build(base, f) ==
            With(With(With(With(With(With(With(With(With(base,
              "topicName", f[0].1), "payload", f[1].1), "retain", f[2].1), "userProperties", f[3].1),
              "messageExpiryIntervalSeconds", f[4].1), "correlationData", f[5].1), "responseTopic", f[6].1),
              "payloadFormat", f[7].1), "contentType", f[8].1)
  {
    Unroll(base, MqttFields(x));
  }

  lemma {:induction false} DeploymentChain(base: Members, x: CreateLocalDeploymentRequest)
    ensures var f := DeploymentFields(x);
            Build(base, f) ==
            With(With(With(With(With(With(With(With(base,
              "groupName", f[0].1), "rootComponentVersionsToAdd", f[1].1), "rootComponentsToRemove", f[2].1),
              "componentToConfiguration", f[3].1), "componentToRunWithInfo", f[4].1), "recipeDirectoryPath", f[5].1),
              "artifactsDirectoryPath", f[6].1), "failureHandlingPolicy", f[7].1)
  {
    Unroll(base, DeploymentFields(x));
  }

  function Lookup(m: Members, key: string): Option<Json> {
    if key in m then Some(m[key]) else None
  }

  /** Every member is read back as it was written. */
  lemma {:induction false} BuildLookup(fields: Fields, i: nat)
    requires i < |fields| && DistinctKeys(fields)
    ensures Lookup(Build(map[], fields), fields[i].0) == fields[i].1
  {
    var shorter := fields[..|fields| - 1];
    if i < |shorter| {
      BuildLookup(shorter, i);
    } else {
      BuildOthers(shorter, fields[i].0);
    }
  }

  lemma {:induction false} BuildOthers(fields: Fields, key: string)
    requires forall i :: 0 <= i < |fields| ==> fields[i].0 != key
    ensures key !in Build(map[], fields)
  {
    if fields != [] {
      BuildOthers(fields[..|fields| - 1], key);
    }
  }

  lemma MqttKeysDistinct(x: MQTTMessage)
    ensures DistinctKeys(MqttFields(x))
  {
    assert "responseTopic"[0] != "payloadFormat"[0];
  }

  lemma {:induction false} MqttMembers(x: MQTTMessage)
    ensures var m := Build(map[], MqttFields(x));
            var f := MqttFields(x);
            && Lookup(m, "topicName") == f[0].1 && Lookup(m, "payload") == f[1].1
            && Lookup(m, "retain") == f[2].1 && Lookup(m, "userProperties") == f[3].1
            && Lookup(m, "messageExpiryIntervalSeconds") == f[4].1 && Lookup(m, "correlationData") == f[5].1
            && Lookup(m, "responseTopic") == f[6].1 && Lookup(m, "payloadFormat") == f[7].1
            && Lookup(m, "contentType") == f[8].1
  {
    var f := MqttFields(x);
    MqttKeysDistinct(x);
    forall i | 0 <= i < |f| ensures Lookup(Build(map[], f), f[i].0) == f[i].1 {
      BuildLookup(f, i);
    }
    assert f[0].0 == "topicName" && f[1].0 == "payload" && f[2].0 == "retain" && f[3].0 == "userProperties"
        && f[4].0 == "messageExpiryIntervalSeconds" && f[5].0 == "correlationData" && f[6].0 == "responseTopic"
        && f[7].0 == "payloadFormat" && f[8].0 == "contentType";
  }

  /** Loading what was serialised gives the message back, but for blobs that were present and empty. */
  lemma {:induction false} MqttRoundTrip(x: MQTTMessage)
    ensures MqttFrom(NO_MQTT_MESSAGE, JObject(Build(map[], MqttFields(x)))) == NormalMqtt(x)
  {
    var j := JObject(Build(map[], MqttFields(x)));
    MqttMembers(x);
    BlobRoundTrip(x.payload, j, "payload");
    BlobRoundTrip(x.correlationData, j, "correlationData");
    if x.userProperties.Some? {
      UserPropertiesRoundTrip(x.userProperties.value);
    }
  }

  /** Serialising again after loading gives the same document, and two messages have the same document exactly when
      they differ in nothing but empty blobs. */
  lemma {:induction false} MqttDocuments(x: MQTTMessage, y: MQTTMessage)
    ensures Build(map[], MqttFields(NormalMqtt(x))) == Build(map[], MqttFields(x))
    ensures Build(map[], MqttFields(x)) == Build(map[], MqttFields(y)) <==> NormalMqtt(x) == NormalMqtt(y)
  {
    assert MqttFields(NormalMqtt(x)) == MqttFields(x);
    assert MqttFields(NormalMqtt(y)) == MqttFields(y);
    MqttRoundTrip(x);
    MqttRoundTrip(y);
  }

  lemma {:induction false} ContextRoundTrip(c: Option<MessageContext>, view: Json)
    requires ValueExists(view, "context") <==> c.Some?
    requires c.Some? ==> view.members["context"] == JObject(ContextJson(c.value))
    ensures ToContext(None, view) == c
  {
  }

  lemma {:induction false} JsonMessageRoundTrip(x: JsonMessage)
    ensures JsonMessageFrom(JObject(JsonMessageJson(x))) == x
  {
    assert "message"[0] != "context"[0];
    ContextRoundTrip(x.context, JObject(JsonMessageJson(x)));
  }

  lemma {:induction false} BinaryMessageRoundTrip(x: BinaryMessage)
    ensures BinaryMessageFrom(JObject(BinaryMessageJson(x))) == NormalBinaryMessage(x)
    ensures BinaryMessageJson(NormalBinaryMessage(x)) == BinaryMessageJson(x)
  {
    assert "message"[0] != "context"[0];
    ContextRoundTrip(x.context, JObject(BinaryMessageJson(x)));
    BlobRoundTrip(x.message, JObject(BinaryMessageJson(x)), "message");
  }

  lemma {:induction false} RunWithRoundTrip(x: RunWithInfo)
    ensures RunWithFrom(JObject(RunWithJson(x))) == x
  {
    assert |"posixUser"| != |"windowsUser"| && |"memory"| != |"cpus"|;
    if x.systemResourceLimits.Some? {
      assert LimitsFrom(JObject(LimitsJson(x.systemResourceLimits.value))) == x.systemResourceLimits.value;
    }
  }

  lemma {:induction false} MapsRoundTrip(
    versions: map<string, string>, configuration: map<string, Members>, runWith: map<string, RunWithInfo>)
    ensures VersionMapFrom(VersionMapJson(versions)) == versions
    ensures ConfigurationMapFrom(ConfigurationMapJson(configuration)) == configuration
    ensures RunWithMapFrom(RunWithMapJson(runWith)) == runWith
  {
    forall k | k in runWith ensures RunWithFrom(RunWithMapJson(runWith)[k]) == runWith[k] {
      RunWithRoundTrip(runWith[k]);
    }
  }

  lemma DeploymentKeysDistinct(x: CreateLocalDeploymentRequest)
    ensures DistinctKeys(DeploymentFields(x))
  {
    assert "rootComponentsToRemove"[0] == 'r' && "componentToRunWithInfo"[0] == 'c';
    assert "artifactsDirectoryPath"[0] == 'a';
  }

  lemma {:induction false} DeploymentMembers(x: CreateLocalDeploymentRequest)
    ensures var m := Build(map[], DeploymentFields(x));
            var f := DeploymentFields(x);
            && Lookup(m, "groupName") == f[0].1 && Lookup(m, "rootComponentVersionsToAdd") == f[1].1
            && Lookup(m, "rootComponentsToRemove") == f[2].1 && Lookup(m, "componentToConfiguration") == f[3].1
            && Lookup(m, "componentToRunWithInfo") == f[4].1 && Lookup(m, "recipeDirectoryPath") == f[5].1
            && Lookup(m, "artifactsDirectoryPath") == f[6].1 && Lookup(m, "failureHandlingPolicy") == f[7].1
  {
    var f := DeploymentFields(x);
    DeploymentKeysDistinct(x);
    forall i | 0 <= i < |f| ensures Lookup(Build(map[], f), f[i].0) == f[i].1 {
      BuildLookup(f, i);
    }
    assert f[0].0 == "groupName" && f[1].0 == "rootComponentVersionsToAdd" && f[2].0 == "rootComponentsToRemove"
        && f[3].0 == "componentToConfiguration" && f[4].0 == "componentToRunWithInfo"
        && f[5].0 == "recipeDirectoryPath" && f[6].0 == "artifactsDirectoryPath" && f[7].0 == "failureHandlingPolicy";
  }

  /** A deployment request survives the round trip unchanged: lists keep their order, maps all their entries, and the
      configuration documents and run-with records nested in them come back whole. */
  lemma {:induction false} DeploymentRoundTrip(x: CreateLocalDeploymentRequest)
    ensures DeploymentFrom(NO_DEPLOYMENT, JObject(Build(map[], DeploymentFields(x)))) == x
  {
    DeploymentMembers(x);
    var y := DeploymentFrom(NO_DEPLOYMENT, JObject(Build(map[], DeploymentFields(x))));
    MapsRoundTrip(if x.rootComponentVersionsToAdd.Some? then x.rootComponentVersionsToAdd.value else map[],
                  if x.componentToConfiguration.Some? then x.componentToConfiguration.value else map[],
                  if x.componentToRunWithInfo.Some? then x.componentToRunWithInfo.value else map[]);
    if x.rootComponentsToRemove.Some? {
      var ss := x.rootComponentsToRemove.value;
      assert StringsFrom(StringList(ss)) == ss;
    }
    assert y.rootComponentsToRemove == x.rootComponentsToRemove;
  }
}
