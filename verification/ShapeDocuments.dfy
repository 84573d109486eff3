/**
 * The documents of the shapes and what any document is loaded as, member by member: which key, which kind of value, and
 * what becomes of a member that is absent, empty or of another kind.
 */
module ShapeDocuments {
  import opened Rpc
  import opened Json
  import opened Shapes
  import opened Unions
  import Base64

  /** Member `key` holds the string `v`, or is absent if there is none. */
  predicate HoldsText(m: Members, key: string, v: Option<string>) {
    if v.Some? then key in m && m[key] == JString(v.value) else key !in m
  }

  predicate HoldsInt(m: Members, key: string, v: Option<int>) {
    if v.Some? then key in m && m[key] == JInt(v.value) else key !in m
  }

  /** An empty blob is as good as none. */
  predicate HoldsBlob(m: Members, key: string, v: Option<Blob>) {
    if v.Some? && v.value != [] then key in m && m[key] == JString(Base64.Encode(v.value)) else key !in m
  }

  /** Member `key` was loaded over `given`; an absent one leaves that alone, one of another kind reads as empty. */
  predicate LoadedText(m: Members, key: string, given: Option<string>, got: Option<string>) {
    if key !in m then got == given
    else if m[key].JString? then got == Some(m[key].text)
    else got == Some("")
  }

  predicate LoadedInt(m: Members, key: string, given: Option<int>, got: Option<int>) {
    if key !in m then got == given
    else if m[key].JInt? then got == Some(m[key].int64)
    else got == Some(0)
  }

  /** A blob that is absent, reads as the empty text or is of another kind leaves the given one alone; any other was
      encoded from what was loaded. */
  ghost predicate LoadedBlob(m: Members, key: string, given: Option<Blob>, got: Option<Blob>) {
    && (key !in m || m[key] == JString("") || !m[key].JString? ==> got == given)
    && (forall b: Blob :: b != [] && key in m && m[key] == JString(Base64.Encode(b)) ==> got == Some(b))
  }

  lemma {:induction false} BlobDocument(v: Option<Blob>, m: Members, key: string)
    requires Lookup(m, key) == OfBlob(v)
    ensures HoldsBlob(m, key, v)
  {
  }

  lemma {:induction false} BlobLoaded(m: Members, key: string, given: Option<Blob>)
    ensures LoadedBlob(m, key, given, ToBlob(given, JObject(m), key))
  {
    forall b: Blob | b != [] && key in m && m[key] == JString(Base64.Encode(b))
      ensures ToBlob(given, JObject(m), key) == Some(b)
    {
      Base64.Inverse(b);
      assert |Base64.Encode(b)| > 0;
    }
  }

  /** Writing into an object that has members already replaces those of the same name and keeps the others. */
  lemma {:induction false} WrittenOver(base: Members, fields: Fields)
    ensures Build(base, fields) == base + Build(map[], fields)
  {
    if fields == [] {
      assert base + map[] == base;
    } else {
      WrittenOver(base, fields[..|fields| - 1]);
    }
  }

  /* ----- MQTTMessage ----- */

  lemma {:induction false} UserPropertyDocument(u: UserProperty)
    ensures var m := UserPropertyJson(u);
            HoldsText(m, "key", u.key) && HoldsText(m, "value", u.value) && m.Keys <= {"key", "value"}
    ensures forall m :: var got := UserPropertyFrom(JObject(m));
                        LoadedText(m, "key", None, got.key) && LoadedText(m, "value", None, got.value)
  {
    assert |"key"| != |"value"|;
  }

  lemma {:induction false} UserPropertyLists(us: seq<UserProperty>, items: seq<Json>)
    ensures |UserPropertyList(us)| == |us| && |UserPropertiesFrom(items)| == |items|
    ensures forall i :: 0 <= i < |us| ==> UserPropertyList(us)[i] == JObject(UserPropertyJson(us[i]))
    ensures forall i :: 0 <= i < |items| ==> UserPropertiesFrom(items)[i] == UserPropertyFrom(items[i])
  {
  }

  /** The document of a message has these members and no others. */
  lemma {:induction false} MqttDocument(x: MQTTMessage)
    ensures var m := Build(map[], MqttFields(x));
            && HoldsText(m, "topicName", x.topicName) && HoldsBlob(m, "payload", x.payload)
            && (if x.retain.Some? then "retain" in m && m["retain"] == JBool(x.retain.value) else "retain" !in m)
            && (if x.userProperties.Some?
                then "userProperties" in m && m["userProperties"] == JArray(UserPropertyList(x.userProperties.value))
                else "userProperties" !in m)
            && HoldsInt(m, "messageExpiryIntervalSeconds", x.messageExpiryIntervalSeconds)
            && HoldsBlob(m, "correlationData", x.correlationData) && HoldsText(m, "responseTopic", x.responseTopic)
            && HoldsText(m, "payloadFormat", x.payloadFormat) && HoldsText(m, "contentType", x.contentType)
            && m.Keys <= {"topicName", "payload", "retain", "userProperties", "messageExpiryIntervalSeconds",
                          "correlationData", "responseTopic", "payloadFormat", "contentType"}
  {
    MqttMembers(x);
    forall key | key in Build(map[], MqttFields(x))
      ensures key in {"topicName", "payload", "retain", "userProperties", "messageExpiryIntervalSeconds",
                      "correlationData", "responseTopic", "payloadFormat", "contentType"}
    {
      if forall i :: 0 <= i < |MqttFields(x)| ==> MqttFields(x)[i].0 != key {
        BuildOthers(MqttFields(x), key);
      }
    }
  }

  /** What a message holds once any document has been loaded over it. */
  lemma {:induction false} MqttLoaded(given: MQTTMessage, m: Members)
    ensures var got := MqttFrom(given, JObject(m));
            && LoadedText(m, "topicName", given.topicName, got.topicName)
            && LoadedBlob(m, "payload", given.payload, got.payload)
            && got.retain == (if "retain" !in m then given.retain
                              else Some(m["retain"].JBool? && m["retain"].flag))
            && got.userProperties == (if "userProperties" !in m then given.userProperties
                                      else if m["userProperties"].JArray?
                                      then Some(UserPropertiesFrom(m["userProperties"].items)) else Some([]))
            && LoadedInt(m, "messageExpiryIntervalSeconds", given.messageExpiryIntervalSeconds,
                         got.messageExpiryIntervalSeconds)
            && LoadedBlob(m, "correlationData", given.correlationData, got.correlationData)
            && LoadedText(m, "responseTopic", given.responseTopic, got.responseTopic)
            && LoadedText(m, "payloadFormat", given.payloadFormat, got.payloadFormat)
            && LoadedText(m, "contentType", given.contentType, got.contentType)
  {
    BlobLoaded(m, "payload", given.payload);
    BlobLoaded(m, "correlationData", given.correlationData);
  }

  /* ----- the messages of the publish and subscribe operations ----- */

  lemma {:induction false} ContextDocument(c: MessageContext)
    ensures HoldsText(ContextJson(c), "topic", c.topic) && ContextJson(c).Keys <= {"topic"}
    ensures forall m :: LoadedText(m, "topic", None, ContextFrom(JObject(m)).topic)
  {
  }

  lemma {:induction false} JsonMessageDocument(x: JsonMessage)
    ensures var m := JsonMessageJson(x);
            && (if x.message.Some? then "message" in m && m["message"] == JObject(x.message.value)
                else "message" !in m)
            && (if x.context.Some? then "context" in m && m["context"] == JObject(ContextJson(x.context.value))
                else "context" !in m)
            && m.Keys <= {"message", "context"}
  {
    assert "message"[0] != "context"[0];
  }

  lemma {:induction false} JsonMessageLoaded(m: Members)
    ensures var got := JsonMessageFrom(JObject(m));
            && got.message == (if "message" !in m then None
                               else if m["message"].JObject? then Some(m["message"].members) else Some(map[]))
            && got.context == (if "context" !in m then None else Some(ContextFrom(m["context"])))
  {
  }

  lemma {:induction false} BinaryMessageDocument(x: BinaryMessage)
    ensures var m := BinaryMessageJson(x);
            && HoldsBlob(m, "message", x.message)
            && (if x.context.Some? then "context" in m && m["context"] == JObject(ContextJson(x.context.value))
                else "context" !in m)
            && m.Keys <= {"message", "context"}
  {
    assert "message"[0] != "context"[0];
  }

  lemma {:induction false} BinaryMessageLoaded(m: Members)
    ensures var got := BinaryMessageFrom(JObject(m));
            && LoadedBlob(m, "message", None, got.message)
            && got.context == (if "context" !in m then None else Some(ContextFrom(m["context"])))
  {
    BlobLoaded(m, "message", None);
  }

  /** A message union's document has at most one member, the chosen one. */
  lemma {:induction false} MessageUnionDocument(u: MessageUnion)
    ensures MessageUnionJson(u) ==
            if u.chosen == TagFirst && u.first.Some?
            then map["jsonMessage" := JObject(JsonMessageJson(u.first.value))]
            else if u.chosen == TagSecond && u.second.Some?
            then map["binaryMessage" := JObject(BinaryMessageJson(u.second.value))]
            else map[]
  {
  }

  /** Loading takes the JSON message if there is one, and leaves the other member, or both, alone. */
  lemma {:induction false} MessageUnionLoaded(given: MessageUnion, m: Members)
    ensures MessageUnionFrom(given, JObject(m)) ==
            if "jsonMessage" in m then Union(TagFirst, Some(JsonMessageFrom(m["jsonMessage"])), given.second)
            else if "binaryMessage" in m
            then Union(TagSecond, given.first, Some(BinaryMessageFrom(m["binaryMessage"])))
            else given
  {
  }

  /* ----- SecretValue ----- */

  lemma {:induction false} SecretDocument(u: SecretValue)
    ensures SecretJson(u) ==
            if u.chosen == TagFirst && u.first.Some? then map["secretString" := JString(u.first.value)]
            else if u.chosen == TagSecond && u.second.Some? && u.second.value != []
            then map["secretBinary" := JString(Base64.Encode(u.second.value))]
            else map[]
  {
  }

  lemma {:induction false} SecretLoaded(given: SecretValue, m: Members)
    ensures var got := SecretFrom(given, JObject(m));
            if "secretString" in m then
              && got.chosen == TagFirst && got.second == given.second
              && LoadedText(m, "secretString", given.first, got.first)
            else if "secretBinary" in m then
              && got.chosen == TagSecond && got.first == given.first
              && LoadedBlob(m, "secretBinary", given.second, got.second)
            else
              got == given
  {
    BlobLoaded(m, "secretBinary", given.second);
  }

  /** An empty binary loaded into a blank secret shows nothing, though it is chosen. */
  lemma {:induction false} EmptySecretBinary(tag: Tag)
    ensures var got := SecretFrom(Union(tag, None, None), JObject(map["secretBinary" := JString("")]));
            got.chosen == TagSecond && Visible(got) == Nothing
  {
    assert "secretString"[6] != "secretBinary"[6];
    SecretLoaded(Union(tag, None, None), map["secretBinary" := JString("")]);
  }

  /* ----- CreateLocalDeploymentRequest ----- */

  lemma {:induction false} RunWithDocument(x: RunWithInfo)
    ensures var m := RunWithJson(x);
            && HoldsText(m, "posixUser", x.posixUser) && HoldsText(m, "windowsUser", x.windowsUser)
            && (if x.systemResourceLimits.Some?
                then "systemResourceLimits" in m
                     && m["systemResourceLimits"] == JObject(LimitsJson(x.systemResourceLimits.value))
                else "systemResourceLimits" !in m)
            && m.Keys <= {"posixUser", "windowsUser", "systemResourceLimits"}
  {
    assert |"posixUser"| != |"windowsUser"| && |"windowsUser"| != |"systemResourceLimits"|;
    assert "posixUser"[0] == 'p' && "systemResourceLimits"[0] == 's';
  }

  lemma {:induction false} RunWithLoaded(m: Members)
    ensures var got := RunWithFrom(JObject(m));
            && LoadedText(m, "posixUser", None, got.posixUser) && LoadedText(m, "windowsUser", None, got.windowsUser)
            && got.systemResourceLimits == (if "systemResourceLimits" !in m then None
                                            else Some(LimitsFrom(m["systemResourceLimits"])))
  {
  }

  lemma {:induction false} LimitsDocument(x: SystemResourceLimits, m: Members)
    ensures var doc := LimitsJson(x);
            && HoldsInt(doc, "memory", x.memory)
            && (if x.cpus.Some? then "cpus" in doc && doc["cpus"] == JDouble(x.cpus.value) else "cpus" !in doc)
            && doc.Keys <= {"memory", "cpus"}
    ensures var got := LimitsFrom(JObject(m));
            && LoadedInt(m, "memory", None, got.memory)
            && got.cpus == (if "cpus" !in m then None
                            else if m["cpus"].JDouble? then Some(m["cpus"].double) else Some(0.0))
  {
    assert |"memory"| != |"cpus"|;
  }

  /** Maps and lists, entry by entry. */
  lemma {:induction false} EntriesDocument(
    versions: map<string, string>, configuration: map<string, Members>, runWith: map<string, RunWithInfo>,
    names: seq<string>)
    ensures VersionMapJson(versions).Keys == versions.Keys
    ensures forall k | k in versions :: VersionMapJson(versions)[k] == JString(versions[k])
    ensures ConfigurationMapJson(configuration).Keys == configuration.Keys
    ensures forall k | k in configuration :: ConfigurationMapJson(configuration)[k] == JObject(configuration[k])
    ensures RunWithMapJson(runWith).Keys == runWith.Keys
    ensures forall k | k in runWith :: RunWithMapJson(runWith)[k] == JObject(RunWithJson(runWith[k]))
    ensures |StringList(names)| == |names| && forall i :: 0 <= i < |names| ==> StringList(names)[i] == JString(names[i])
  {
  }

  lemma {:induction false} EntriesLoaded(m: Members, items: seq<Json>)
    ensures VersionMapFrom(m).Keys == ConfigurationMapFrom(m).Keys == RunWithMapFrom(m).Keys == m.Keys
    ensures forall k | k in m :: VersionMapFrom(m)[k] == (if m[k].JString? then m[k].text else "")
    ensures forall k | k in m :: ConfigurationMapFrom(m)[k] == (if m[k].JObject? then m[k].members else map[])
    ensures forall k | k in m :: RunWithMapFrom(m)[k] == RunWithFrom(m[k])
    ensures |StringsFrom(items)| == |items|
    ensures forall i :: 0 <= i < |items| ==>
              StringsFrom(items)[i] == (if items[i].JString? then items[i].text else "")
  {
  }

  lemma {:induction false} DeploymentDocument(x: CreateLocalDeploymentRequest)
    ensures var m := Build(map[], DeploymentFields(x));
            && HoldsText(m, "groupName", x.groupName)
            && Lookup(m, "rootComponentVersionsToAdd")
               == (if x.rootComponentVersionsToAdd.Some?
                   then Some(JObject(VersionMapJson(x.rootComponentVersionsToAdd.value))) else None)
            && Lookup(m, "rootComponentsToRemove")
               == (if x.rootComponentsToRemove.Some?
                   then Some(JArray(StringList(x.rootComponentsToRemove.value))) else None)
            && Lookup(m, "componentToConfiguration")
               == (if x.componentToConfiguration.Some?
                   then Some(JObject(ConfigurationMapJson(x.componentToConfiguration.value))) else None)
            && Lookup(m, "componentToRunWithInfo")
               == (if x.componentToRunWithInfo.Some?
                   then Some(JObject(RunWithMapJson(x.componentToRunWithInfo.value))) else None)
            && HoldsText(m, "recipeDirectoryPath", x.recipeDirectoryPath)
            && HoldsText(m, "artifactsDirectoryPath", x.artifactsDirectoryPath)
            && HoldsText(m, "failureHandlingPolicy", x.failureHandlingPolicy)
            && m.Keys <= {"groupName", "rootComponentVersionsToAdd", "rootComponentsToRemove",
                          "componentToConfiguration", "componentToRunWithInfo", "recipeDirectoryPath",
                          "artifactsDirectoryPath", "failureHandlingPolicy"}
  {
    DeploymentMembers(x);
    forall key | key in Build(map[], DeploymentFields(x))
      ensures key in {"groupName", "rootComponentVersionsToAdd", "rootComponentsToRemove",
                      "componentToConfiguration", "componentToRunWithInfo", "recipeDirectoryPath",
                      "artifactsDirectoryPath", "failureHandlingPolicy"}
    {
      if forall i :: 0 <= i < |DeploymentFields(x)| ==> DeploymentFields(x)[i].0 != key {
        BuildOthers(DeploymentFields(x), key);
      }
    }
  }

  /** The members of the object at `key`; any other value reads as an object without members. */
  function MembersAt(m: Members, key: string): Members
    requires key in m
  {
    if m[key].JObject? then m[key].members else map[]
  }

  lemma {:induction false} DeploymentLoaded(given: CreateLocalDeploymentRequest, m: Members)
    ensures var got := DeploymentFrom(given, JObject(m));
            && LoadedText(m, "groupName", given.groupName, got.groupName)
            && got.rootComponentVersionsToAdd
               == (if "rootComponentVersionsToAdd" !in m then given.rootComponentVersionsToAdd
                   else Some(VersionMapFrom(MembersAt(m, "rootComponentVersionsToAdd"))))
            && got.rootComponentsToRemove
               == (if "rootComponentsToRemove" !in m then given.rootComponentsToRemove
                   else if m["rootComponentsToRemove"].JArray?
                   then Some(StringsFrom(m["rootComponentsToRemove"].items)) else Some([]))
            && got.componentToConfiguration
               == (if "componentToConfiguration" !in m then given.componentToConfiguration
                   else Some(ConfigurationMapFrom(MembersAt(m, "componentToConfiguration"))))
            && got.componentToRunWithInfo
               == (if "componentToRunWithInfo" !in m then given.componentToRunWithInfo
                   else Some(RunWithMapFrom(MembersAt(m, "componentToRunWithInfo"))))
            && LoadedText(m, "recipeDirectoryPath", given.recipeDirectoryPath, got.recipeDirectoryPath)
            && LoadedText(m, "artifactsDirectoryPath", given.artifactsDirectoryPath, got.artifactsDirectoryPath)
            && LoadedText(m, "failureHandlingPolicy", given.failureHandlingPolicy, got.failureHandlingPolicy)
  {
    assert StringsFrom([]) == [];
  }
}
