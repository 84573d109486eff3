/**
 * Tagged unions. Assignment copies the source's chosen member and tag and leaves the other member as it was, so an
 * object that has been assigned to may carry a stale one.
 */
module Unions {
  import opened Rpc
  import opened Json
  import opened Shapes
  import Base64

  /** m_chosenMember has no initial value; `Unset` stands for whatever is neither tag. */
  datatype Tag = TagFirst | TagSecond | Unset

  datatype Union<A, B> = Union(chosen: Tag, first: Option<A>, second: Option<B>)

  /** What can be read from a union. */
  datatype Choice<A, B> = Nothing | First(a: A) | Second(b: B)

  function Visible<A, B>(u: Union<A, B>): Choice<A, B> {
    if u.chosen == TagFirst && u.first.Some? then First(u.first.value)
    else if u.chosen == TagSecond && u.second.Some? then Second(u.second.value)
    else Nothing
  }

  function Assigned<A, B>(u: Union<A, B>, source: Union<A, B>): Union<A, B> {
    match source.chosen
    case TagFirst => u.(chosen := TagFirst, first := source.first)
    case TagSecond => u.(chosen := TagSecond, second := source.second)
    case Unset => u
  }

  function AssignedAll<A, B>(u: Union<A, B>, sources: seq<Union<A, B>>): Union<A, B>
    decreases |sources|
  {
    if sources == [] then u else AssignedAll(Assigned(u, sources[0]), sources[1..])
  }

  /** The last source that had a tag, or `u` if none had. */
  function LastTagged<A, B>(u: Union<A, B>, sources: seq<Union<A, B>>): Union<A, B> {
    if sources == [] then u
    else if sources[|sources| - 1].chosen != Unset then sources[|sources| - 1]
    else LastTagged(u, sources[..|sources| - 1])
  }

  lemma {:induction false} AssignedSnoc<A, B>(u: Union<A, B>, sources: seq<Union<A, B>>, last: Union<A, B>)
    ensures AssignedAll(u, sources + [last]) == Assigned(AssignedAll(u, sources), last)
    decreases |sources|
  {
    if sources == [] {
      assert [last][1..] == [];
    } else {
      assert (sources + [last])[1..] == sources[1..] + [last];
      AssignedSnoc(Assigned(u, sources[0]), sources[1..], last);
    }
  }

  /** However often an object has been assigned to, it shows what the last tagged source showed, and its stale member
      never comes through. */
  lemma {:induction false} LastAssignmentShows<A, B>(u: Union<A, B>, sources: seq<Union<A, B>>)
    ensures Visible(AssignedAll(u, sources)) == Visible(LastTagged(u, sources))
    decreases |sources|
  {
    if sources != [] {
      var before := sources[..|sources| - 1];
      assert sources == before + [sources[|sources| - 1]];
      AssignedSnoc(u, before, sources[|sources| - 1]);
      LastAssignmentShows(u, before);
    }
  }

  class UnionObject<A(0), B(0)> {
    var chosenMember: Tag
    var first: Option<A>
    var second: Option<B>

    ghost function View(): Union<A, B>
      reads this
    {
      Union(chosenMember, first, second)
    }

    constructor (initialTag: Tag)
      ensures View() == Union(initialTag, None, None)
    {
      chosenMember, first, second := initialTag, None, None;
    }

    method SetFirst(value: A)
      modifies this
      ensures View() == old(View()).(chosen := TagFirst, first := Some(value)) && Visible(View()) == First(value)
    {
      first := Some(value);
      chosenMember := TagFirst;
    }

    method SetSecond(value: B)
      modifies this
      ensures View() == old(View()).(chosen := TagSecond, second := Some(value)) && Visible(View()) == Second(value)
    {
      second := Some(value);
      chosenMember := TagSecond;
    }

    /** operator=, from another object or from itself. */
    method Assign(objectToCopy: UnionObject<A, B>)
      modifies this
      ensures View() == Assigned(old(View()), old(objectToCopy.View()))
      ensures objectToCopy.chosenMember != Unset ==> Visible(View()) == old(Visible(objectToCopy.View()))
      ensures chosenMember == (if old(objectToCopy.chosenMember) == Unset then old(chosenMember)
                               else old(objectToCopy.chosenMember))
      ensures first == (if old(objectToCopy.chosenMember) == TagFirst then old(objectToCopy.first) else old(first))
      ensures second == (if old(objectToCopy.chosenMember) == TagSecond then old(objectToCopy.second) else old(second))
    {
      if objectToCopy.chosenMember == TagFirst {
        first := objectToCopy.first;
        chosenMember := objectToCopy.chosenMember;
      } else if objectToCopy.chosenMember == TagSecond {
        second := objectToCopy.second;
        chosenMember := objectToCopy.chosenMember;
      }
    }
  }

  /* ----- SubscriptionResponseMessage and PublishMessage ----- */

  type MessageUnion = Union<JsonMessage, BinaryMessage>

  function MessageUnionJson(u: MessageUnion): Members {
    match Visible(u)
    case First(m) => map["jsonMessage" := JObject(JsonMessageJson(m))]
    case Second(m) => map["binaryMessage" := JObject(BinaryMessageJson(m))]
    case Nothing => map[]
  }

  function MessageUnionFrom(given: MessageUnion, view: Json): MessageUnion {
    if ValueExists(view, "jsonMessage") then
      given.(chosen := TagFirst, first := Some(JsonMessageFrom(GetJsonObject(view, "jsonMessage"))))
    else if ValueExists(view, "binaryMessage") then
      given.(chosen := TagSecond, second := Some(BinaryMessageFrom(GetJsonObject(view, "binaryMessage"))))
    else given
  }

  function NormalMessage(c: Choice<JsonMessage, BinaryMessage>): Choice<JsonMessage, BinaryMessage> {
    if c.Second? then Second(NormalBinaryMessage(c.b)) else c
  }

  lemma {:induction false} MessageUnionRoundTrip(u: MessageUnion, blank: MessageUnion)
    requires blank.first == None && blank.second == None
    ensures var loaded := MessageUnionFrom(blank, JObject(MessageUnionJson(u)));
            && Visible(loaded) == NormalMessage(Visible(u))
            && MessageUnionJson(loaded) == MessageUnionJson(u)
  {
    assert |"jsonMessage"| != |"binaryMessage"|;
    match Visible(u)
    case First(m) => JsonMessageRoundTrip(m);
    case Second(m) => BinaryMessageRoundTrip(m);
    case Nothing =>
  }

  /* ----- SecretValue ----- */

  type SecretValue = Union<string, Blob>

  function SecretJson(u: SecretValue): Members {
    match Visible(u)
    case First(s) => map["secretString" := JString(s)]
    case Second(b) => if |b| > 0 then map["secretBinary" := JString(Base64.Encode(b))] else map[]
    case Nothing => map[]
  }

  function SecretFrom(given: SecretValue, view: Json): SecretValue {
    if ValueExists(view, "secretString") then
      given.(chosen := TagFirst, first := Some(GetString(view, "secretString")))
    else if ValueExists(view, "secretBinary") then
      given.(chosen := TagSecond, second := ToBlob(given.second, view, "secretBinary"))
    else given
  }

  /** A secret holding only an empty binary is lost. */
  function NormalSecret(c: Choice<string, Blob>): Choice<string, Blob> {
    if c.Second? && c.b == [] then Nothing else c
  }

  lemma {:induction false} SecretRoundTrip(u: SecretValue, blank: SecretValue)
    requires blank.first == None && blank.second == None
    ensures var loaded := SecretFrom(blank, JObject(SecretJson(u)));
            && Visible(loaded) == NormalSecret(Visible(u))
            && SecretJson(loaded) == SecretJson(u)
  {
    assert "secretString"[6] != "secretBinary"[6];
    match Visible(u)
    case Second(b) => Base64.Inverse(b);
    case _ =>
  }

  /** Whatever was assigned before, a serialised union has at most one member, and it is the one of the last tagged
      source. */
  lemma {:induction false} SerializedUnionAfterAssignments(
    u: MessageUnion, messages: seq<MessageUnion>, v: SecretValue, secrets: seq<SecretValue>)
    ensures MessageUnionJson(AssignedAll(u, messages)) == MessageUnionJson(LastTagged(u, messages))
    ensures SecretJson(AssignedAll(v, secrets)) == SecretJson(LastTagged(v, secrets))
    ensures |MessageUnionJson(AssignedAll(u, messages))| <= 1 && |SecretJson(AssignedAll(v, secrets))| <= 1
  {
    LastAssignmentShows(u, messages);
    LastAssignmentShows(v, secrets);
  }
}
