/** Message headers, which own a copy of their value and point the C handle at it, and the CONNECT message. */
module Headers {
  import opened Rpc
  import Routing

  /** AWS_EVENT_STREAM_HEADER_NAME_LEN_MAX of the C library. */
  const HEADER_NAME_LEN_MAX := 127

  /** A length cast to uint16_t. */
  function Uint16(n: nat): nat {
    n % 65536
  }

  function NameKept(name: string): string {
    if |name| > HEADER_NAME_LEN_MAX then name[..HEADER_NAME_LEN_MAX] else name
  }

  function ValueKept(value: string): string {
    value[..Uint16(|value|)]
  }

  method NewCopy(bytes: array<char>) returns (copy: array<char>)
    ensures fresh(copy) && copy[..] == bytes[..]
  {
    copy := new char[bytes.Length](i requires 0 <= i < bytes.Length reads bytes => bytes[i]);
  }

  /** header_value_type: strings and byte buffers lie outside the handle, all other values inside it. */
  datatype ValueType = StringValue | ByteBufValue | FixedSizeValue

  /** The handle's header_value, a union of a pointer and of bytes in place. */
  datatype HandleValue = Variable(buffer: array<char>) | InPlace(bytes: seq<char>)

  class EventStreamHeader {
    var valueByteBuf: array<char>
    // m_underlyingHandle
    var headerName: string
    var valueType: ValueType
    var headerValue: HandleValue
    var headerValueLen: nat

    /** The handle points at the header's own buffer, which holds all of `value`. Every way of making a header from
        another one keeps this for the name and value the first one was built from. */
    ghost predicate Holds(name: string, value: string)
      reads this, valueByteBuf
    {
      && headerValue == Variable(valueByteBuf)
      && valueByteBuf[..] == value
      && headerValueLen == Uint16(|value|)
      && headerName == NameKept(name)
    }

    constructor (name: string, value: string)
      ensures Holds(name, value) && fresh(valueByteBuf) && valueType == StringValue
    {
      var buffer := new char[|value|](i requires 0 <= i < |value| => value[i]);
      valueByteBuf := buffer;
      var length := if |name| > HEADER_NAME_LEN_MAX then HEADER_NAME_LEN_MAX else |name|;
      headerName := name[..length];
      valueType := StringValue;
      headerValue := Variable(buffer);
      headerValueLen := Uint16(buffer.Length);
      new;
      assert name[..|name|] == name;
    }

    /** From a handle the C layer owns, whose lengths fit its fields. */
    constructor FromHandle(name: string, valueType: ValueType, value: HandleValue, valueLen: nat)
      requires |name| <= HEADER_NAME_LEN_MAX && valueLen < 65536
      requires value.Variable? <==> valueType != FixedSizeValue
      requires value.Variable? ==> value.buffer.Length == valueLen
      ensures this.valueType == valueType && headerName == name && headerValueLen == valueLen
      ensures valueType != FixedSizeValue ==> Holds(name, value.buffer[..]) && fresh(valueByteBuf)
      ensures valueType == FixedSizeValue ==> headerValue == value && valueByteBuf.Length == 0
    {
      headerName, this.valueType, headerValueLen, headerValue := name, valueType, valueLen, value;
      var copy := new char[0];
      if valueType == StringValue || valueType == ByteBufValue {
        copy := NewCopy(value.buffer);
        headerValue := Variable(copy);
        headerValueLen := Uint16(copy.Length);
      }
      valueByteBuf := copy;
    }

    /** The copy constructor. It keeps the name and type of any header and whatever its buffer holds. The value of a
        fixed-size header lies in the handle, where the pointer to the copied buffer replaces it. */
    constructor Copy(lhs: EventStreamHeader)
      ensures headerName == lhs.headerName && valueType == lhs.valueType
      ensures fresh(valueByteBuf) && valueByteBuf[..] == lhs.valueByteBuf[..]
      ensures headerValue == Variable(valueByteBuf) && headerValueLen == Uint16(valueByteBuf.Length)
      ensures forall name, value :: lhs.Holds(name, value) ==> Holds(name, value)
    {
      var copy := NewCopy(lhs.valueByteBuf);
      valueByteBuf := copy;
      headerName := lhs.headerName;
      valueType := lhs.valueType;
      headerValue := Variable(copy);
      headerValueLen := Uint16(copy.Length);
    }

    /** operator=, from another header or from itself, with the same effect. */
    method Assign(rhs: EventStreamHeader)
      modifies this
      ensures headerName == old(rhs.headerName) && valueType == old(rhs.valueType)
      ensures valueByteBuf[..] == old(rhs.valueByteBuf[..])
      ensures rhs != this ==>
                && fresh(valueByteBuf)
                && headerValue == Variable(valueByteBuf) && headerValueLen == Uint16(valueByteBuf.Length)
      ensures forall name, value :: old(rhs.Holds(name, value)) ==> Holds(name, value)
      ensures rhs == this ==> headerValue == old(headerValue) && headerValueLen == old(headerValueLen)
    {
      if this != rhs {
        valueByteBuf := NewCopy(rhs.valueByteBuf);
        headerName := rhs.headerName;
        valueType := rhs.valueType;
        headerValueLen := rhs.headerValueLen;
        headerValue := Variable(valueByteBuf);
        headerValueLen := Uint16(valueByteBuf.Length);
      }
    }

    method GetHeaderName(ghost original: string, ghost value: string) returns (name: string)
      ensures name == headerName
      ensures Holds(original, value) ==> name == NameKept(original)
      ensures Holds(original, value) ==> name == if |original| <= 127 then original else original[..127]
    {
      name := headerName;
    }

    /** None stands for the result false, which leaves the caller's string alone. */
    method GetValueAsString(ghost name: string, ghost original: string) returns (value: Option<string>)
      requires valueType == StringValue ==> Holds(name, original)
      ensures value == if valueType == StringValue then Some(ValueKept(original)) else None
      ensures valueType == StringValue ==>
                value == Some(if |original| < 65536 then original else original[..|original| % 65536])
    {
      if valueType != StringValue {
        return None;
      }
      value := Some(headerValue.buffer[..headerValueLen]);
      assert original[..|original|] == original;
    }
  }

  /* ----- the CONNECT message ----- */

  const EVENTSTREAM_VERSION_HEADER := ":version"
  const EVENTSTREAM_VERSION_STRING := "0.1.0"

  const VERSION := Routing.Header(EVENTSTREAM_VERSION_HEADER, Routing.Text(EVENTSTREAM_VERSION_STRING))

  class MessageAmendment {
    var headers: seq<Routing.Header>
    var payload: Option<string>

    constructor (headers: seq<Routing.Header>, payload: Option<string>)
      ensures this.headers == headers && this.payload == payload
    {
      this.headers, this.payload := headers, payload;
    }

    method AddHeader(header: Routing.Header)
      modifies this
      ensures headers == old(headers) + [header] && payload == old(payload)
    {
      headers := headers + [header];
    }

    method PrependHeaders(front: seq<Routing.Header>)
      modifies this
      ensures headers == front + old(headers) && payload == old(payload)
    {
      headers := front + headers;
    }

    /** Setting no payload leaves the one there is. */
    method SetPayload(newPayload: Option<string>)
      modifies this
      ensures headers == old(headers) && payload == (if newPayload.Some? then newPayload else old(payload))
    {
      if newPayload.Some? {
        payload := newPayload;
      }
    }
  }

  /** The configured amendment's headers come first, so a lookup by name finds them before the version header. */
  method ConstructConnectMessage(connectAmendment: MessageAmendment?)
    returns (headers: seq<Routing.Header>, payload: Option<string>)
    ensures headers == (if connectAmendment == null then [] else connectAmendment.headers) + [VERSION]
    ensures payload == if connectAmendment == null then None else connectAmendment.payload
    ensures headers[|headers| - 1] == Routing.Header(":version", Routing.Text("0.1.0"))
    ensures Routing.FirstHeader(headers, EVENTSTREAM_VERSION_HEADER).Some?
    ensures connectAmendment == null ==> Routing.FirstHeader(headers, EVENTSTREAM_VERSION_HEADER) == Some(VERSION)
    ensures connectAmendment != null ==>
              forall name ::
                Routing.FirstHeader(headers, name) ==
                if Routing.FirstHeader(connectAmendment.headers, name).Some?
                then Routing.FirstHeader(connectAmendment.headers, name)
                else if name == EVENTSTREAM_VERSION_HEADER then Some(VERSION) else None
  {
    var amendmentStorage := new MessageAmendment([], None);
    amendmentStorage.AddHeader(VERSION);
    if connectAmendment != null {
      amendmentStorage.PrependHeaders(connectAmendment.headers);
      if connectAmendment.payload.Some? {
        amendmentStorage.SetPayload(connectAmendment.payload);
      }
      forall name {
        Routing.FirstHeaderOfConcatenation(connectAmendment.headers, [VERSION], name);
      }
    }
    headers, payload := amendmentStorage.headers, amendmentStorage.payload;
    assert [] + [VERSION] == [VERSION];
  }
}
