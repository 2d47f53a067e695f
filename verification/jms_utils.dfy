/** Helpers shared by the JMS connector (utils/JmsUtils.java): the blank test used for
    names and ids, the delivery mode, copying the bytes of a Ballerina byte array,
    and the classification of JMS messages and destinations into the Ballerina
    objects that wrap them. The Ballerina-side constant strings are defined outside
    this model and are parameters here. */
module JmsUtil {
  import opened Wrappers
  import opened JavaText

  /** `javax.jms.DeliveryMode.NON_PERSISTENT` and `PERSISTENT`. */
  const NonPersistent: int := 1
  const Persistent: int := 2

  /** A Java `byte`. */
  newtype JByte = b: int | -128 <= b < 128

  /** isNullOrEmptyAfterTrim: null, or nothing left after `trim`, that is, every
      character is at or below U+0020. */
  function IsNullOrEmptyAfterTrim(s: Option<string>): (r: bool)
    ensures r <==> s.None? || forall i | 0 <= i < |s.value| :: s.value[i] <= ' '
  {
    if s.None? then true else TrimsToEmptyIff(s.value); TrimsToEmpty(s.value)
  }

  /** A name with a visible character is never taken as missing, and trimming does
      not change the verdict. */
  lemma {:induction false} BlankIgnoresPadding(s: string, pad: string)
    requires forall i | 0 <= i < |pad| :: pad[i] <= ' '
    ensures IsNullOrEmptyAfterTrim(Some(pad + s + pad)) == IsNullOrEmptyAfterTrim(Some(s))
    ensures (exists i | 0 <= i < |s| :: s[i] > ' ') ==> !IsNullOrEmptyAfterTrim(Some(pad + s + pad))
  {
    var t := pad + s + pad;
    assert forall i | 0 <= i < |s| :: t[|pad| + i] == s[i];
    assert forall i | 0 <= i < |t| ::
      (i < |pad| ==> t[i] == pad[i]) && (|pad| + |s| <= i ==> t[i] == pad[i - |pad| - |s|]);
  }

  /** getDeliveryMode: PERSISTENT exactly when the configured mode is the Ballerina
      PERSISTENT constant, NON_PERSISTENT for every other string; a missing mode
      fails at `equals` with a NullPointerException. */
  function GetDeliveryMode(deliveryMode: Option<string>, persistentName: string): (r: Result<int, string>)
    ensures r.Failure? <==> deliveryMode.None?
    ensures r.Success? ==> (r.value == Persistent || r.value == NonPersistent)
    ensures r.Success? ==> (r.value == Persistent <==> deliveryMode.value == persistentName)
  {
    if deliveryMode.None? then Failure("NullPointerException")
    else if deliveryMode.value == persistentName then Success(Persistent)
    else Success(NonPersistent)
  }

  /** A Ballerina byte array: its backing storage and its logical size. */
  datatype ArrayValue = ArrayValue(bytes: seq<JByte>, size: nat)

  /** `Arrays.copyOf`: a new array of the requested length holding the leading
      elements of the original, padded with zeros when the original is shorter. */
  function CopyOf(original: seq<JByte>, newLength: nat): (r: seq<JByte>)
    ensures |r| == newLength
    ensures forall i | 0 <= i < newLength && i < |original| :: r[i] == original[i]
    ensures forall i | |original| <= i < newLength :: r[i] == 0
  {
    if newLength <= |original| then original[..newLength]
    else original + seq(newLength - |original|, _ => 0 as JByte)
  }

  /** getBytesData: exactly `size` bytes; when the storage holds at least that many
      they are its first `size` bytes. */
  function GetBytesData(a: ArrayValue): (r: seq<JByte>)
    ensures |r| == a.size
    ensures a.size <= |a.bytes| ==> r == a.bytes[..a.size]
  {
    CopyOf(a.bytes, a.size)
  }

  /** The JMS message interfaces a message object implements. A provider's class
      may implement more than one. */
  datatype JmsMessage = JmsMessage(isText: bool, isBytes: bool, isStream: bool, isMap: bool)

  datatype MessageType = TextMessage | BytesMessage | StreamMessage | MapMessage | GenericMessage

  /** The type recorded on the Ballerina message: the first of Text, Bytes, Stream and
      Map that the message implements, and a plain message otherwise. */
  function MessageTypeOf(m: JmsMessage): (r: MessageType)
    ensures r == TextMessage <==> m.isText
    ensures r == BytesMessage <==> !m.isText && m.isBytes
    ensures r == StreamMessage <==> !m.isText && !m.isBytes && m.isStream
    ensures r == MapMessage <==> !m.isText && !m.isBytes && !m.isStream && m.isMap
    ensures r == GenericMessage <==> !m.isText && !m.isBytes && !m.isStream && !m.isMap
  {
    if m.isText then TextMessage
    else if m.isBytes then BytesMessage
    else if m.isStream then StreamMessage
    else if m.isMap then MapMessage
    else GenericMessage
  }

  /** Whether a message implements the interface a type names. */
  predicate Implements(m: JmsMessage, t: MessageType) {
    match t
    case TextMessage => m.isText
    case BytesMessage => m.isBytes
    case StreamMessage => m.isStream
    case MapMessage => m.isMap
    case GenericMessage => true
  }

  /** The recorded type is always one the message implements, and a message that
      implements one of the four interfaces is never recorded as a plain message. */
  lemma MessageTypeSound(m: JmsMessage)
    ensures Implements(m, MessageTypeOf(m))
    ensures (m.isText || m.isBytes || m.isStream || m.isMap) ==> MessageTypeOf(m) != GenericMessage
  {
  }

  /** The Ballerina message object: the session it belongs to, its type, and the JMS
      message attached as native data. */
  datatype MessageObject<S> = MessageObject(session: S, msgType: MessageType, native: JmsMessage)

  /** createAndPopulateMessageObject. */
  function CreateAndPopulateMessageObject<S>(m: JmsMessage, session: S): (r: MessageObject<S>)
    ensures r.native == m && r.session == session
    ensures Implements(m, r.msgType) && r.msgType == MessageTypeOf(m)
  {
    MessageTypeSound(m);
    MessageObject(session, MessageTypeOf(m), m)
  }

  /** A JMS destination: a queue, a topic (either possibly temporary, with a name the
      broker chose), or some other provider object that is neither. */
  datatype Destination = Queue(queueName: string, temporary: bool) | Topic(topicName: string, temporary: bool) | OtherDestination

  /** The two destination type strings of the Ballerina destination object. */
  datatype DestinationTypeNames = DestinationTypeNames(queue: string, topic: string)

  /** The Ballerina destination object: its name, its type string, and the JMS
      destination attached as native data (absent until someone attaches it). */
  datatype DestinationObj = DestinationObj(name: Option<string>, destType: string, native: Option<Destination>)

  /** populateAndGetDestinationObj: a queue becomes a queue-typed object named after
      the queue; anything else is cast to a topic, which fails for a destination
      that is not one. The JMS destination is attached to the new object. */
  function PopulateAndGetDestinationObj(d: Destination, names: DestinationTypeNames): (r: Result<DestinationObj, string>)
    ensures r.Failure? <==> d.OtherDestination?
    ensures r.Success? ==> r.value.native == Some(d)
    ensures d.Queue? ==> r.Success? && r.value.name == Some(d.queueName) && r.value.destType == names.queue
    ensures d.Topic? ==> r.Success? && r.value.name == Some(d.topicName) && r.value.destType == names.topic
  {
    match d
    case Queue(n, _) => Success(DestinationObj(Some(n), names.queue, Some(d)))
    case Topic(n, _) => Success(DestinationObj(Some(n), names.topic, Some(d)))
    case OtherDestination => Failure("ClassCastException")
  }
}
