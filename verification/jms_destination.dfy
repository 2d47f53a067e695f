/** Initialising a Ballerina JMS destination object (externimpl/destination/Init.java):
    its type string selects a queue or a topic, its name a named or a temporary one. */
module JmsDestinations {
  import opened Wrappers
  import opened JmsUtil

  const UnsupportedTypeMessage: string := "Unsupported Destination type"
  const CreateFailedMessage: string := "Failed to create queue destination."

  /** createQueue: a temporary queue (named by the broker) when no name is given,
      otherwise the named queue. */
  function CreateQueue(queueName: Option<string>, brokerName: string): (r: Destination)
    ensures r.Queue? && (r.temporary <==> queueName.None?)
    ensures r.queueName == queueName.GetOr(brokerName)
  {
    if queueName.None? then Queue(brokerName, true) else Queue(queueName.value, false)
  }

  /** createTopic: the same for topics. */
  function CreateTopic(topicName: Option<string>, brokerName: string): (r: Destination)
    ensures r.Topic? && (r.temporary <==> topicName.None?)
    ensures r.topicName == topicName.GetOr(brokerName)
  {
    if topicName.None? then Topic(brokerName, true) else Topic(topicName.value, false)
  }

  /** The destination the session is asked for: the queue type string is compared
      first, then the topic type string; any other type is unsupported. */
  function CreateDestination(obj: DestinationObj, names: DestinationTypeNames, brokerName: string)
    : (r: Result<Destination, string>)
    ensures r.Failure? <==> obj.destType != names.queue && obj.destType != names.topic
    ensures r.Failure? ==> r.error == UnsupportedTypeMessage
    ensures r.Success? && obj.destType == names.queue ==> r.value.Queue?
    ensures r.Success? && obj.destType != names.queue ==> r.value.Topic?
    ensures r.Success? ==> (obj.name.None? <==> r.value.temporary)
  {
    if obj.destType == names.queue then Success(CreateQueue(obj.name, brokerName))
    else if obj.destType == names.topic then Success(CreateTopic(obj.name, brokerName))
    else Failure(UnsupportedTypeMessage)
  }

  /** init as written: the destination is created and wrapped in a new Ballerina
      object, which is then discarded; the object init was called on is returned
      unchanged. `jmsFails` stands for the session refusing the request. */
  function InitAsWritten(obj: DestinationObj, names: DestinationTypeNames, brokerName: string, jmsFails: bool)
    : (r: Result<DestinationObj, string>)
    ensures r.Failure? <==> CreateDestination(obj, names, brokerName).Failure? || jmsFails
    ensures r.Failure? && CreateDestination(obj, names, brokerName).Failure? ==> r.error == UnsupportedTypeMessage
    ensures r.Failure? && CreateDestination(obj, names, brokerName).Success? ==> r.error == CreateFailedMessage
    ensures r.Success? ==> r == Success(obj)
  {
    var d := CreateDestination(obj, names, brokerName);
    if d.Failure? then Failure(d.error)
    else if jmsFails then Failure(CreateFailedMessage)
    else Success(obj)
  }

  /** init as evidently intended: the created destination is attached to the object
      init was called on, where the consumer and the producer look for it. */
  function InitIntended(obj: DestinationObj, names: DestinationTypeNames, brokerName: string, jmsFails: bool)
    : (r: Result<DestinationObj, string>)
    ensures r.Failure? <==> InitAsWritten(obj, names, brokerName, jmsFails).Failure?
    ensures r.Failure? ==> r.error == InitAsWritten(obj, names, brokerName, jmsFails).error
    ensures r.Success? ==> r.value.name == obj.name && r.value.destType == obj.destType
    ensures r.Success? ==> r.value.native == Some(CreateDestination(obj, names, brokerName).value)
  {
    var d := CreateDestination(obj, names, brokerName);
    if d.Failure? then Failure(d.error)
    else if jmsFails then Failure(CreateFailedMessage)
    else Success(obj.(native := Some(d.value)))
  }

  /** As written, a destination object that had no JMS destination still has none
      after a successful init. */
  lemma InitAsWrittenAttachesNothing(name: string, names: DestinationTypeNames, brokerName: string)
    ensures var obj := DestinationObj(Some(name), names.queue, None);
      InitAsWritten(obj, names, brokerName, false) == Success(obj)
  {
  }

  /** With the intended init, a named destination object carries a destination whose
      populated object has the same name and the same type string; so initialising
      that populated object again asks for the same destination (the two type
      strings being distinct). */
  lemma {:induction false} InitRoundTrip(obj: DestinationObj, names: DestinationTypeNames, brokerName: string)
    requires names.queue != names.topic
    requires obj.name.Some?
    requires InitIntended(obj, names, brokerName, false).Success?
    ensures var d := InitIntended(obj, names, brokerName, false).value.native.value;
      var p := PopulateAndGetDestinationObj(d, names);
      && p.Success? && p.value.name == obj.name && p.value.destType == obj.destType
      && CreateDestination(p.value, names, brokerName) == Success(d)
  {
    var d := CreateDestination(obj, names, brokerName).value;
    if obj.destType == names.queue {
      assert d == Queue(obj.name.value, false);
    } else {
      assert d == Topic(obj.name.value, false);
    }
  }
}
