/** Initialising a JMS message consumer (externimpl/consumer/Init.java): the
    destination and the consumer configuration choose one of the session's four
    consumer factories. The session is outside this model; the call chosen is the
    result, and `jmsFails` stands for the session refusing it. */
module JmsConsumers {
  import opened Wrappers
  import opened JmsUtil
  import JmsDestinations

  /** The session call made, with the arguments passed to it. `noLocal` is `None`
      for the two-argument `createConsumer`, which has no such parameter. */
  datatype ConsumerCall =
    | CreateConsumer(destination: Option<Destination>, selector: Option<string>, noLocal: Option<bool>)
    | CreateSharedConsumer(topic: Destination, sharedName: Option<string>, selector: Option<string>)
    | CreateDurableConsumer(topic: Destination, durableId: Option<string>, selector: Option<string>, localOnly: bool)
    | CreateSharedDurableConsumer(topic: Destination, durableId: Option<string>, selector: Option<string>)

  /** The consumer part of the configuration record. */
  datatype ConsumerConfig = ConsumerConfig(
    destination: DestinationObj, messageSelector: Option<string>, noLocal: bool,
    durableId: Option<string>, sharedSubscriptionName: Option<string>)

  /** The consumer factory chosen for a configuration. For a topic, a blank durable
      id and a blank shared name give a plain consumer, a shared name alone a shared
      one, a durable id alone a durable one and both a shared durable one; any other
      destination (including none) gets a plain consumer without `noLocal`. */
  function ConsumerFor(c: ConsumerConfig): (r: ConsumerCall)
    ensures c.destination.native.Some? && c.destination.native.value.Topic? ==>
      (r.CreateConsumer? <==> IsNullOrEmptyAfterTrim(c.durableId) && IsNullOrEmptyAfterTrim(c.sharedSubscriptionName))
      && (r.CreateSharedConsumer? <==> IsNullOrEmptyAfterTrim(c.durableId) && !IsNullOrEmptyAfterTrim(c.sharedSubscriptionName))
      && (r.CreateDurableConsumer? <==> !IsNullOrEmptyAfterTrim(c.durableId) && IsNullOrEmptyAfterTrim(c.sharedSubscriptionName))
      && (r.CreateSharedDurableConsumer? <==> !IsNullOrEmptyAfterTrim(c.durableId) && !IsNullOrEmptyAfterTrim(c.sharedSubscriptionName))
    ensures !(c.destination.native.Some? && c.destination.native.value.Topic?) ==>
      r == CreateConsumer(c.destination.native, c.messageSelector, None)
    ensures r.CreateConsumer? && r.noLocal.Some? ==> r.noLocal.value == c.noLocal
    ensures r.CreateDurableConsumer? ==> r.localOnly == c.noLocal
    ensures r.CreateSharedConsumer? ==> r.sharedName == c.sharedSubscriptionName
    ensures r.CreateDurableConsumer? || r.CreateSharedDurableConsumer? ==> r.durableId == c.durableId
    ensures !r.CreateConsumer? ==> Some(r.topic) == c.destination.native && r.selector == c.messageSelector
    ensures r.CreateConsumer? ==> r.destination == c.destination.native && r.selector == c.messageSelector
  {
    var destination := c.destination.native;
    if destination.Some? && destination.value.Topic? then
      if IsNullOrEmptyAfterTrim(c.durableId) && IsNullOrEmptyAfterTrim(c.sharedSubscriptionName) then
        CreateConsumer(destination, c.messageSelector, Some(c.noLocal))
      else if IsNullOrEmptyAfterTrim(c.durableId) then
        CreateSharedConsumer(destination.value, c.sharedSubscriptionName, c.messageSelector)
      else if IsNullOrEmptyAfterTrim(c.sharedSubscriptionName) then
        CreateDurableConsumer(destination.value, c.durableId, c.messageSelector, c.noLocal)
      else
        CreateSharedDurableConsumer(destination.value, c.durableId, c.messageSelector)
    else
      CreateConsumer(destination, c.messageSelector, None)
  }

  /** A subscription is only ever named by a name with a visible character: a shared
      consumer's shared name and a durable consumer's id are never blank, and a queue
      never gets a named subscription at all. */
  lemma {:induction false} SubscriptionNamesAreNotBlank(c: ConsumerConfig)
    ensures var r := ConsumerFor(c);
      && (r.CreateSharedConsumer? || r.CreateSharedDurableConsumer? ==> !IsNullOrEmptyAfterTrim(c.sharedSubscriptionName))
      && (r.CreateDurableConsumer? || r.CreateSharedDurableConsumer? ==>
            r.durableId.Some? && exists i | 0 <= i < |r.durableId.value| :: r.durableId.value[i] > ' ')
      && (c.destination.native.Some? && c.destination.native.value.Queue? ==> r.CreateConsumer?)
  {
    var r := ConsumerFor(c);
    if r.CreateDurableConsumer? || r.CreateSharedDurableConsumer? {
      assert !IsNullOrEmptyAfterTrim(c.durableId);
    }
  }

  /** `noLocal` reaches the session only for a plain or durable topic consumer. */
  lemma NoLocalOnlyForTopics(c: ConsumerConfig)
    ensures var r := ConsumerFor(c);
      (r.CreateConsumer? && r.noLocal.Some?) || r.CreateDurableConsumer? ==>
        c.destination.native.Some? && c.destination.native.value.Topic?
  {
  }

  /** init: the chosen consumer, or the error value when the session refuses it. */
  function Init(c: ConsumerConfig, jmsFails: bool): (r: Result<ConsumerCall, string>)
    ensures r.Failure? <==> jmsFails
    ensures r.Failure? ==> r.error == JmsDestinations.CreateFailedMessage
    ensures r.Success? ==> r.value == ConsumerFor(c)
  {
    if jmsFails then Failure(JmsDestinations.CreateFailedMessage) else Success(ConsumerFor(c))
  }

  /** A topic destination object initialised as the destination init is written
      carries no JMS destination, so a consumer configured on it is a plain consumer
      with no destination, whatever the durable and shared names say. */
  lemma {:induction false} ConsumerOnUninitialisedTopic(
    name: string, names: DestinationTypeNames, brokerName: string, selector: Option<string>,
    noLocal: bool, durableId: Option<string>, shared: Option<string>)
    ensures var obj := DestinationObj(Some(name), names.topic, None);
      var inited := JmsDestinations.InitAsWritten(obj, names, brokerName, false);
      && inited.Success?
      && ConsumerFor(ConsumerConfig(inited.value, selector, noLocal, durableId, shared))
         == CreateConsumer(None, selector, None)
  {
    var obj := DestinationObj(Some(name), names.topic, None);
    assert JmsDestinations.InitAsWritten(obj, names, brokerName, false) == Success(obj);
  }

  /** With the intended destination init, the same configuration reaches the topic
      factories: a durable id alone gives a durable consumer on the named topic. */
  lemma {:induction false} ConsumerOnInitialisedTopic(
    name: string, names: DestinationTypeNames, brokerName: string, selector: Option<string>,
    noLocal: bool, durableId: string)
    requires names.queue != names.topic
    requires exists i | 0 <= i < |durableId| :: durableId[i] > ' '
    ensures var obj := DestinationObj(Some(name), names.topic, None);
      var inited := JmsDestinations.InitIntended(obj, names, brokerName, false);
      && inited.Success?
      && ConsumerFor(ConsumerConfig(inited.value, selector, noLocal, Some(durableId), None))
         == CreateDurableConsumer(Topic(name, false), Some(durableId), selector, noLocal)
  {
    var obj := DestinationObj(Some(name), names.topic, None);
    assert JmsDestinations.CreateDestination(obj, names, brokerName) == Success(Topic(name, false));
    assert !IsNullOrEmptyAfterTrim(Some(durableId));
  }
}
