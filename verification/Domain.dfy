/** The notification entity: its immutable columns, its status alphabet, the message that
    carries it through Kafka and the topics that message is written to. */
module Domain {

  type Time = int
  type Id = nat

  datatype Option<+T> = None | Some(value: T)

  datatype Channel = Sms | Email | Push

  datatype Priority = High | Normal | Low

  datatype Status = Pending | Queued | Processing | Sent | Dead | Cancelled | Scheduled

  /** The columns an INSERT writes and no UPDATE ever names. */
  datatype Draft = Draft(
    id: Id,
    batch: Option<Id>,
    key: Option<string>,
    recipient: string,
    channel: Channel,
    content: string,
    priority: Priority,
    scheduledAt: Option<Time>,
    createdAt: Time)

  /** One row of the notifications table: a draft and the columns that change. */
  datatype Row = Row(
    draft: Draft,
    status: Status,
    attempts: nat,
    lastError: Option<string>,
    providerId: Option<string>,
    updatedAt: Time,
    sentAt: Option<Time>)
  {
    /** Whether another request carries the same business content. */
    predicate SamePayload(recipient: string, channel: Channel, content: string) {
      draft.recipient == recipient && draft.channel == channel && draft.content == content
    }
  }

  /** The wire format: self-contained, so the worker never reads the row back. */
  datatype Message = Message(
    id: Id, recipient: string, channel: Channel, content: string, priority: Priority, createdAt: Time)

  /** A message together with the topic it was written to. */
  datatype Record = Record(topic: string, msg: Message)

  predicate Terminal(st: Status) { st == Sent || st == Dead || st == Cancelled }

  /** Past 'pending' and 'scheduled', and not cancelled. */
  predicate Launched(st: Status) { st == Queued || Taken(st) }

  /** Some worker's claim led here. */
  predicate Taken(st: Status) { st == Processing || st == Sent || st == Dead }

  predicate Claimable(st: Status) { st == Queued || st == Pending }

  predicate Cancellable(st: Status) { st == Pending || st == Queued || st == Scheduled }

  /** A notification without a schedule is due at once. */
  predicate DueBy(d: Draft, now: Time) { d.scheduledAt.Some? ==> d.scheduledAt.value <= now }

  /** A future time switches the initial status to scheduled. */
  function InitialStatus(d: Draft): Status {
    if d.scheduledAt.Some? then Scheduled else Pending
  }

  function ChannelName(c: Channel): string {
    match c case Sms => "sms" case Email => "email" case Push => "push"
  }

  function PriorityName(p: Priority): string {
    match p case High => "high" case Normal => "normal" case Low => "low"
  }

  function TopicFor(c: Channel, p: Priority): string { ChannelName(c) + "." + PriorityName(p) }

  function DlqTopic(c: Channel): string { ChannelName(c) + ".dlq" }

  function MessageOf(d: Draft): Message {
    Message(d.id, d.recipient, d.channel, d.content, d.priority, d.createdAt)
  }

  function RecordOf(d: Draft): Record { Record(TopicFor(d.channel, d.priority), MessageOf(d)) }

  function EnvelopeOf(d: Draft): Record { Record(DlqTopic(d.channel), MessageOf(d)) }

  /** What goes over the wire for a notification, and where to. */
  lemma WireFormat(d: Draft)
    ensures RecordOf(d).msg.id == d.id && RecordOf(d).msg.recipient == d.recipient
    ensures RecordOf(d).msg.channel == d.channel && RecordOf(d).msg.content == d.content
    ensures RecordOf(d).msg.priority == d.priority && RecordOf(d).msg.createdAt == d.createdAt
    ensures RecordOf(d).topic == (match d.channel case Sms => "sms" case Email => "email" case Push => "push") + "."
                                 + match d.priority case High => "high" case Normal => "normal" case Low => "low"
    ensures EnvelopeOf(d).topic ==
              (match d.channel case Sms => "sms" case Email => "email" case Push => "push") + ".dlq"
    ensures EnvelopeOf(d).msg == RecordOf(d).msg == MessageOf(d)
  {
  }

  /** A work topic determines its channel and priority, and is never a dead-letter topic. */
  lemma TopicsAreDistinct(c: Channel, p: Priority, c': Channel, p': Priority)
    ensures TopicFor(c, p) == TopicFor(c', p') <==> c == c' && p == p'
    ensures DlqTopic(c) == DlqTopic(c') <==> c == c'
    ensures TopicFor(c, p) != DlqTopic(c')
  {
    ChannelPrefix(c, "." + PriorityName(p), c', "." + PriorityName(p'));
    ChannelPrefix(c, ".dlq", c', ".dlq");
    ChannelPrefix(c, "." + PriorityName(p), c', ".dlq");
    assert ("." + PriorityName(p))[1] == PriorityName(p)[0];
    assert ("." + PriorityName(p'))[1] == PriorityName(p')[0];
    assert TopicFor(c, p) == ChannelName(c) + ("." + PriorityName(p));
    assert TopicFor(c', p') == ChannelName(c') + ("." + PriorityName(p'));
  }

  /** Channel names differ in their first letter, so they can be cancelled from both sides. */
  lemma ChannelPrefix(c: Channel, x: string, c': Channel, y: string)
    ensures ChannelName(c) + x == ChannelName(c') + y ==> c == c' && x == y
  {
    var a, b := ChannelName(c) + x, ChannelName(c') + y;
    assert a[0] == ChannelName(c)[0] && b[0] == ChannelName(c')[0];
    if a == b {
      assert x == a[|ChannelName(c)|..] && y == b[|ChannelName(c')|..];
    }
  }
}
