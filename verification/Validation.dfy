/** The creation rules shared by the single and the batch endpoint. */
module Validation {
  import opened Domain

  /** A request as it arrives: channel and priority are still text. */
  datatype Params = Params(
    recipient: string,
    channel: string,
    content: string,
    priority: string,
    scheduledAt: Option<Time>,
    key: Option<string>,
    batch: Option<Id>)

  datatype Field = Recipient | ChannelField | Content | PriorityField | KeyField | ScheduledAtField

  /** unicode.IsSpace */
  predicate IsSpace(c: char) {
    var u := c as int;
    || 0x9 <= u <= 0xD || u == 0x20 || u == 0x85 || u == 0xA0 || u == 0x1680 || 0x2000 <= u <= 0x200A
    || u == 0x2028 || u == 0x2029 || u == 0x202F || u == 0x205F || u == 0x3000
  }

  predicate Blank(s: string) { forall c | c in s :: IsSpace(c) }

  /** strings.TrimSpace */
  function TrimSpace(s: string): string { TrimRight(TrimLeft(s)) }

  function TrimLeft(s: string): string { if s != [] && IsSpace(s[0]) then TrimLeft(s[1..]) else s }

  function TrimRight(s: string): string {
    if s != [] && IsSpace(s[|s| - 1]) then TrimRight(s[..|s| - 1]) else s
  }

  /** Nothing is left after trimming exactly when there is nothing but space. */
  lemma TrimmedAwayIff(s: string)
    ensures TrimSpace(s) == "" <==> Blank(s)
  {
    LeftIsBlank(s);
    RightIsBlank(TrimLeft(s));
  }

  lemma {:induction false} LeftIsBlank(s: string)
    ensures Blank(TrimLeft(s)) <==> Blank(s)
  {
    if s != [] && IsSpace(s[0]) {
      LeftIsBlank(s[1..]);
      assert s == [s[0]] + s[1..];
    }
  }

  lemma {:induction false} RightIsBlank(s: string)
    ensures TrimRight(s) == "" <==> Blank(s)
  {
    if s != [] {
      assert s == s[..|s| - 1] + [s[|s| - 1]];
      if IsSpace(s[|s| - 1]) { RightIsBlank(s[..|s| - 1]); } else { assert s[|s| - 1] in s; }
    }
  }

  /** Length in UTF-8 bytes, which is what len counts; content limits count characters. */
  function ByteLength(s: string): nat {
    if s == [] then 0
    else
      var u := s[0] as int;
      (if u < 0x80 then 1 else if u < 0x800 then 2 else if u < 0x10000 then 3 else 4) + ByteLength(s[1..])
  }

  /** The 25 characters that count as white space. */
  lemma SpacesAre(c: char)
    ensures IsSpace(c) <==> c as int in {
              0x9, 0xA, 0xB, 0xC, 0xD, 0x20, 0x85, 0xA0, 0x1680, 0x2000, 0x2001, 0x2002, 0x2003, 0x2004, 0x2005, 0x2006,
              0x2007, 0x2008, 0x2009, 0x200A, 0x2028, 0x2029, 0x202F, 0x205F, 0x3000}
  {
  }

  /** Each character takes one to four bytes, by its code point; a text takes as many bytes as it has
      characters exactly when it is ASCII. */
  lemma {:induction false} BytesOfCharacters(s: string, c: char)
    ensures ByteLength(s + [c]) == ByteLength(s) +
              if c as int < 128 then 1 else if c as int < 2048 then 2 else if c as int < 65536 then 3 else 4
    ensures ByteLength(s) >= |s| && (ByteLength(s) == |s| <==> forall x | x in s :: x as int < 128)
  {
    if s == [] {
      assert [c][1..] == [];
    } else {
      BytesOfCharacters(s[1..], c);
      assert (s + [c])[1..] == s[1..] + [c];
      assert s == [s[0]] + s[1..] && s[0] in s;
      if forall x | x in s[1..] :: x as int < 128 {
        assert s[0] as int < 128 ==> forall x | x in s :: x as int < 128;
      } else {
        var x :| x in s[1..] && x as int >= 128;
        assert x in s;
      }
    }
  }

  function ParseChannel(s: string): Option<Channel> {
    if s == "sms" then Some(Sms) else if s == "email" then Some(Email) else if s == "push" then Some(Push) else None
  }

  function ParsePriority(s: string): Option<Priority> {
    if s == "" || s == "normal" then Some(Normal)
    else if s == "high" then Some(High) else if s == "low" then Some(Low) else None
  }

  function ContentLimit(c: Channel): nat { match c case Sms => 160 case Push => 512 case Email => 10000 }

  const MAX_RECIPIENT := 320

  /** The rule each field is held to. */
  predicate Breaks(p: Params, now: Time, f: Field) {
    match f
    case Recipient => Blank(p.recipient) || ByteLength(p.recipient) > MAX_RECIPIENT
    case ChannelField => ParseChannel(p.channel).None?
    case Content =>
      Blank(p.content) || (ParseChannel(p.channel).Some? && |p.content| > ContentLimit(ParseChannel(p.channel).value))
    case PriorityField => ParsePriority(p.priority).None?
    case KeyField => p.key.Some? && Blank(p.key.value)
    case ScheduledAtField => p.scheduledAt.Some? && p.scheduledAt.value <= now
  }

  datatype FieldError = FieldError(field: Field, message: string)

  function Decimal(n: nat): string {
    (if n < 10 then "" else Decimal(n / 10)) + [('0' as int + n % 10) as char]
  }

  /** What the client is told about a field that breaks its rule. */
  function MessageFor(p: Params, f: Field): string {
    match f
    case Recipient =>
      if Blank(p.recipient) then "is required" else "must be at most " + Decimal(MAX_RECIPIENT) + " characters"
    case ChannelField => "must be one of: sms, email, push"
    case Content =>
      if Blank(p.content) || ParseChannel(p.channel).None? then "is required"
      else
        "exceeds " + Decimal(ContentLimit(ParseChannel(p.channel).value)) + " character limit for channel " + p.channel
    case PriorityField => "must be one of: high, normal, low"
    case KeyField => "must not be blank when provided"
    case ScheduledAtField => "must be in the future"
  }

  /** The order in which the rules are checked. */
  function Rank(f: Field): nat {
    match f
    case Recipient => 0
    case ChannelField => 1
    case Content => 2
    case PriorityField => 3
    case KeyField => 4
    case ScheduledAtField => 5
  }

  const RULES := 6

  ghost predicate Names(errs: seq<FieldError>, f: Field) { exists e :: e in errs && e.field == f }

  ghost predicate InOrder(errs: seq<FieldError>) {
    forall i, j | 0 <= i < j < |errs| :: Rank(errs[i].field) < Rank(errs[j].field)
  }

  /** Of the first n rules: every broken one is named once, in order, with its message, and no other. */
  ghost predicate Reports(errs: seq<FieldError>, p: Params, now: Time, n: nat) {
    && (forall f :: Names(errs, f) <==> Rank(f) < n && Breaks(p, now, f))
    && (forall e | e in errs :: e.message == MessageFor(p, e.field))
    && InOrder(errs)
  }

  lemma ReportsOneMore(errs: seq<FieldError>, p: Params, now: Time, f: Field)
    requires Reports(errs, p, now, Rank(f))
    ensures Reports(if Breaks(p, now, f) then errs + [FieldError(f, MessageFor(p, f))] else errs, p, now, Rank(f) + 1)
  {
    var e := FieldError(f, MessageFor(p, f));
    hide Breaks, MessageFor, InOrder;
    NamesOneMore(errs, e);
    LastInOrder(errs, e);
    assert forall g :: Rank(g) == Rank(f) <==> g == f;
    hide Names, Rank;
  }

  lemma NamesOneMore(errs: seq<FieldError>, e: FieldError)
    ensures forall f :: Names(errs + [e], f) <==> Names(errs, f) || e.field == f
  {
    assert e in errs + [e];
    forall f ensures Names(errs + [e], f) <==> Names(errs, f) || e.field == f {
      if x :| x in errs && x.field == f { assert x in errs + [e]; }
    }
  }

  lemma LastInOrder(errs: seq<FieldError>, e: FieldError)
    requires InOrder(errs)
    ensures (forall f | Names(errs, f) :: Rank(f) < Rank(e.field)) ==> InOrder(errs + [e])
  {
    if forall f | Names(errs, f) :: Rank(f) < Rank(e.field) {
      forall i | 0 <= i < |errs| ensures Rank(errs[i].field) < Rank(e.field) {
        assert errs[i] in errs && Names(errs, errs[i].field);
      }
    }
  }

  lemma LimitsAsText()
    ensures Decimal(160) == "160" && Decimal(320) == "320" && Decimal(512) == "512" && Decimal(10000) == "10000"
  {
    assert Decimal(1) == "1" && Decimal(3) == "3" && Decimal(5) == "5";
    assert Decimal(16) == "16" && Decimal(32) == "32" && Decimal(51) == "51" && Decimal(10) == "10";
    assert Decimal(100) == "100" && Decimal(1000) == "1000";
  }

  /** Which fields a complete report names. */
  lemma ReportNames(errs: seq<FieldError>, p: Params, now: Time)
    requires Reports(errs, p, now, RULES)
    ensures (exists e :: e in errs && e.field == Recipient) <==> Blank(p.recipient) || ByteLength(p.recipient) > 320
    ensures (exists e :: e in errs && e.field == ChannelField) <==>
              p.channel != "sms" && p.channel != "email" && p.channel != "push"
    ensures (exists e :: e in errs && e.field == Content) <==>
              || Blank(p.content) || (p.channel == "sms" && |p.content| > 160)
              || (p.channel == "push" && |p.content| > 512) || (p.channel == "email" && |p.content| > 10000)
    ensures (exists e :: e in errs && e.field == PriorityField) <==>
              p.priority != "" && p.priority != "high" && p.priority != "normal" && p.priority != "low"
    ensures (exists e :: e in errs && e.field == KeyField) <==> p.key.Some? && Blank(p.key.value)
    ensures (exists e :: e in errs && e.field == ScheduledAtField) <==>
              p.scheduledAt.Some? && p.scheduledAt.value <= now
  {
    hide Reports, Names, Blank, ByteLength;
    IsNamed(errs, p, now, Recipient);
    IsNamed(errs, p, now, ChannelField);
    IsNamed(errs, p, now, Content);
    IsNamed(errs, p, now, PriorityField);
    IsNamed(errs, p, now, KeyField);
    IsNamed(errs, p, now, ScheduledAtField);
  }

  lemma IsNamed(errs: seq<FieldError>, p: Params, now: Time, f: Field)
    requires Reports(errs, p, now, RULES)
    ensures (exists e :: e in errs && e.field == f) <==> Breaks(p, now, f)
  {
    assert Names(errs, f) <==> Rank(f) < RULES && Breaks(p, now, f);
    hide Breaks;
  }

  /** What it says of them. */
  lemma ReportSays(errs: seq<FieldError>, p: Params, now: Time, e: FieldError)
    requires Reports(errs, p, now, RULES) && e in errs
    ensures e.message ==
              match e.field
              case Recipient => if Blank(p.recipient) then "is required" else "must be at most " + "320" + " characters"
              case ChannelField => "must be one of: sms, email, push"
              case Content =>
                if Blank(p.content) then "is required"
                else "exceeds " + (if p.channel == "sms" then "160" else if p.channel == "push" then "512" else "10000")
                     + " character limit for channel " + p.channel
              case PriorityField => "must be one of: high, normal, low"
              case KeyField => "must not be blank when provided"
              case ScheduledAtField => "must be in the future"
  {
    assert Names(errs, e.field) && Breaks(p, now, e.field) && e.message == MessageFor(p, e.field);
    hide Names, Blank, ByteLength, Decimal;
    LimitsAsText();
  }

  /** And in which order: each field once, in the order of the rules. */
  lemma ReportOrder(errs: seq<FieldError>, p: Params, now: Time, i: nat, j: nat)
    requires Reports(errs, p, now, RULES) && i < j < |errs|
    ensures errs[i].field == ChannelField ==> errs[j].field !in {Recipient, ChannelField}
    ensures errs[i].field == Content ==> errs[j].field in {PriorityField, KeyField, ScheduledAtField}
    ensures errs[i].field == PriorityField ==> errs[j].field in {KeyField, ScheduledAtField}
    ensures errs[i].field == KeyField ==> errs[j].field == ScheduledAtField
    ensures errs[i].field != ScheduledAtField && errs[j].field != Recipient
  {
    assert Rank(errs[i].field) < Rank(errs[j].field);
  }

  ghost predicate Invalid(p: Params, now: Time) { exists f :: Breaks(p, now, f) }

  /** The draft carries the request's fields, with the default priority filled in. */
  predicate Carries(d: Draft, p: Params, id: Id, now: Time) {
    && d.id == id && d.batch == p.batch && d.key == p.key && d.recipient == p.recipient && d.content == p.content
    && Some(d.channel) == ParseChannel(p.channel) && Some(d.priority) == ParsePriority(p.priority)
    && d.scheduledAt == p.scheduledAt && d.createdAt == now
  }

  /** What a draft has of the request's text. */
  lemma DraftIs(d: Draft, p: Params, id: Id, now: Time)
    requires Carries(d, p, id, now)
    ensures d.id == id && d.createdAt == now && d.batch == p.batch && d.key == p.key
    ensures d.recipient == p.recipient && d.content == p.content && d.scheduledAt == p.scheduledAt
    ensures p.channel == match d.channel case Sms => "sms" case Email => "email" case Push => "push"
    ensures d.priority == High <==> p.priority == "high"
    ensures d.priority == Low <==> p.priority == "low"
    ensures d.priority == Normal <==> p.priority == "" || p.priority == "normal"
  {
  }

  /** Builds the notification when no rule is broken, and otherwise names every broken one and no
      other. */
  method NewNotification(p: Params, id: Id, now: Time) returns (draft: Option<Draft>, errs: seq<FieldError>)
    ensures Reports(errs, p, now, RULES)
    ensures draft.None? <==> Invalid(p, now)
    ensures draft.Some? ==> Carries(draft.value, p, id, now) && DueOrScheduled(draft.value, now)
    // in the words of the request
    ensures draft.None? <==> errs != []
    ensures draft.Some? ==>
      && draft.value.id == id && draft.value.createdAt == now && draft.value.batch == p.batch
      && draft.value.key == p.key && draft.value.recipient == p.recipient && draft.value.content == p.content
      && draft.value.scheduledAt == p.scheduledAt && (p.scheduledAt.Some? ==> now < p.scheduledAt.value)
      && p.channel == (match draft.value.channel case Sms => "sms" case Email => "email" case Push => "push")
      && (draft.value.priority == High <==> p.priority == "high")
      && (draft.value.priority == Low <==> p.priority == "low")
      && (draft.value.priority == Normal <==> p.priority == "" || p.priority == "normal")
  {
    hide Blank, ByteLength, ParseChannel, ParsePriority, ContentLimit, Decimal, Reports;
    errs := [];
    assert Reports([], p, now, 0) by { NothingReported(p, now); }
    ReportsOneMore(errs, p, now, Recipient);
    if Blank(p.recipient) {
      errs := errs + [FieldError(Recipient, "is required")];
    } else if ByteLength(p.recipient) > MAX_RECIPIENT {
      errs := errs + [FieldError(Recipient, "must be at most " + Decimal(MAX_RECIPIENT) + " characters")];
    }
    ReportsOneMore(errs, p, now, ChannelField);
    var channel := ParseChannel(p.channel);
    if channel.None? {
      errs := errs + [FieldError(ChannelField, "must be one of: sms, email, push")];
    }
    ReportsOneMore(errs, p, now, Content);
    if Blank(p.content) {
      errs := errs + [FieldError(Content, "is required")];
    } else if channel.Some? && |p.content| > ContentLimit(channel.value) {
      errs := errs + [FieldError(Content, "exceeds " + Decimal(ContentLimit(channel.value))
                                          + " character limit for channel " + p.channel)];
    }
    ReportsOneMore(errs, p, now, PriorityField);
    var priority := ParsePriority(p.priority);
    if priority.None? {
      errs := errs + [FieldError(PriorityField, "must be one of: high, normal, low")];
    }
    ReportsOneMore(errs, p, now, KeyField);
    if p.key.Some? && Blank(p.key.value) {
      errs := errs + [FieldError(KeyField, "must not be blank when provided")];
    }
    ReportsOneMore(errs, p, now, ScheduledAtField);
    if p.scheduledAt.Some? && !(p.scheduledAt.value > now) {
      errs := errs + [FieldError(ScheduledAtField, "must be in the future")];
    }
    ReportsAll(errs, p, now);
    if |errs| > 0 { return None, errs; }
    assert forall f :: !Breaks(p, now, f);
    assert !Breaks(p, now, ChannelField) && !Breaks(p, now, PriorityField) && !Breaks(p, now, ScheduledAtField);
    draft := Some(Draft(id, p.batch, p.key, p.recipient, channel.value, p.content, priority.value, p.scheduledAt, now));
    DraftIs(draft.value, p, id, now);
  }

  lemma NothingReported(p: Params, now: Time)
    ensures Reports([], p, now, 0)
  {
  }

  /** A complete report is empty exactly for a valid request. */
  lemma ReportsAll(errs: seq<FieldError>, p: Params, now: Time)
    requires Reports(errs, p, now, RULES)
    ensures errs == [] <==> !Invalid(p, now)
  {
    hide Breaks, MessageFor;
    if errs != [] {
      assert errs[0] in errs && Names(errs, errs[0].field);
      assert Breaks(p, now, errs[0].field);
    }
  }

  /** A new notification is pending and due at once, or scheduled for later than its creation. */
  predicate DueOrScheduled(d: Draft, now: Time) {
    && d.createdAt == now
    && if InitialStatus(d) == Scheduled then d.scheduledAt.Some? && d.scheduledAt.value > now else DueBy(d, now)
  }
}
