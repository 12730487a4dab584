/** The wake rule of the coordination store: which room message wakes a recipient. */
module WakeRule {
  import opened Text

  /** A coordination message, as far as waking, the loop guard and delivery read it. `intent`
      and `kind` are trimmed; an instant is an integer; `expiresAt` is None when it is empty or
      unreadable, `createdAt` when it is unreadable. */
  datatype Message = Message(
    id: nat, sender: string, human: bool, intent: string, kind: string, replyTo: nat,
    expired: bool, expiresAt: Option<int>, createdAt: Option<int>, body: string)

  datatype RoomKind = Direct | Group | Project | Machine | OtherKind

  datatype Parent = NotOwn | OwnRequest | OwnOther

  const ACK := "ack"

  predicate Own(self: string, m: Message)
  {
    m.sender == self || HasPrefix(m.sender, self + "/")
  }

  predicate Expired(m: Message, now: int)
  {
    m.expired || (m.expiresAt.Some? && m.expiresAt.value <= now)
  }

  predicate NeedsMentions(kind: RoomKind) { kind.Project? || kind.Machine? }

  predicate Attention(m: Message)
  {
    m.intent == "question" || m.intent == "approval" || m.intent == "blocker" || m.intent == "handoff"
  }

  predicate PlainAgentAck(kind: RoomKind, m: Message)
  {
    && (m.intent == ACK || m.kind == ACK)
    && (kind.Direct? || kind.Group?)
    && m.replyTo == 0 && !m.human && !Attention(m)
  }

  predicate WakeCandidate(self: string, kind: RoomKind, m: Message, now: int)
  {
    !Own(self, m) && !Expired(m, now) && !PlainAgentAck(kind, m) && !kind.OtherKind?
  }

  predicate PlainReply(m: Message, parent: Parent)
  {
    m.replyTo != 0 && parent == OwnOther && !Attention(m) && !m.human
  }

  predicate ShouldWake(self: string, kind: RoomKind, m: Message, mentions: seq<string>, parent: Parent, now: int)
  {
    && WakeCandidate(self, kind, m, now) && !PlainReply(m, parent)
    && (NeedsMentions(kind) ==> self in mentions)
  }

  /** What a reply answers, seen from its recipient. */
  function ClassifyParent(self: string, kind: RoomKind, parent: Message, replier: string, mentions: seq<string>): Parent
  {
    if !Own(self, parent) then NotOwn
    else if Attention(parent) then OwnRequest
    else if parent.replyTo == 0 && (!NeedsMentions(kind) || replier in mentions) then OwnRequest
    else OwnOther
  }

  /** The whole rule on complete knowledge: `parent` is the message m replies to, if the room
      has it, and `mentionsOf` what each message mentions. */
  ghost predicate Wakes(self: string, kind: RoomKind, m: Message, parent: Option<Message>,
                        mentionsOf: nat -> seq<string>, now: int)
  {
    var p := if m.replyTo != 0 && parent.Some?
             then ClassifyParent(self, kind, parent.value, m.sender, mentionsOf(parent.value.id))
             else NotOwn;
    ShouldWake(self, kind, m, mentionsOf(m.id), p, now)
  }

  /** A chain of answers ends: a reply without an intent, from an agent, to a reply without an
      intent wakes nobody, whatever it mentions. */
  lemma ChainEnds(self: string, kind: RoomKind, m: Message, parent: Message, mentionsOf: nat -> seq<string>, now: int)
    requires m.replyTo == parent.id != 0 && !m.human && !Attention(m)
    requires Own(self, parent) && parent.replyTo != 0 && !Attention(parent)
    ensures !Wakes(self, kind, m, Some(parent), mentionsOf, now)
  {
  }

  /** The guard's own notice (an agent's ack that is no reply and mentions nobody) wakes nobody
      in any room. */
  lemma NoticeWakesNobody(self: string, kind: RoomKind, m: Message, parent: Option<Message>,
                          mentionsOf: nat -> seq<string>, now: int)
    requires m.intent == ACK && m.replyTo == 0 && !m.human && mentionsOf(m.id) == []
    ensures !Wakes(self, kind, m, parent, mentionsOf, now)
  {
    assert "ack"[0] != "question"[0] && |"ack"| != |"approval"| && |"ack"| != |"blocker"| && |"ack"| != |"handoff"|;
  }

  // ---- The rule, as it is documented ----

  /** Question, approval, blocker or handoff. */
  predicate Urgent(m: Message) { m.intent in {"question", "approval", "blocker", "handoff"} }

  /** A request to the one who answers it: urgent, or no answer itself and, where rooms have mentions,
      mentioning him. */
  predicate RequestTo(kind: RoomKind, m: Message, who: string, mentions: seq<string>)
  {
    Urgent(m) || (m.replyTo == 0 && (kind.Direct? || kind.Group? || who in mentions))
  }

  predicate SentBy(self: string, m: Message) { m.sender == self || self + "/" <= m.sender }

  /** It may wake although it is an agent's and not urgent: no bare acknowledgement, and if it answers
      a message of the recipient, that was a request to its sender. */
  predicate Meant(self: string, kind: RoomKind, m: Message, parent: Option<Message>, mentionsOf: nat -> seq<string>)
  {
    if m.replyTo == 0 then !((kind.Direct? || kind.Group?) && (m.intent == "ack" || m.kind == "ack"))
    else parent.Some? && SentBy(self, parent.value) ==> RequestTo(kind, parent.value, m.sender, mentionsOf(parent.value.id))
  }

  /** Who is woken, exactly: the recipient of somebody else's message in a known room that has not
      expired, mentions him where that is needed, and is from a human, urgent or meant for him. */
  lemma WakesExactly(self: string, kind: RoomKind, m: Message, parent: Option<Message>, mentionsOf: nat -> seq<string>, now: int)
    ensures Wakes(self, kind, m, parent, mentionsOf, now) <==>
              && !kind.OtherKind? && !SentBy(self, m)
              && !m.expired && (m.expiresAt.Some? ==> now < m.expiresAt.value)
              && (kind.Project? || kind.Machine? ==> self in mentionsOf(m.id))
              && (m.human || Urgent(m) || Meant(self, kind, m, parent, mentionsOf))
  {
    OwnIsSent(self, m);
    if parent.Some? {
      OwnIsSent(self, parent.value);
    }
  }

  lemma OwnIsSent(self: string, m: Message)
    ensures Own(self, m) <==> SentBy(self, m)
  {
  }
}
