/** The agent platform as the three agents see it: messages with conversation and correlation
    tags, message templates over an agent's queue, and directory search by service type. */
module Acl {
  import opened Wire

  /** An agent identity, by its local name (two identities are equal when their names are). */
  type Aid = string

  datatype Performative = Inform | Request

  datatype Message = Message(
    performative: Performative,
    sender: Aid,
    receivers: seq<Aid>,
    conversationId: string,
    content: Text,
    replyWith: Option<Text>,
    inReplyTo: Option<Text>)

  /** `m.createReply()` with the performative set to INFORM and the conversation id set to
      `conversationId`: addressed to the sender and in reply to its reply-with tag. */
  function ReplyTo(m: Message, self: Aid, conversationId: string, content: Text): Message
  {
    Message(Inform, self, [m.sender], conversationId, content, None, m.replyWith)
  }

  // ---------------------------------------------------------------------------------------
  // Directory

  /** A registration: who offers a service of which type. */
  datatype ServiceRecord = ServiceRecord(aid: Aid, serviceType: string)

  /** The directory's registrations, in registration order. */
  type Directory = seq<ServiceRecord>

  /** `DFService.search` by service type: every identity registered with that type, in
      registration order. */
  function Search(d: Directory, serviceType: string): (r: seq<Aid>)
    ensures |r| <= |d|
    ensures forall a :: a in r <==> exists k :: 0 <= k < |d| && d[k] == ServiceRecord(a, serviceType)
  {
    if d == [] then []
    else
      var last := d[|d| - 1];
      var rest := Search(d[..|d| - 1], serviceType);
      if last.serviceType == serviceType then rest + [last.aid] else rest
  }

  /** The identities other than `self`, in their order: the `!aid.equals(getAID())` filter. */
  function Without(s: seq<Aid>, self: Aid): (r: seq<Aid>)
    ensures |r| <= |s|
    ensures forall a :: a in r <==> a in s && a != self
  {
    if s == [] then []
    else
      var last := s[|s| - 1];
      var rest := Without(s[..|s| - 1], self);
      assert s == s[..|s| - 1] + [last];
      if last == self then rest else rest + [last]
  }

  // ---------------------------------------------------------------------------------------
  // Message queue

  /** A message template: `MatchConversationId(id)`, alone or `and`-ed with `MatchInReplyTo(tag)`. */
  datatype Template = Conversation(id: string) | ConversationInReplyTo(id: string, tag: Text)

  predicate Matches(t: Template, m: Message)
  {
    match t
    case Conversation(id) => m.conversationId == id
    case ConversationInReplyTo(id, tag) => m.conversationId == id && m.inReplyTo == Some(tag)
  }

  /** `receive(template)`: the position of the oldest queued message the template matches. */
  function FirstMatch(q: seq<Message>, t: Template): (k: Option<nat>)
    ensures k.Some? ==> k.value < |q| && Matches(t, q[k.value])
    ensures k.Some? ==> forall j :: 0 <= j < k.value ==> !Matches(t, q[j])
    ensures k.None? ==> forall j :: 0 <= j < |q| ==> !Matches(t, q[j])
  {
    if q == [] then None
    else if Matches(t, q[0]) then Some(0)
    else match FirstMatch(q[1..], t)
      case None => None
      case Some(j) => Some(j + 1)
  }

  /** The queue once the message at position `k` has been taken out. */
  function Remove(q: seq<Message>, k: nat): (r: seq<Message>)
    requires k < |q|
    ensures |r| == |q| - 1
    ensures forall j :: 0 <= j < k ==> r[j] == q[j]
    ensures forall j :: k <= j < |r| ==> r[j] == q[j + 1]
  {
    q[..k] + q[k + 1..]
  }

  /** How many of the messages belong to a conversation. */
  function CountConversation(ms: seq<Message>, conversationId: string): nat
  {
    if ms == [] then 0
    else CountConversation(ms[..|ms| - 1], conversationId) + (if ms[|ms| - 1].conversationId == conversationId then 1 else 0)
  }

  lemma {:induction false} CountConversationAppend(a: seq<Message>, b: seq<Message>, conversationId: string)
    ensures CountConversation(a + b, conversationId) == CountConversation(a, conversationId) + CountConversation(b, conversationId)
    decreases |b|
  {
    if b == [] {
      assert a + b == a;
    } else {
      assert (a + b)[..|a + b| - 1] == a + b[..|b| - 1];
      CountConversationAppend(a, b[..|b| - 1], conversationId);
    }
  }
}
