/** The notification engine: per-account low-balance thresholds (default 100.0), a bounded
    per-account history of at most ten records with the oldest evicted first, the threshold
    rule run on every replicated balance, and the set / get / clear queries. */
module Notification {
  import opened Wire
  import opened Acl

  const DefaultLowBalance: real := 100.0
  /** The most records kept per account. */
  const Capacity: nat := 10
  const GuiService := "gui-agent"

  /** A stored record: the time it was stored (rendered as a Date) and its text. */
  datatype Note = Note(at: int, text: Text)

  type Histories = map<Text, seq<Note>>

  /** `getOrDefault(accountId, DEFAULT_LOW_BALANCE)`: the account's own threshold if one was
      set, else the default. */
  function Threshold(thresholds: map<Text, real>, id: Text): (t: real)
    ensures id in thresholds ==> t == thresholds[id]
    ensures id !in thresholds ==> t == DefaultLowBalance
  {
    if id in thresholds then thresholds[id] else DefaultLowBalance
  }

  /** The records of an account, none when it has no list. */
  function HistoryOf(h: Histories, id: Text): seq<Note>
  {
    if id in h then h[id] else []
  }

  // ---------------------------------------------------------------------------------------
  // The bounded history

  /** One `storeNotification` on an account's list: append the record, and drop the first one
      when the list has grown past capacity. */
  function Push(h: seq<Note>, n: Note): (r: seq<Note>)
    ensures |h| <= Capacity ==> |r| <= Capacity
    ensures r != [] && r[|r| - 1] == n
    ensures |h| < Capacity ==> r == h + [n]
    ensures |h| == Capacity ==> r == h[1..] + [n]
  {
    var l := h + [n];
    if |l| > Capacity then l[1..] else l
  }

  /** The last `Capacity` records of a sequence, all of it when it is short enough. */
  function Newest(s: seq<Note>): (r: seq<Note>)
    ensures |r| <= Capacity
  {
    if |s| <= Capacity then s else s[|s| - Capacity..]
  }

  /** The records pushed one after another, in order. */
  function PushAll(h: seq<Note>, ns: seq<Note>): seq<Note>
  {
    if ns == [] then h else Push(PushAll(h, ns[..|ns| - 1]), ns[|ns| - 1])
  }

  lemma NewestPush(s: seq<Note>, n: Note)
    ensures Newest(Newest(s) + [n]) == Newest(s + [n])
  {
    if |s| > Capacity {
      assert Newest(s) + [n] == s[|s| - Capacity..] + [n];
      assert (s[|s| - Capacity..] + [n])[1..] == s[|s| + 1 - Capacity..] + [n];
      assert (s + [n])[|s| + 1 - Capacity..] == s[|s| + 1 - Capacity..] + [n];
    }
  }

  /** The history is a first-in first-out buffer: however many records are stored into a
      history that is within capacity, it holds exactly the newest ten of the old records
      followed by the new ones, in storing order; the oldest are the ones evicted. */
  lemma {:induction false} PushAllKeepsNewest(h: seq<Note>, ns: seq<Note>)
    requires |h| <= Capacity
    ensures PushAll(h, ns) == Newest(h + ns)
    decreases |ns|
  {
    if ns != [] {
      var front, n := ns[..|ns| - 1], ns[|ns| - 1];
      assert ns == front + [n];
      PushAllKeepsNewest(h, front);
      PushNewest(h + front, n);
      assert (h + front) + [n] == h + ns;
    }
  }

  lemma PushNewest(s: seq<Note>, n: Note)
    ensures Push(Newest(s), n) == Newest(s + [n])
  {
    assert Push(Newest(s), n) == Newest(Newest(s) + [n]);
    NewestPush(s, n);
  }

  /** Storing records for one account: nothing at all when there are none (the map gets no
      entry), else the account's list with each pushed in turn. */
  function Stored(h: Histories, id: Text, ns: seq<Note>): Histories
  {
    if ns == [] then h else h[id := PushAll(HistoryOf(h, id), ns)]
  }

  /** Storing some records and then one more is storing them all, in that order. */
  lemma StoredThen(h: Histories, id: Text, a: seq<Note>, b: Note)
    ensures Stored(Stored(h, id, a), id, [b]) == Stored(h, id, a + [b])
  {
    var s := HistoryOf(h, id);
    assert [b][..0] == [];
    if a == [] {
      assert a + [b] == [b];
    } else {
      assert HistoryOf(Stored(h, id, a), id) == PushAll(s, a);
      assert PushAll(PushAll(s, a), [b]) == Push(PushAll(s, a), b);
      assert (a + [b])[..|a|] == a;
      assert PushAll(s, a + [b]) == Push(PushAll(s, a), b);
    }
  }

  ghost predicate WithinCapacity(h: Histories)
  {
    forall id :: id in h ==> |h[id]| <= Capacity
  }

  /** Storing keeps every history within capacity and changes no other account. */
  lemma StoredWithinCapacity(h: Histories, id: Text, ns: seq<Note>)
    requires WithinCapacity(h)
    ensures WithinCapacity(Stored(h, id, ns))
    ensures forall other :: other != id ==> HistoryOf(Stored(h, id, ns), other) == HistoryOf(h, other)
  {
    if ns != [] {
      PushAllKeepsNewest(HistoryOf(h, id), ns);
    }
  }

  // ---------------------------------------------------------------------------------------
  // The threshold rule

  datatype Alert = LowBalance | ZeroBalance

  /** `checkAndNotify`'s decision: a low-balance alert when the balance is under the threshold,
      a zero-balance alert when it is exactly zero, both (low first) when both hold. */
  function AlertsFor(balance: real, threshold: real): (r: seq<Alert>)
    ensures LowBalance in r <==> balance < threshold
    ensures ZeroBalance in r <==> balance == 0.0
    ensures |r| <= 2
    ensures |r| == 2 ==> r == [LowBalance, ZeroBalance]
  {
    (if balance < threshold then [LowBalance] else []) + (if balance == 0.0 then [ZeroBalance] else [])
  }

  function AlertText(a: Alert, id: Text, balance: real, threshold: real): Text
  {
    match a
    case LowBalance =>
      Lit("Low balance alert for account ") + id + Lit(": ") + [TwoDp(balance)]
      + Lit(" (threshold: ") + [Dbl(threshold)] + Lit(")")
    case ZeroBalance => Lit("Account ") + id + Lit(" has zero balance")
  }

  /** The one-element sequence when `c` holds, else the empty one. */
  function When<T>(c: bool, x: T): seq<T>
  {
    if c then [x] else []
  }

  /** The records the threshold rule stores: one per alert, in alert order. */
  function AlertNotes(id: Text, balance: real, threshold: real, now: int): seq<Note>
  {
    When(balance < threshold, Note(now, AlertText(LowBalance, id, balance, threshold)))
    + When(balance == 0.0, Note(now, AlertText(ZeroBalance, id, balance, threshold)))
  }

  /** The stored records follow the alert rule: one per alert, in alert order. */
  lemma AlertNotesFollowAlerts(id: Text, balance: real, threshold: real, now: int)
    ensures var r, alerts := AlertNotes(id, balance, threshold, now), AlertsFor(balance, threshold);
      && |r| == |alerts|
      && forall i :: 0 <= i < |r| ==> r[i] == Note(now, AlertText(alerts[i], id, balance, threshold))
  {
  }

  /** A NOTIFICATION_ALERT to one GUI agent. */
  function AlertMessage(me: Aid, to: Aid, text: Text): Message
  {
    Message(Inform, me, [to], "NOTIFICATION_ALERT", text, None, None)
  }

  /** What `sendNotificationToGUI` sends for one alert: nothing without a GUI agent, else
      one NOTIFICATION_ALERT to the first GUI agent found. */
  function Forward(me: Aid, gui: seq<Aid>, text: Text): seq<Message>
  {
    if gui == [] then [] else [AlertMessage(me, gui[0], text)]
  }

  /** The alerts the threshold rule forwards, in alert order. */
  function AlertMessages(me: Aid, gui: seq<Aid>, id: Text, balance: real, threshold: real): seq<Message>
  {
    (if balance < threshold then Forward(me, gui, AlertText(LowBalance, id, balance, threshold)) else [])
    + (if balance == 0.0 then Forward(me, gui, AlertText(ZeroBalance, id, balance, threshold)) else [])
  }

  /** The forwarded alerts follow the alert rule: none without a GUI agent, else one per
      alert, in alert order, to the first GUI agent. */
  lemma AlertMessagesFollowAlerts(me: Aid, gui: seq<Aid>, id: Text, balance: real, threshold: real)
    ensures gui == [] ==> AlertMessages(me, gui, id, balance, threshold) == []
    ensures gui != [] ==> var r, alerts := AlertMessages(me, gui, id, balance, threshold), AlertsFor(balance, threshold);
      && |r| == |alerts|
      && forall i :: 0 <= i < |r| ==> r[i] == AlertMessage(me, gui[0], AlertText(alerts[i], id, balance, threshold))
  {
  }

  /** The threshold rule's two steps, one after the other, store and forward what
      `AlertNotes` and `AlertMessages` say. */
  lemma AlertsCompose(h: Histories, s: seq<Message>, me: Aid, gui: seq<Aid>, id: Text,
                      balance: real, threshold: real, now: int)
    ensures var low, zero := AlertText(LowBalance, id, balance, threshold), AlertText(ZeroBalance, id, balance, threshold);
      && Stored(Stored(h, id, When(balance < threshold, Note(now, low))), id, When(balance == 0.0, Note(now, zero)))
         == Stored(h, id, AlertNotes(id, balance, threshold, now))
      && (s + (if balance < threshold then Forward(me, gui, low) else []))
         + (if balance == 0.0 then Forward(me, gui, zero) else [])
         == s + AlertMessages(me, gui, id, balance, threshold)
  {
    var low, zero := AlertText(LowBalance, id, balance, threshold), AlertText(ZeroBalance, id, balance, threshold);
    var first := When(balance < threshold, Note(now, low));
    if balance == 0.0 {
      StoredThen(h, id, first, Note(now, zero));
    } else {
      assert AlertNotes(id, balance, threshold, now) == first;
    }
  }

  /** Two worked examples: with the default threshold a balance of 50 gives one low-balance
      alert; with threshold 40 a balance of 60 gives none; a zero balance gives both. */
  lemma ThresholdExamples(thresholds: map<Text, real>, id: Text)
    requires id !in thresholds
    ensures AlertsFor(50.0, Threshold(thresholds, id)) == [LowBalance]
    ensures AlertsFor(60.0, Threshold(thresholds[id := 40.0], id)) == []
    ensures AlertsFor(0.0, Threshold(thresholds, id)) == [LowBalance, ZeroBalance]
  {
  }

  // ---------------------------------------------------------------------------------------
  // Payloads

  /** The SYNC_ACCOUNT and SET_LOW_BALANCE_THRESHOLD reading: exactly two fields after
      `split(";")`, the second a number; None where the payload is ignored or the parse throws. */
  function TwoFields(content: Text): (r: Option<(Text, real)>)
    ensures |Split(content)| != 2 ==> r.None?
    ensures |Split(content)| == 2 && ParseNumber(Split(content)[1]).Some? ==> r.Some?
    ensures r.Some? ==> var parts := Split(content);
      |parts| == 2 && r.value.0 == parts[0] && ParseNumber(parts[1]) == Some(r.value.1)
  {
    var parts := Split(content);
    if |parts| != 2 then None
    else match ParseNumber(parts[1])
      case None => None
      case Some(x) => Some((parts[0], x))
  }

  /** The account a TRANSACTION_COMPLETE record is filed under: the first field, or "system"
      when that field is blank. */
  function TransactionAccount(content: Text): (id: Text)
    ensures Semi !in id
    ensures !IsBlank(FirstField(content)) ==> id == FirstField(content)
    ensures IsBlank(FirstField(content)) ==> id == Lit("system")
  {
    var first := FirstField(content);
    if IsBlank(first) then Lit("system") else first
  }

  // ---------------------------------------------------------------------------------------
  // The GET_NOTIFICATIONS listing

  function NoteLine(n: Note): Text
  {
    Lit("- ") + [Date(n.at)] + Lit(": ") + n.text + Lit("\n")
  }

  function Lines(ns: seq<Note>): Text
  {
    if ns == [] then [] else Lines(ns[..|ns| - 1]) + NoteLine(ns[|ns| - 1])
  }

  /** The reply to GET_NOTIFICATIONS: an explicit "none" text, or a header and one line per
      record. */
  function Listing(id: Text, ns: seq<Note>): Text
  {
    if ns == [] then Lit("No notifications for account ") + id
    else Lit("Notifications for ") + id + Lit(":\n") + Lines(ns)
  }

  /** The lines of a concatenation are the lines of each part, in order. */
  lemma {:induction false} LinesAppend(a: seq<Note>, b: seq<Note>)
    ensures Lines(a + b) == Lines(a) + Lines(b)
    decreases |b|
  {
    if b == [] {
      assert a + b == a;
    } else {
      var front, n := b[..|b| - 1], b[|b| - 1];
      assert (a + b)[..|a + b| - 1] == a + front;
      assert Lines(a + b) == Lines(a + front) + NoteLine(n);
      LinesAppend(a, front);
      assert (Lines(a) + Lines(front)) + NoteLine(n) == Lines(a) + (Lines(front) + NoteLine(n));
    }
  }

  /** The listing goes oldest first: its first line is the oldest record's, followed by the
      lines of the rest. */
  lemma LinesOldestFirst(ns: seq<Note>)
    requires ns != []
    ensures Lines(ns) == NoteLine(ns[0]) + Lines(ns[1..])
  {
    LinesAppend([ns[0]], ns[1..]);
    assert [ns[0]] + ns[1..] == ns;
    assert Lines([ns[0]]) == Lines([]) + NoteLine(ns[0]);
  }

  // ---------------------------------------------------------------------------------------
  // The agent

  class NotificationAgent {
    const aid: Aid
    var thresholds: map<Text, real>
    var notifications: Histories
    /** Every message the agent has sent, oldest first. */
    var sent: seq<Message>

    ghost predicate Valid()
      reads this
    {
      WithinCapacity(notifications)
    }

    constructor(aid: Aid)
      ensures Valid()
      ensures this.aid == aid && thresholds == map[] && notifications == map[] && sent == []
    {
      this.aid := aid;
      thresholds := map[];
      notifications := map[];
      sent := [];
    }

    /** `storeNotification`: `putIfAbsent`, append, and remove index 0 past capacity. */
    method StoreNotification(id: Text, text: Text, now: int)
      requires Valid()
      modifies this`notifications
      ensures Valid()
      ensures notifications == Stored(old(notifications), id, [Note(now, text)])
    {
      var list := if id in notifications then notifications[id] else [];
      list := list + [Note(now, text)];
      if |list| > Capacity {
        list := list[1..];
      }
      notifications := notifications[id := list];
      assert [Note(now, text)][..0] == [];
      assert PushAll(HistoryOf(old(notifications), id), [Note(now, text)])
          == Push(HistoryOf(old(notifications), id), Note(now, text));
    }

    /** `sendNotificationToGUI`: one message to the first GUI agent found, if any. */
    method SendNotificationToGui(kind: string, content: Text, gui: seq<Aid>)
      modifies this`sent
      ensures sent == old(sent) + (if gui == [] then [] else [Message(Inform, aid, [gui[0]], kind, content, None, None)])
      ensures kind == "NOTIFICATION_ALERT" ==> sent == old(sent) + Forward(aid, gui, content)
    {
      if |gui| > 0 {
        sent := sent + [Message(Inform, aid, [gui[0]], kind, content, None, None)];
      }
    }

    /** One alert of `checkAndNotify`: store the record, then forward it to the GUI. */
    method RaiseAlert(id: Text, text: Text, gui: seq<Aid>, now: int)
      requires Valid()
      modifies this`notifications, this`sent
      ensures Valid()
      ensures notifications == Stored(old(notifications), id, [Note(now, text)])
      ensures sent == old(sent) + Forward(aid, gui, text)
    {
      StoreNotification(id, text, now);
      SendNotificationToGui("NOTIFICATION_ALERT", text, gui);
    }

    /** `checkAndNotify`: store and forward the alerts the threshold rule gives. */
    method CheckAndNotify(id: Text, balance: real, gui: seq<Aid>, now: int)
      requires Valid()
      modifies this`notifications, this`sent
      ensures Valid()
      ensures notifications == Stored(old(notifications), id, AlertNotes(id, balance, Threshold(thresholds, id), now))
      ensures sent == old(sent) + AlertMessages(aid, gui, id, balance, Threshold(thresholds, id))
    {
      var threshold := Threshold(thresholds, id);
      var low := AlertText(LowBalance, id, balance, threshold);
      var zero := AlertText(ZeroBalance, id, balance, threshold);
      ghost var h0, s0 := notifications, sent;
      if balance < threshold {
        RaiseAlert(id, low, gui, now);
      }
      assert notifications == Stored(h0, id, When(balance < threshold, Note(now, low)));
      assert sent == s0 + (if balance < threshold then Forward(aid, gui, low) else []);
      ghost var h1, s1 := notifications, sent;
      if balance == 0.0 {
        RaiseAlert(id, zero, gui, now);
      }
      assert notifications == Stored(h1, id, When(balance == 0.0, Note(now, zero)));
      assert sent == s1 + (if balance == 0.0 then Forward(aid, gui, zero) else []);
      AlertsCompose(h0, s0, aid, gui, id, balance, threshold, now);
    }

    /** NotificationBehaviour: SYNC_ACCOUNT runs the threshold rule; TRANSACTION_COMPLETE and
        ACCOUNT_OPENED only store a record; anything else is left alone. `gui` is what the
        GUI search finds and `now` the clock. Thresholds never change here. */
    method OnEvent(m: Message, gui: seq<Aid>, now: int)
      requires Valid()
      modifies this`notifications, this`sent
      ensures Valid()
      ensures m.conversationId == "SYNC_ACCOUNT" ==>
        match TwoFields(m.content)
        case None => notifications == old(notifications) && sent == old(sent)
        case Some((id, balance)) =>
          && notifications == Stored(old(notifications), id, AlertNotes(id, balance, Threshold(thresholds, id), now))
          && sent == old(sent) + AlertMessages(aid, gui, id, balance, Threshold(thresholds, id))
      ensures m.conversationId == "TRANSACTION_COMPLETE" ==>
        && notifications == Stored(old(notifications), TransactionAccount(m.content),
                                   [Note(now, Lit("Transaction completed: ") + m.content)])
        && sent == old(sent)
      ensures m.conversationId == "ACCOUNT_OPENED" ==>
        && notifications == Stored(old(notifications), m.content,
                                   [Note(now, Lit("Account ") + m.content + Lit(" opened successfully"))])
        && sent == old(sent)
      ensures m.conversationId !in {"SYNC_ACCOUNT", "TRANSACTION_COMPLETE", "ACCOUNT_OPENED"} ==>
        notifications == old(notifications) && sent == old(sent)
    {
      if m.conversationId == "SYNC_ACCOUNT" {
        var parts := Split(m.content);
        if |parts| == 2 {
          var balance := ParseNumber(parts[1]);
          if balance.None? {
            return;  // the source throws on a balance it cannot parse
          }
          assert TwoFields(m.content) == Some((parts[0], balance.value));
          CheckAndNotify(parts[0], balance.value, gui, now);
        }
      } else if m.conversationId == "TRANSACTION_COMPLETE" {
        var id := Lit("system");
        var first := FirstField(m.content);
        if !IsBlank(first) {
          id := first;
        }
        StoreNotification(id, Lit("Transaction completed: ") + m.content, now);
      } else if m.conversationId == "ACCOUNT_OPENED" {
        StoreNotification(m.content, Lit("Account ") + m.content + Lit(" opened successfully"), now);
      }
    }

    /** The GET_NOTIFICATIONS reply text, built line by line as the StringBuilder does. */
    method BuildListing(id: Text, notes: seq<Note>) returns (content: Text)
      ensures content == Listing(id, notes)
    {
      if notes == [] {
        return Lit("No notifications for account ") + id;
      }
      var header := Lit("Notifications for ") + id + Lit(":\n");
      content := header;
      for i := 0 to |notes|
        invariant content == header + Lines(notes[..i])
      {
        assert notes[..i + 1][..i] == notes[..i];
        content := content + NoteLine(notes[i]);
      }
      assert notes[..|notes|] == notes;
    }

    /** SET_LOW_BALANCE_THRESHOLD: with exactly two fields, overwrite the threshold, store a
        confirmation and send it back as NOTIFICATION_INFO. */
    method SetThreshold(m: Message, now: int)
      requires Valid()
      modifies this`thresholds, this`notifications, this`sent
      ensures Valid()
      ensures match TwoFields(m.content)
        case None => thresholds == old(thresholds) && notifications == old(notifications) && sent == old(sent)
        case Some((id, value)) =>
          var confirmation := Lit("Set low balance threshold for ") + id + Lit(": ") + [Dbl(value)];
          && thresholds == old(thresholds)[id := value]
          && notifications == Stored(old(notifications), id, [Note(now, confirmation)])
          && sent == old(sent) + [ReplyTo(m, aid, "NOTIFICATION_INFO", confirmation)]
    {
      var parts := Split(m.content);
      if |parts| != 2 {
        return;
      }
      var value := ParseNumber(parts[1]);
      if value.None? {
        return;  // the source throws on a threshold it cannot parse
      }
      var id := parts[0];
      thresholds := thresholds[id := value.value];
      var confirmation := Lit("Set low balance threshold for ") + id + Lit(": ") + [Dbl(value.value)];
      StoreNotification(id, confirmation, now);
      sent := sent + [ReplyTo(m, aid, "NOTIFICATION_INFO", confirmation)];
    }

    /** GET_NOTIFICATIONS: reply with the account's listing, in reply to the request's tag;
        nothing stored changes. */
    method GetNotifications(m: Message)
      modifies this`sent
      ensures sent == old(sent) + [ReplyTo(m, aid, "NOTIFICATIONS_LIST", Listing(m.content, HistoryOf(notifications, m.content)))]
    {
      var notes := if m.content in notifications then notifications[m.content] else [];
      var content := BuildListing(m.content, notes);
      sent := sent + [Message(Inform, aid, [m.sender], "NOTIFICATIONS_LIST", content, None, m.replyWith)];
    }

    /** CLEAR_NOTIFICATIONS: drop that account's records and confirm; thresholds stay. */
    method ClearNotifications(m: Message)
      requires Valid()
      modifies this`notifications, this`sent
      ensures Valid()
      ensures notifications == old(notifications) - {m.content}
      ensures sent == old(sent) + [ReplyTo(m, aid, "NOTIFICATION_INFO", Lit("Cleared notifications for account ") + m.content)]
    {
      notifications := notifications - {m.content};
      sent := sent + [ReplyTo(m, aid, "NOTIFICATION_INFO", Lit("Cleared notifications for account ") + m.content)];
    }

    /** PreferenceBehaviour: the three queries; anything else is left alone. */
    method OnQuery(m: Message, now: int)
      requires Valid()
      modifies this`thresholds, this`notifications, this`sent
      ensures Valid()
      ensures m.conversationId != "SET_LOW_BALANCE_THRESHOLD" ==> thresholds == old(thresholds)
      ensures m.conversationId == "SET_LOW_BALANCE_THRESHOLD" ==>
        match TwoFields(m.content)
        case None => thresholds == old(thresholds) && notifications == old(notifications) && sent == old(sent)
        case Some((id, value)) =>
          var confirmation := Lit("Set low balance threshold for ") + id + Lit(": ") + [Dbl(value)];
          && thresholds == old(thresholds)[id := value]
          && notifications == Stored(old(notifications), id, [Note(now, confirmation)])
          && sent == old(sent) + [ReplyTo(m, aid, "NOTIFICATION_INFO", confirmation)]
      ensures m.conversationId == "GET_NOTIFICATIONS" ==>
        && notifications == old(notifications)
        && sent == old(sent) + [ReplyTo(m, aid, "NOTIFICATIONS_LIST", Listing(m.content, HistoryOf(old(notifications), m.content)))]
      ensures m.conversationId == "CLEAR_NOTIFICATIONS" ==>
        && notifications == old(notifications) - {m.content}
        && sent == old(sent) + [ReplyTo(m, aid, "NOTIFICATION_INFO", Lit("Cleared notifications for account ") + m.content)]
      ensures m.conversationId !in {"SET_LOW_BALANCE_THRESHOLD", "GET_NOTIFICATIONS", "CLEAR_NOTIFICATIONS"} ==>
        notifications == old(notifications) && sent == old(sent)
    {
      if m.conversationId == "SET_LOW_BALANCE_THRESHOLD" {
        SetThreshold(m, now);
      } else if m.conversationId == "GET_NOTIFICATIONS" {
        GetNotifications(m);
      } else if m.conversationId == "CLEAR_NOTIFICATIONS" {
        ClearNotifications(m);
      }
    }
  }
}
