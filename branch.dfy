/** A bank branch node: its account map, the four requests it handles, and the replication
    and notification messages a successful change sends. */
module Branch {
  import opened Wire
  import opened Acl

  const BranchService := "bank-branch"
  const NotificationService := "notification"

  type Accounts = map<Text, real>

  /** A request once its payload has been read. */
  datatype Op =
    | Open(id: Text)
    | Deposit(id: Text, amount: real)
    | Withdraw(id: Text, amount: real)
    | Sync(id: Text, balance: real)

  /** The account id and the number of an `accountId;number` payload: the first two fields of
      `split(";")`, further fields ignored. None where the source throws (a missing field or a
      number it cannot parse). */
  function IdAndNumber(content: Text): Option<(Text, real)>
  {
    var fields := Split(content);
    if |fields| < 2 then None
    else match ParseNumber(fields[1])
      case None => None
      case Some(x) => Some((fields[0], x))
  }

  /** The request a message carries. None for a conversation id the handler has no case for,
      and for a payload the handler fails on before it looks at the accounts. */
  function ReadOp(m: Message): Option<Op>
  {
    if m.conversationId == "OPEN_ACCOUNT" then Some(Open(m.content))
    else if m.conversationId in {"DEPOSIT", "WITHDRAW", "SYNC_ACCOUNT"} then
      match IdAndNumber(m.content)
      case None => None
      case Some((id, x)) =>
        Some(if m.conversationId == "DEPOSIT" then Deposit(id, x)
             else if m.conversationId == "WITHDRAW" then Withdraw(id, x)
             else Sync(id, x))
    else None
  }

  // ---------------------------------------------------------------------------------------
  // The account state machine

  /** What the handler decides, in the order the source checks: an Open is rejected when the
      id is present; a Deposit or Withdraw when the id is absent, then when the amount is not
      positive, then (Withdraw) when the balance is short. A Sync is never rejected. */
  datatype Verdict =
    | AlreadyExists
    | NotFound
    | NotPositive
    | InsufficientFunds(balance: real)
    | Opened
    | Moved(before: real, after: real)
    | Synced

  predicate IsRejection(v: Verdict)
  {
    v.AlreadyExists? || v.NotFound? || v.NotPositive? || v.InsufficientFunds?
  }

  function Judge(accounts: Accounts, op: Op): Verdict
  {
    match op
    case Open(id) => if id in accounts then AlreadyExists else Opened
    case Deposit(id, amount) =>
      if id !in accounts then NotFound
      else if amount <= 0.0 then NotPositive
      else Moved(accounts[id], accounts[id] + amount)
    case Withdraw(id, amount) =>
      if id !in accounts then NotFound
      else if amount <= 0.0 then NotPositive
      else if accounts[id] < amount then InsufficientFunds(accounts[id])
      else Moved(accounts[id], accounts[id] - amount)
    case Sync(_, _) => Synced
  }

  /** The account map once the request has been handled. */
  function Apply(accounts: Accounts, op: Op): Accounts
  {
    match Judge(accounts, op)
    case Opened => accounts[op.id := 0.0]
    case Moved(_, after) => accounts[op.id := after]
    case Synced => accounts[op.id := op.balance]
    case _ => accounts
  }

  predicate AllNonNegative(accounts: Accounts)
  {
    forall id :: id in accounts ==> accounts[id] >= 0.0
  }

  /** A rejected request changes no account. */
  lemma RejectionChangesNothing(accounts: Accounts, op: Op)
    requires IsRejection(Judge(accounts, op))
    ensures Apply(accounts, op) == accounts
  {
  }

  /** OPEN_ACCOUNT: rejected exactly when the id is present; otherwise the id gets balance 0
      and no other entry changes. */
  lemma OpenEffect(accounts: Accounts, id: Text)
    ensures Judge(accounts, Open(id)) == (if id in accounts then AlreadyExists else Opened)
    ensures id in accounts ==> Apply(accounts, Open(id)) == accounts
    ensures id !in accounts ==>
      && Apply(accounts, Open(id)).Keys == accounts.Keys + {id}
      && Apply(accounts, Open(id))[id] == 0.0
      && forall other :: other in accounts ==> Apply(accounts, Open(id))[other] == accounts[other]
  {
  }

  /** DEPOSIT: an absent id is reported before a bad amount is; a positive amount is added to
      that account alone. */
  lemma DepositEffect(accounts: Accounts, id: Text, amount: real)
    ensures id !in accounts ==> Judge(accounts, Deposit(id, amount)) == NotFound
    ensures id in accounts && amount <= 0.0 ==> Judge(accounts, Deposit(id, amount)) == NotPositive
    ensures id in accounts && amount > 0.0 ==>
      && Judge(accounts, Deposit(id, amount)) == Moved(accounts[id], accounts[id] + amount)
      && Apply(accounts, Deposit(id, amount)) == accounts[id := accounts[id] + amount]
  {
  }

  /** WITHDRAW: a balance below the amount is rejected; a successful withdrawal leaves
      `old - amount`, which is not negative. */
  lemma WithdrawEffect(accounts: Accounts, id: Text, amount: real)
    ensures id !in accounts ==> Judge(accounts, Withdraw(id, amount)) == NotFound
    ensures id in accounts && amount <= 0.0 ==> Judge(accounts, Withdraw(id, amount)) == NotPositive
    ensures id in accounts && 0.0 < amount && accounts[id] < amount ==>
      && Judge(accounts, Withdraw(id, amount)) == InsufficientFunds(accounts[id])
      && Apply(accounts, Withdraw(id, amount)) == accounts
    ensures id in accounts && 0.0 < amount <= accounts[id] ==>
      && Apply(accounts, Withdraw(id, amount)) == accounts[id := accounts[id] - amount]
      && Apply(accounts, Withdraw(id, amount))[id] >= 0.0
  {
  }

  /** No balance becomes negative: OPEN, DEPOSIT and WITHDRAW keep every balance at or above
      zero, and so does a SYNC of a balance that is not negative. */
  lemma NonNegativeKept(accounts: Accounts, op: Op)
    requires AllNonNegative(accounts)
    requires op.Sync? ==> op.balance >= 0.0
    ensures AllNonNegative(Apply(accounts, op))
  {
  }

  /** SYNC_ACCOUNT overwrites or creates the entry whatever it held, and applying the same sync
      twice gives what applying it once does. */
  lemma SyncIdempotent(accounts: Accounts, id: Text, balance: real)
    ensures Apply(accounts, Sync(id, balance)) == accounts[id := balance]
    ensures Apply(Apply(accounts, Sync(id, balance)), Sync(id, balance)) == Apply(accounts, Sync(id, balance))
  {
  }

  // ---------------------------------------------------------------------------------------
  // The amount checks over Java doubles, NaN included

  /** A Java double as far as the amount checks see it: a number, or NaN, which every
      comparison answers false and every sum and difference carries. Infinities are not
      modelled. */
  datatype Double = Finite(value: real) | NaN

  predicate DoubleLessEq(a: Double, b: Double)
  {
    a.Finite? && b.Finite? && a.value <= b.value
  }

  predicate DoubleLess(a: Double, b: Double)
  {
    a.Finite? && b.Finite? && a.value < b.value
  }

  function DoublePlus(a: Double, b: Double): Double
  {
    if a.Finite? && b.Finite? then Finite(a.value + b.value) else NaN
  }

  function DoubleMinus(a: Double, b: Double): Double
  {
    if a.Finite? && b.Finite? then Finite(a.value - b.value) else NaN
  }

  /** A deposit or a withdrawal of a parsed amount. */
  datatype Move = DepositOf(amount: Double) | WithdrawalOf(amount: Double)

  /** The balance a deposit or withdrawal stores, with the source's checks `amount <= 0` and
      `balance < amount`; None for a rejection. */
  function MovedAsWritten(balance: Double, move: Move): Option<Double>
  {
    if DoubleLessEq(move.amount, Finite(0.0)) then None
    else match move
      case DepositOf(amount) => Some(DoublePlus(balance, amount))
      case WithdrawalOf(amount) =>
        if DoubleLess(balance, amount) then None else Some(DoubleMinus(balance, amount))
  }

  /** A NaN amount passes both checks, and the stored balance becomes NaN. */
  lemma NaNAmountStoresNaN(balance: real)
    requires balance >= 0.0
    ensures MovedAsWritten(Finite(balance), DepositOf(NaN)) == Some(NaN)
    ensures MovedAsWritten(Finite(balance), WithdrawalOf(NaN)) == Some(NaN)
  {
  }

  /** The balance a deposit or withdrawal stores when the amount check accepts only a
      positive amount (`!(amount > 0)` rejects), which refuses NaN. */
  function MovedGuarded(balance: Double, move: Move): Option<Double>
  {
    if !DoubleLess(Finite(0.0), move.amount) then None
    else match move
      case DepositOf(amount) => Some(DoublePlus(balance, amount))
      case WithdrawalOf(amount) =>
        if DoubleLess(balance, amount) then None else Some(DoubleMinus(balance, amount))
  }

  /** With the positive-amount check, a balance that is a number at or above zero stays one,
      NaN is refused, and on numbers the check decides as the source's does. */
  lemma GuardedKeepsNumber(balance: real, move: Move)
    requires balance >= 0.0
    ensures var r := MovedGuarded(Finite(balance), move);
      r.Some? ==> r.value.Finite? && r.value.value >= 0.0
    ensures move.amount.NaN? ==> MovedGuarded(Finite(balance), move) == None
    ensures move.amount.Finite? ==>
      MovedGuarded(Finite(balance), move) == MovedAsWritten(Finite(balance), move)
  {
  }

  /** On numbers, the guarded checks are the model's: a deposit or withdrawal that `Judge`
      accepts stores the balance `Apply` gives, and one it rejects stores nothing. */
  lemma GuardedIsJudge(accounts: Accounts, id: Text, amount: real)
    requires id in accounts
    ensures var r := MovedGuarded(Finite(accounts[id]), DepositOf(Finite(amount)));
      (r == None <==> IsRejection(Judge(accounts, Deposit(id, amount))))
      && (r.Some? ==> r.value == Finite(Apply(accounts, Deposit(id, amount))[id]))
    ensures var r := MovedGuarded(Finite(accounts[id]), WithdrawalOf(Finite(amount)));
      (r == None <==> IsRejection(Judge(accounts, Withdraw(id, amount))))
      && (r.Some? ==> r.value == Finite(Apply(accounts, Withdraw(id, amount))[id]))
  {
  }

  // ---------------------------------------------------------------------------------------
  // The messages a request produces

  /** The `accountId;balance` payload of SYNC_ACCOUNT. */
  function SyncPayload(id: Text, balance: real): Text
  {
    id + [Semi, Dbl(balance)]
  }

  /** The sync payload round trip: for an id without `;`, splitting gives the id and the
      balance as its two fields, so a peer reads back exactly the request that was sent. */
  lemma SyncPayloadRoundTrip(id: Text, balance: real)
    requires Semi !in id
    ensures Split(SyncPayload(id, balance)) == [id, [Dbl(balance)]]
    ensures IdAndNumber(SyncPayload(id, balance)) == Some((id, balance))
  {
    assert SyncPayload(id, balance) == Join([id, [Dbl(balance)]]);
    SplitJoin([id, [Dbl(balance)]]);
  }

  /** The one-letter field "B" is not a number. */
  lemma LetterIsNoNumber()
    ensures ParseNumber([Ch('B')]) == None
  {
    assert Chars([Ch('B')]) == "B";
    assert !IsDigit("B"[0]);
  }

  /** The sync payload of the id `A;x` splits into three fields. */
  lemma DelimitedSyncFields(x: Sym, balance: real)
    requires x != Semi
    ensures Split(SyncPayload([Ch('A'), Semi, x], balance)) == [[Ch('A')], [x], [Dbl(balance)]]
  {
    var fs := [[Ch('A')], [x], [Dbl(balance)]];
    assert Join(fs[2..]) == [Dbl(balance)];
    assert Join(fs[1..]) == [x] + [Semi] + [Dbl(balance)];
    assert SyncPayload([Ch('A'), Semi, x], balance) == Join(fs);
    SplitJoin(fs);
  }

  /** An id with a `;` in it is opened like any other, but its sync payload has a field too
      many and a peer cannot read the balance back. */
  lemma DelimitedIdBreaksSync(balance: real)
    ensures var id := [Ch('A'), Semi, Ch('B')];
      && Split(SyncPayload(id, balance)) == [[Ch('A')], [Ch('B')], [Dbl(balance)]]
      && IdAndNumber(SyncPayload(id, balance)) == None
  {
    DelimitedSyncFields(Ch('B'), balance);
    LetterIsNoNumber();
  }

  /** When the part after the `;` reads as a number, a peer does read the payload back, as a
      sync of a different account: the id `A;5` reads as account `A` with balance 5.0. */
  lemma DelimitedIdReadsOther(balance: real)
    ensures Split(SyncPayload([Ch('A'), Semi, Ch('5')], balance)) == [[Ch('A')], [Ch('5')], [Dbl(balance)]]
    ensures IdAndNumber(SyncPayload([Ch('A'), Semi, Ch('5')], balance)) == Some(([Ch('A')], 5.0))
  {
    DelimitedSyncFields(Ch('5'), balance);
    DigitIsNumber();
  }

  /** So a peer that handles the sync of the id `A;5` sets account `A` to 5.0, whatever the
      balance was. */
  lemma DelimitedIdOverwritesOther(me: Aid, balance: real, accounts: Accounts)
    ensures var m := Message(Inform, me, [], "SYNC_ACCOUNT", SyncPayload([Ch('A'), Semi, Ch('5')], balance), None, None);
      && ReadOp(m) == Some(Sync([Ch('A')], 5.0))
      && Apply(accounts, Sync([Ch('A')], 5.0)) == accounts[[Ch('A')] := 5.0]
  {
    DelimitedIdReadsOther(balance);
  }

  /** The one-digit field "5" reads as 5.0. */
  lemma DigitIsNumber()
    ensures ParseNumber([Ch('5')]) == Some(5.0)
  {
    assert Chars([Ch('5')]) == "5";
    assert AllDigits("5");
    assert DigitsValue("5") == 5;
  }

  /** `syncAccount`'s single message: to every other branch, then every notification agent. */
  function SyncMessage(me: Aid, dir: Directory, id: Text, balance: real): Message
  {
    Message(Inform, me, Without(Search(dir, BranchService), me) + Search(dir, NotificationService),
            "SYNC_ACCOUNT", SyncPayload(id, balance), None, None)
  }

  /** The receivers of a sync: the branches other than the sender and the notification agents. */
  lemma SyncReceivers(me: Aid, dir: Directory, id: Text, balance: real, a: Aid)
    ensures a in SyncMessage(me, dir, id, balance).receivers <==>
              (a != me && exists k :: 0 <= k < |dir| && dir[k] == ServiceRecord(a, BranchService))
              || exists k :: 0 <= k < |dir| && dir[k] == ServiceRecord(a, NotificationService)
    ensures me !in Search(dir, NotificationService) ==> me !in SyncMessage(me, dir, id, balance).receivers
  {
  }

  /** `accountId;type;amount;oldBalance;newBalance`. */
  function TransactionPayload(id: Text, kind: string, amount: real, before: real, after: real): Text
  {
    id + [Semi] + Lit(kind) + [Semi, Dbl(amount), Semi, Dbl(before), Semi, Dbl(after)]
  }

  /** `sendTransactionNotification`: one message to the notification agents other than the
      sender, and none when there is no such agent. */
  function TransactionMessages(me: Aid, dir: Directory, id: Text, kind: string,
                               amount: real, before: real, after: real): seq<Message>
  {
    var to := Without(Search(dir, NotificationService), me);
    if to == [] then []
    else [Message(Inform, me, to, "TRANSACTION_COMPLETE", TransactionPayload(id, kind, amount, before, after), None, None)]
  }

  /** `sendAccountOpenedNotification`: one ACCOUNT_OPENED message per notification agent. */
  function OpenedMessages(me: Aid, notifiers: seq<Aid>, id: Text): seq<Message>
  {
    seq(|notifiers|, i requires 0 <= i < |notifiers| =>
      Message(Inform, me, [notifiers[i]], "ACCOUNT_OPENED", id, None, None))
  }

  /** The reply text for each verdict. */
  function ReplyText(op: Op, v: Verdict): Text
  {
    match v
    case AlreadyExists => Lit("Account ") + op.id + Lit(" already exists")
    case NotFound => Lit("Account ") + op.id + Lit(" doesn't exist. Open account first.")
    case NotPositive =>
      if op.Deposit? then Lit("Deposit amount must be positive") else Lit("Withdraw amount must be positive")
    case InsufficientFunds(balance) => Lit("Insufficient funds. Balance: ") + [Dbl(balance)]
    case Opened => Lit("Account ") + op.id + Lit(" opened with balance 0.0")
    case Moved(_, after) =>
      (if op.Deposit? then Lit("Deposit successful. New balance: ") else Lit("Withdraw successful. New balance: "))
      + [Dbl(after)]
    case Synced => []
  }

  /** Everything the handler sends for a request, in sending order. */
  function Outbox(me: Aid, dir: Directory, m: Message, accounts: Accounts, op: Op): seq<Message>
  {
    var v := Judge(accounts, op);
    var reply := [ReplyTo(m, me, m.conversationId, ReplyText(op, v))];
    match op
    case Sync(_, _) => []
    case Open(id) =>
      if v.Opened? then [SyncMessage(me, dir, id, 0.0)] + OpenedMessages(me, Search(dir, NotificationService), id) + reply
      else reply
    case Deposit(id, amount) =>
      if v.Moved? then [SyncMessage(me, dir, id, v.after)] + TransactionMessages(me, dir, id, "DEPOSIT", amount, v.before, v.after) + reply
      else reply
    case Withdraw(id, amount) =>
      if v.Moved? then [SyncMessage(me, dir, id, v.after)] + TransactionMessages(me, dir, id, "WITHDRAW", amount, v.before, v.after) + reply
      else reply
  }

  lemma {:induction false} CountOpened(me: Aid, notifiers: seq<Aid>, id: Text, conversationId: string)
    requires conversationId != "ACCOUNT_OPENED"
    ensures CountConversation(OpenedMessages(me, notifiers, id), conversationId) == 0
    decreases |notifiers|
  {
    if notifiers != [] {
      var n' := notifiers[..|notifiers| - 1];
      assert OpenedMessages(me, notifiers, id)[..|notifiers| - 1] == OpenedMessages(me, n', id);
      CountOpened(me, n', id, conversationId);
    }
  }

  /** A rejected request is answered with one reply and nothing else: no sync, no notification. */
  lemma RejectionOnlyReplies(me: Aid, dir: Directory, m: Message, accounts: Accounts, op: Op)
    requires IsRejection(Judge(accounts, op))
    ensures Outbox(me, dir, m, accounts, op) == [ReplyTo(m, me, m.conversationId, ReplyText(op, Judge(accounts, op)))]
  {
  }

  /** The notification-agent messages between the sync and the reply of a successful
      operation: one ACCOUNT_OPENED per notification agent for an open, the transaction
      message for a deposit or a withdrawal. */
  function Notices(me: Aid, dir: Directory, op: Op, v: Verdict): seq<Message>
    requires !op.Sync?
  {
    if op.Open? then OpenedMessages(me, Search(dir, NotificationService), op.id)
    else if v.Moved? then TransactionMessages(me, dir, op.id, if op.Deposit? then "DEPOSIT" else "WITHDRAW", op.amount, v.before, v.after)
    else []
  }

  /** A successful OPEN, DEPOSIT or WITHDRAW sends the sync, then its notices, then the reply. */
  lemma SuccessOutbox(me: Aid, dir: Directory, m: Message, accounts: Accounts, op: Op)
    requires !op.Sync? && !IsRejection(Judge(accounts, op))
    ensures op.id in Apply(accounts, op)
    ensures Outbox(me, dir, m, accounts, op)
            == [SyncMessage(me, dir, op.id, Apply(accounts, op)[op.id])]
               + Notices(me, dir, op, Judge(accounts, op))
               + [ReplyTo(m, me, m.conversationId, ReplyText(op, Judge(accounts, op)))]
  {
    match op
    case Open(id) =>
    case Deposit(id, amount) =>
    case Withdraw(id, amount) =>
  }

  /** A successful OPEN, DEPOSIT or WITHDRAW sends exactly one SYNC_ACCOUNT message, first, and
      one reply, last. */
  lemma SuccessBroadcastsOnce(me: Aid, dir: Directory, m: Message, accounts: Accounts, op: Op)
    requires !op.Sync? && !IsRejection(Judge(accounts, op))
    requires m.conversationId != "SYNC_ACCOUNT"
    ensures op.id in Apply(accounts, op)
    ensures var out := Outbox(me, dir, m, accounts, op);
      && |out| >= 2
      && out[0] == SyncMessage(me, dir, op.id, Apply(accounts, op)[op.id])
      && out[|out| - 1] == ReplyTo(m, me, m.conversationId, ReplyText(op, Judge(accounts, op)))
      && CountConversation(out, "SYNC_ACCOUNT") == 1
  {
    SuccessOutbox(me, dir, m, accounts, op);
    var sync := [SyncMessage(me, dir, op.id, Apply(accounts, op)[op.id])];
    var middle := Notices(me, dir, op, Judge(accounts, op));
    var reply := [ReplyTo(m, me, m.conversationId, ReplyText(op, Judge(accounts, op)))];
    if op.Open? {
      CountOpened(me, Search(dir, NotificationService), op.id, "SYNC_ACCOUNT");
    } else {
      assert CountConversation(middle, "SYNC_ACCOUNT") == 0;
    }
    CountConversationAppend(sync, middle, "SYNC_ACCOUNT");
    CountConversationAppend(sync + middle, reply, "SYNC_ACCOUNT");
  }

  /** Between the sync and the reply, an OPEN notifies each notification agent once and a
      DEPOSIT or WITHDRAW sends one transaction message if a notification agent other than
      the sender exists. */
  lemma SuccessNoticeCount(me: Aid, dir: Directory, m: Message, accounts: Accounts, op: Op)
    requires !op.Sync? && !IsRejection(Judge(accounts, op))
    ensures op.Open? ==> |Outbox(me, dir, m, accounts, op)| == 2 + |Search(dir, NotificationService)|
    ensures !op.Open? ==>
      |Outbox(me, dir, m, accounts, op)| == if Without(Search(dir, NotificationService), me) == [] then 2 else 3
  {
    SuccessOutbox(me, dir, m, accounts, op);
  }

  /** A sync is applied silently: no reply and no new broadcast. */
  lemma SyncSendsNothing(me: Aid, dir: Directory, m: Message, accounts: Accounts, id: Text, balance: real)
    ensures Outbox(me, dir, m, accounts, Sync(id, balance)) == []
  {
  }

  /** The example run: OPEN "A1", DEPOSIT "A1;50", then WITHDRAW "A1;70" is rejected and the
      balance stays 50. */
  lemma ExampleRun()
    ensures var a1 := Apply(map[], Open(Lit("A1")));
      var a2 := Apply(a1, Deposit(Lit("A1"), 50.0));
      && a1 == map[Lit("A1") := 0.0]
      && a2 == map[Lit("A1") := 50.0]
      && Judge(a2, Withdraw(Lit("A1"), 70.0)) == InsufficientFunds(50.0)
      && Apply(a2, Withdraw(Lit("A1"), 70.0)) == a2
  {
  }

  // ---------------------------------------------------------------------------------------
  // The agent

  class BankBranchAgent {
    const aid: Aid
    var accounts: Accounts
    /** Every message the agent has sent, oldest first. */
    var sent: seq<Message>

    constructor(aid: Aid)
      ensures this.aid == aid && accounts == map[] && sent == []
    {
      this.aid := aid;
      accounts := map[];
      sent := [];
    }

    /** `findOtherBranches` / `findOtherAgents(type)`: the search results other than this agent. */
    method FindOtherAgents(serviceType: string, dir: Directory) returns (agents: seq<Aid>)
      ensures agents == Without(Search(dir, serviceType), aid)
    {
      var results := Search(dir, serviceType);
      agents := [];
      for i := 0 to |results|
        invariant agents == Without(results[..i], aid)
      {
        assert results[..i + 1][..i] == results[..i];
        if results[i] != aid {
          agents := agents + [results[i]];
        }
      }
      assert results[..|results|] == results;
    }

    /** `syncAccount`: one SYNC_ACCOUNT message to the other branches and the notification agents. */
    method SyncAccount(id: Text, balance: real, dir: Directory)
      modifies this`sent
      ensures sent == old(sent) + [SyncMessage(aid, dir, id, balance)]
    {
      var receivers := FindOtherAgents(BranchService, dir);
      var notifiers := Search(dir, NotificationService);
      for i := 0 to |notifiers|
        invariant receivers == Without(Search(dir, BranchService), aid) + notifiers[..i]
      {
        assert notifiers[..i + 1] == notifiers[..i] + [notifiers[i]];
        receivers := receivers + [notifiers[i]];
      }
      assert notifiers[..|notifiers|] == notifiers;
      sent := sent + [Message(Inform, aid, receivers, "SYNC_ACCOUNT", id + [Semi, Dbl(balance)], None, None)];
    }

    /** `reply`: an INFORM with the text, back to the sender of the request. */
    method Reply(m: Message, text: Text)
      modifies this`sent
      ensures sent == old(sent) + [ReplyTo(m, aid, m.conversationId, text)]
    {
      sent := sent + [ReplyTo(m, aid, m.conversationId, text)];
    }

    /** `sendTransactionNotification`: sent only when a notification agent is found. */
    method SendTransactionNotification(id: Text, kind: string, amount: real, before: real, after: real, dir: Directory)
      modifies this`sent
      ensures sent == old(sent) + TransactionMessages(aid, dir, id, kind, amount, before, after)
    {
      var to := FindOtherAgents(NotificationService, dir);
      if to != [] {
        sent := sent + [Message(Inform, aid, to, "TRANSACTION_COMPLETE",
                                id + [Semi] + Lit(kind) + [Semi, Dbl(amount), Semi, Dbl(before), Semi, Dbl(after)],
                                None, None)];
      }
    }

    /** `sendAccountOpenedNotification`: one message per notification agent found. */
    method SendAccountOpenedNotification(id: Text, dir: Directory)
      modifies this`sent
      ensures sent == old(sent) + OpenedMessages(aid, Search(dir, NotificationService), id)
    {
      var results := Search(dir, NotificationService);
      for i := 0 to |results|
        invariant sent == old(sent) + OpenedMessages(aid, results[..i], id)
      {
        assert OpenedMessages(aid, results[..i + 1], id)
            == OpenedMessages(aid, results[..i], id) + [Message(Inform, aid, [results[i]], "ACCOUNT_OPENED", id, None, None)];
        sent := sent + [Message(Inform, aid, [results[i]], "ACCOUNT_OPENED", id, None, None)];
      }
      assert results[..|results|] == results;
    }

    /** The OPEN_ACCOUNT case of `handleMessage`. */
    method HandleOpen(m: Message, dir: Directory)
      requires m.conversationId == "OPEN_ACCOUNT"
      modifies this`accounts, this`sent
      ensures accounts == Apply(old(accounts), Open(m.content))
      ensures sent == old(sent) + Outbox(aid, dir, m, old(accounts), Open(m.content))
    {
      var id := m.content;
      ghost var s0 := sent;
      ghost var v := Judge(accounts, Open(id));
      if id in accounts {
        assert v == AlreadyExists;
        Reply(m, Lit("Account ") + id + Lit(" already exists"));
        return;
      }
      assert v == Opened;
      ghost var out := Outbox(aid, dir, m, accounts, Open(id));
      accounts := accounts[id := 0.0];
      SyncAccount(id, 0.0, dir);
      SendAccountOpenedNotification(id, dir);
      Reply(m, Lit("Account ") + id + Lit(" opened with balance 0.0"));
      assert out == [SyncMessage(aid, dir, id, 0.0)] + OpenedMessages(aid, Search(dir, NotificationService), id)
                    + [ReplyTo(m, aid, m.conversationId, ReplyText(Open(id), v))];
      assert sent == s0 + out;
    }

    /** The DEPOSIT case of `handleMessage`, once the payload has been read. */
    method HandleDeposit(m: Message, dir: Directory, id: Text, amount: real)
      modifies this`accounts, this`sent
      ensures accounts == Apply(old(accounts), Deposit(id, amount))
      ensures sent == old(sent) + Outbox(aid, dir, m, old(accounts), Deposit(id, amount))
    {
      ghost var v := Judge(accounts, Deposit(id, amount));
      if id !in accounts {
        assert v == NotFound;
        Reply(m, Lit("Account ") + id + Lit(" doesn't exist. Open account first."));
        return;
      }
      if amount <= 0.0 {
        assert v == NotPositive;
        Reply(m, Lit("Deposit amount must be positive"));
        return;
      }
      var before := accounts[id];
      accounts := accounts[id := before + amount];
      assert v == Moved(before, accounts[id]);
      SyncAccount(id, accounts[id], dir);
      SendTransactionNotification(id, "DEPOSIT", amount, before, accounts[id], dir);
      Reply(m, Lit("Deposit successful. New balance: ") + [Dbl(accounts[id])]);
    }

    /** The WITHDRAW case of `handleMessage`, once the payload has been read. */
    method HandleWithdraw(m: Message, dir: Directory, id: Text, amount: real)
      modifies this`accounts, this`sent
      ensures accounts == Apply(old(accounts), Withdraw(id, amount))
      ensures sent == old(sent) + Outbox(aid, dir, m, old(accounts), Withdraw(id, amount))
    {
      ghost var v := Judge(accounts, Withdraw(id, amount));
      if id !in accounts {
        assert v == NotFound;
        Reply(m, Lit("Account ") + id + Lit(" doesn't exist. Open account first."));
        return;
      }
      if amount <= 0.0 {
        assert v == NotPositive;
        Reply(m, Lit("Withdraw amount must be positive"));
        return;
      }
      var balance := accounts[id];
      if balance < amount {
        assert v == InsufficientFunds(balance);
        Reply(m, Lit("Insufficient funds. Balance: ") + [Dbl(balance)]);
        return;
      }
      accounts := accounts[id := balance - amount];
      assert v == Moved(balance, accounts[id]);
      SyncAccount(id, accounts[id], dir);
      SendTransactionNotification(id, "WITHDRAW", amount, balance, accounts[id], dir);
      Reply(m, Lit("Withdraw successful. New balance: ") + [Dbl(accounts[id])]);
    }

    /** `handleMessage`: one request, with `dir` as what every directory search during it finds.
        A DEPOSIT, WITHDRAW or SYNC_ACCOUNT payload with a missing field or an unreadable number
        changes nothing and sends nothing. */
    method HandleMessage(m: Message, dir: Directory)
      modifies this`accounts, this`sent
      ensures ReadOp(m).None? ==> accounts == old(accounts) && sent == old(sent)
      ensures ReadOp(m).Some? ==>
        && accounts == Apply(old(accounts), ReadOp(m).value)
        && sent == old(sent) + Outbox(aid, dir, m, old(accounts), ReadOp(m).value)
      ensures AllNonNegative(old(accounts)) && (ReadOp(m).Some? && ReadOp(m).value.Sync? ==> ReadOp(m).value.balance >= 0.0)
        ==> AllNonNegative(accounts)
    {
      if m.conversationId == "OPEN_ACCOUNT" {
        HandleOpen(m, dir);
      } else if m.conversationId in {"DEPOSIT", "WITHDRAW", "SYNC_ACCOUNT"} {
        var fields := Split(m.content);
        if |fields| < 2 {
          return;  // the source throws on the missing field
        }
        var parsed := ParseNumber(fields[1]);
        if parsed.None? {
          return;  // the source throws on a number it cannot parse
        }
        if m.conversationId == "DEPOSIT" {
          HandleDeposit(m, dir, fields[0], parsed.value);
        } else if m.conversationId == "WITHDRAW" {
          HandleWithdraw(m, dir, fields[0], parsed.value);
        } else {
          accounts := accounts[fields[0] := parsed.value];
        }
      }
      if ReadOp(m).Some? && AllNonNegative(old(accounts)) && (ReadOp(m).value.Sync? ==> ReadOp(m).value.balance >= 0.0) {
        NonNegativeKept(old(accounts), ReadOp(m).value);
      }
    }
  }
}
