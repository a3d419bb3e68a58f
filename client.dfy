/** The client agent's discovery and correlation state machines: the initial discovery steps,
    the bounded-retry searches for branches and for the exchange agent, the "one rate request
    at a time" flag with its timeout, the correlated notifications request and the dispatch
    of replies. Directory results, the clock and the messages that arrive while waiting are
    inputs; what the window shows is an output log. */
module Client {
  import opened Wire
  import opened Acl

  /** MAX_ATTEMPTS of both discovery behaviours. */
  const MaxAttempts: nat := 10
  /** TIMEOUT of the rate-request timeout, in milliseconds. */
  const RateTimeout: int := 5000

  /** The outcome of one `DFService.search`: the identities found, or the exception's message. */
  datatype Lookup = Found(aids: seq<Aid>) | Failed(reason: Text)

  predicate FoundSome(r: Lookup)
  {
    r.Found? && r.aids != []
  }

  /** What the window is told, through the updater callbacks. */
  datatype UiEvent =
    | RatesShown(text: Text)
    | OutputAppended(text: Text)
    | BranchesShown(branches: seq<Aid>)
    | NotificationAreaShown(text: Text)
    | NotificationShown(text: Text)

  /** A behaviour the agent adds to itself. */
  datatype Launch =
    | BranchDiscovery(isInitial: bool)
    | ExchangeDiscovery
    | RateRequest
    | RateRequestTimeout(start: int)

  /** A callback reaches the window only once the window exists (`guiUpdater != null`). */
  function Shown(ui: seq<UiEvent>, ready: bool, e: UiEvent): seq<UiEvent>
  {
    if ready then ui + [e] else ui
  }

  // ---------------------------------------------------------------------------------------
  // The initial discovery steps

  /** What the action at `step` launches: branch discovery at step 1, exchange discovery at 2. */
  function InitialLaunch(step: nat): seq<Launch>
  {
    if step == 1 then [BranchDiscovery(true)] else if step == 2 then [ExchangeDiscovery] else []
  }

  /** What the first `n` actions launch, in order. */
  function InitialLaunches(n: nat): seq<Launch>
  {
    if n == 0 then [] else InitialLaunches(n - 1) + InitialLaunch(n - 1)
  }

  /** Until the behaviour is done, its actions have launched a prefix of [initial branch
      discovery, exchange discovery]; when it is done (three actions) each has been launched
      exactly once, branches first. */
  lemma {:induction false} InitialLaunchesPrefix(n: nat)
    requires n <= 3
    ensures InitialLaunches(n) == [BranchDiscovery(true), ExchangeDiscovery][..if n == 0 then 0 else n - 1]
  {
    if n > 0 {
      InitialLaunchesPrefix(n - 1);
      var all := [BranchDiscovery(true), ExchangeDiscovery];
      if n == 3 {
        assert all[..1] + [ExchangeDiscovery] == all;
      }
    }
  }

  // ---------------------------------------------------------------------------------------
  // The bounded-retry branch search

  /** The branch search's state: its attempt counter and the agent's `branches`. */
  datatype BranchSearch = BranchSearch(attempts: nat, branches: seq<Aid>)

  /** One action: the found list replaces `branches`, an empty one counting as an attempt; a
      failed search counts as an attempt and keeps the old list. */
  function BranchRound(s: BranchSearch, r: Lookup): (t: BranchSearch)
    ensures t.attempts == (if FoundSome(r) then s.attempts else s.attempts + 1)
    ensures t.branches == (if r.Found? then r.aids else s.branches)
  {
    match r
    case Found(aids) => BranchSearch(if aids == [] then s.attempts + 1 else s.attempts, aids)
    case Failed(_) => BranchSearch(s.attempts + 1, s.branches)
  }

  predicate BranchSearchDone(s: BranchSearch)
  {
    s.branches != [] || s.attempts >= MaxAttempts
  }

  /** The behaviour run by the scheduler on successive search results: an action, then the
      done test, until it holds or the results run out. */
  function BranchRun(s: BranchSearch, rs: seq<Lookup>): BranchSearch
    decreases |rs|
  {
    if rs == [] then s
    else
      var t := BranchRound(s, rs[0]);
      if BranchSearchDone(t) then t else BranchRun(t, rs[1..])
  }

  /** How many actions that run takes. */
  function BranchRounds(s: BranchSearch, rs: seq<Lookup>): nat
    decreases |rs|
  {
    if rs == [] then 0
    else
      var t := BranchRound(s, rs[0]);
      if BranchSearchDone(t) then 1 else 1 + BranchRounds(t, rs[1..])
  }

  /** The search gives up: from any state with attempts left it runs at most the remaining
      number of actions, and given that many results it is done. */
  lemma {:induction false} BranchSearchBounded(s: BranchSearch, rs: seq<Lookup>)
    requires s.attempts < MaxAttempts
    ensures BranchRounds(s, rs) <= MaxAttempts - s.attempts
    ensures |rs| >= MaxAttempts - s.attempts ==> BranchSearchDone(BranchRun(s, rs))
    decreases |rs|
  {
    if rs != [] {
      var t := BranchRound(s, rs[0]);
      if !BranchSearchDone(t) {
        assert t.attempts == s.attempts + 1;
        BranchSearchBounded(t, rs[1..]);
      }
    }
  }

  /** The search ends at the first result that finds a branch, with exactly those branches,
      when it starts with none and the results before it found nothing. */
  lemma {:induction false} BranchSearchFindsFirst(s: BranchSearch, rs: seq<Lookup>, k: nat)
    requires s.branches == []
    requires k < |rs| && FoundSome(rs[k])
    requires forall j :: 0 <= j < k ==> !FoundSome(rs[j])
    requires s.attempts + k < MaxAttempts
    ensures BranchRun(s, rs) == BranchSearch(s.attempts + k, rs[k].aids)
    decreases k
  {
    if k > 0 {
      var t := BranchRound(s, rs[0]);
      assert t == BranchSearch(s.attempts + 1, []);
      BranchSearchFindsFirst(t, rs[1..], k - 1);
    }
  }

  /** What one action of the branch search tells the window (`attempts` is the new count). */
  function BranchRoundUi(isInitial: bool, attempts: nat, r: Lookup): Option<UiEvent>
  {
    match r
    case Found(aids) =>
      if aids != [] then Some(BranchesShown(aids))
      else if !isInitial then Some(OutputAppended(Lit("No branches found (attempt ") + [Long(attempts)] + Lit(")")))
      else None
    case Failed(reason) =>
      if attempts == 1 then Some(OutputAppended(Lit("Error searching for branches: ") + reason)) else None
  }

  // ---------------------------------------------------------------------------------------
  // The bounded-retry exchange search

  /** The exchange search's state: its attempt counter and the agent's `exchangeAgentAID`. */
  datatype ExchangeSearch = ExchangeSearch(attempts: nat, exchange: Option<Aid>)

  /** One action: nothing once the agent is known; otherwise the first result found, or one
      more attempt. */
  function ExchangeRound(s: ExchangeSearch, r: Lookup): ExchangeSearch
  {
    if s.exchange.Some? then s
    else if FoundSome(r) then ExchangeSearch(s.attempts, Some(r.aids[0]))
    else ExchangeSearch(s.attempts + 1, None)
  }

  predicate ExchangeSearchDone(s: ExchangeSearch)
  {
    s.exchange.Some? || s.attempts >= MaxAttempts
  }

  function ExchangeRun(s: ExchangeSearch, rs: seq<Lookup>): ExchangeSearch
    decreases |rs|
  {
    if rs == [] then s
    else
      var t := ExchangeRound(s, rs[0]);
      if ExchangeSearchDone(t) then t else ExchangeRun(t, rs[1..])
  }

  function ExchangeRounds(s: ExchangeSearch, rs: seq<Lookup>): nat
    decreases |rs|
  {
    if rs == [] then 0
    else
      var t := ExchangeRound(s, rs[0]);
      if ExchangeSearchDone(t) then 1 else 1 + ExchangeRounds(t, rs[1..])
  }

  /** The exchange search gives up after the remaining attempts, and once the agent is known
      a run changes nothing and stops after one action. */
  lemma {:induction false} ExchangeSearchBounded(s: ExchangeSearch, rs: seq<Lookup>)
    requires s.attempts < MaxAttempts
    ensures ExchangeRounds(s, rs) <= MaxAttempts - s.attempts
    ensures |rs| >= MaxAttempts - s.attempts ==> ExchangeSearchDone(ExchangeRun(s, rs))
    ensures s.exchange.Some? ==> ExchangeRun(s, rs) == s && ExchangeRounds(s, rs) <= 1
    decreases |rs|
  {
    if rs != [] {
      var t := ExchangeRound(s, rs[0]);
      if !ExchangeSearchDone(t) {
        assert t.attempts == s.attempts + 1;
        ExchangeSearchBounded(t, rs[1..]);
      }
    }
  }

  /** The exchange agent is the first identity of the first result that finds one. */
  lemma {:induction false} ExchangeSearchFindsFirst(s: ExchangeSearch, rs: seq<Lookup>, k: nat)
    requires s.exchange.None?
    requires k < |rs| && FoundSome(rs[k])
    requires forall j :: 0 <= j < k ==> !FoundSome(rs[j])
    requires s.attempts + k < MaxAttempts
    ensures ExchangeRun(s, rs) == ExchangeSearch(s.attempts + k, Some(rs[k].aids[0]))
    decreases k
  {
    if k > 0 {
      var t := ExchangeRound(s, rs[0]);
      assert t == ExchangeSearch(s.attempts + 1, None);
      ExchangeSearchFindsFirst(t, rs[1..], k - 1);
    }
  }

  // ---------------------------------------------------------------------------------------
  // Payloads and correlation tags

  /** SET_LOW_BALANCE_THRESHOLD content: `accountId + ";" + threshold`. */
  function ThresholdPayload(accountId: Text, threshold: Text): Text
  {
    accountId + [Semi] + threshold
  }

  /** The reply-with tag of a notifications request: "GET_NOTIFICATIONS-" + id + "-" + time. */
  function NotificationsTag(accountId: Text, now: int): Text
  {
    Lit("GET_NOTIFICATIONS-") + accountId + Lit("-") + [Long(now)]
  }

  /** Distinct requests (another account or another millisecond) carry distinct tags, so a
      reply to one is never taken for a reply to another. */
  lemma NotificationsTagInjective(a: Text, t: int, b: Text, u: int)
    ensures NotificationsTag(a, t) == NotificationsTag(b, u) <==> a == b && t == u
  {
    var p := Lit("GET_NOTIFICATIONS-");
    if NotificationsTag(a, t) == NotificationsTag(b, u) {
      var x, y := NotificationsTag(a, t), NotificationsTag(b, u);
      assert |a| == |b|;
      assert a == x[|p|..|p| + |a|];
      assert b == y[|p|..|p| + |b|];
      assert x[|x| - 1] == Long(t) && y[|y| - 1] == Long(u);
    }
  }

  /** The template the request waits with. */
  function NotificationsTemplate(tag: Text): Template
  {
    ConversationInReplyTo("NOTIFICATIONS_LIST", tag)
  }

  /** What ReceiveRepliesBehaviour shows for a message it takes that is not a rates update. */
  function Echo(m: Message): (e: Option<UiEvent>)
    ensures e.None? <==> m.conversationId == "SYNC_ACCOUNT" || m.conversationId == "NOTIFICATIONS_LIST"
    ensures e.Some? ==>
      && e.value.OutputAppended? && |m.content| <= |e.value.text|
      && e.value.text[|e.value.text| - |m.content|..] == m.content
  {
    if m.conversationId == "SYNC_ACCOUNT" || m.conversationId == "NOTIFICATIONS_LIST" then None
    else Some(OutputAppended(Lit("[") + Lit(m.sender) + Lit("] ") + m.content))
  }

  // ---------------------------------------------------------------------------------------
  // The agent

  class GuiAgent {
    const aid: Aid
    var exchangeAgent: Option<Aid>
    var branches: seq<Aid>
    var isRequestingRates: bool
    var pendingReplyWith: Option<Text>
    var pendingAccountId: Option<Text>
    /** Whether the window exists yet (`guiUpdater != null`). */
    var guiReady: bool
    var ui: seq<UiEvent>
    var sent: seq<Message>
    /** The agent's message queue, oldest first. */
    var inbox: seq<Message>
    var launched: seq<Launch>

    /** A rate request is only ever in flight to a known exchange agent, and no notifications
        request is pending between actions. */
    ghost predicate Valid()
      reads this
    {
      && (isRequestingRates ==> exchangeAgent.Some?)
      && pendingReplyWith.None? && pendingAccountId.None?
    }

    constructor(aid: Aid)
      ensures Valid()
      ensures this.aid == aid && exchangeAgent.None? && branches == [] && !isRequestingRates
      ensures !guiReady && ui == [] && sent == [] && inbox == [] && launched == []
    {
      this.aid := aid;
      exchangeAgent := None;
      branches := [];
      isRequestingRates := false;
      pendingReplyWith := None;
      pendingAccountId := None;
      guiReady := false;
      ui := [];
      sent := [];
      inbox := [];
      launched := [];
    }

    /** The window comes up (the `invokeLater` in setup). */
    method AttachGui()
      modifies this`guiReady
      ensures guiReady
    {
      guiReady := true;
    }

    /** A message arrives in the queue. */
    method Deliver(m: Message)
      modifies this`inbox
      ensures inbox == old(inbox) + [m]
    {
      inbox := inbox + [m];
    }

    /** `sendRequest`: a REQUEST to one branch, the action as conversation id. */
    method SendRequest(branch: Aid, action: string, content: Text)
      modifies this`sent
      ensures sent == old(sent) + [Message(Request, aid, [branch], action, content, None, None)]
    {
      sent := sent + [Message(Request, aid, [branch], action, content, None, None)];
    }

    /** `refreshBranches`: a non-initial branch discovery. */
    method RefreshBranches()
      modifies this`launched
      ensures launched == old(launched) + [BranchDiscovery(false)]
    {
      launched := launched + [BranchDiscovery(false)];
    }

    /** `requestExchangeRates`: one request at a time. While one is in flight nothing new is
        launched; a known exchange agent gets the flag set and a request launched; otherwise,
        once the window exists, a discovery is launched. */
    method RequestExchangeRates()
      requires Valid()
      modifies this`isRequestingRates, this`ui, this`launched
      ensures Valid()
      ensures old(isRequestingRates) ==>
        && isRequestingRates && launched == old(launched)
        && ui == Shown(old(ui), guiReady, RatesShown(Lit("Already requesting rates...")))
      ensures !old(isRequestingRates) && exchangeAgent.Some? ==>
        isRequestingRates && launched == old(launched) + [RateRequest] && ui == old(ui)
      ensures !old(isRequestingRates) && exchangeAgent.None? ==>
        && !isRequestingRates
        && launched == old(launched) + (if guiReady then [ExchangeDiscovery] else [])
        && ui == Shown(old(ui), guiReady, RatesShown(Lit("Exchange agent not found. Searching...")))
    {
      if isRequestingRates {
        if guiReady {
          ui := ui + [RatesShown(Lit("Already requesting rates..."))];
        }
        return;
      }
      if exchangeAgent.Some? {
        isRequestingRates := true;
        launched := launched + [RateRequest];
      } else if guiReady {
        ui := ui + [RatesShown(Lit("Exchange agent not found. Searching..."))];
        launched := launched + [ExchangeDiscovery];
      }
    }

    /** RequestRatesBehaviour: the request to the exchange agent, then its timeout, which
        starts now. */
    method RequestRates(now: int)
      requires exchangeAgent.Some?
      modifies this`sent, this`launched
      ensures sent == old(sent) + [Message(Request, aid, [exchangeAgent.value], "GET_EXCHANGE_RATES", Lit("Request rates"), None, None)]
      ensures launched == old(launched) + [RateRequestTimeout(now)]
    {
      sent := sent + [Message(Request, aid, [exchangeAgent.value], "GET_EXCHANGE_RATES", Lit("Request rates"), None, None)];
      launched := launched + [RateRequestTimeout(now)];
    }

    /** ReceiveRepliesBehaviour: the oldest rates update is taken first and ends the rate
        request; otherwise the oldest message is taken and echoed, unless it is a replicated
        balance or a notifications list. */
    method ReceiveReplies()
      requires Valid()
      modifies this`inbox, this`ui, this`isRequestingRates
      ensures Valid()
      ensures match FirstMatch(old(inbox), Conversation("EXCHANGE_RATES_UPDATE"))
        case Some(k) =>
          && inbox == Remove(old(inbox), k) && !isRequestingRates
          && ui == Shown(old(ui), guiReady, RatesShown(old(inbox)[k].content))
        case None =>
          && isRequestingRates == old(isRequestingRates)
          && (old(inbox) == [] ==> inbox == [] && ui == old(ui))
          && (old(inbox) != [] ==>
                && inbox == old(inbox)[1..]
                && ui == match Echo(old(inbox)[0]) case None => old(ui) case Some(e) => Shown(old(ui), guiReady, e))
    {
      var k := FirstMatch(inbox, Conversation("EXCHANGE_RATES_UPDATE"));
      if k.Some? {
        var msg := inbox[k.value];
        inbox := Remove(inbox, k.value);
        if guiReady {
          ui := ui + [RatesShown(msg.content)];
        }
        isRequestingRates := false;
        return;
      }
      if inbox == [] {
        return;  // block()
      }
      var msg := inbox[0];
      inbox := inbox[1..];
      if msg.conversationId == "SYNC_ACCOUNT" {
        return;
      }
      if msg.conversationId == "NOTIFICATIONS_LIST" {
        return;
      }
      if guiReady {
        ui := ui + [OutputAppended(Lit("[") + Lit(msg.sender) + Lit("] ") + msg.content)];
      }
    }

    /** RequestNotificationsBehaviour: with a notification agent found, send GET_NOTIFICATIONS
        tagged for this account and this millisecond, then wait for the first queued or
        arriving NOTIFICATIONS_LIST in reply to exactly that tag; the reply's text, or a
        timeout text, goes to the window. The pending slot is cleared on every exit path. */
    method RequestNotifications(accountId: Text, lookup: Lookup, now: int, arrivals: seq<Message>)
      requires Valid()
      modifies this`pendingReplyWith, this`pendingAccountId, this`sent, this`inbox, this`ui
      ensures Valid()
      ensures lookup.Failed? ==>
        && sent == old(sent) && inbox == old(inbox)
        && ui == Shown(old(ui), guiReady, NotificationShown(Lit("Error: ") + lookup.reason))
      ensures lookup == Found([]) ==>
        && sent == old(sent) && inbox == old(inbox)
        && ui == Shown(old(ui), guiReady, NotificationShown(Lit("Notification agent not found")))
      ensures FoundSome(lookup) ==>
        var tag := NotificationsTag(accountId, now);
        var q := old(inbox) + arrivals;
        && sent == old(sent) + [Message(Request, aid, [lookup.aids[0]], "GET_NOTIFICATIONS", accountId, Some(tag), None)]
        && match FirstMatch(q, NotificationsTemplate(tag))
           case Some(k) =>
             inbox == Remove(q, k) && ui == Shown(old(ui), guiReady, NotificationAreaShown(q[k].content))
           case None =>
             && inbox == q
             && ui == Shown(old(ui), guiReady, NotificationAreaShown(
                  Lit("Timed out loading notifications for ") + accountId + Lit(". Please try again.")))
    {
      if lookup.Failed? {
        pendingReplyWith := None;
        pendingAccountId := None;
        if guiReady {
          ui := ui + [NotificationShown(Lit("Error: ") + lookup.reason)];
        }
        return;
      }
      if lookup.aids == [] {
        if guiReady {
          ui := ui + [NotificationShown(Lit("Notification agent not found"))];
        }
        return;
      }
      var notificationAgent := lookup.aids[0];
      var correlationId := NotificationsTag(accountId, now);
      pendingReplyWith := Some(correlationId);
      pendingAccountId := Some(accountId);
      sent := sent + [Message(Request, aid, [notificationAgent], "GET_NOTIFICATIONS", accountId, Some(correlationId), None)];
      inbox := inbox + arrivals;
      var k := FirstMatch(inbox, NotificationsTemplate(correlationId));
      if k.Some? {
        var reply := inbox[k.value];
        inbox := Remove(inbox, k.value);
        pendingReplyWith := None;
        pendingAccountId := None;
        if guiReady {
          ui := ui + [NotificationAreaShown(reply.content)];
        }
      } else {
        pendingReplyWith := None;
        pendingAccountId := None;
        if guiReady {
          ui := ui + [NotificationAreaShown(Lit("Timed out loading notifications for ") + accountId + Lit(". Please try again."))];
        }
      }
    }

    /** SetThresholdBehaviour: `accountId;threshold` to the first notification agent found. */
    method SetLowBalanceThreshold(accountId: Text, threshold: Text, lookup: Lookup)
      modifies this`sent
      ensures sent == old(sent) + if FoundSome(lookup) then
        [Message(Request, aid, [lookup.aids[0]], "SET_LOW_BALANCE_THRESHOLD", ThresholdPayload(accountId, threshold), None, None)]
        else []
    {
      if FoundSome(lookup) {
        sent := sent + [Message(Request, aid, [lookup.aids[0]], "SET_LOW_BALANCE_THRESHOLD", accountId + [Semi] + threshold, None, None)];
      }
    }

    /** ClearNotificationsBehaviour: the account id to the first notification agent found. */
    method ClearNotifications(accountId: Text, lookup: Lookup)
      modifies this`sent
      ensures sent == old(sent) + if FoundSome(lookup) then
        [Message(Request, aid, [lookup.aids[0]], "CLEAR_NOTIFICATIONS", accountId, None, None)]
        else []
    {
      if FoundSome(lookup) {
        sent := sent + [Message(Request, aid, [lookup.aids[0]], "CLEAR_NOTIFICATIONS", accountId, None, None)];
      }
    }
  }

  // ---------------------------------------------------------------------------------------
  // The behaviours with their own counters

  /** InitialDiscoveryBehaviour. */
  class InitialDiscovery {
    const agent: GuiAgent
    var step: nat

    constructor(agent: GuiAgent)
      ensures this.agent == agent && step == 0
    {
      this.agent := agent;
      step := 0;
    }

    predicate Done()
      reads this
    {
      step >= 3
    }

    /** One action: step 0 only waits; steps 1 and 2 launch their discovery. */
    method Action()
      requires !Done()
      modifies this`step, agent`launched
      ensures step == old(step) + 1
      ensures agent.launched == old(agent.launched) + InitialLaunch(old(step))
    {
      if step == 0 {
        step := 1;
      } else if step == 1 {
        agent.launched := agent.launched + [BranchDiscovery(true)];
        step := 2;
      } else {
        agent.launched := agent.launched + [ExchangeDiscovery];
        step := 3;
      }
    }
  }

  /** DiscoverBranchesBehaviour. */
  class DiscoverBranches {
    const agent: GuiAgent
    const isInitial: bool
    var attempts: nat

    constructor(agent: GuiAgent, isInitial: bool)
      ensures this.agent == agent && this.isInitial == isInitial && attempts == 0
    {
      this.agent := agent;
      this.isInitial := isInitial;
      attempts := 0;
    }

    function State(): BranchSearch
      reads this, agent
    {
      BranchSearch(attempts, agent.branches)
    }

    predicate Done()
      reads this, agent
    {
      BranchSearchDone(State())
    }

    /** One action on one search result. The scheduler runs the first action unconditionally
        and the later ones only while not done, so there are attempts left before each. */
    method Action(r: Lookup)
      requires attempts < MaxAttempts
      modifies this`attempts, agent`branches, agent`ui
      ensures State() == BranchRound(old(State()), r)
      ensures attempts <= MaxAttempts
      ensures agent.ui == match BranchRoundUi(isInitial, attempts, r)
        case None => old(agent.ui)
        case Some(e) => Shown(old(agent.ui), agent.guiReady, e)
    {
      match r
      case Found(foundBranches) =>
        agent.branches := foundBranches;
        if foundBranches != [] {
          if agent.guiReady {
            agent.ui := agent.ui + [BranchesShown(foundBranches)];
          }
        } else {
          attempts := attempts + 1;
          if !isInitial && agent.guiReady {
            agent.ui := agent.ui + [OutputAppended(Lit("No branches found (attempt ") + [Long(attempts)] + Lit(")"))];
          }
        }
      case Failed(reason) =>
        attempts := attempts + 1;
        if attempts == 1 && agent.guiReady {
          agent.ui := agent.ui + [OutputAppended(Lit("Error searching for branches: ") + reason)];
        }
    }
  }

  /** DiscoverExchangeAgentBehaviour. */
  class DiscoverExchange {
    const agent: GuiAgent
    var attempts: nat

    constructor(agent: GuiAgent)
      ensures this.agent == agent && attempts == 0
    {
      this.agent := agent;
      attempts := 0;
    }

    function State(): ExchangeSearch
      reads this, agent
    {
      ExchangeSearch(attempts, agent.exchangeAgent)
    }

    predicate Done()
      reads this, agent
    {
      ExchangeSearchDone(State())
    }

    /** One action on one search result. Finding the agent asks for rates straight away,
        which, no request being in flight yet, sets the flag and launches one. */
    method Action(r: Lookup)
      requires attempts < MaxAttempts
      requires agent.Valid()
      modifies this`attempts, agent`exchangeAgent, agent`isRequestingRates, agent`ui, agent`launched
      ensures agent.Valid()
      ensures State() == ExchangeRound(old(State()), r)
      ensures attempts <= MaxAttempts
      ensures old(agent.exchangeAgent).None? && FoundSome(r) ==>
        agent.isRequestingRates && agent.launched == old(agent.launched) + [RateRequest] && agent.ui == old(agent.ui)
      ensures !(old(agent.exchangeAgent).None? && FoundSome(r)) ==>
        agent.isRequestingRates == old(agent.isRequestingRates) && agent.launched == old(agent.launched)
      ensures old(agent.exchangeAgent).Some? ==> agent.ui == old(agent.ui)
      ensures old(agent.exchangeAgent).None? && r == Found([]) ==>
        agent.ui == if attempts <= 3 then Shown(old(agent.ui), agent.guiReady, RatesShown(Lit("Looking for exchange agent..."))) else old(agent.ui)
      ensures old(agent.exchangeAgent).None? && r.Failed? ==>
        agent.ui == if attempts == 1 then Shown(old(agent.ui), agent.guiReady, RatesShown(Lit("Error: ") + r.reason)) else old(agent.ui)
    {
      if agent.exchangeAgent.Some? {
        return;
      }
      match r
      case Found(results) =>
        if |results| > 0 {
          agent.exchangeAgent := Some(results[0]);
          agent.RequestExchangeRates();
        } else {
          attempts := attempts + 1;
          if agent.guiReady && attempts <= 3 {
            agent.ui := agent.ui + [RatesShown(Lit("Looking for exchange agent..."))];
          }
        }
      case Failed(reason) =>
        attempts := attempts + 1;
        if agent.guiReady && attempts == 1 {
          agent.ui := agent.ui + [RatesShown(Lit("Error: ") + reason)];
        }
    }
  }

  /** RateRequestTimeoutBehaviour. */
  class RateTimeoutWatch {
    const agent: GuiAgent
    const start: int

    constructor(agent: GuiAgent, start: int)
      ensures this.agent == agent && this.start == start
    {
      this.agent := agent;
      this.start := start;
    }

    /** Done once the flag is down or the time is up. */
    predicate Done(now: int)
      reads agent
    {
      !agent.isRequestingRates || now - start > RateTimeout
    }

    /** One action: past the timeout the flag is cleared and the window told; before it,
        nothing changes. */
    method Action(now: int)
      requires agent.Valid()
      modifies agent`isRequestingRates, agent`ui
      ensures agent.Valid()
      ensures now - start > RateTimeout ==>
        && !agent.isRequestingRates
        && agent.ui == Shown(old(agent.ui), agent.guiReady, RatesShown(Lit("Rate request timed out")))
        && forall later :: Done(later)
      ensures now - start <= RateTimeout ==>
        agent.isRequestingRates == old(agent.isRequestingRates) && agent.ui == old(agent.ui)
    {
      if now - start > RateTimeout {
        if agent.guiReady {
          agent.ui := agent.ui + [RatesShown(Lit("Rate request timed out"))];
        }
        agent.isRequestingRates := false;
      }
    }
  }
  // ---------------------------------------------------------------------------------------
  // Two runs of the rate-request timeout as written, and a watch tied to its own request

  /** `action()` and `done()` read the clock separately. An action at exactly 5000 ms does
      not clear the flag, and the `done()` test a millisecond later ends the behaviour anyway.
      The next rate request, and any later one while nothing lowers the flag, is answered
      "Already requesting rates...". */
  method StaleClockLeavesFlagUp(me: Aid, exchange: Aid) returns (agent: GuiAgent, watch: RateTimeoutWatch)
    ensures watch.agent == agent && watch.Done(5001)
    ensures agent.isRequestingRates
    ensures agent.launched == [RateRequest, RateRequestTimeout(0)]
    ensures agent.ui == [RatesShown(Lit("Already requesting rates..."))]
  {
    agent := new GuiAgent(me);
    agent.exchangeAgent := Some(exchange);
    agent.AttachGui();
    agent.RequestExchangeRates();
    agent.RequestRates(0);
    watch := new RateTimeoutWatch(agent, 0);
    watch.Action(5000);
    agent.RequestExchangeRates();
  }

  /** The first half of the run below: a rate request at 0 ms whose watch acts every second
      (`block(1000)`) without ending, then a rates update that wakes the watch at 4600 ms
      before `ReceiveReplies` takes it and ends the request. */
  method FirstRequestAnswered(me: Aid, exchange: Aid) returns (agent: GuiAgent, first: RateTimeoutWatch)
    ensures fresh(agent) && first.agent == agent && first.start == 0
    ensures agent.Valid() && !agent.isRequestingRates && agent.exchangeAgent == Some(exchange)
    ensures agent.aid == me && agent.inbox == []
    ensures agent.sent == [Message(Request, me, [exchange], "GET_EXCHANGE_RATES", Lit("Request rates"), None, None)]
    ensures agent.launched == [RateRequest, RateRequestTimeout(0)]
  {
    agent := new GuiAgent(me);
    agent.exchangeAgent := Some(exchange);
    agent.RequestExchangeRates();
    agent.RequestRates(0);
    first := new RateTimeoutWatch(agent, 0);
    first.Action(1000);
    assert !first.Done(1000);
    first.Action(2000);
    assert !first.Done(2000);
    first.Action(3000);
    assert !first.Done(3000);
    first.Action(4000);
    assert !first.Done(4000);
    var update := Message(Inform, exchange, [me], "EXCHANGE_RATES_UPDATE", Lit("rates"), None, None);
    agent.Deliver(update);
    first.Action(4600);
    assert !first.Done(4600);
    assert FirstMatch(agent.inbox, Conversation("EXCHANGE_RATES_UPDATE")) == Some(0);
    agent.ReceiveReplies();
  }

  /** A watch is tied only to its start time. When a rates update ends the first request
      between two of its watch's actions and a second request starts before the next one, the
      first request's watch, once past its timeout, clears the flag while the second request
      is still within its own 5000 ms. */
  method LeftoverWatchClearsNewerRequest(me: Aid, exchange: Aid)
    returns (agent: GuiAgent, first: RateTimeoutWatch, second: RateTimeoutWatch)
    ensures first.agent == agent && second.agent == agent
    ensures 5600 - first.start > RateTimeout && 5600 - second.start <= RateTimeout
    ensures var request := Message(Request, me, [exchange], "GET_EXCHANGE_RATES", Lit("Request rates"), None, None);
      agent.sent == [request, request]
    ensures agent.inbox == [] && !agent.isRequestingRates
    ensures agent.launched == [RateRequest, RateRequestTimeout(0), RateRequest, RateRequestTimeout(4700)]
  {
    agent, first := FirstRequestAnswered(me, exchange);
    agent.RequestExchangeRates();
    agent.RequestRates(4700);
    second := new RateTimeoutWatch(agent, 4700);
    assert agent.isRequestingRates && !first.Done(4700);
    first.Action(5600);
  }

  /** A timeout watch that knows its request (how many rate requests had been sent when it
      started) and whose `done()` follows its own action's decision rather than a second
      clock reading. */
  class OwnRateTimeoutWatch {
    const agent: GuiAgent
    const start: int
    const request: nat
    var finished: bool

    constructor(agent: GuiAgent, start: int)
      ensures this.agent == agent && this.start == start && !finished
      ensures request == CountConversation(agent.sent, "GET_EXCHANGE_RATES")
    {
      this.agent := agent;
      this.start := start;
      request := CountConversation(agent.sent, "GET_EXCHANGE_RATES");
      finished := false;
    }

    /** A newer rate request has been sent since this watch started. */
    predicate Superseded()
      reads agent
    {
      CountConversation(agent.sent, "GET_EXCHANGE_RATES") != request
    }

    predicate Done()
      reads this, agent
    {
      !agent.isRequestingRates || finished
    }

    /** One action: a superseded watch stops without touching the flag; past the timeout
        its own request is ended; before it, nothing changes. After any action the watch is
        done only once the flag is down or the flag belongs to a newer request. */
    method Action(now: int)
      requires agent.Valid()
      modifies this`finished, agent`isRequestingRates, agent`ui
      ensures agent.Valid()
      ensures Superseded() ==>
        agent.isRequestingRates == old(agent.isRequestingRates) && agent.ui == old(agent.ui) && finished
      ensures !Superseded() && now - start > RateTimeout ==>
        && !agent.isRequestingRates && finished
        && agent.ui == Shown(old(agent.ui), agent.guiReady, RatesShown(Lit("Rate request timed out")))
      ensures !Superseded() && now - start <= RateTimeout ==>
        agent.isRequestingRates == old(agent.isRequestingRates) && agent.ui == old(agent.ui) && !finished
      ensures Done() ==> !agent.isRequestingRates || Superseded()
    {
      if CountConversation(agent.sent, "GET_EXCHANGE_RATES") != request {
        finished := true;
      } else if now - start > RateTimeout {
        if agent.guiReady {
          agent.ui := agent.ui + [RatesShown(Lit("Rate request timed out"))];
        }
        agent.isRequestingRates := false;
        finished := true;
      } else {
        finished := false;
      }
    }
  }
}
