/** How the three agents' message formats fit together: what one agent writes, the other
    reads back as intended. */
module Protocol {
  import opened Wire
  import opened Acl
  import Branch
  import Notification
  import Client

  /** A notification agent reads a branch's replicated balance back exactly, for any id
      without `;` (the same reading as a peer branch's). */
  lemma SyncReadByNotifier(id: Text, balance: real)
    requires Semi !in id
    ensures Notification.TwoFields(Branch.SyncPayload(id, balance)) == Some((id, balance))
    ensures Branch.IdAndNumber(Branch.SyncPayload(id, balance)) == Some((id, balance))
  {
    Branch.SyncPayloadRoundTrip(id, balance);
  }

  /** A branch's transaction record is filed under the account it names, or under "system"
      for a blank id. */
  lemma TransactionFiledUnderAccount(id: Text, kind: string, amount: real, before: real, after: real)
    requires Semi !in id
    ensures Notification.TransactionAccount(Branch.TransactionPayload(id, kind, amount, before, after))
            == if IsBlank(id) then Lit("system") else id
  {
    var rest := Lit(kind) + [Semi, Dbl(amount), Semi, Dbl(before), Semi, Dbl(after)];
    assert Branch.TransactionPayload(id, kind, amount, before, after) == id + [Semi] + rest;
    FirstDelimiterAfter(id, rest);
    assert (id + [Semi] + rest)[..|id|] == id;
    assert FirstField(id + [Semi] + rest) == id;
  }

  /** The client's threshold payload is read by the notification agent as that account and
      the typed number, for an id and a threshold without `;`; an empty threshold leaves too
      few fields and the request is ignored. */
  lemma ThresholdPayloadRead(id: Text, threshold: Text)
    requires Semi !in id && Semi !in threshold
    ensures threshold != [] ==>
      Notification.TwoFields(Client.ThresholdPayload(id, threshold)) ==
        match ParseNumber(threshold)
        case None => None
        case Some(x) => Some((id, x))
    ensures threshold == [] ==> Notification.TwoFields(Client.ThresholdPayload(id, threshold)) == None
  {
    var t := Client.ThresholdPayload(id, threshold);
    assert t == Join([id, threshold]);
    if threshold != [] {
      SplitJoin([id, threshold]);
    } else {
      FirstDelimiterAfter(id, []);
      PiecesCons(id, []);
      assert Pieces(t) == [id, []];
      var r := DropTrailingEmpty([id, []]);
      assert r != [id, []];
    }
  }

  /** The notification agent's answer to the client's notifications request is the one the
      client waits for: it goes back to the client and matches the request's template, and no
      other request's template (another account or another millisecond) accepts it. */
  lemma NotificationsReplyCorrelated(gui: Aid, notifier: Aid, account: Text, now: int,
                                     notes: seq<Notification.Note>, other: Text, otherNow: int)
    ensures var tag := Client.NotificationsTag(account, now);
      var request := Message(Request, gui, [notifier], "GET_NOTIFICATIONS", account, Some(tag), None);
      var reply := ReplyTo(request, notifier, "NOTIFICATIONS_LIST", Notification.Listing(account, notes));
      && reply.receivers == [gui]
      && Matches(Client.NotificationsTemplate(tag), reply)
      && ((other, otherNow) != (account, now) ==>
            !Matches(Client.NotificationsTemplate(Client.NotificationsTag(other, otherNow)), reply))
  {
    Client.NotificationsTagInjective(account, now, other, otherNow);
  }
}
