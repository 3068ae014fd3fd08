/**
 * Defects of the endpoint methods, each shown on the calls as written, and
 * the corrected calls with the property the method evidently meant to have.
 * The endpoint table in `Endpoints` keeps the behaviour as written; the
 * corrected table here differs from it only on the defective methods.
 */
module Errata {

  import opened PhpArrays
  import opened Requests
  import opened Endpoints
  import opened EndpointProperties

  // --------------------------------------------------------- As written

  /**
   * `delete_admin` and `set_primary_account` glue the format straight onto
   * the resource: whatever the format, the route that is sent is not
   * `/admins.<format>?email=…` (or `/primarycontact.<format>…`).
   */
  lemma MissingDot(format: string, prettyPrint: bool, email: string)
    ensures Prepare(format, prettyPrint, AccountCall(format, DeleteAdmin(email))).request
            == "/admins" + format + EmailQuery(email)
    ensures Prepare(format, prettyPrint, AccountCall(format, DeleteAdmin(email))).request
            != RawRoute("/admins", format, EmailQuery(email))
    ensures Prepare(format, prettyPrint, AccountCall(format, SetPrimaryAccount(email))).request
            == "/primarycontact" + format + EmailQuery(email)
    ensures Prepare(format, prettyPrint, AccountCall(format, SetPrimaryAccount(email))).request
            != RawRoute("/primarycontact", format, EmailQuery(email))
  {
    assert |"/admins" + format + EmailQuery(email)| + 1 == |RawRoute("/admins", format, EmailQuery(email))|;
    assert |"/primarycontact" + format + EmailQuery(email)| + 1 == |RawRoute("/primarycontact", format, EmailQuery(email))|;
  }

  /** With the default format: `/adminsjson?email=a@b.c`. */
  lemma MissingDotExample()
    ensures Prepare("json", false, AccountCall("json", DeleteAdmin("a@b.c"))).request == "/adminsjson?email=a@b.c"
  {
  }

  /**
   * `delete_subscriber` puts the format into its route but omits the raw-path
   * flag, so `build_request` appends the format a second time, after the
   * query string; the route sent is never the one intended.
   */
  lemma DoubleSuffix(format: string, prettyPrint: bool, listId: string, email: string)
    ensures Prepare(format, prettyPrint, SubscriberCall(format, DeleteSubscriber(listId, email))).request
            == RawRoute("/subscribers/" + listId, format, EmailQuery(email)) + "." + format
    ensures Prepare(format, prettyPrint, SubscriberCall(format, DeleteSubscriber(listId, email))).request
            != RawRoute("/subscribers/" + listId, format, EmailQuery(email))
  {
  }

  /**
   * `add_draft_campaign` builds its route from an undefined variable: the
   * call is the same whichever client id is passed.
   */
  lemma DraftCampaignIgnoresClient(clientId: string, clientId': string, name: Value, subject: Value, fromName: Value,
                                   fromEmail: Value, htmlUrl: Value, listIds: Value, segmentIds: Value,
                                   replyTo: Value, textUrl: Value)
    ensures CampaignCall(AddDraftCampaign(clientId, name, subject, fromName, fromEmail, htmlUrl, listIds, segmentIds,
                                          replyTo, textUrl))
            == CampaignCall(AddDraftCampaign(clientId', name, subject, fromName, fromEmail, htmlUrl, listIds,
                                             segmentIds, replyTo, textUrl))
    ensures CampaignCall(AddDraftCampaign(clientId, name, subject, fromName, fromEmail, htmlUrl, listIds, segmentIds,
                                          replyTo, textUrl)).request == "/campaigns/"
  {
  }

  /** `get_campaign_recipients` sends null as the page size, whatever page size is asked for. */
  lemma RecipientsDropPageSize(campaignId: string, page: Value, pageSize: Value, orderField: Value,
                               orderDirection: Value)
    ensures Lookup(CampaignCall(GetCampaignRecipients(campaignId, page, pageSize, orderField, orderDirection)).args,
                   "pagesize") == Some(Null)
  {
  }

  /**
   * `update_administrator` sends the current address and a null name, so the
   * new address and the new name never reach the API.
   */
  lemma UpdateAdministratorDropsNewValues(format: string, email: string, newEmail: string, newName: Value)
    ensures Lookup(AccountCall(format, UpdateAdministrator(email, newEmail, newName)).args, "EmailAddress")
            == Some(Str(email))
    ensures Lookup(AccountCall(format, UpdateAdministrator(email, newEmail, newName)).args, "Name") == Some(Null)
  {
  }

  /** `get_email_statistics` sends null for the time zone and the client, whatever is passed. */
  lemma StatisticsDropTimezoneAndClient(group: Value, from: Value, to: Value, timeZone: Value, clientId: Value)
    ensures var a := TransactionalCall(GetEmailStatistics(group, from, to, timeZone, clientId)).args;
            Lookup(a, "timezone") == Some(Null) && Lookup(a, "clientID") == Some(Null)
  {
    var a := TransactionalCall(GetEmailStatistics(group, from, to, timeZone, clientId)).args;
    LookupAt(a, 3);
    LookupAt(a, 4);
  }

  /** `get_smart_transactional_email_list` asks for a route outside `/transactional/`. */
  lemma SmartEmailListMisspelt(status: Value, clientId: Value)
    ensures !StartsWith(TransactionalCall(GetSmartTransactionalEmailList(status, clientId)).request, "/transactional/")
  {
    assert TransactionalCall(GetSmartTransactionalEmailList(status, clientId)).request[13] == '/';
  }

  /*
   * The calls below look wrong only when judged against the remote API,
   * which the code does not show; they are recorded as written and not
   * corrected.
   */

  /** `get_list_webhooks` makes exactly the call `get_list_details` makes. */
  lemma ListWebhooksAsDetails(listId: string)
    ensures ListCall(GetListWebhooks(listId)) == ListCall(GetListDetails(listId))
  {
  }

  /** `get_subscriber_history` makes exactly the call `get_subscriber_details` makes. */
  lemma SubscriberHistoryAsDetails(format: string, listId: string, email: string)
    ensures SubscriberCall(format, GetSubscriberHistory(listId, email))
            == SubscriberCall(format, GetSubscriberDetails(listId, email))
  {
  }

  /** `unsubscribe_subscriber` sends the address under `/EmailAddress`, and no `EmailAddress` key. */
  lemma UnsubscribeKeyHasSlash(format: string, listId: string, email: string)
    ensures var a := SubscriberCall(format, UnsubscribeSubscriber(listId, email)).args;
            Lookup(a, "/EmailAddress") == Some(Str(email)) && !HasKey(a, "EmailAddress")
  {
    var a := SubscriberCall(format, UnsubscribeSubscriber(listId, email)).args;
    assert a[0].0 == "/EmailAddress" && a[0].0[0] != 'E';
  }

  /**
   * `suppress_email_address` names no method, so it goes out as a GET and,
   * when pretty printing, carries `pretty` beside the addresses.
   */
  lemma SuppressSentAsGet(format: string, clientId: string, emails: Value)
    ensures var o := Prepare(format, true, ClientCall(format, SuppressEmailAddress(clientId, emails)));
            o.verb == "GET" && Lookup(o.args, "pretty") == Some(Bool(true))
  {
    var a := ClientCall(format, SuppressEmailAddress(clientId, emails)).args;
    assert !HasKey(a, "pretty") by {
      assert a[0].0 != "pretty";
    }
    MergePrettyLookup(a, "pretty");
  }

  /** `get_unconfirmed_subscribers` and `resend_message` ask for `uncomfirmed` and `resent`. */
  lemma MisspeltRoutes(listId: string, messageId: string)
    ensures ListCall(GetUnconfirmedSubscribers(listId)).request == "/lists/" + listId + "/uncomfirmed"
    ensures TransactionalCall(ResendMessage(messageId)).request == "/transactional/messages/" + messageId + "/resent"
  {
  }

  // ----------------------------------------------------------- Corrected

  function FixedAccountCall(format: string, op: AccountOp): (c: Call)
    ensures c.verb in Verbs
    ensures DistinctKeys(c.args)
    ensures c.useOther <==> op.UpdateAdministrator? || op.DeleteAdmin? || op.SetPrimaryAccount?
  {
    match op
    case UpdateAdministrator(email, newEmail, newName) =>
      Call(RawRoute("/admins", format, EmailQuery(email)), [("EmailAddress", Str(newEmail)), ("Name", newName)],
           "PUT", true)
    case DeleteAdmin(email) => Call(RawRoute("/admins", format, EmailQuery(email)), [], "DELETE", true)
    case SetPrimaryAccount(email) => Call(RawRoute("/primarycontact", format, EmailQuery(email)), [], "PUT", true)
    case _ => AccountCall(format, op)
  }

  function FixedCampaignCall(op: CampaignOp): (c: Call)
    ensures c.verb in Verbs
    ensures !c.useOther
  {
    match op
    case AddDraftCampaign(clientId, name, subject, fromName, fromEmail, htmlUrl, listIds, segmentIds, replyTo, textUrl) =>
      Call("/campaigns/" + clientId,
           DraftCampaignArgs(name, subject, fromName, fromEmail, htmlUrl, listIds, segmentIds, replyTo, textUrl),
           "POST")
    case GetCampaignRecipients(campaignId, page, pageSize, orderField, orderDirection) =>
      Call("/campaigns/" + campaignId + "/recipients", Page(page, pageSize, orderField, orderDirection))
    case _ => CampaignCall(op)
  }

  function FixedSubscriberCall(format: string, op: SubscriberOp): (c: Call)
    ensures c.verb in Verbs
    ensures c.useOther <==> op.DeleteSubscriber?
  {
    match op
    case DeleteSubscriber(listId, email) =>
      Call(RawRoute("/subscribers/" + listId, format, EmailQuery(email)), [], "DELETE", true)
    case _ => SubscriberCall(format, op)
  }

  function FixedTransactionalCall(op: TransactionalOp): (c: Call)
    ensures c.verb in Verbs
    ensures c.useOther
  {
    match op
    case GetSmartTransactionalEmailList(status, clientId) =>
      Call("/transactional/smartEmail", [("status", status), ("clientID", clientId)], "GET", true)
    case GetEmailStatistics(group, from, to, timeZone, clientId) =>
      Call("/transactional/statistics",
           [("group", group), ("from", from), ("to", to), ("timezone", timeZone), ("clientID", clientId)],
           "GET", true)
    case _ => TransactionalCall(op)
  }

  /** Corrected, every transactional route lies under `/transactional/`. */
  lemma FixedTransactionalRoutes(op: TransactionalOp)
    ensures StartsWith(FixedTransactionalCall(op).request, "/transactional/")
  {
    if !op.GetSmartTransactionalEmailList? {
      TransactionalRoutes(op);
    }
  }

  /** The endpoint table with the defects corrected. */
  function FixedCallOf(format: string, e: Endpoint): (c: Call)
    ensures c.verb in Verbs
    ensures c.verb == "DELETE" ==> c.args == []
  {
    match e
    case Account(op) => FixedAccountCall(format, op)
    case Campaigns(op) => FixedCampaignCall(op)
    case Subscribers(op) => FixedSubscriberCall(format, op)
    case Transactional(op) => FixedTransactionalCall(op)
    case _ => CallOf(format, e)
  }

  /** The methods whose calls the corrections change. */
  predicate Defective(e: Endpoint)
  {
    || (e.Account? && (e.account.UpdateAdministrator? || e.account.DeleteAdmin? || e.account.SetPrimaryAccount?))
    || (e.Campaigns? && (e.campaign.AddDraftCampaign? || e.campaign.GetCampaignRecipients?))
    || (e.Subscribers? && e.subscriber.DeleteSubscriber?)
    || (e.Transactional? && (e.transactional.GetSmartTransactionalEmailList? || e.transactional.GetEmailStatistics?))
  }

  /** Every other method is called exactly as written. */
  lemma FixedAgreesElsewhere(format: string, e: Endpoint)
    requires !Defective(e)
    ensures FixedCallOf(format, e) == CallOf(format, e)
  {
  }

  /**
   * Corrected, every raw route carries `.` and the format exactly once,
   * before its query string.
   */
  lemma FixedRawRoutes(format: string, prettyPrint: bool, listId: string, email: string)
    ensures Prepare(format, prettyPrint, FixedAccountCall(format, DeleteAdmin(email))).request
            == RawRoute("/admins", format, EmailQuery(email))
    ensures Prepare(format, prettyPrint, FixedAccountCall(format, SetPrimaryAccount(email))).request
            == RawRoute("/primarycontact", format, EmailQuery(email))
    ensures Prepare(format, prettyPrint, FixedSubscriberCall(format, DeleteSubscriber(listId, email))).request
            == RawRoute("/subscribers/" + listId, format, EmailQuery(email))
  {
  }

  /** Corrected, `update_administrator` sends the new address and the new name. */
  lemma FixedUpdateAdministrator(format: string, email: string, newEmail: string, newName: Value)
    ensures var a := FixedAccountCall(format, UpdateAdministrator(email, newEmail, newName)).args;
            Lookup(a, "EmailAddress") == Some(Str(newEmail)) && Lookup(a, "Name") == Some(newName)
  {
  }

  /** Corrected, `add_draft_campaign` posts to the client's own route. */
  lemma FixedDraftCampaignRoute(format: string, prettyPrint: bool, clientId: string, name: Value, subject: Value,
                                fromName: Value, fromEmail: Value, htmlUrl: Value, listIds: Value, segmentIds: Value,
                                replyTo: Value, textUrl: Value)
    ensures Prepare(format, prettyPrint,
                    FixedCampaignCall(AddDraftCampaign(clientId, name, subject, fromName, fromEmail, htmlUrl, listIds,
                                                       segmentIds, replyTo, textUrl))).request
            == "/campaigns/" + clientId + "." + format
  {
  }

  /** Corrected, the page size reaches the arguments. */
  lemma FixedRecipientsPageSize(campaignId: string, page: Value, pageSize: Value, orderField: Value,
                                orderDirection: Value)
    ensures Lookup(FixedCampaignCall(GetCampaignRecipients(campaignId, page, pageSize, orderField,
                                                           orderDirection)).args, "pagesize") == Some(pageSize)
  {
  }

  /** Corrected, the time zone and the client are sent as passed. */
  lemma FixedStatistics(group: Value, from: Value, to: Value, timeZone: Value, clientId: Value)
    ensures var a := FixedTransactionalCall(GetEmailStatistics(group, from, to, timeZone, clientId)).args;
            Lookup(a, "timezone") == Some(timeZone) && Lookup(a, "clientID") == Some(clientId)
  {
    var a := FixedTransactionalCall(GetEmailStatistics(group, from, to, timeZone, clientId)).args;
    assert DistinctKeys(a);
    LookupAt(a, 3);
    LookupAt(a, 4);
  }
}
