/**
 * What the endpoint table promises once `build_request` has prepared a call:
 * which optional keys are sent, and how the raw routes end up formatted.
 */
module EndpointProperties {

  import opened PhpArrays
  import opened Requests
  import opened Endpoints

  /** A raw route: the resource, a dot, the format, then a query string. */
  function RawRoute(resource: string, format: string, query: string): string
  {
    resource + "." + format + query
  }

  /**
   * `add_draft_campaign` sends its seven fixed keys in order, then `ReplyTo`
   * exactly when the reply-to address is not '' and `TextUrl` exactly when
   * the text URL is not '', each with the given value.
   */
  lemma DraftCampaignOptionalKeys(name: Value, subject: Value, fromName: Value, fromEmail: Value, htmlUrl: Value,
                                  listIds: Value, segmentIds: Value, replyTo: Value, textUrl: Value)
    ensures var a := DraftCampaignArgs(name, subject, fromName, fromEmail, htmlUrl, listIds, segmentIds, replyTo,
                                       textUrl);
            && Keys(a) == ["Name", "Subject", "FromName", "FromEmail", "HtmlUrl", "ListIDs", "SegmentIDs"]
                          + (if replyTo != Str("") then ["ReplyTo"] else [])
                          + (if textUrl != Str("") then ["TextUrl"] else [])
            && (HasKey(a, "ReplyTo") <==> replyTo != Str(""))
            && (HasKey(a, "TextUrl") <==> textUrl != Str(""))
            && (replyTo != Str("") ==> Lookup(a, "ReplyTo") == Some(replyTo))
            && (textUrl != Str("") ==> Lookup(a, "TextUrl") == Some(textUrl))
  {
    var base := [("Name", name), ("Subject", subject), ("FromName", fromName), ("FromEmail", fromEmail),
                 ("HtmlUrl", htmlUrl), ("ListIDs", listIds), ("SegmentIDs", segmentIds)];
    assert Keys(base) == ["Name", "Subject", "FromName", "FromEmail", "HtmlUrl", "ListIDs", "SegmentIDs"];
    TwoOptionalKeys(base, "ReplyTo", replyTo, replyTo != Str(""), "TextUrl", textUrl, textUrl != Str(""));
  }

  /** `update_segment` sends `Title`, then `RuleGroups` exactly when the rule groups are not ''. */
  lemma UpdateSegmentOptionalKey(title: Value, ruleGroups: Value)
    ensures var a := UpdateSegmentArgs(title, ruleGroups);
            && Keys(a) == ["Title"] + (if ruleGroups != Str("") then ["RuleGroups"] else [])
            && Lookup(a, "Title") == Some(title)
            && (HasKey(a, "RuleGroups") <==> ruleGroups != Str(""))
            && (ruleGroups != Str("") ==> Lookup(a, "RuleGroups") == Some(ruleGroups))
  {
    assert Keys([("Title", title)]) == ["Title"];
    PutIfFresh([("Title", title)], "RuleGroups", ruleGroups, ruleGroups != Str(""));
  }

  /**
   * `send_classic_email` sends its eleven fixed keys, then `Text`, `Group`
   * and `AddRecipientsToListID`, each exactly when its parameter is not false.
   */
  lemma ClassicEmailOptionalKeys(subject: Value, from: Value, replyTo: Value, to: Value, cc: Value, bcc: Value,
                                 html: Value, text: Value, attachments: Value, trackOpens: Value, trackClicks: Value,
                                 inlineCss: Value, group: Value, addRecipsToList: Value)
    ensures var a := ClassicEmailArgs(subject, from, replyTo, to, cc, bcc, html, text, attachments, trackOpens,
                                      trackClicks, inlineCss, group, addRecipsToList);
            && Keys(a) == ["Subject", "From", "ReplyTo", "To", "CC", "BCC", "Html", "Attachments", "TrackOpens",
                           "TrackClicks", "InlineCSS"]
                          + (if text != Bool(false) then ["Text"] else [])
                          + (if group != Bool(false) then ["Group"] else [])
                          + (if addRecipsToList != Bool(false) then ["AddRecipientsToListID"] else [])
            && (HasKey(a, "Text") <==> text != Bool(false))
            && (HasKey(a, "Group") <==> group != Bool(false))
            && (HasKey(a, "AddRecipientsToListID") <==> addRecipsToList != Bool(false))
            && (text != Bool(false) ==> Lookup(a, "Text") == Some(text))
            && (group != Bool(false) ==> Lookup(a, "Group") == Some(group))
            && (addRecipsToList != Bool(false) ==> Lookup(a, "AddRecipientsToListID") == Some(addRecipsToList))
  {
    var a0 := [("Subject", subject), ("From", from), ("ReplyTo", replyTo), ("To", to), ("CC", cc), ("BCC", bcc),
               ("Html", html), ("Attachments", attachments), ("TrackOpens", trackOpens),
               ("TrackClicks", trackClicks), ("InlineCSS", inlineCss)];
    ClassicEmailFixedKeys(a0);
    ThreeOptionalKeys(a0, "Text", text, text != Bool(false), "Group", group, group != Bool(false),
                      "AddRecipientsToListID", addRecipsToList, addRecipsToList != Bool(false));
  }

  /** The eleven keys `send_classic_email` always sends, none of them optional. */
  lemma ClassicEmailFixedKeys(a0: Entries)
    requires |a0| == 11
    requires a0[0].0 == "Subject" && a0[1].0 == "From" && a0[2].0 == "ReplyTo" && a0[3].0 == "To"
    requires a0[4].0 == "CC" && a0[5].0 == "BCC" && a0[6].0 == "Html" && a0[7].0 == "Attachments"
    requires a0[8].0 == "TrackOpens" && a0[9].0 == "TrackClicks" && a0[10].0 == "InlineCSS"
    ensures Keys(a0) == ["Subject", "From", "ReplyTo", "To", "CC", "BCC", "Html", "Attachments", "TrackOpens",
                         "TrackClicks", "InlineCSS"]
    ensures "Text" !in Keys(a0) && "Group" !in Keys(a0) && "AddRecipientsToListID" !in Keys(a0)
  {
  }

  /**
   * `get_list_message_timeline` sends `group`, `count`, `status` and
   * `clientID`, then `sentBeforeID` and `sentAfterID`, each exactly when its
   * parameter is not null.
   */
  lemma TimelineOptionalKeys(group: Value, sentBeforeId: Value, sentAfterId: Value, count: Value, status: Value,
                             clientId: Value)
    ensures var a := TimelineArgs(group, sentBeforeId, sentAfterId, count, status, clientId);
            && Keys(a) == ["group", "count", "status", "clientID"]
                          + (if sentBeforeId != Null then ["sentBeforeID"] else [])
                          + (if sentAfterId != Null then ["sentAfterID"] else [])
            && (HasKey(a, "sentBeforeID") <==> sentBeforeId != Null)
            && (HasKey(a, "sentAfterID") <==> sentAfterId != Null)
            && (sentBeforeId != Null ==> Lookup(a, "sentBeforeID") == Some(sentBeforeId))
            && (sentAfterId != Null ==> Lookup(a, "sentAfterID") == Some(sentAfterId))
  {
    var base := [("group", group), ("count", count), ("status", status), ("clientID", clientId)];
    assert Keys(base) == ["group", "count", "status", "clientID"];
    TwoOptionalKeys(base, "sentBeforeID", sentBeforeId, sentBeforeId != Null,
                    "sentAfterID", sentAfterId, sentAfterId != Null);
  }

  /** Two keys the array lacks, each set only under its own condition. */
  lemma TwoOptionalKeys(a: Entries, k1: string, v1: Value, c1: bool, k2: string, v2: Value, c2: bool)
    requires k1 !in Keys(a) && k2 !in Keys(a) && k1 != k2
    ensures var r := PutIf(PutIf(a, k1, v1, c1), k2, v2, c2);
            && Keys(r) == Keys(a) + (if c1 then [k1] else []) + (if c2 then [k2] else [])
            && (HasKey(r, k1) <==> c1)
            && (HasKey(r, k2) <==> c2)
            && (c1 ==> Lookup(r, k1) == Some(v1))
            && (c2 ==> Lookup(r, k2) == Some(v2))
  {
    var mid := PutIf(a, k1, v1, c1);
    PutIfFresh(a, k1, v1, c1);
    PutIfFresh(mid, k2, v2, c2);
    HasKeyLookup(PutIf(mid, k2, v2, c2), k1);
  }

  /** Three keys the array lacks, each set only under its own condition. */
  lemma ThreeOptionalKeys(a: Entries, k1: string, v1: Value, c1: bool, k2: string, v2: Value, c2: bool,
                          k3: string, v3: Value, c3: bool)
    requires k1 !in Keys(a) && k2 !in Keys(a) && k3 !in Keys(a) && k1 != k2 && k1 != k3 && k2 != k3
    ensures var r := PutIf(PutIf(PutIf(a, k1, v1, c1), k2, v2, c2), k3, v3, c3);
            && Keys(r) == Keys(a) + (if c1 then [k1] else []) + (if c2 then [k2] else []) + (if c3 then [k3] else [])
            && (HasKey(r, k1) <==> c1)
            && (HasKey(r, k2) <==> c2)
            && (HasKey(r, k3) <==> c3)
            && (c1 ==> Lookup(r, k1) == Some(v1))
            && (c2 ==> Lookup(r, k2) == Some(v2))
            && (c3 ==> Lookup(r, k3) == Some(v3))
  {
    var mid := PutIf(PutIf(a, k1, v1, c1), k2, v2, c2);
    TwoOptionalKeys(a, k1, v1, c1, k2, v2, c2);
    PutIfFresh(mid, k3, v3, c3);
    HasKeyLookup(PutIf(mid, k3, v3, c3), k1);
    HasKeyLookup(PutIf(mid, k3, v3, c3), k2);
  }

  /** Whether a key is present is read off its lookup. */
  lemma HasKeyLookup(a: Entries, k: string)
    ensures HasKey(a, k) <==> Lookup(a, k).Some?
  {
  }

  /**
   * The raw routes that carry the format and pass the raw-path flag are
   * prepared with the format exactly once, before the query string.
   */
  lemma RawRoutesSingleSuffix(format: string, prettyPrint: bool, clientId: string, email: string)
    ensures Prepare(format, prettyPrint, ClientCall(format, UnsuppressEmailAddress(clientId, email))).request
            == RawRoute("/clients/" + clientId + "/unsuppress", format, EmailQuery(email))
    ensures Prepare(format, prettyPrint, ClientCall(format, DeletePerson(clientId, email))).request
            == RawRoute("/clients/" + clientId + "/people", format, EmailQuery(email))
    ensures Prepare(format, prettyPrint, ClientCall(format, SetPrimaryContact(clientId, email))).request
            == RawRoute("/clients/" + clientId + "/primarycontact", format, EmailQuery(email))
  {
  }

  /** `update_administrator` is prepared with the format exactly once, before the query string. */
  lemma UpdateAdministratorSingleSuffix(format: string, prettyPrint: bool, email: string, newEmail: string,
                                        newName: Value)
    ensures Prepare(format, prettyPrint, AccountCall(format, UpdateAdministrator(email, newEmail, newName))).request
            == RawRoute("/admins", format, EmailQuery(email))
  {
  }

  /** The transactional routes are handed on without any format suffix. */
  lemma TransactionalRoutesUnsuffixed(format: string, prettyPrint: bool, op: TransactionalOp)
    ensures Prepare(format, prettyPrint, TransactionalCall(op)).request == TransactionalCall(op).request
  {
  }

  /** Every other endpoint's route gets `.` and the format appended. */
  lemma FormattedRoutes(format: string, prettyPrint: bool, e: Endpoint)
    requires !e.Transactional?
    requires !(e.Account? && (e.account.UpdateAdministrator? || e.account.DeleteAdmin? || e.account.SetPrimaryAccount?))
    requires !(e.Clients? && (e.client.UnsuppressEmailAddress? || e.client.DeletePerson? || e.client.SetPrimaryContact?))
    ensures Prepare(format, prettyPrint, CallOf(format, e)).request == CallOf(format, e).request + "." + format
  {
  }

  /** Every account route is absolute. */
  lemma AccountRoutes(format: string, op: AccountOp)
    ensures StartsWith(AccountCall(format, op).request, "/")
  {
  }

  /** Every campaign route lies under `/campaigns/`. */
  lemma CampaignRoutes(op: CampaignOp)
    ensures StartsWith(CampaignCall(op).request, "/campaigns/")
  {
  }

  /** Every client route starts with `/clients`. */
  lemma ClientRoutes(format: string, op: ClientOp)
    ensures StartsWith(ClientCall(format, op).request, "/clients")
  {
  }

  /** Every list route lies under `/lists/`. */
  lemma ListRoutes(op: ListOp)
    ensures StartsWith(ListCall(op).request, "/lists/")
  {
  }

  /** Every segment route lies under `/segments/`. */
  lemma SegmentRoutes(op: SegmentOp)
    ensures StartsWith(SegmentCall(op).request, "/segments/")
  {
  }

  /** Every subscriber route lies under `/subscribers/`. */
  lemma SubscriberRoutes(format: string, op: SubscriberOp)
    ensures StartsWith(SubscriberCall(format, op).request, "/subscribers/")
  {
  }

  /** Every template route lies under `/templates/`. */
  lemma TemplateRoutes(op: TemplateOp)
    ensures StartsWith(TemplateCall(op).request, "/templates/")
  {
  }

  /** Every transactional route but the misspelt one lies under `/transactional/`. */
  lemma TransactionalRoutes(op: TransactionalOp)
    requires !op.GetSmartTransactionalEmailList?
    ensures StartsWith(TransactionalCall(op).request, "/transactional/")
  {
  }

  /** With the default format, `get_clients` asks for `/clients.json`. */
  lemma DefaultFormatRoute()
    ensures Prepare("json", false, CallOf("json", Account(GetClients))).request == "/clients.json"
  {
  }
}
