/**
 * The public endpoint methods of `CampaignMonitorAPI` as a table. Each method
 * builds an argument array, sometimes adds keys conditionally or pre-builds a
 * raw route with a query string, and returns `$this->run(...)`; here each one
 * is a constructor carrying the method's parameters, and a function per API
 * section gives the `Call` (route, arguments, HTTP method, raw-path flag)
 * that the method passes to `run`. The only client state a method reads is
 * the response format, which raw routes interpolate.
 *
 * Parameters interpolated into a route, and e-mail addresses sent as
 * arguments, are strings; all others, a client id sent as the `clientID`
 * argument included, are PHP values. The table is the
 * code as written, defects included; the module `Errata` exhibits them.
 */
module Endpoints {

  import opened PhpArrays
  import opened Requests

  /** An undefined variable read in a PHP expression yields null... */
  const Undefined: Value := Null

  /** ...and the empty string when interpolated or concatenated. */
  const UndefinedText: string := ""

  /** The query string `?email=<address>` of the raw routes. */
  function EmailQuery(email: string): string
  {
    "?email=" + email
  }

  /** The arguments of the paged report endpoints that take a date. */
  function DatedPage(date: Value, page: Value, pageSize: Value, orderField: Value, orderDirection: Value): Entries
  {
    [("date", date), ("page", page), ("pagesize", pageSize), ("orderfield", orderField), ("orderdirection", orderDirection)]
  }

  /** The arguments of the paged report endpoints without a date. */
  function Page(page: Value, pageSize: Value, orderField: Value, orderDirection: Value): Entries
  {
    [("page", page), ("pagesize", pageSize), ("orderfield", orderField), ("orderdirection", orderDirection)]
  }

  // ---------------------------------------------------------------- Account

  datatype AccountOp =
    | GetClients
    | GetBillingDetails
    | GetValidCountries
    | GetValidTimezones
    | GetSystemDate
    | AddAdministrator(email: string, name: Value)
    | UpdateAdministrator(email: string, newEmail: string, newName: Value)
    | GetAdministrators
    | GetAdminDetails(email: string)
    | DeleteAdmin(email: string)
    | SetPrimaryAccount(email: string)
    | GetPrimaryAccount
    | SingleSignOn(email: string, url: Value, integratorId: Value, clientId: Value, chrome: Value := Str("None"))

  function AccountCall(format: string, op: AccountOp): (c: Call)
    ensures c.verb in Verbs
    ensures c.verb == "DELETE" ==> c.args == []
    ensures DistinctKeys(c.args)
    ensures c.useOther <==> op.UpdateAdministrator? || op.DeleteAdmin? || op.SetPrimaryAccount?
  {
    match op
    case GetClients => Call("/clients")
    case GetBillingDetails => Call("/billingdetails")
    case GetValidCountries => Call("/countries")
    case GetValidTimezones => Call("/timezones")
    case GetSystemDate => Call("/systemdate")
    case AddAdministrator(email, name) =>
      Call("/admins", [("EmailAddress", Str(email)), ("Name", name)], "POST")
    case UpdateAdministrator(email, newEmail, newName) =>
      // `$name` is undefined here; `$new_email` and `$new_name` are unused
      Call("/admins." + format + EmailQuery(email), [("EmailAddress", Str(email)), ("Name", Undefined)], "PUT", true)
    case GetAdministrators => Call("/admins")
    case GetAdminDetails(email) => Call("/admins", [("email", Str(email))])
    case DeleteAdmin(email) =>
      // no dot between the route and the format
      Call("/admins" + format + EmailQuery(email), [], "DELETE", true)
    case SetPrimaryAccount(email) =>
      Call("/primarycontact" + format + EmailQuery(email), [], "PUT", true)
    case GetPrimaryAccount => Call("/primarycontact")
    case SingleSignOn(email, url, integratorId, clientId, chrome) =>
      Call("/externalsession",
           [("Email", Str(email)), ("Chrome", chrome), ("Url", url), ("IntegratorID", integratorId), ("ClientID", clientId)],
           "PUT")
  }

  // -------------------------------------------------------------- Campaigns

  datatype CampaignOp =
    | AddDraftCampaign(clientId: string, name: Value, subject: Value, fromName: Value, fromEmail: Value,
                       htmlUrl: Value, listIds: Value, segmentIds: Value, replyTo: Value := Str(""), textUrl: Value := Str(""))
    | AddCampaignFromTemplate(clientId: string, campaign: Entries)
    | SendDraftCampaign(campaignId: string, confirmationEmail: Value, sendDate: Value)
    | SendCampaignPreview(campaignId: string, previewRecipients: Value, personalize: Value)
    | GetCampaignSummary(campaignId: string)
    | GetListCampaignClientEmails(campaignId: string)
    | GetListsAndSegmentsCampaign(campaignId: string)
    | GetCampaignRecipients(campaignId: string, page: Value := Int(1), pageSize: Value := Int(1000),
                            orderField: Value := Str("email"), orderDirection: Value := Str("asc"))
    | GetCampaignBounces(campaignId: string, date: Value := Str(""), page: Value := Int(1), pageSize: Value := Int(1000),
                         orderField: Value := Str("email"), orderDirection: Value := Str("asc"))
    | GetCampaignOpens(campaignId: string, date: Value := Str(""), page: Value := Int(1), pageSize: Value := Int(1000),
                       orderField: Value := Str("email"), orderDirection: Value := Str("asc"))
    | GetCampaignClicks(campaignId: string, date: Value := Str(""), page: Value := Int(1), pageSize: Value := Int(1000),
                        orderField: Value := Str("email"), orderDirection: Value := Str("asc"))
    | GetCampaignUnsubscribes(campaignId: string, date: Value := Str(""), page: Value := Int(1), pageSize: Value := Int(1000),
                              orderField: Value := Str("email"), orderDirection: Value := Str("asc"))
    | GetCampaignSpamComplaints(campaignId: string, date: Value := Str(""), page: Value := Int(1), pageSize: Value := Int(1000),
                                orderField: Value := Str("email"), orderDirection: Value := Str("asc"))
    | DeleteCampaign(campaignId: string)
    | UnscheduleCampaign(campaignId: string)

  /** The arguments of `add_draft_campaign`: two keys only when their parameter is not ''. */
  function DraftCampaignArgs(name: Value, subject: Value, fromName: Value, fromEmail: Value, htmlUrl: Value,
                             listIds: Value, segmentIds: Value, replyTo: Value, textUrl: Value): (r: Entries)
    ensures DistinctKeys(r)
  {
    var args := [("Name", name), ("Subject", subject), ("FromName", fromName), ("FromEmail", fromEmail),
                 ("HtmlUrl", htmlUrl), ("ListIDs", listIds), ("SegmentIDs", segmentIds)];
    PutIfDistinct(args, "ReplyTo", replyTo, replyTo != Str(""));
    var args := PutIf(args, "ReplyTo", replyTo, replyTo != Str(""));
    PutIfDistinct(args, "TextUrl", textUrl, textUrl != Str(""));
    PutIf(args, "TextUrl", textUrl, textUrl != Str(""))
  }

  function CampaignCall(op: CampaignOp): (c: Call)
    ensures c.verb in Verbs
    ensures c.verb == "DELETE" ==> c.args == []
    ensures op.AddCampaignFromTemplate? ==> c.args == op.campaign
    ensures !op.AddCampaignFromTemplate? ==> DistinctKeys(c.args)
    ensures !c.useOther
  {
    match op
    case AddDraftCampaign(clientId, name, subject, fromName, fromEmail, htmlUrl, listIds, segmentIds, replyTo, textUrl) =>
      var args := DraftCampaignArgs(name, subject, fromName, fromEmail, htmlUrl, listIds, segmentIds, replyTo, textUrl);
      // `$client_d` is undefined: the client id never reaches the route
      Call("/campaigns/" + UndefinedText, args, "POST")
    case AddCampaignFromTemplate(clientId, campaign) =>
      Call("/campaigns/" + clientId + "/fromtemplate", campaign, "POST")
    case SendDraftCampaign(campaignId, confirmationEmail, sendDate) =>
      Call("/campaigns/" + campaignId + "/send", [("ConfirmationEmail", confirmationEmail), ("SendDate", sendDate)], "POST")
    case SendCampaignPreview(campaignId, previewRecipients, personalize) =>
      Call("/campaigns/" + campaignId + "/sendpreview",
           [("PreviewRecipients", previewRecipients), ("Personalize", personalize)], "POST")
    case GetCampaignSummary(campaignId) => Call("/campaigns/" + campaignId + "/summary")
    case GetListCampaignClientEmails(campaignId) => Call("/campaigns/" + campaignId + "/emailclientusage")
    case GetListsAndSegmentsCampaign(campaignId) => Call("/campaigns/" + campaignId + "/listsandsegments")
    case GetCampaignRecipients(campaignId, page, pageSize, orderField, orderDirection) =>
      // `$paze_size` is undefined: the page size is never sent
      Call("/campaigns/" + campaignId + "/recipients", Page(page, Undefined, orderField, orderDirection))
    case GetCampaignBounces(campaignId, date, page, pageSize, orderField, orderDirection) =>
      Call("/campaigns/" + campaignId + "/bounces", DatedPage(date, page, pageSize, orderField, orderDirection))
    case GetCampaignOpens(campaignId, date, page, pageSize, orderField, orderDirection) =>
      Call("/campaigns/" + campaignId + "/opens", DatedPage(date, page, pageSize, orderField, orderDirection))
    case GetCampaignClicks(campaignId, date, page, pageSize, orderField, orderDirection) =>
      Call("/campaigns/" + campaignId + "/clicks", DatedPage(date, page, pageSize, orderField, orderDirection))
    case GetCampaignUnsubscribes(campaignId, date, page, pageSize, orderField, orderDirection) =>
      Call("/campaigns/" + campaignId + "/unsubscribes", DatedPage(date, page, pageSize, orderField, orderDirection))
    case GetCampaignSpamComplaints(campaignId, date, page, pageSize, orderField, orderDirection) =>
      Call("/campaigns/" + campaignId + "/spam", DatedPage(date, page, pageSize, orderField, orderDirection))
    case DeleteCampaign(campaignId) => Call("/campaigns/" + campaignId, [], "DELETE")
    case UnscheduleCampaign(campaignId) => Call("/campaigns/" + campaignId + "/unschedule", [], "POST")
  }

  // ---------------------------------------------------------------- Clients

  datatype ClientOp =
    | AddClient(companyName: Value, country: Value, timezone: Value)
    | GetClientDetails(clientId: string)
    | GetSentCampaign(clientId: string)
    | GetScheduleCampaign(clientId: string)
    | GetDraftCampaign(clientId: string)
    | GetSubscriberLists(clientId: string)
    | GetListsEmailAddress(clientId: string, email: string)
    | GetSegments(clientId: string)
    | GetSuppressionList(clientId: string, page: Value := Int(1), pageSize: Value := Int(1000),
                         orderField: Value := Str("email"), orderDirection: Value := Str("asc"))
    | SuppressEmailAddress(clientId: string, emailAddresses: Value)
    | UnsuppressEmailAddress(clientId: string, email: string)
    | GetTemplates(clientId: string)
    | UpdateSettingBasicDetails(clientId: string, companyName: Value, country: Value, timezone: Value)
    | SetPaygBilling(clientId: string, currency: Value, canPurchaseCredits: Value, clientPays: Value,
                     markupPercentage: Value, markupOnDelivery: Value, markupPerRecipient: Value,
                     markupOnDesignSpamTest: Value)
    | SetMonthlyBilling(clientId: string, currency: Value, clientPays: Value, markupPercentage: Value,
                        monthlyScheme: Value := Str("Basic"))
    | TransferCredits(clientId: string, credits: Value, canUseMyCredits: Value)
    | DeleteClient(clientId: string)
    | AddPerson(clientId: string, email: string, name: Value, access: Value, pass: Value)
    | UpdatePerson(clientId: string, email: string, name: Value, access: Value, pass: Value)
    | GetPeople(clientId: string)
    | GetPersonDetails(clientId: string, email: string)
    | DeletePerson(clientId: string, email: string)
    | SetPrimaryContact(clientId: string, email: string)
    | GetPrimaryContact(clientId: string)

  function ClientCall(format: string, op: ClientOp): (c: Call)
    ensures c.verb in Verbs
    ensures c.verb == "DELETE" ==> c.args == []
    ensures DistinctKeys(c.args)
    ensures c.useOther <==> op.UnsuppressEmailAddress? || op.DeletePerson? || op.SetPrimaryContact?
  {
    match op
    case AddClient(companyName, country, timezone) =>
      Call("/clients", [("CompanyName", companyName), ("Country", country), ("TimeZone", timezone)], "POST")
    case GetClientDetails(clientId) => Call("/clients/" + clientId)
    case GetSentCampaign(clientId) => Call("/clients/" + clientId + "/campaigns")
    case GetScheduleCampaign(clientId) => Call("/clients/" + clientId + "/scheduled")
    case GetDraftCampaign(clientId) => Call("/clients/" + clientId + "/drafts")
    case GetSubscriberLists(clientId) => Call("/clients/" + clientId + "/lists")
    case GetListsEmailAddress(clientId, email) => Call("/clients/" + clientId + "/listsforemail", [("email", Str(email))])
    case GetSegments(clientId) => Call("/clients/" + clientId + "/segments")
    case GetSuppressionList(clientId, page, pageSize, orderField, orderDirection) =>
      Call("/clients/" + clientId + "/suppressionlist", Page(page, pageSize, orderField, orderDirection))
    case SuppressEmailAddress(clientId, emailAddresses) =>
      // no method given: sent as GET
      Call("/clients/" + clientId + "/suppress", [("EmailAddresses", emailAddresses)])
    case UnsuppressEmailAddress(clientId, email) =>
      Call("/clients/" + clientId + "/unsuppress." + format + EmailQuery(email), [], "PUT", true)
    case GetTemplates(clientId) => Call("/clients/" + clientId + "/templates/")
    case UpdateSettingBasicDetails(clientId, companyName, country, timezone) =>
      Call("/clients/" + clientId + "/setbasics",
           [("CompanyName", companyName), ("Country", country), ("TimeZone", timezone)], "PUT")
    case SetPaygBilling(clientId, currency, canPurchaseCredits, clientPays, markupPercentage,
                        markupOnDelivery, markupPerRecipient, markupOnDesignSpamTest) =>
      Call("/clients/" + clientId + "/setpaygbilling",
           [("Currency", currency), ("CanPurchaseCredits", canPurchaseCredits), ("ClientPays", clientPays),
            ("MarkupPercentage", markupPercentage), ("MarkupOnDelivery", markupOnDelivery),
            ("MarkupPerRecipient", markupPerRecipient), ("MarkupOnDesignSpamTest", markupOnDesignSpamTest)],
           "PUT")
    case SetMonthlyBilling(clientId, currency, clientPays, markupPercentage, monthlyScheme) =>
      Call("/clients/" + clientId + "/setmonthlybilling",
           [("Currency", currency), ("ClientPays", clientPays), ("MarkupPercentage", markupPercentage),
            ("MonthlyScheme", monthlyScheme)],
           "PUT")
    case TransferCredits(clientId, credits, canUseMyCredits) =>
      Call("/clients/" + clientId + "/credits",
           [("Credits", credits), ("CanUseMyCreditsWhenTheyRunOut", canUseMyCredits)], "POST")
    case DeleteClient(clientId) => Call("/clients/" + clientId, [], "DELETE")
    case AddPerson(clientId, email, name, access, pass) =>
      Call("/clients/" + clientId + "/people",
           [("EmailAddress", Str(email)), ("Name", name), ("AccessLevel", access), ("Password", pass)], "POST")
    case UpdatePerson(clientId, email, name, access, pass) =>
      Call("/clients/" + clientId + "/people",
           [("EmailAddress", Str(email)), ("Name", name), ("AccessLevel", access), ("Password", pass)], "PUT")
    case GetPeople(clientId) => Call("/clients/" + clientId + "/people")
    case GetPersonDetails(clientId, email) => Call("/clients/" + clientId + "/people", [("email", Str(email))])
    case DeletePerson(clientId, email) =>
      Call("/clients/" + clientId + "/people." + format + EmailQuery(email), [], "DELETE", true)
    case SetPrimaryContact(clientId, email) =>
      Call("/clients/" + clientId + "/primarycontact." + format + EmailQuery(email), [], "PUT", true)
    case GetPrimaryContact(clientId) => Call("/clients/" + clientId + "/primarycontact")
  }

  // ------------------------------------------------------------------ Lists

  datatype ListOp =
    | AddList(clientId: string, title: Value, unsubPage: Value, unsubSetting: Value, confirmedOptIn: Value,
              confirmationPage: Value)
    | GetListDetails(listId: string)
    | GetListStats(listId: string)
    | GetListCustomFields(listId: string)
    | GetListSegments(listId: string)
    | GetActiveListSubscribers(listId: string, date: Value := Str(""), page: Value := Int(1), pageSize: Value := Int(1000),
                               orderField: Value := Str("date"), orderDirection: Value := Str("asc"))
    | GetUnconfirmedSubscribers(listId: string, date: Value := Str(""), page: Value := Int(1), pageSize: Value := Int(1000),
                                orderField: Value := Str("date"), orderDirection: Value := Str("asc"))
    | GetBouncedSubscriber(listId: string, date: Value := Str(""), page: Value := Int(1), pageSize: Value := Int(1000),
                           orderField: Value := Str("email"), orderDirection: Value := Str("asc"))
    | GetDeletedSubscribers(listId: string, date: Value := Str(""), page: Value := Int(1), pageSize: Value := Int(1000),
                            orderField: Value := Str("email"), orderDirection: Value := Str("asc"))
    | UpdateList(listId: string, title: Value, unsubPage: Value, unsubSetting: Value, confirmedOptIn: Value,
                 confirmationPage: Value, addUnsubsToSuppList: Value, scrubActiveWithSuppList: Value)
    | AddCustomField(listId: string, fieldName: Value, dataType: Value, options: Value, visibleInCenter: Value)
    | UpdateCustomField(listId: string, customFieldKey: string, fieldName: Value, visibleInCenter: Value)
    | SetCustomFieldOptions(listId: string, customFieldKey: string, keepOptions: Value, options: Value)
    | DeleteCustomField(listId: string, customFieldKey: string)
    | DeleteList(listId: string)
    | GetListWebhooks(listId: string)
    | AddWebhook(listId: string, events: Value, url: Value, payloadFormat: Value)
    | GetTestWebhook(listId: string, webhookId: string)
    | DeleteWebhook(listId: string, webhookId: string)
    | AddActiveWebhook(listId: string, webhookId: string)
    | DeleteActiveWebhook(listId: string, webhookId: string)

  function ListCall(op: ListOp): (c: Call)
    ensures c.verb in Verbs
    ensures c.verb == "DELETE" ==> c.args == []
    ensures DistinctKeys(c.args)
    ensures !c.useOther
  {
    match op
    case AddList(clientId, title, unsubPage, unsubSetting, confirmedOptIn, confirmationPage) =>
      Call("/lists/" + clientId,
           [("Title", title), ("UnsubscribePage", unsubPage), ("UnsubscribeSetting", unsubSetting),
            ("ConfirmedOptIn", confirmedOptIn), ("ConfirmationSuccessPage", confirmationPage)],
           "POST")
    case GetListDetails(listId) => Call("/lists/" + listId)
    case GetListStats(listId) => Call("/lists/" + listId + "/stats")
    case GetListCustomFields(listId) => Call("/lists/" + listId + "/customfields")
    case GetListSegments(listId) => Call("/lists/" + listId + "/segments")
    case GetActiveListSubscribers(listId, date, page, pageSize, orderField, orderDirection) =>
      Call("/lists/" + listId + "/active", DatedPage(date, page, pageSize, orderField, orderDirection))
    case GetUnconfirmedSubscribers(listId, date, page, pageSize, orderField, orderDirection) =>
      Call("/lists/" + listId + "/uncomfirmed", DatedPage(date, page, pageSize, orderField, orderDirection))
    case GetBouncedSubscriber(listId, date, page, pageSize, orderField, orderDirection) =>
      Call("/lists/" + listId + "/bounced", DatedPage(date, page, pageSize, orderField, orderDirection))
    case GetDeletedSubscribers(listId, date, page, pageSize, orderField, orderDirection) =>
      Call("/lists/" + listId + "/deleted", DatedPage(date, page, pageSize, orderField, orderDirection))
    case UpdateList(listId, title, unsubPage, unsubSetting, confirmedOptIn, confirmationPage,
                    addUnsubsToSuppList, scrubActiveWithSuppList) =>
      Call("/lists/" + listId,
           [("Title", title), ("UnsubscribePage", unsubPage), ("UnsubscribeSetting", unsubSetting),
            ("ConfirmedOptIn", confirmedOptIn), ("ConfirmationSuccessPage", confirmationPage),
            ("AddUnsubscribesToSuppList", addUnsubsToSuppList), ("ScrubActiveWithSuppList", scrubActiveWithSuppList)],
           "PUT")
    case AddCustomField(listId, fieldName, dataType, options, visibleInCenter) =>
      Call("/lists/" + listId + "/customfields",
           [("FieldName", fieldName), ("DataType", dataType), ("Options", options),
            ("VisibleInPreferenceCenter", visibleInCenter)],
           "POST")
    case UpdateCustomField(listId, customFieldKey, fieldName, visibleInCenter) =>
      Call("/lists/" + listId + "/customfields/" + customFieldKey,
           [("FieldName", fieldName), ("VisibleInPreferenceCenter", visibleInCenter)], "PUT")
    case SetCustomFieldOptions(listId, customFieldKey, keepOptions, options) =>
      Call("/lists/" + listId + "/customfields/" + customFieldKey,
           [("KeepExistingOptions", keepOptions), ("Options", options)], "PUT")
    case DeleteCustomField(listId, customFieldKey) =>
      Call("/lists/" + listId + "/customfields/" + customFieldKey, [], "DELETE")
    case DeleteList(listId) => Call("/lists/" + listId, [], "DELETE")
    case GetListWebhooks(listId) => Call("/lists/" + listId)
    case AddWebhook(listId, events, url, payloadFormat) =>
      Call("/lists/" + listId + "/webhooks", [("Events", events), ("Url", url), ("PayloadFormat", payloadFormat)], "POST")
    case GetTestWebhook(listId, webhookId) => Call("/lists/" + listId + "/webhooks/" + webhookId + "/test")
    case DeleteWebhook(listId, webhookId) => Call("/lists/" + listId + "/webhooks/" + webhookId, [], "DELETE")
    case AddActiveWebhook(listId, webhookId) =>
      Call("/lists/" + listId + "/webhooks/" + webhookId + "/activate", [], "PUT")
    case DeleteActiveWebhook(listId, webhookId) =>
      Call("/lists/" + listId + "/webhooks/" + webhookId + "/deactivate", [], "PUT")
  }

  // --------------------------------------------------------------- Segments

  datatype SegmentOp =
    | AddSegment(listId: string, title: Value, ruleGroups: Value)
    | UpdateSegment(segmentId: string, title: Value, ruleGroups: Value := Str(""))
    | AddSegmentRulegroup(segmentId: string, rules: Value)
    | GetSegmentDetails(segmentId: string)
    | GetActiveSegmentSubscribers(segmentId: string, date: Value := Str(""), page: Value := Int(1),
                                  pageSize: Value := Int(1000), orderField: Value := Str("date"),
                                  orderDirection: Value := Str("asc"))
    | DeleteSegment(segmentId: string)
    | DeleteSegmentRule(segmentId: string)

  /** The arguments of `update_segment`: `RuleGroups` only when the parameter is not ''. */
  function UpdateSegmentArgs(title: Value, ruleGroups: Value): (r: Entries)
    ensures DistinctKeys(r)
  {
    var args := [("Title", title)];
    PutIfDistinct(args, "RuleGroups", ruleGroups, ruleGroups != Str(""));
    PutIf(args, "RuleGroups", ruleGroups, ruleGroups != Str(""))
  }

  function SegmentCall(op: SegmentOp): (c: Call)
    ensures c.verb in Verbs
    ensures c.verb == "DELETE" ==> c.args == []
    ensures DistinctKeys(c.args)
    ensures !c.useOther
  {
    match op
    case AddSegment(listId, title, ruleGroups) =>
      Call("/segments/" + listId, [("Title", title), ("RuleGroups", ruleGroups)], "POST")
    case UpdateSegment(segmentId, title, ruleGroups) =>
      Call("/segments/" + segmentId, UpdateSegmentArgs(title, ruleGroups), "PUT")
    case AddSegmentRulegroup(segmentId, rules) => Call("/segments/" + segmentId + "/rules", [("Rules", rules)], "POST")
    case GetSegmentDetails(segmentId) => Call("/segments/" + segmentId)
    case GetActiveSegmentSubscribers(segmentId, date, page, pageSize, orderField, orderDirection) =>
      Call("/segments/" + segmentId + "/active", DatedPage(date, page, pageSize, orderField, orderDirection))
    case DeleteSegment(segmentId) => Call("/segments/" + segmentId, [], "DELETE")
    case DeleteSegmentRule(segmentId) => Call("/segments/" + segmentId + "/rules", [], "DELETE")
  }

  // ------------------------------------------------------------ Subscribers

  datatype SubscriberOp =
    | AddSubscriber(listId: string, email: string, name: Value, customFields: Value, resub: Value,
                    restartSubBasedAutos: Value)
    | UpdateSubscriber(listId: string, email: string, name: Value, customFields: Value, resub: Value,
                       restartSubBasedAutos: Value)
    | AddSubscribers(listId: string, subs: Value, resub: Value, queueSubBasedAutos: Value, restartSubBasedAutos: Value)
    | GetSubscriberDetails(listId: string, email: string)
    | GetSubscriberHistory(listId: string, email: string)
    | UnsubscribeSubscriber(listId: string, email: string)
    | DeleteSubscriber(listId: string, email: string)

  function SubscriberCall(format: string, op: SubscriberOp): (c: Call)
    ensures c.verb in Verbs
    ensures c.verb == "DELETE" ==> c.args == []
    ensures DistinctKeys(c.args)
    ensures !c.useOther
  {
    match op
    case AddSubscriber(listId, email, name, customFields, resub, restartSubBasedAutos) =>
      Call("/subscribers/" + listId,
           [("EmailAddress", Str(email)), ("Name", name), ("CustomFields", customFields), ("Resubscribe", resub),
            ("RestartSubscriptionBasedAutoresponders", restartSubBasedAutos)],
           "POST")
    case UpdateSubscriber(listId, email, name, customFields, resub, restartSubBasedAutos) =>
      Call("/subscribers/" + listId,
           [("EmailAddress", Str(email)), ("Name", name), ("CustomFields", customFields), ("Resubscribe", resub),
            ("RestartSubscriptionBasedAutoresponders", restartSubBasedAutos)],
           "PUT")
    case AddSubscribers(listId, subs, resub, queueSubBasedAutos, restartSubBasedAutos) =>
      Call("/subscribers/" + listId + "/import",
           [("Subscribers", subs), ("Resubscribe", resub), ("QueueSubscriptionBasedAutoResponders", queueSubBasedAutos),
            ("RestartSubscriptionBasedAutoresponders", restartSubBasedAutos)],
           "POST")
    case GetSubscriberDetails(listId, email) => Call("/subscribers/" + listId, [("email", Str(email))])
    case GetSubscriberHistory(listId, email) => Call("/subscribers/" + listId, [("email", Str(email))])
    case UnsubscribeSubscriber(listId, email) =>
      Call("/subscribers/" + listId + "/unsubscribe", [("/EmailAddress", Str(email))], "POST")
    case DeleteSubscriber(listId, email) =>
      // a raw route with the format and a query string, but without the raw-path flag
      Call("/subscribers/" + listId + "." + format + EmailQuery(email), [], "DELETE")
  }

  // -------------------------------------------------------------- Templates

  datatype TemplateOp =
    | GetTemplate(templateId: string)
    | AddTemplate(clientId: string, name: Value, htmlUrl: Value, zipUrl: Value)
    | UpdateTemplate(templateId: string, name: Value, htmlUrl: Value, zipUrl: Value)
    | DeleteTemplate(templateId: string)

  function TemplateCall(op: TemplateOp): (c: Call)
    ensures c.verb in Verbs
    ensures c.verb == "DELETE" ==> c.args == []
    ensures DistinctKeys(c.args)
    ensures !c.useOther
  {
    match op
    case GetTemplate(templateId) => Call("/templates/" + templateId)
    case AddTemplate(clientId, name, htmlUrl, zipUrl) =>
      Call("/templates/" + clientId, [("Name", name), ("HtmlPageURL", htmlUrl), ("ZipFileURL", zipUrl)], "POST")
    case UpdateTemplate(templateId, name, htmlUrl, zipUrl) =>
      Call("/templates/" + templateId, [("Name", name), ("HtmlPageURL", htmlUrl), ("ZipFileURL", zipUrl)], "PUT")
    case DeleteTemplate(templateId) => Call("/templates/" + templateId, [], "DELETE")
  }

  // ---------------------------------------------------------- Transactional

  datatype TransactionalOp =
    | GetSmartTransactionalEmailList(status: Value, client: Value)
    | GetSmartTransactionalEmailDetails(smartEmailId: string)
    | SendSmartEmail(smartEmailId: string, to: Value, cc: Value, bcc: Value, attachments: Value, data: Value,
                     addRecipsToList: Value)
    | SendClassicEmail(clientId: string, subject: Value, from: Value, replyTo: Value, to: Value, cc: Value,
                       bcc: Value, html: Value, text: Value := Bool(false), attachments: Value := Arr([]),
                       trackOpens: Value := Bool(true), trackClicks: Value := Bool(true),
                       inlineCss: Value := Bool(true), group: Value := Bool(false),
                       addRecipsToList: Value := Bool(false))
    | GetClassicEmailList(client: Value)
    | GetEmailStatistics(group: Value := Str(""), from: Value := Str(""), to: Value := Str(""),
                         timeZone: Value := Str(""), client: Value := Str(""))
    | GetListMessageTimeline(group: Value := Str(""), sentBeforeId: Value := Null, sentAfterId: Value := Null,
                             count: Value := Int(50), status: Value := Str("all"), client: Value := Str(""))
    | GetMessageDetails(messageId: string, statistics: Value := Bool(false))
    | ResendMessage(messageId: string)

  /** The arguments of `send_classic_email`: three keys only when their parameter is not false. */
  function ClassicEmailArgs(subject: Value, from: Value, replyTo: Value, to: Value, cc: Value, bcc: Value,
                            html: Value, text: Value, attachments: Value, trackOpens: Value, trackClicks: Value,
                            inlineCss: Value, group: Value, addRecipsToList: Value): (r: Entries)
    ensures DistinctKeys(r)
  {
    var args := [("Subject", subject), ("From", from), ("ReplyTo", replyTo), ("To", to), ("CC", cc), ("BCC", bcc),
                 ("Html", html), ("Attachments", attachments), ("TrackOpens", trackOpens),
                 ("TrackClicks", trackClicks), ("InlineCSS", inlineCss)];
    PutIfDistinct(args, "Text", text, text != Bool(false));
    var args := PutIf(args, "Text", text, text != Bool(false));
    PutIfDistinct(args, "Group", group, group != Bool(false));
    var args := PutIf(args, "Group", group, group != Bool(false));
    PutIfDistinct(args, "AddRecipientsToListID", addRecipsToList, addRecipsToList != Bool(false));
    PutIf(args, "AddRecipientsToListID", addRecipsToList, addRecipsToList != Bool(false))
  }

  /** The arguments of `get_list_message_timeline`: two keys only when their parameter is not null. */
  function TimelineArgs(group: Value, sentBeforeId: Value, sentAfterId: Value, count: Value, status: Value,
                        clientId: Value): (r: Entries)
    ensures DistinctKeys(r)
  {
    var args := [("group", group), ("count", count), ("status", status), ("clientID", clientId)];
    PutIfDistinct(args, "sentBeforeID", sentBeforeId, sentBeforeId != Null);
    var args := PutIf(args, "sentBeforeID", sentBeforeId, sentBeforeId != Null);
    PutIfDistinct(args, "sentAfterID", sentAfterId, sentAfterId != Null);
    PutIf(args, "sentAfterID", sentAfterId, sentAfterId != Null)
  }

  function TransactionalCall(op: TransactionalOp): (c: Call)
    ensures c.verb in Verbs
    ensures c.verb == "DELETE" ==> c.args == []
    ensures DistinctKeys(c.args)
    ensures c.useOther
  {
    match op
    case GetSmartTransactionalEmailList(status, clientId) =>
      // the route is misspelt in the source
      Call("/transactiona/smartEmail", [("status", status), ("clientID", clientId)], "GET", true)
    case GetSmartTransactionalEmailDetails(smartEmailId) =>
      Call("/transactional/smartEmail/" + smartEmailId, [], "GET", true)
    case SendSmartEmail(smartEmailId, to, cc, bcc, attachments, data, addRecipsToList) =>
      Call("/transactional/smartEmail/" + smartEmailId,
           [("To", to), ("CC", cc), ("BCC", bcc), ("Attachments", attachments), ("Data", data),
            ("AddRecipientsToList", addRecipsToList)],
           "POST", true)
    case SendClassicEmail(clientId, subject, from, replyTo, to, cc, bcc, html, text, attachments, trackOpens,
                          trackClicks, inlineCss, group, addRecipsToList) =>
      var args := ClassicEmailArgs(subject, from, replyTo, to, cc, bcc, html, text, attachments, trackOpens,
                                   trackClicks, inlineCss, group, addRecipsToList);
      Call("/transactional/classicEmail/send?clientID=" + clientId, args, "POST", true)
    case GetClassicEmailList(clientId) =>
      Call("/transactional/classicEmail/groups", [("clientID", clientId)], "GET", true)
    case GetEmailStatistics(group, from, to, timeZone, clientId) =>
      // `$timezone` and `$clientID` are undefined: the parameters are never sent
      Call("/transactional/statistics",
           [("group", group), ("from", from), ("to", to), ("timezone", Undefined), ("clientID", Undefined)],
           "GET", true)
    case GetListMessageTimeline(group, sentBeforeId, sentAfterId, count, status, clientId) =>
      var args := TimelineArgs(group, sentBeforeId, sentAfterId, count, status, clientId);
      Call("/transactional/messages", args, "GET", true)
    case GetMessageDetails(messageId, statistics) =>
      Call("/transactional/messages/" + messageId, [("statistics", statistics)], "GET", true)
    case ResendMessage(messageId) =>
      Call("/transactional/messages/" + messageId + "/resent", [], "POST", true)
  }

  // ------------------------------------------------------------ All methods

  /** A call of one public endpoint method, with its arguments. */
  datatype Endpoint =
    | Account(account: AccountOp)
    | Campaigns(campaign: CampaignOp)
    | Clients(client: ClientOp)
    | Lists(list: ListOp)
    | Segments(segment: SegmentOp)
    | Subscribers(subscriber: SubscriberOp)
    | Templates(template: TemplateOp)
    | Transactional(transactional: TransactionalOp)

  /** What the endpoint method passes to `run`, given the client's format. */
  function CallOf(format: string, e: Endpoint): (c: Call)
    ensures c.verb in Verbs
    ensures c.verb == "DELETE" ==> c.args == []
  {
    match e
    case Account(op) => AccountCall(format, op)
    case Campaigns(op) => CampaignCall(op)
    case Clients(op) => ClientCall(format, op)
    case Lists(op) => ListCall(op)
    case Segments(op) => SegmentCall(op)
    case Subscribers(op) => SubscriberCall(format, op)
    case Templates(op) => TemplateCall(op)
    case Transactional(op) => TransactionalCall(op)
  }
}
