/** The service URLs the client derives from its login response and from the
    last contacts synchronisation.  A URL is kept as the structured value its
    format string is filled from; the text itself (formatting, escaping of the
    sync token) is not modelled. */
module Endpoints {
  import opened Records

  const ContactsLocale := "en_US"

  datatype FmiAction = InitClientPath | RefreshClientPath | PlaySoundPath

  /** The `method=` override the contacts card endpoint takes; none means add. */
  datatype Verb = Put | Delete

  datatype Url =
    | LoginEndpoint
    | FindMe(action: FmiAction, host: string, dsid: UInt64)
    | MeCardEndpoint(host: string, dsid: UInt64)
    | Startup(host: string, dsid: UInt64, locale: string, order: string)
    | ChangeSet(host: string, dsid: UInt64, prefToken: string, syncToken: string)
    | Card(host: string, dsid: UInt64, verb: Option<Verb>, prefToken: string, syncToken: string)
    | RefreshWebAuth(host: string, dsid: UInt64)

  datatype Service = PushService | FindMeService | ContactsService

  /** Base URL of a service and the account's data set id. */
  datatype Host = Host(url: string, dsid: UInt64)

  function Entry(ws: WebServices, service: Service): Option<WebService> {
    match service
    case PushService => ws.push
    case FindMeService => ws.findMe
    case ContactsService => ws.contacts
  }

  /** The guard every getter starts with: the login response, its web
      services, the service, its URL and the data set information all present. */
  function ServiceHost(login: Option<LoginResponse>, service: Service): Option<Host> {
    if login.None? || login.value.webServices.None? || login.value.dataSetInformation.None? then None
    else match Entry(login.value.webServices.value, service)
      case None => None
      case Some(ws) =>
        if ws.url.None? then None
        else Some(Host(ws.url.value, login.value.dataSetInformation.value.dataSetId))
  }

  /** True when every link from the login response to the service's URL is there. */
  ghost predicate Serves(login: Option<LoginResponse>, service: Service) {
    && login.Some?
    && login.value.webServices.Some?
    && login.value.dataSetInformation.Some?
    && Entry(login.value.webServices.value, service).Some?
    && Entry(login.value.webServices.value, service).value.url.Some?
  }

  function FindMeUrl(login: Option<LoginResponse>, action: FmiAction): (r: Option<Url>)
    ensures r.Some? <==> Serves(login, FindMeService)
    ensures r.Some? ==> r.value.FindMe? && r.value.action == action
                        && r.value.host == login.value.webServices.value.findMe.value.url.value
                        && r.value.dsid == login.value.dataSetInformation.value.dataSetId
  {
    match ServiceHost(login, FindMeService)
    case None => None
    case Some(h) => Some(FindMe(action, h.url, h.dsid))
  }

  function InitClientUrl(login: Option<LoginResponse>): Option<Url> { FindMeUrl(login, InitClientPath) }

  function RefreshClientUrl(login: Option<LoginResponse>): Option<Url> { FindMeUrl(login, RefreshClientPath) }

  function PlaySoundUrl(login: Option<LoginResponse>): Option<Url> { FindMeUrl(login, PlaySoundPath) }

  function MeCardUrl(login: Option<LoginResponse>): (r: Option<Url>)
    ensures r.Some? <==> Serves(login, ContactsService)
    ensures r.Some? ==> r.value.MeCardEndpoint?
                        && r.value.host == login.value.webServices.value.contacts.value.url.value
                        && r.value.dsid == login.value.dataSetInformation.value.dataSetId
  {
    match ServiceHost(login, ContactsService)
    case None => None
    case Some(h) => Some(MeCardEndpoint(h.url, h.dsid))
  }

  /** The `order=` parameter of the startup request. */
  function OrderParameter(order: SortOrder): string {
    if order == FirstName then "first,last" else "last,first"
  }

  function StartupUrl(login: Option<LoginResponse>, locale: string, order: SortOrder): (r: Option<Url>)
    ensures r.Some? <==> Serves(login, ContactsService)
    ensures r.Some? ==> r.value.Startup? && r.value.locale == locale
                        && r.value.host == login.value.webServices.value.contacts.value.url.value
                        && r.value.dsid == login.value.dataSetInformation.value.dataSetId
                        && r.value.order == (if order == FirstName then "first,last" else "last,first")
  {
    match ServiceHost(login, ContactsService)
    case None => None
    case Some(h) => Some(Startup(h.url, h.dsid, locale, OrderParameter(order)))
  }

  /** The change-set, add, edit and delete URLs exist only after a startup
      response that carried both tokens. */
  ghost predicate TokensHeld(last: Option<ContactsResponse>) {
    last.Some? && last.value.syncToken.Some? && last.value.prefToken.Some?
  }

  function ChangeSetUrl(login: Option<LoginResponse>, last: Option<ContactsResponse>): (r: Option<Url>)
    ensures r.Some? <==> TokensHeld(last) && Serves(login, ContactsService)
    ensures r.Some? ==> r.value.ChangeSet? && r.value.prefToken == last.value.prefToken.value
                        && r.value.host == login.value.webServices.value.contacts.value.url.value
                        && r.value.dsid == login.value.dataSetInformation.value.dataSetId
                        && r.value.syncToken == last.value.syncToken.value
  {
    if last.None? || last.value.syncToken.None? || last.value.prefToken.None? then None
    else match ServiceHost(login, ContactsService)
      case None => None
      case Some(h) => Some(ChangeSet(h.url, h.dsid, last.value.prefToken.value, last.value.syncToken.value))
  }

  /** The contacts card endpoint with the given `method=` override. */
  function CardUrl(login: Option<LoginResponse>, last: Option<ContactsResponse>, verb: Option<Verb>): (r: Option<Url>)
    ensures r.Some? <==> TokensHeld(last) && Serves(login, ContactsService)
    ensures r.Some? ==> r.value.Card? && r.value.verb == verb
                        && r.value.prefToken == last.value.prefToken.value
                        && r.value.syncToken == last.value.syncToken.value
                        && r.value.dsid == login.value.dataSetInformation.value.dataSetId
                        && r.value.host == login.value.webServices.value.contacts.value.url.value
  {
    if last.None? || last.value.syncToken.None? || last.value.prefToken.None? then None
    else match ServiceHost(login, ContactsService)
      case None => None
      case Some(h) => Some(Card(h.url, h.dsid, verb, last.value.prefToken.value, last.value.syncToken.value))
  }

  function ContactsSetAddUrl(login: Option<LoginResponse>, last: Option<ContactsResponse>): Option<Url> {
    CardUrl(login, last, None)
  }

  function ContactsSetEditUrl(login: Option<LoginResponse>, last: Option<ContactsResponse>): Option<Url> {
    CardUrl(login, last, Some(Put))
  }

  function ContactsSetDeleteUrl(login: Option<LoginResponse>, last: Option<ContactsResponse>): Option<Url> {
    CardUrl(login, last, Some(Delete))
  }

  function RefreshWebAuthUrl(login: Option<LoginResponse>): (r: Option<Url>)
    ensures r.Some? <==> Serves(login, PushService)
    ensures r.Some? ==> r.value.RefreshWebAuth? && r.value.host == login.value.webServices.value.push.value.url.value
                        && r.value.dsid == login.value.dataSetInformation.value.dataSetId
  {
    match ServiceHost(login, PushService)
    case None => None
    case Some(h) => Some(RefreshWebAuth(h.url, h.dsid))
  }

  /** The three find-my-device URLs are present together, share host and data
      set id, and differ only in the action. */
  lemma FindMeUrlsAgree(login: Option<LoginResponse>)
    ensures InitClientUrl(login).Some? <==> RefreshClientUrl(login).Some?
    ensures InitClientUrl(login).Some? <==> PlaySoundUrl(login).Some?
    ensures InitClientUrl(login).Some? ==>
              && RefreshClientUrl(login).value == InitClientUrl(login).value.(action := RefreshClientPath)
              && PlaySoundUrl(login).value == InitClientUrl(login).value.(action := PlaySoundPath)
  {
  }

  /** Add, edit and delete go to one endpoint with the same tokens; only the
      `method=` override tells them apart, and all three are absent together. */
  lemma CardUrlsAgree(login: Option<LoginResponse>, last: Option<ContactsResponse>)
    ensures ContactsSetAddUrl(login, last).Some? <==> ContactsSetEditUrl(login, last).Some?
    ensures ContactsSetAddUrl(login, last).Some? <==> ContactsSetDeleteUrl(login, last).Some?
    ensures ContactsSetAddUrl(login, last).Some? ==>
              && ContactsSetAddUrl(login, last).value.verb == None
              && ContactsSetEditUrl(login, last).value == ContactsSetAddUrl(login, last).value.(verb := Some(Put))
              && ContactsSetDeleteUrl(login, last).value == ContactsSetAddUrl(login, last).value.(verb := Some(Delete))
  {
  }
}
