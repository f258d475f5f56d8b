/** The iCloud client as a state machine.  `ClientState` holds every field of
    the client together with the log of requests it has put on the wire and
    the log of events it has raised; each operation is a function from a
    state (and the replies the server gives, in order) to the state after it
    and how it ended.  The class in module Client is proved to follow these
    functions step by step, and the lemmas below state what the client
    promises about them. */
module Protocol {
  import opened Records
  import opened Endpoints
  import opened ContactsSync

  /** `DataSetInformation.StatusCode` of an active session. */
  const ActiveStatus := 2
  /** The id the client writes into every server context it keeps. */
  const ServerContextId := "server_ctx"
  /** The find-my-device status code that counts as an update. */
  const StatusOk := 200
  /** Two minutes, the keep-alive interval of the parameterless constructor. */
  const DefaultRefreshMilliseconds := (60 * 1000) * 2
  const DefaultClientContext := ClientContext("3.0", "iCloud Find (Web)", "2.0", 0, "Canada/Eastern", "0:16")

  datatype Body =
    | Credentials(credentials: LoginCredentials)
    | FindMyiPhone(request: FmiRequest)
    | ContactsUpdate(contacts: seq<Contact>)
    | ContactsDelete(entries: seq<DeleteEntry>)

  /** One HTTP request; `formEncoded` is the content type flag of a POST. */
  datatype Request = Get(url: Url) | Post(url: Url, body: Body, formEncoded: bool)

  datatype Event =
    | Disconnected
    | FindMyiPhoneUpdate(update: FmiResponse)
    | FindMyiPhoneFailed(failure: FmiResponse)

  /** The client's fields.  A thread is represented by whether it was ever
      created: the source never clears the reference after aborting it. */
  datatype ClientState = ClientState(
    sessionCookies: bool,
    loginResponse: Option<LoginResponse>,
    clientContext: Option<ClientContext>,
    serverContext: Option<ServerContext>,
    lastContactsResponse: Option<ContactsResponse>,
    pollingThreadCreated: bool,
    keepAliveThreadCreated: bool,
    devices: Option<seq<Device>>,
    userInformation: Option<UserInfo>,
    userPreferences: Option<UserPreferences>,
    contactsMeCard: Option<MeCard>,
    contactsSortOrder: SortOrder,
    refreshAuthenticationMilliseconds: int,
    sent: seq<Request>,
    raised: seq<Event>)

  datatype Transition<R> = Transition(state: ClientState, result: R)

  /** How one pass of the keep-alive loop ends. */
  datatype KeepAliveResult = KeepRunning | ThreadEnded | ThreadCrashed(error: Error)

  function Initial(refreshMilliseconds: int): (s: ClientState)
    ensures !s.sessionCookies && s.loginResponse.None? && s.lastContactsResponse.None?
    ensures s.refreshAuthenticationMilliseconds == refreshMilliseconds && s.sent == [] && s.raised == []
    ensures s.clientContext.None? && s.serverContext.None? && s.contactsMeCard.None?
    ensures s.devices.None? && s.userInformation.None? && s.userPreferences.None?
    ensures !s.pollingThreadCreated && !s.keepAliveThreadCreated && s.contactsSortOrder == FirstName
  {
    ClientState(false, None, None, None, None, false, false, None, None, None, None,
                FirstName, refreshMilliseconds, [], [])
  }

  // ---- connection ----

  /** The `IsConnected` property: cookies held, a login response held, and
      its data set status active.  A login response without data set
      information makes the property itself throw. */
  function Connectivity(cookies: bool, login: Option<LoginResponse>): (r: Result<bool>)
    ensures r == Ok(true) <==>
              && cookies && login.Some? && login.value.dataSetInformation.Some?
              && login.value.dataSetInformation.value.statusCode == ActiveStatus
    ensures r.Err? <==> cookies && login.Some? && login.value.dataSetInformation.None?
    ensures r.Err? ==> r.error == NullReference
  {
    if !cookies || login.None? then Ok(false)
    else match login.value.dataSetInformation
      case None => Err(NullReference)
      case Some(info) => Ok(info.statusCode == ActiveStatus)
  }

  function IsConnected(s: ClientState): Result<bool> {
    Connectivity(s.sessionCookies, s.loginResponse)
  }

  /** The guard every session operation starts with. */
  function RequireConnected(s: ClientState): (o: Outcome)
    ensures o == Done <==> IsConnected(s) == Ok(true)
    ensures o.Raised? ==> o.error == (if IsConnected(s).Err? then NullReference else NotConnected)
  {
    match IsConnected(s)
    case Err(e) => Raised(e)
    case Ok(connected) => if connected then Done else Raised(NotConnected)
  }

  /** The `Contacts` property: the cached list of the last synchronisation. */
  function CachedContacts(s: ClientState): (r: Option<seq<Contact>>)
    ensures r.Some? <==> s.lastContactsResponse.Some? && s.lastContactsResponse.value.contacts.Some?
  {
    if s.lastContactsResponse.Some? then s.lastContactsResponse.value.contacts else None
  }

  /** The nine fields `Disconnect` resets. */
  function Cleared(s: ClientState): (r: ClientState)
    ensures IsConnected(r) == Ok(false)
  {
    ClientState(false, None, None, None, None, s.pollingThreadCreated, s.keepAliveThreadCreated,
                None, None, None, None, s.contactsSortOrder, s.refreshAuthenticationMilliseconds, s.sent, s.raised)
  }

  ghost predicate AllCleared(s: ClientState) {
    && s.devices.None? && s.userInformation.None? && s.userPreferences.None? && s.contactsMeCard.None?
    && !s.sessionCookies && s.loginResponse.None? && s.clientContext.None? && s.serverContext.None?
    && s.lastContactsResponse.None?
  }

  /** `StopFindMyiPhone`: once a polling thread exists it is aborted and the
      server context dropped, so that the next poll initialises afresh. */
  function StopFindMyiPhone(s: ClientState): ClientState {
    if s.pollingThreadCreated then s.(serverContext := None) else s
  }

  function Disconnect(s: ClientState): Transition<Outcome> {
    match IsConnected(s)
    case Err(e) => Transition(s, Raised(e))
    case Ok(wasConnected) =>
      // StopKeepAliveThread aborts the thread and changes no field.
      var stopped := Cleared(StopFindMyiPhone(s));
      Transition(stopped.(raised := stopped.raised + if wasConnected then [Disconnected] else []), Done)
  }

  function StartKeepAliveThread(s: ClientState): Transition<Outcome> {
    var guard := RequireConnected(s);
    if guard.Raised? then Transition(s, guard)
    else Transition(s.(keepAliveThreadCreated := true), Done)
  }

  /** One pass of the keep-alive loop after its sleep: fetch the web-auth
      refresh page; on any failure disconnect and leave the loop.  This is
      the behaviour the loop is written for (see `KeepAliveStepAsWritten`). */
  function KeepAliveStep(s: ClientState, reply: Reply<()>): Transition<KeepAliveResult> {
    var url := RefreshWebAuthUrl(s.loginResponse);
    var s1 := if url.Some? then s.(sent := s.sent + [Get(url.value)]) else s;
    if url.Some? && reply.Answer? then Transition(s1, KeepRunning)
    else
      var d := Disconnect(s1);
      Transition(d.state, if d.result.Raised? then ThreadCrashed(d.result.error) else ThreadEnded)
  }

  /** The same pass as the source runs it: `Disconnect` is called on the
      keep-alive thread itself, and its `StopKeepAliveThread` aborts the
      calling thread, which ends at once; only `StopFindMyiPhone` has run. */
  function KeepAliveStepAsWritten(s: ClientState, reply: Reply<()>): Transition<KeepAliveResult> {
    var url := RefreshWebAuthUrl(s.loginResponse);
    var s1 := if url.Some? then s.(sent := s.sent + [Get(url.value)]) else s;
    if url.Some? && reply.Answer? then Transition(s1, KeepRunning)
    else match IsConnected(s1)
      case Err(e) => Transition(s1, ThreadCrashed(e))
      case Ok(_) => Transition(StopFindMyiPhone(s1), ThreadEnded)
  }

  function Connect(s: ClientState, credentials: LoginCredentials, loginReply: Reply<LoginResponse>,
                   pollReply: Reply<FmiResponse>, meCardReply: Reply<MeCard>,
                   startupReply: Reply<ContactsResponse>): Transition<Result<bool>>
  {
    var d := Disconnect(s);
    if d.result.Raised? then Transition(d.state, Err(d.result.error))
    else
      var s1 := d.state.(sent := d.state.sent + [Post(LoginEndpoint, Credentials(credentials), true)]);
      match loginReply
      case WebFailure(status) =>
        Transition(s1, if status == ProtocolError then Ok(false) else Err(Web(status)))
      case Answer(response) =>
        CompleteLogin(s1.(loginResponse := Some(response), sessionCookies := true), pollReply, meCardReply, startupReply)
  }

  /** The rest of `Connect` once the login answer and the cookies are kept:
      on a connected session, a first poll and a contacts fetch whose
      failures are swallowed, then the keep-alive thread; the result is the
      connectivity test. */
  function CompleteLogin(s: ClientState, pollReply: Reply<FmiResponse>, meCardReply: Reply<MeCard>,
                         startupReply: Reply<ContactsResponse>): Transition<Result<bool>>
  {
    if IsConnected(s) != Ok(true) then Transition(s, IsConnected(s))
    else
      var polled := UpdateFindMyiPhone(s, pollReply).state;
      var fetched := GetContacts(polled, FirstName, meCardReply, startupReply).state;
      var k := StartKeepAliveThread(fetched);
      if k.result.Raised? then Transition(k.state, Err(k.result.error))
      else Transition(k.state, IsConnected(k.state))
  }

  // ---- find my device ----

  /** `GetClientContext`: the default context is created on first use. */
  function GetClientContext(s: ClientState): (r: ClientState)
    ensures r.clientContext.Some? && r == s.(clientContext := r.clientContext)
    ensures s.clientContext.Some? ==> r == s
    ensures s.clientContext.None? ==> r.clientContext == Some(DefaultClientContext)
  {
    if s.clientContext.None? then s.(clientContext := Some(DefaultClientContext)) else s
  }

  /** The server context as the client keeps it: its id overwritten. */
  function Stamp(context: Option<ServerContext>): (r: Option<ServerContext>)
    ensures r.Some? <==> context.Some?
    ensures r.Some? ==> r.value.id == Some(ServerContextId)
    ensures r.Some? ==> && r.value.clientId == context.value.clientId
                        && r.value.serverTimestamp == context.value.serverTimestamp
                        && r.value.callbackIntervalMs == context.value.callbackIntervalMs
  {
    match context
    case None => None
    case Some(c) => Some(c.(id := Some(ServerContextId)))
  }

  ghost predicate Stamped(s: ClientState) {
    s.serverContext.Some? ==> s.serverContext.value.id == Some(ServerContextId)
  }

  /** `UpdateFindMyiPhone`: one poll of the find-my-device service. */
  function UpdateFindMyiPhone(s: ClientState, reply: Reply<FmiResponse>): Transition<Outcome> {
    var guard := RequireConnected(s);
    if guard.Raised? then Transition(s, guard)
    else
      var s1 := GetClientContext(s);
      var initializing := s1.serverContext.None?;
      var request := FmiRequest(s1.clientContext.value, if initializing then None else s1.serverContext, None, None);
      var url := if initializing then InitClientUrl(s1.loginResponse) else RefreshClientUrl(s1.loginResponse);
      if url.None? then Transition(s1, Raised(ArgumentNull))
      else
        var s2 := s1.(sent := s1.sent + [Post(url.value, FindMyiPhone(request), true)]);
        match reply
        case WebFailure(status) => Transition(s2, Raised(Web(status)))
        case Answer(response) => AdoptPoll(s2, response)
  }

  /** The state after a poll answer: its server context, stamped, and each
      part of the device snapshot it carries. */
  function Adopted(s: ClientState, response: FmiResponse): ClientState {
    s.(serverContext := Stamp(response.serverContext),
       devices := if response.devices.Some? then response.devices else s.devices,
       userInformation := if response.userInformation.Some? then response.userInformation else s.userInformation,
       userPreferences := if response.userPreferences.Some? then response.userPreferences else s.userPreferences)
  }

  /** What a poll does with an answer: keep its server context, stamped,
      replace each part of the device snapshot it carries, then parse the
      status and raise the update or the failed event. */
  function AdoptPoll(s: ClientState, response: FmiResponse): Transition<Outcome> {
    var s1 := Adopted(s, response);
    // The event hands out the response object whose context was stamped.
    var echoed := response.(serverContext := s1.serverContext);
    match response.statusCode
    case Missing => Transition(s1, Raised(ArgumentNull))
    case Malformed => Transition(s1, Raised(Format))
    case OutOfRange => Transition(s1, Raised(Overflow))
    case Numeral(code) =>
      var event := if code == StatusOk then FindMyiPhoneUpdate(echoed) else FindMyiPhoneFailed(echoed);
      Transition(s1.(raised := s1.raised + [event]), Done)
  }

  /** `StartFindMyiPhone` up to starting its thread; the thread's body is a
      repetition of `UpdateFindMyiPhone`. */
  function StartFindMyiPhone(s: ClientState): Transition<Outcome> {
    var guard := RequireConnected(s);
    if guard.Raised? then Transition(s, guard)
    else Transition(StopFindMyiPhone(s).(pollingThreadCreated := true), Done)
  }

  function PlaySound(s: ClientState, message: string, deviceId: Option<string>,
                     pollReply: Reply<FmiResponse>, soundReply: Reply<FmiResponse>): Transition<Outcome>
  {
    var guard := RequireConnected(s);
    if guard.Raised? then Transition(s, guard)
    else
      var p := if s.serverContext.None? then UpdateFindMyiPhone(s, pollReply) else Transition(s, Done);
      if p.result.Raised? then p
      else
        var s1 := GetClientContext(p.state);
        var request := FmiRequest(s1.clientContext.value, s1.serverContext, deviceId, Some(message));
        var url := PlaySoundUrl(s1.loginResponse);
        if url.None? then Transition(s1, Raised(ArgumentNull))
        else
          var s2 := s1.(sent := s1.sent + [Post(url.value, FindMyiPhone(request), true)]);
          match soundReply
          case WebFailure(status) => Transition(s2, Raised(Web(status)))
          case Answer(response) => Transition(s2.(serverContext := Stamp(response.serverContext)), Done)
  }

  // ---- contacts ----

  function GetContacts(s: ClientState, order: SortOrder, meCardReply: Reply<MeCard>,
                       startupReply: Reply<ContactsResponse>): Transition<Outcome>
  {
    var guard := RequireConnected(s);
    if guard.Raised? then Transition(s, guard)
    else
      var s1 := s.(contactsSortOrder := order);
      var meUrl := MeCardUrl(s1.loginResponse);
      if meUrl.None? then Transition(s1, Raised(ArgumentNull))
      else
        var s2 := s1.(sent := s1.sent + [Get(meUrl.value)]);
        match meCardReply
        case WebFailure(status) => Transition(s2, Raised(Web(status)))
        case Answer(card) =>
          var s3 := s2.(contactsMeCard := Some(card));
          var startUrl := StartupUrl(s3.loginResponse, ContactsLocale, s3.contactsSortOrder);
          if startUrl.None? then Transition(s3, Raised(ArgumentNull))
          else
            var s4 := s3.(sent := s3.sent + [Get(startUrl.value)]);
            match startupReply
            case WebFailure(status) => Transition(s4, Raised(Web(status)))
            case Answer(response) => Transition(s4.(lastContactsResponse := Some(response)), Done)
  }

  /** The six fields a change response overwrites in the cached response. */
  function ApplySync(last: ContactsResponse, response: ContactsResponse): ContactsResponse {
    last.(contactsOrder := response.contactsOrder, collections := response.collections,
          headerPositions := response.headerPositions, meCardId := response.meCardId,
          prefToken := response.prefToken, syncToken := response.syncToken)
  }

  function CardVerb(addingNew: bool): Option<Verb> {
    if addingNew then None else Some(Put)
  }

  /** The private `SetContacts(contacts, addingNew)`: upload one batch that is
      entirely new or entirely known, then rebuild the cached list in the
      server's new order. */
  function SetContactsBatch(s: ClientState, batch: seq<Contact>, addingNew: bool,
                            reply: Reply<ContactsResponse>): Transition<Outcome>
  {
    var guard := RequireConnected(s);
    if guard.Raised? then Transition(s, guard)
    else if |batch| == 0 then Transition(s, Done)
    else
      var url := CardUrl(s.loginResponse, s.lastContactsResponse, CardVerb(addingNew));
      if url.None? then Transition(s, Raised(ArgumentNull))
      else
        var s1 := s.(sent := s.sent + [Post(url.value, ContactsUpdate(batch), false)]);
        match reply
        case WebFailure(status) => Transition(s1, Raised(Web(status)))
        case Answer(response) =>
          if s1.lastContactsResponse.None? then Transition(s1, Done)
          else
            var synced := ApplySync(s1.lastContactsResponse.value, response);
            var s2 := s1.(lastContactsResponse := Some(synced));
            if response.contacts.None? || synced.contactsOrder.None? then Transition(s2, Raised(NullReference))
            else match Rebuild(synced.contactsOrder.value, LastById(response.contacts.value), synced.contacts)
              case Err(e) => Transition(s2, Raised(e))
              case Ok(list) => Transition(s2.(lastContactsResponse := Some(synced.(contacts := Some(list)))), Done)
  }

  /** The public `SetContacts`: split the input by whether the cached list
      knows its id, send the known ones as edits, then the rest as additions. */
  function SetContacts(s: ClientState, contacts: seq<Contact>, editReply: Reply<ContactsResponse>,
                       addReply: Reply<ContactsResponse>): Transition<Outcome>
  {
    var cached := CachedContacts(s);
    // The filters consult the cached list once per input contact.
    if |contacts| > 0 && cached.None? then Transition(s, Raised(ArgumentNull))
    else
      var known := if cached.Some? then cached.value else [];
      var e := SetContactsBatch(s, Existing(contacts, known), false, editReply);
      if e.result.Raised? then e
      else SetContactsBatch(e.state, Fresh(contacts, known), true, addReply)
  }

  function DeleteContacts(s: ClientState, contacts: seq<Contact>, reply: Reply<ContactsResponse>): Transition<Outcome> {
    var guard := RequireConnected(s);
    if guard.Raised? then Transition(s, guard)
    else if |contacts| == 0 then Transition(s, Done)
    else
      var url := ContactsSetDeleteUrl(s.loginResponse, s.lastContactsResponse);
      if url.None? then Transition(s, Raised(ArgumentNull))
      else
        var s1 := s.(sent := s.sent + [Post(url.value, ContactsDelete(DeleteEntries(contacts)), false)]);
        match reply
        case WebFailure(status) => Transition(s1, Raised(Web(status)))
        case Answer(response) =>
          if s1.lastContactsResponse.None? then Transition(s1, Done)
          else
            var synced := ApplySync(s1.lastContactsResponse.value, response);
            var s2 := s1.(lastContactsResponse := Some(synced));
            if response.deletes.None? || response.deletes.value.contactIds.None? then Transition(s2, Done)
            else if synced.contacts.None? then Transition(s2, Raised(ArgumentNull))
            else
              var kept := WithoutDeleted(synced.contacts.value, response.deletes.value.contactIds.value);
              Transition(s2.(lastContactsResponse := Some(synced.(contacts := Some(kept)))), Done)
  }
}
