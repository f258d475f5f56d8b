/** What the client promises about connecting, disconnecting, the keep-alive
    loop and the find-my-device poll. */
module SessionLaws {
  import opened Records
  import opened Endpoints
  import opened ContactsSync
  import opened Protocol

  // ---- disconnect ----

  /** Disconnecting clears the nine session fields and raises `Disconnected`
      exactly when the session was connected; it sends nothing.  When the
      connectivity test itself throws, nothing changes. */
  lemma DisconnectClears(s: ClientState)
    ensures IsConnected(s).Err? ==> Disconnect(s) == Transition(s, Raised(NullReference))
    ensures IsConnected(s).Ok? ==>
              var t := Disconnect(s);
              && t.result == Done
              && AllCleared(t.state)
              && IsConnected(t.state) == Ok(false)
              && t.state.raised == s.raised + (if IsConnected(s) == Ok(true) then [Disconnected] else [])
              && t.state.sent == s.sent
              && t.state.contactsSortOrder == s.contactsSortOrder
              && t.state.refreshAuthenticationMilliseconds == s.refreshAuthenticationMilliseconds
  {
  }

  /** A second disconnect changes nothing and raises no second event. */
  lemma DisconnectTwice(s: ClientState)
    requires Disconnect(s).result == Done
    ensures var t := Disconnect(s);
            Disconnect(t.state) == Transition(t.state, Done)
  {
  }

  /** After a disconnect every session operation refuses with the client's
      "not connected" error and changes nothing.  The public upsert is the
      exception: with a nonempty input it fails first on the cleared contact
      cache. */
  lemma DisconnectedRefuses(s: ClientState, pollReply: Reply<FmiResponse>, soundReply: Reply<FmiResponse>,
                            message: string, deviceId: Option<string>, order: SortOrder,
                            meCardReply: Reply<MeCard>, startupReply: Reply<ContactsResponse>,
                            contacts: seq<Contact>, reply: Reply<ContactsResponse>, addReply: Reply<ContactsResponse>)
    requires Disconnect(s).result == Done
    ensures var d := Disconnect(s).state;
      && UpdateFindMyiPhone(d, pollReply) == Transition(d, Raised(NotConnected))
      && PlaySound(d, message, deviceId, pollReply, soundReply) == Transition(d, Raised(NotConnected))
      && StartFindMyiPhone(d) == Transition(d, Raised(NotConnected))
      && StartKeepAliveThread(d) == Transition(d, Raised(NotConnected))
      && GetContacts(d, order, meCardReply, startupReply) == Transition(d, Raised(NotConnected))
      && DeleteContacts(d, contacts, reply) == Transition(d, Raised(NotConnected))
      && SetContacts(d, contacts, reply, addReply)
           == Transition(d, Raised(if |contacts| > 0 then ArgumentNull else NotConnected))
  {
    var d := Disconnect(s).state;
    if |contacts| == 0 {
      assert Existing(contacts, []) == [];
    }
  }

  // ---- connect ----

  /** Neither the poll nor the contacts fetch touches the login state. */
  lemma PollKeepsLogin(s: ClientState, pollReply: Reply<FmiResponse>)
    ensures var t := UpdateFindMyiPhone(s, pollReply).state;
            t.sessionCookies == s.sessionCookies && t.loginResponse == s.loginResponse
  {
  }

  lemma GetContactsKeepsLogin(s: ClientState, order: SortOrder, meCardReply: Reply<MeCard>,
                              startupReply: Reply<ContactsResponse>)
    ensures var t := GetContacts(s, order, meCardReply, startupReply).state;
            t.sessionCookies == s.sessionCookies && t.loginResponse == s.loginResponse
  {
  }

  /** `t` is `s` later on: both logs of `s` are prefixes of those of `t`. */
  ghost predicate Extends(t: ClientState, s: ClientState) {
    && |t.sent| >= |s.sent| && t.sent[..|s.sent|] == s.sent
    && |t.raised| >= |s.raised| && t.raised[..|s.raised|] == s.raised
  }

  lemma PollExtends(s: ClientState, pollReply: Reply<FmiResponse>)
    ensures Extends(UpdateFindMyiPhone(s, pollReply).state, s)
  {
  }

  lemma GetContactsExtends(s: ClientState, order: SortOrder, meCardReply: Reply<MeCard>,
                           startupReply: Reply<ContactsResponse>)
    ensures Extends(GetContacts(s, order, meCardReply, startupReply).state, s)
  {
  }

  lemma ExtendsTransitive(u: ClientState, t: ClientState, s: ClientState)
    requires Extends(u, t) && Extends(t, s)
    ensures Extends(u, s)
  {
    assert u.sent[..|s.sent|] == u.sent[..|t.sent|][..|s.sent|];
    assert u.raised[..|s.raised|] == u.raised[..|t.raised|][..|s.raised|];
  }

  /** `Connect` first disconnects, then posts the credentials.  A transport
      failure reported as a protocol error means wrong credentials and yields
      false; any other transport failure is rethrown.  With a login answer the
      result is the connectivity test on that answer, and a connected session
      has its keep-alive thread. */
  lemma ConnectOutcome(s: ClientState, credentials: LoginCredentials, loginReply: Reply<LoginResponse>,
                       pollReply: Reply<FmiResponse>, meCardReply: Reply<MeCard>,
                       startupReply: Reply<ContactsResponse>)
    ensures var t := Connect(s, credentials, loginReply, pollReply, meCardReply, startupReply);
      IsConnected(s).Err? ==> t == Transition(s, Err(NullReference))
    ensures var t := Connect(s, credentials, loginReply, pollReply, meCardReply, startupReply);
      IsConnected(s).Ok? ==>
        && |t.state.sent| > |s.sent|
        && t.state.sent[..|s.sent| + 1] == s.sent + [Post(LoginEndpoint, Credentials(credentials), true)]
        && Extends(t.state, Disconnect(s).state)
    ensures var t := Connect(s, credentials, loginReply, pollReply, meCardReply, startupReply);
      IsConnected(s).Ok? && loginReply.WebFailure? ==>
        && t.result == (if loginReply.status == ProtocolError then Ok(false) else Err(Web(loginReply.status)))
        && AllCleared(t.state)
    ensures var t := Connect(s, credentials, loginReply, pollReply, meCardReply, startupReply);
      IsConnected(s).Ok? && loginReply.Answer? ==>
        var info := loginReply.body.dataSetInformation;
        && t.state.sessionCookies && t.state.loginResponse == Some(loginReply.body)
        && t.result == IsConnected(t.state)
        && (t.result == Ok(true) <==> info.Some? && info.value.statusCode == ActiveStatus)
        && (t.result.Err? <==> info.None?)
        && (t.result == Ok(true) ==> t.state.keepAliveThreadCreated)
  {
    var t := Connect(s, credentials, loginReply, pollReply, meCardReply, startupReply);
    var d := Disconnect(s);
    DisconnectClears(s);
    if IsConnected(s).Ok? {
      var login := Post(LoginEndpoint, Credentials(credentials), true);
      var s1 := d.state.(sent := d.state.sent + [login]);
      assert Extends(s1, d.state);
      match loginReply {
        case WebFailure(status) =>
          assert t == Transition(s1, if status == ProtocolError then Ok(false) else Err(Web(status)));
        case Answer(response) =>
          var s2 := s1.(loginResponse := Some(response), sessionCookies := true);
          if IsConnected(s2) != Ok(true) {
            assert t == Transition(s2, IsConnected(s2));
          } else {
            var s3 := UpdateFindMyiPhone(s2, pollReply).state;
            var s4 := GetContacts(s3, FirstName, meCardReply, startupReply).state;
            PollKeepsLogin(s2, pollReply);
            GetContactsKeepsLogin(s3, FirstName, meCardReply, startupReply);
            PollExtends(s2, pollReply);
            GetContactsExtends(s3, FirstName, meCardReply, startupReply);
            ExtendsTransitive(s4, s3, s2);
            ExtendsTransitive(s4, s2, d.state);
            assert t == Transition(s4.(keepAliveThreadCreated := true), Ok(true));
            assert s4.sent[..|s1.sent|] == s1.sent;
            assert t.state.sent[..|s.sent| + 1] == s4.sent[..|s1.sent|];
          }
      }
    }
  }

  // ---- keep-alive ----

  /** The intended loop: while the refresh page answers the loop goes on and
      only logs the request; once it fails the session is torn down as by
      `Disconnect`. */
  lemma KeepAliveStepDisconnects(s: ClientState, reply: Reply<()>)
    requires IsConnected(s).Ok?
    ensures var t := KeepAliveStep(s, reply);
      Serves(s.loginResponse, PushService) && reply.Answer? ==>
        t == Transition(s.(sent := s.sent + [Get(RefreshWebAuthUrl(s.loginResponse).value)]), KeepRunning)
    ensures var t := KeepAliveStep(s, reply);
      !(Serves(s.loginResponse, PushService) && reply.Answer?) ==>
        && t.result == ThreadEnded
        && AllCleared(t.state)
        && t.state.raised == s.raised + (if IsConnected(s) == Ok(true) then [Disconnected] else [])
  {
  }

  /** As written, a failed refresh on a live session leaves the session
      looking connected and raises nothing: the disconnect aborts its own
      thread before its reset block runs (only `StopFindMyiPhone`, which
      may drop the server context, has run). */
  lemma KeepAliveAsWrittenStaysConnected(s: ClientState, status: WebStatus)
    requires IsConnected(s) == Ok(true)
    ensures var t := KeepAliveStepAsWritten(s, WebFailure(status));
      && t.result == ThreadEnded
      && IsConnected(t.state) == Ok(true)
      && t.state.raised == s.raised
      && t.state.loginResponse == s.loginResponse
      && t.state.lastContactsResponse == s.lastContactsResponse
    ensures var t := KeepAliveStep(s, WebFailure(status));
      && t.result == ThreadEnded
      && IsConnected(t.state) == Ok(false)
      && t.state.raised == s.raised + [Disconnected]
  {
  }

  // ---- find my device ----

  /** A poll initialises exactly when no server context is held and refreshes
      with that context otherwise; the client context it sends is the held
      one, or the default one created on first use. */
  lemma PollChoosesInitOrRefresh(s: ClientState, reply: Reply<FmiResponse>)
    requires RequireConnected(s) == Done
    requires Serves(s.loginResponse, FindMeService)
    ensures var t := UpdateFindMyiPhone(s, reply);
      var context := if s.clientContext.Some? then s.clientContext.value else DefaultClientContext;
      && t.state.clientContext == Some(context)
      && |t.state.sent| == |s.sent| + 1
      && t.state.sent[..|s.sent|] == s.sent
      && var request := t.state.sent[|s.sent|];
      && request.Post? && request.formEncoded
      && request.url.FindMe?
      && request.url.action == (if s.serverContext.None? then InitClientPath else RefreshClientPath)
      && request.url == FindMeUrl(s.loginResponse, request.url.action).value
      && request.body == FindMyiPhone(FmiRequest(context, s.serverContext, None, None))
  {
  }

  /** Without the service in the login response a poll sends nothing. */
  lemma PollWithoutService(s: ClientState, reply: Reply<FmiResponse>)
    requires RequireConnected(s) == Done
    requires !Serves(s.loginResponse, FindMeService)
    ensures var t := UpdateFindMyiPhone(s, reply);
      t.state.sent == s.sent && t.result == Raised(ArgumentNull)
  {
  }

  /** What a poll answer does to the state: the server context is replaced by
      the answer's, stamped; devices, user information and preferences are
      replaced only when the answer carries them; status 200 raises the
      update event, any other number the failed event, and a status that is
      not a number raises an error after the fields are updated. */
  lemma PollAdoptsAnswer(s: ClientState, response: FmiResponse)
    requires RequireConnected(s) == Done
    requires Serves(s.loginResponse, FindMeService)
    ensures var t := UpdateFindMyiPhone(s, Answer(response));
      var echoed := response.(serverContext := Stamp(response.serverContext));
      && t.state.serverContext == Stamp(response.serverContext)
      && t.state.devices == (if response.devices.Some? then response.devices else s.devices)
      && t.state.userInformation == (if response.userInformation.Some? then response.userInformation else s.userInformation)
      && t.state.userPreferences == (if response.userPreferences.Some? then response.userPreferences else s.userPreferences)
      && t.state.loginResponse == s.loginResponse && t.state.sessionCookies == s.sessionCookies
      && t.state.lastContactsResponse == s.lastContactsResponse && t.state.contactsMeCard == s.contactsMeCard
      && t.result == (match response.statusCode
                      case Missing => Raised(ArgumentNull)
                      case Malformed => Raised(Format)
                      case OutOfRange => Raised(Overflow)
                      case Numeral(_) => Done)
      && t.state.raised == s.raised + (match response.statusCode
                                       case Numeral(code) =>
                                         if code == StatusOk then [FindMyiPhoneUpdate(echoed)]
                                         else [FindMyiPhoneFailed(echoed)]
                                       case _ => [])
  {
  }

  /** A transport failure of the poll leaves the snapshot as it was. */
  lemma PollFailureKeepsSnapshot(s: ClientState, status: WebStatus)
    requires RequireConnected(s) == Done
    ensures var t := UpdateFindMyiPhone(s, WebFailure(status));
      && t.state.serverContext == s.serverContext
      && t.state.devices == s.devices && t.state.userInformation == s.userInformation
      && t.state.userPreferences == s.userPreferences && t.state.raised == s.raised
      && t.result == (if Serves(s.loginResponse, FindMeService) then Raised(Web(status)) else Raised(ArgumentNull))
  {
  }

  /** After stopping a polling thread that was started, the next poll
      initialises rather than refreshes.  Without a thread stopping changes
      nothing. */
  lemma StopThenPollInitialises(s: ClientState, reply: Reply<FmiResponse>)
    requires RequireConnected(s) == Done
    requires Serves(s.loginResponse, FindMeService)
    ensures !s.pollingThreadCreated ==> StopFindMyiPhone(s) == s
    ensures s.pollingThreadCreated ==>
              var t := UpdateFindMyiPhone(StopFindMyiPhone(s), reply);
              t.state.sent[|s.sent|].url.action == InitClientPath
    ensures var t := UpdateFindMyiPhone(StartFindMyiPhone(s).state, reply);
            t.state.sent[|s.sent|].url.action == (if s.pollingThreadCreated then InitClientPath
                                                  else if s.serverContext.None? then InitClientPath
                                                  else RefreshClientPath)
  {
    PollChoosesInitOrRefresh(StopFindMyiPhone(s), reply);
    PollChoosesInitOrRefresh(StartFindMyiPhone(s).state, reply);
  }

  /** Playing a sound polls first only when no server context is held, never
      touches the device list beyond that poll, sends the held (or freshly
      polled) server context along with the device and the message, and keeps
      the answer's server context, stamped. */
  lemma PlaySoundLaw(s: ClientState, message: string, deviceId: Option<string>,
                     pollReply: Reply<FmiResponse>, soundReply: Reply<FmiResponse>)
    requires RequireConnected(s) == Done
    ensures var t := PlaySound(s, message, deviceId, pollReply, soundReply);
      var before := if s.serverContext.None? then UpdateFindMyiPhone(s, pollReply) else Transition(s, Done);
      && t.state.devices == before.state.devices
      && t.state.userInformation == before.state.userInformation
      && t.state.userPreferences == before.state.userPreferences
      && t.state.raised == before.state.raised
      && (before.result.Raised? ==> t == before)
      && (before.result == Done && Serves(s.loginResponse, FindMeService) ==>
            var context := GetClientContext(before.state).clientContext.value;
            && t.state.sent == before.state.sent
                 + [Post(PlaySoundUrl(s.loginResponse).value,
                         FindMyiPhone(FmiRequest(context, before.state.serverContext, deviceId, Some(message))), true)]
            && t.result == (if soundReply.Answer? then Done else Raised(Web(soundReply.status)))
            && t.state.serverContext == (if soundReply.Answer? then Stamp(soundReply.body.serverContext)
                                         else before.state.serverContext))
    ensures s.serverContext.Some? ==>
      PlaySound(s, message, deviceId, pollReply, soundReply).state.devices == s.devices
  {
    var before := if s.serverContext.None? then UpdateFindMyiPhone(s, pollReply) else Transition(s, Done);
    PollKeepsLogin(s, pollReply);
    assert before.state.loginResponse == s.loginResponse && before.state.sessionCookies == s.sessionCookies;
  }

  /** Every server context the client holds carries the id "server_ctx":
      each operation below keeps that so, from the initial state on. */
  lemma PollStamps(s: ClientState, pollReply: Reply<FmiResponse>)
    requires Stamped(s)
    ensures Stamped(UpdateFindMyiPhone(s, pollReply).state)
  {
  }

  lemma PlaySoundStamps(s: ClientState, message: string, deviceId: Option<string>,
                        pollReply: Reply<FmiResponse>, soundReply: Reply<FmiResponse>)
    requires Stamped(s)
    ensures Stamped(PlaySound(s, message, deviceId, pollReply, soundReply).state)
  {
    PollStamps(s, pollReply);
  }

  lemma ContactsFetchStamps(s: ClientState, order: SortOrder, meCardReply: Reply<MeCard>,
                            startupReply: Reply<ContactsResponse>)
    requires Stamped(s)
    ensures Stamped(GetContacts(s, order, meCardReply, startupReply).state)
  {
  }

  lemma ConnectStamps(s: ClientState, credentials: LoginCredentials, loginReply: Reply<LoginResponse>,
                      pollReply: Reply<FmiResponse>, meCardReply: Reply<MeCard>,
                      startupReply: Reply<ContactsResponse>)
    requires Stamped(s)
    ensures Stamped(Connect(s, credentials, loginReply, pollReply, meCardReply, startupReply).state)
  {
    var d := Disconnect(s);
    if d.result == Done && loginReply.Answer? {
      var s2 := d.state.(sent := d.state.sent + [Post(LoginEndpoint, Credentials(credentials), true)],
                         loginResponse := Some(loginReply.body), sessionCookies := true);
      PollStamps(s2, pollReply);
      ContactsFetchStamps(UpdateFindMyiPhone(s2, pollReply).state, FirstName, meCardReply, startupReply);
    }
  }

  lemma StateResetsStamp(s: ClientState, keepAliveReply: Reply<()>)
    requires Stamped(s)
    ensures Stamped(StopFindMyiPhone(s)) && Stamped(StartFindMyiPhone(s).state)
    ensures Stamped(Disconnect(s).state) && Stamped(KeepAliveStep(s, keepAliveReply).state)
    ensures Stamped(Initial(DefaultRefreshMilliseconds))
  {
  }
}
