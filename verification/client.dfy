/** The client object.  Its fields are the fields of the library's client
    class plus the two logs the model observes it by: the requests put on
    the wire and the events raised.  Every method updates the fields in the
    order the source does and is proved to end in the state, with the result,
    that the matching function of module Protocol prescribes. */
module Client {
  import opened Records
  import opened Endpoints
  import opened ContactsSync
  import opened Protocol

  class ICloud {
    var sessionCookies: bool
    var loginResponse: Option<LoginResponse>
    var clientContext: Option<ClientContext>
    var serverContext: Option<ServerContext>
    var lastContactsResponse: Option<ContactsResponse>
    var pollingThreadCreated: bool
    var keepAliveThreadCreated: bool
    var devices: Option<seq<Device>>
    var userInformation: Option<UserInfo>
    var userPreferences: Option<UserPreferences>
    var contactsMeCard: Option<MeCard>
    var contactsSortOrder: SortOrder
    var refreshAuthenticationMilliseconds: int
    /** Requests sent, oldest first. */
    var sent: seq<Request>
    /** Events raised, oldest first. */
    var raised: seq<Event>

    function State(): ClientState
      reads this
    {
      ClientState(sessionCookies, loginResponse, clientContext, serverContext, lastContactsResponse,
                  pollingThreadCreated, keepAliveThreadCreated, devices, userInformation, userPreferences,
                  contactsMeCard, contactsSortOrder, refreshAuthenticationMilliseconds, sent, raised)
    }

    function IsConnected(): (r: Result<bool>)
      reads this
      ensures r == Protocol.IsConnected(State())
    {
      if !sessionCookies || loginResponse.None? then Ok(false)
      else if loginResponse.value.dataSetInformation.None? then Err(NullReference)
      else Ok(loginResponse.value.dataSetInformation.value.statusCode == ActiveStatus)
    }

    /** The `Contacts` property. */
    function Contacts(): (r: Option<seq<Contact>>)
      reads this
      ensures r == CachedContacts(State())
    {
      if lastContactsResponse.Some? && lastContactsResponse.value.contacts.Some?
      then lastContactsResponse.value.contacts else None
    }

    /** Refreshes the web authentication every two minutes. */
    constructor ()
      ensures State() == Initial(DefaultRefreshMilliseconds)
    {
      sessionCookies, loginResponse, clientContext, serverContext, lastContactsResponse := false, None, None, None, None;
      pollingThreadCreated, keepAliveThreadCreated := false, false;
      devices, userInformation, userPreferences, contactsMeCard := None, None, None, None;
      contactsSortOrder := FirstName;
      refreshAuthenticationMilliseconds := DefaultRefreshMilliseconds;
      sent, raised := [], [];
    }

    constructor WithRefreshInterval(refreshMilliseconds: int)
      ensures State() == Initial(refreshMilliseconds)
    {
      sessionCookies, loginResponse, clientContext, serverContext, lastContactsResponse := false, None, None, None, None;
      pollingThreadCreated, keepAliveThreadCreated := false, false;
      devices, userInformation, userPreferences, contactsMeCard := None, None, None, None;
      contactsSortOrder := FirstName;
      refreshAuthenticationMilliseconds := refreshMilliseconds;
      sent, raised := [], [];
    }

    // ---- connection ----

    method Connect(credentials: LoginCredentials, loginReply: Reply<LoginResponse>, pollReply: Reply<FmiResponse>,
                   meCardReply: Reply<MeCard>, startupReply: Reply<ContactsResponse>)
      returns (r: Result<bool>)
      modifies this
      ensures Transition(State(), r) == Protocol.Connect(old(State()), credentials, loginReply, pollReply, meCardReply, startupReply)
    {
      var d := Disconnect();
      if d.Raised? {
        return Err(d.error);
      }
      sent := sent + [Post(LoginEndpoint, Credentials(credentials), true)];
      if loginReply.WebFailure? {
        if loginReply.status != ProtocolError {
          return Err(Web(loginReply.status));
        }
        return Ok(false);
      }
      loginResponse := Some(loginReply.body);
      sessionCookies := true;
      r := CompleteLogin(pollReply, meCardReply, startupReply);
    }

    method CompleteLogin(pollReply: Reply<FmiResponse>, meCardReply: Reply<MeCard>,
                         startupReply: Reply<ContactsResponse>) returns (r: Result<bool>)
      modifies this
      ensures Transition(State(), r) == Protocol.CompleteLogin(old(State()), pollReply, meCardReply, startupReply)
    {
      var connected := IsConnected();
      if connected == Ok(true) {
        // The first poll and the contacts fetch may fail without consequence.
        var _ := UpdateFindMyiPhone(pollReply);
        var _ := GetContacts(FirstName, meCardReply, startupReply);
        var k := StartKeepAliveThread();
        if k.Raised? {
          return Err(k.error);
        }
      }
      return IsConnected();
    }

    method Disconnect() returns (o: Outcome)
      modifies this
      ensures Transition(State(), o) == Protocol.Disconnect(old(State()))
    {
      var connected := IsConnected();
      if connected.Err? {
        return Raised(connected.error);
      }
      var wasConnected := connected.value;
      StopFindMyiPhone();
      // Stopping the keep-alive thread changes no field.
      ClearSnapshot();
      ClearLogin();
      if wasConnected {
        raised := raised + [Disconnected];
      }
      return Done;
    }

    /** Forgets the device snapshot and the personal card. */
    method ClearSnapshot()
      modifies this
      ensures devices.None? && userInformation.None? && userPreferences.None? && contactsMeCard.None?
      ensures sessionCookies == old(sessionCookies) && loginResponse == old(loginResponse)
      ensures clientContext == old(clientContext) && serverContext == old(serverContext)
      ensures lastContactsResponse == old(lastContactsResponse)
      ensures pollingThreadCreated == old(pollingThreadCreated) && keepAliveThreadCreated == old(keepAliveThreadCreated)
      ensures contactsSortOrder == old(contactsSortOrder)
      ensures refreshAuthenticationMilliseconds == old(refreshAuthenticationMilliseconds)
      ensures sent == old(sent) && raised == old(raised)
    {
      devices, userInformation, userPreferences, contactsMeCard := None, None, None, None;
    }

    /** Forgets the login, both find-my-device contexts and the contacts sync. */
    method ClearLogin()
      modifies this
      ensures !sessionCookies && loginResponse.None? && clientContext.None? && serverContext.None?
      ensures lastContactsResponse.None?
      ensures devices == old(devices) && userInformation == old(userInformation)
      ensures userPreferences == old(userPreferences) && contactsMeCard == old(contactsMeCard)
      ensures pollingThreadCreated == old(pollingThreadCreated) && keepAliveThreadCreated == old(keepAliveThreadCreated)
      ensures contactsSortOrder == old(contactsSortOrder)
      ensures refreshAuthenticationMilliseconds == old(refreshAuthenticationMilliseconds)
      ensures sent == old(sent) && raised == old(raised)
    {
      sessionCookies, loginResponse := false, None;
      clientContext, serverContext, lastContactsResponse := None, None, None;
    }

    method StartKeepAliveThread() returns (o: Outcome)
      modifies this
      ensures Transition(State(), o) == Protocol.StartKeepAliveThread(old(State()))
    {
      var connected := IsConnected();
      if connected != Ok(true) {
        return if connected.Err? then Raised(connected.error) else Raised(NotConnected);
      }
      keepAliveThreadCreated := true;
      return Done;
    }

    /** One pass of the keep-alive loop after its sleep, with the disconnect
        on failure carried through. */
    method KeepAliveStep(reply: Reply<()>) returns (r: KeepAliveResult)
      modifies this
      ensures Transition(State(), r) == Protocol.KeepAliveStep(old(State()), reply)
    {
      var url := RefreshWebAuthUrl(loginResponse);
      if url.Some? {
        sent := sent + [Get(url.value)];
        if reply.Answer? {
          return KeepRunning;
        }
      }
      var d := Disconnect();
      return if d.Raised? then ThreadCrashed(d.error) else ThreadEnded;
    }

    // ---- find my device ----

    method GetClientContext() returns (context: ClientContext)
      modifies this
      ensures State() == Protocol.GetClientContext(old(State()))
      ensures clientContext == Some(context)
    {
      if clientContext.None? {
        clientContext := Some(DefaultClientContext);
      }
      return clientContext.value;
    }

    method UpdateFindMyiPhone(reply: Reply<FmiResponse>) returns (o: Outcome)
      modifies this
      ensures Transition(State(), o) == Protocol.UpdateFindMyiPhone(old(State()), reply)
    {
      var connected := IsConnected();
      if connected != Ok(true) {
        return if connected.Err? then Raised(connected.error) else Raised(NotConnected);
      }
      var context := GetClientContext();
      var initializing := serverContext.None?;
      var request := if initializing then FmiRequest(context, None, None, None)
                     else FmiRequest(context, serverContext, None, None);
      var url := if initializing then InitClientUrl(loginResponse) else RefreshClientUrl(loginResponse);
      if url.None? {
        return Raised(ArgumentNull);
      }
      sent := sent + [Post(url.value, FindMyiPhone(request), true)];
      if reply.WebFailure? {
        return Raised(Web(reply.status));
      }
      o := AdoptPoll(reply.body);
    }

    method AdoptPoll(response: FmiResponse) returns (o: Outcome)
      modifies this
      ensures Transition(State(), o) == Protocol.AdoptPoll(old(State()), response)
    {
      AdoptSnapshot(response);
      match response.statusCode {
        case Missing => return Raised(ArgumentNull);
        case Malformed => return Raised(Format);
        case OutOfRange => return Raised(Overflow);
        case Numeral(code) =>
          var echoed := response.(serverContext := serverContext);
          if code == StatusOk {
            raised := raised + [FindMyiPhoneUpdate(echoed)];
          } else {
            raised := raised + [FindMyiPhoneFailed(echoed)];
          }
      }
      return Done;
    }

    /** Keeps the answer's server context, stamped, and replaces each part of
        the device snapshot the answer carries. */
    method AdoptSnapshot(response: FmiResponse)
      modifies this
      ensures serverContext == Stamp(response.serverContext)
      ensures devices == if response.devices.Some? then response.devices else old(devices)
      ensures userInformation == if response.userInformation.Some? then response.userInformation else old(userInformation)
      ensures userPreferences == if response.userPreferences.Some? then response.userPreferences else old(userPreferences)
      ensures sessionCookies == old(sessionCookies) && loginResponse == old(loginResponse)
      ensures clientContext == old(clientContext) && lastContactsResponse == old(lastContactsResponse)
      ensures pollingThreadCreated == old(pollingThreadCreated) && keepAliveThreadCreated == old(keepAliveThreadCreated)
      ensures contactsMeCard == old(contactsMeCard) && contactsSortOrder == old(contactsSortOrder)
      ensures refreshAuthenticationMilliseconds == old(refreshAuthenticationMilliseconds)
      ensures sent == old(sent) && raised == old(raised)
      ensures State() == Adopted(old(State()), response)
    {
      serverContext := response.serverContext;
      if serverContext.Some? {
        serverContext := Some(serverContext.value.(id := Some(ServerContextId)));
      }
      if response.devices.Some? {
        devices := response.devices;
      }
      if response.userInformation.Some? {
        userInformation := response.userInformation;
      }
      if response.userPreferences.Some? {
        userPreferences := response.userPreferences;
      }
    }

    method StartFindMyiPhone() returns (o: Outcome)
      modifies this
      ensures Transition(State(), o) == Protocol.StartFindMyiPhone(old(State()))
    {
      var connected := IsConnected();
      if connected != Ok(true) {
        return if connected.Err? then Raised(connected.error) else Raised(NotConnected);
      }
      StopFindMyiPhone();
      pollingThreadCreated := true;
      return Done;
    }

    method StopFindMyiPhone()
      modifies this
      ensures State() == Protocol.StopFindMyiPhone(old(State()))
    {
      if pollingThreadCreated {
        serverContext := None;
      }
    }

    method PlaySound(message: string, deviceId: Option<string>, pollReply: Reply<FmiResponse>,
                     soundReply: Reply<FmiResponse>) returns (o: Outcome)
      modifies this
      ensures Transition(State(), o) == Protocol.PlaySound(old(State()), message, deviceId, pollReply, soundReply)
    {
      var connected := IsConnected();
      if connected != Ok(true) {
        return if connected.Err? then Raised(connected.error) else Raised(NotConnected);
      }
      if serverContext.None? {
        var p := UpdateFindMyiPhone(pollReply);
        if p.Raised? {
          return p;
        }
      }
      var context := GetClientContext();
      var request := FmiRequest(context, serverContext, deviceId, Some(message));
      var url := PlaySoundUrl(loginResponse);
      if url.None? {
        return Raised(ArgumentNull);
      }
      sent := sent + [Post(url.value, FindMyiPhone(request), true)];
      if soundReply.WebFailure? {
        return Raised(Web(soundReply.status));
      }
      serverContext := soundReply.body.serverContext;
      if serverContext.Some? {
        serverContext := Some(serverContext.value.(id := Some(ServerContextId)));
      }
      return Done;
    }

    /** The overload that takes the device record. */
    method PlaySoundOn(message: string, device: Device, pollReply: Reply<FmiResponse>,
                       soundReply: Reply<FmiResponse>) returns (o: Outcome)
      modifies this
      ensures Transition(State(), o) == Protocol.PlaySound(old(State()), message, device.deviceId, pollReply, soundReply)
    {
      o := PlaySound(message, device.deviceId, pollReply, soundReply);
    }

    // ---- contacts ----

    method GetContacts(order: SortOrder, meCardReply: Reply<MeCard>, startupReply: Reply<ContactsResponse>)
      returns (o: Outcome)
      modifies this
      ensures Transition(State(), o) == Protocol.GetContacts(old(State()), order, meCardReply, startupReply)
    {
      var connected := IsConnected();
      if connected != Ok(true) {
        return if connected.Err? then Raised(connected.error) else Raised(NotConnected);
      }
      contactsSortOrder := order;
      var meUrl := MeCardUrl(loginResponse);
      if meUrl.None? {
        return Raised(ArgumentNull);
      }
      sent := sent + [Get(meUrl.value)];
      if meCardReply.WebFailure? {
        return Raised(Web(meCardReply.status));
      }
      contactsMeCard := Some(meCardReply.body);
      var startUrl := StartupUrl(loginResponse, ContactsLocale, contactsSortOrder);
      if startUrl.None? {
        return Raised(ArgumentNull);
      }
      sent := sent + [Get(startUrl.value)];
      if startupReply.WebFailure? {
        return Raised(Web(startupReply.status));
      }
      lastContactsResponse := Some(startupReply.body);
      return Done;
    }

    method SetContact(contact: Contact, editReply: Reply<ContactsResponse>, addReply: Reply<ContactsResponse>)
      returns (o: Outcome)
      modifies this
      ensures Transition(State(), o) == Protocol.SetContacts(old(State()), [contact], editReply, addReply)
    {
      o := SetContacts([contact], editReply, addReply);
    }

    method SetContacts(contacts: seq<Contact>, editReply: Reply<ContactsResponse>, addReply: Reply<ContactsResponse>)
      returns (o: Outcome)
      modifies this
      ensures Transition(State(), o) == Protocol.SetContacts(old(State()), contacts, editReply, addReply)
    {
      var cached := Contacts();
      if |contacts| > 0 && cached.None? {
        return Raised(ArgumentNull);
      }
      var known := if cached.Some? then cached.value else [];
      var existingList := Existing(contacts, known);
      var newList := Fresh(contacts, known);
      o := SetContactsBatch(existingList, false, editReply);
      if o.Raised? {
        return;
      }
      o := SetContactsBatch(newList, true, addReply);
    }

    /** The private overload that uploads one batch of only new or only known
        contacts and reconciles the cache with the answer. */
    method SetContactsBatch(batch: seq<Contact>, addingNew: bool, reply: Reply<ContactsResponse>)
      returns (o: Outcome)
      modifies this
      ensures Transition(State(), o) == Protocol.SetContactsBatch(old(State()), batch, addingNew, reply)
    {
      var connected := IsConnected();
      if connected != Ok(true) {
        return if connected.Err? then Raised(connected.error) else Raised(NotConnected);
      }
      if |batch| == 0 {
        return Done;
      }
      var url := if addingNew then ContactsSetAddUrl(loginResponse, lastContactsResponse)
                 else ContactsSetEditUrl(loginResponse, lastContactsResponse);
      if url.None? {
        return Raised(ArgumentNull);
      }
      sent := sent + [Post(url.value, ContactsUpdate(batch), false)];
      if reply.WebFailure? {
        return Raised(Web(reply.status));
      }
      var response := reply.body;
      if lastContactsResponse.Some? {
        lastContactsResponse := Some(lastContactsResponse.value.(
          contactsOrder := response.contactsOrder, collections := response.collections,
          headerPositions := response.headerPositions, meCardId := response.meCardId,
          prefToken := response.prefToken, syncToken := response.syncToken));
        if response.contacts.None? {
          return Raised(NullReference);
        }
        var updated := IndexById(response.contacts.value);
        var order := lastContactsResponse.value.contactsOrder;
        if order.None? {
          return Raised(NullReference);
        }
        var list := RebuildList(order.value, updated, Contacts());
        if list.Err? {
          return Raised(list.error);
        }
        lastContactsResponse := Some(lastContactsResponse.value.(contacts := Some(list.value)));
      }
      return Done;
    }

    method DeleteContact(contact: Contact, reply: Reply<ContactsResponse>) returns (o: Outcome)
      modifies this
      ensures Transition(State(), o) == Protocol.DeleteContacts(old(State()), [contact], reply)
    {
      o := DeleteContacts([contact], reply);
    }

    method DeleteContacts(contacts: seq<Contact>, reply: Reply<ContactsResponse>) returns (o: Outcome)
      modifies this
      ensures Transition(State(), o) == Protocol.DeleteContacts(old(State()), contacts, reply)
    {
      var connected := IsConnected();
      if connected != Ok(true) {
        return if connected.Err? then Raised(connected.error) else Raised(NotConnected);
      }
      if |contacts| == 0 {
        return Done;
      }
      var entries := DeleteRequestFor(contacts);
      var url := ContactsSetDeleteUrl(loginResponse, lastContactsResponse);
      if url.None? {
        return Raised(ArgumentNull);
      }
      sent := sent + [Post(url.value, ContactsDelete(entries), false)];
      if reply.WebFailure? {
        return Raised(Web(reply.status));
      }
      var response := reply.body;
      if lastContactsResponse.Some? {
        lastContactsResponse := Some(lastContactsResponse.value.(
          contactsOrder := response.contactsOrder, collections := response.collections,
          headerPositions := response.headerPositions, meCardId := response.meCardId,
          prefToken := response.prefToken, syncToken := response.syncToken));
        if response.deletes.Some? && response.deletes.value.contactIds.Some? {
          var cached := Contacts();
          if cached.None? {
            return Raised(ArgumentNull);
          }
          var kept := WithoutDeleted(cached.value, response.deletes.value.contactIds.value);
          lastContactsResponse := Some(lastContactsResponse.value.(contacts := Some(kept)));
        }
      }
      return Done;
    }
  }
}
