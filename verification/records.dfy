/** The decoded records the iCloud client exchanges with the service, and the
    failure vocabulary of its operations.  A `null` reference of the client
    becomes `None`; every record is the value the JSON decoder hands back. */
module Records {

  datatype Option<+T> = None | Some(value: T)

  /** Exceptions the client's operations can raise. */
  datatype Error =
    | NotConnected           // the client's own "Not connected to iCloud servers."
    | NullReference          // a null record dereferenced
    | ArgumentNull           // a null URL or a null sequence handed to the framework
    | InvalidOperation       // First() on a sequence without a match
    | Format                 // a status code that does not parse as an integer
    | Overflow               // a status code outside the 32-bit range
    | Web(status: WebStatus) // a transport failure

  /** The status a transport failure carries. */
  datatype WebStatus = ProtocolError | NameResolutionFailure | ConnectFailure | Timeout | OtherFailure

  datatype Result<+T> = Ok(value: T) | Err(error: Error)

  /** How an operation that returns nothing ends: normally, or by raising. */
  datatype Outcome = Done | Raised(error: Error)

  /** What one HTTP round trip gives back: the decoded body, or a transport failure. */
  datatype Reply<+T> = Answer(body: T) | WebFailure(status: WebStatus)

  type UInt64 = n: int | 0 <= n < 0x1_0000_0000_0000_0000
  type Int64 = n: int | -0x8000_0000_0000_0000 <= n < 0x8000_0000_0000_0000
  type Int32 = n: int | -0x8000_0000 <= n < 0x8000_0000

  // ---- authentication ----

  datatype LoginCredentials = LoginCredentials(appleId: Option<string>, password: Option<string>, extendedLogin: bool)

  datatype WebService = WebService(status: Option<string>, url: Option<string>)

  datatype WebServices = WebServices(push: Option<WebService>, findMe: Option<WebService>, contacts: Option<WebService>)

  datatype DataSetInformation = DataSetInformation(dataSetId: UInt64, statusCode: Int64)

  datatype LoginResponse = LoginResponse(webServices: Option<WebServices>, dataSetInformation: Option<DataSetInformation>)

  // ---- find my device ----

  datatype ClientContext = ClientContext(
    apiVersion: string, appName: string, appVersion: string,
    inactiveTime: UInt64, timeZone: string, webStats: string)

  /** The server-defined bundle echoed back on every refresh; `id` is the one
      field the client overwrites, the others stand for the opaque rest. */
  datatype ServerContext = ServerContext(id: Option<string>, clientId: Option<string>, serverTimestamp: UInt64, callbackIntervalMs: Int64)

  datatype Device = Device(deviceId: Option<string>, deviceName: Option<string>, deviceClass: Option<string>)

  datatype UserInfo = UserInfo(firstName: Option<string>, lastName: Option<string>)

  datatype UserPreferences = UserPreferences(selectedDeviceId: Option<string>, lastUpdatedTime: UInt64)

  /** The textual status code of a find-my-device response, as `int.Parse` sees
      it: absent, a 32-bit integer, an integer too large for 32 bits, or text
      that does not parse. */
  datatype StatusText = Missing | Numeral(value: Int32) | OutOfRange | Malformed

  datatype FmiRequest = FmiRequest(
    clientContext: ClientContext, serverContext: Option<ServerContext>,
    device: Option<string>, subject: Option<string>)

  datatype FmiResponse = FmiResponse(
    statusCode: StatusText, devices: Option<seq<Device>>,
    userInformation: Option<UserInfo>, userPreferences: Option<UserPreferences>,
    serverContext: Option<ServerContext>)

  // ---- contacts ----

  datatype SortOrder = FirstName | LastName

  /** A contact card: its identifier, its server-issued version tag, and every
      other field (names, phones, addresses, ...) as one opaque payload. */
  datatype Contact = Contact(id: string, etag: Option<string>, payload: string)

  datatype MeCard = MeCard(meCardId: Option<string>, contacts: Option<seq<Contact>>)

  datatype Collection = Collection(etag: Option<string>, collectionId: Option<string>)

  datatype DeletedContacts = DeletedContacts(contactIds: Option<seq<string>>)

  datatype ContactsResponse = ContactsResponse(
    contactsOrder: Option<seq<string>>,
    headerPositions: Option<string>,
    syncToken: Option<string>,
    meCardId: Option<string>,
    groups: Option<seq<string>>,
    prefToken: Option<string>,
    collections: Option<seq<Collection>>,
    contacts: Option<seq<Contact>>,
    deletes: Option<DeletedContacts>)

  datatype DeleteEntry = DeleteEntry(contactId: string, etag: Option<string>)
}
