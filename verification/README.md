# iCloudLib client core, modelled in Dafny

This project models the session and contacts core of the iCloudLib C# client, the `iCloud` class
(`iCloudLib/iCloud.cs`). Its parts:

- **Connection.** `Connect` logs in, then does a first find-my-device poll and a first contacts
  fetch, and starts the keep-alive thread. `IsConnected` decides the session state. `Disconnect`
  resets the session.
- **Service URLs.** The getters derive each service URL from the login response and from the last
  contacts synchronisation.
- **Find My iPhone.** This covers the poll (`UpdateFindMyiPhone`), starting and stopping polling,
  and `PlaySound`.
- **Contacts.** This covers the fetch (`GetContacts`) and the upsert (`SetContacts`). The upsert
  splits its input into an edit batch and an add batch. It then rebuilds the cached list in the
  order the server reports. The last part is the delete (`DeleteContacts`).

The server is an oracle:

- Every request the client sends is appended to a log, `sent`.
- Every reply the client would read is a parameter: a decoded body, or a web failure carrying its
  status.
- Every event the client raises is appended to `raised`.

The files:

- `records.dfy`: the JSON records as datatypes, the errors the client raises, and the reply shape.
- `endpoints.dfy`: the URL getters. A URL is the structured value its format string is filled from.
- `contacts_sync.dfy`: pure list logic.
  - The edit/add partition.
  - The id dictionary, where the last duplicate wins.
  - The ordered rebuild of the cached list.
  - The delete filter.
  - The delete request's entries.
- `protocol.dfy`: the client's whole state (`ClientState`) and one function per operation. Each
  maps a state and the replies to the new state and the outcome.
- `client.dfy`: the `ICloud` class. Its fields are the client's fields. Each method updates them
  step by step, in the order the C# code does, and is proved equal to its `Protocol` function.
- `session_laws.dfy`, `contacts_laws.dfy`: what the operations promise, proved over the functions.

Exceptions are outcomes. `Raised(e)` or `Err(e)` names the .NET exception the code would throw:

- `NullReference`: a missing field is dereferenced.
- `ArgumentNull`: a null URL or key reaches `WebClient` or a dictionary. `WebClient` rejects a null
  address before anything is sent (`iCloudLib/NetClient.cs:79-88`), so such a call logs no request.
- `NotConnected`: the library's own exception.
- `InvalidOperation`: `First` on no match.
- `Format` and `Overflow`: `int.Parse`.
- `Web(status)`: a web failure.

Two behaviours of the code are easy to miss. The model follows the code in both:

- **`IsConnected` throws.** It reads the login response's data set information without a null
  check, although every URL getter checks that information for null first. With session cookies and a login response that lacks that information, `IsConnected`
  throws `NullReferenceException`. That exception also escapes `Disconnect` and `Connect`.
- **`SetContacts` without a cache.** The public `SetContacts` reads the cached contacts before any
  connectivity check. On a client that never fetched contacts, a nonempty call therefore throws
  `ArgumentNullException` from `Select`, even when disconnected. Every other session operation
  starts with the connectivity check and raises "not connected" there.

## Model

| member | source | states |
|---|---|---|
| Endpoints.FindMeUrl | iCloudLib/iCloud.cs:43-75 | a find-my-device URL exists iff the login response, its web services, the findme service, its URL and the data set information are all present; then it carries that host and data set id |
| Endpoints.MeCardUrl | iCloudLib/iCloud.cs:83-93 | the me-card URL exists iff the contacts service is fully described by the login response, and carries the contacts host and the account's data set id |
| Endpoints.StartupUrl | iCloudLib/iCloud.cs:94-107 | the startup URL exists iff the contacts service is described; it carries the contacts host, the data set id and the locale, and its order parameter is "first,last" for first-name order and "last,first" otherwise |
| Endpoints.ChangeSetUrl | iCloudLib/iCloud.cs:108-123 | the change-set URL exists iff a contacts response holding both the sync and the preference token is cached and the contacts service is described; it carries the contacts host, the data set id and both tokens |
| Endpoints.CardUrl | iCloudLib/iCloud.cs:124-171 | the add, edit and delete URL exists iff both tokens are held and the contacts service is described; it carries the contacts host, the requested method override, both tokens and the data set id |
| Endpoints.RefreshWebAuthUrl | iCloudLib/iCloud.cs:172-182 | the keep-alive URL exists iff the push service is described, and uses the push service's host and the data set id |
| Endpoints.FindMeUrlsAgree | iCloudLib/iCloud.cs:43-75 | the init, refresh and play-sound URLs are present together and differ only in the action path |
| Endpoints.CardUrlsAgree | iCloudLib/iCloud.cs:124-171 | the add, edit and delete URLs are present together, add has no override, and edit and delete differ from add only by the override |
| Protocol.Connectivity | iCloudLib/iCloud.cs:195-201 | connected iff cookies and a login response are held and its data set status is 2 (active); throws NullReference exactly when cookies and a login response are held but the data set information is missing |
| Protocol.RequireConnected | iCloudLib/iCloud.cs:412-413 | the guard passes iff the session is connected; otherwise it raises not-connected, or the null-reference error that the property itself throws |
| Protocol.CachedContacts | iCloudLib/iCloud.cs:206-215 | the contacts property is present iff a contacts response with a contact list is cached |
| Protocol.Initial | iCloudLib/iCloud.cs:229-241 | a new client holds no cookies, login, contexts, snapshot, me card or contacts, has started no thread, sorts by first name, has the given refresh interval, and has sent and raised nothing |
| Protocol.Cleared | iCloudLib/iCloud.cs:313-322 | after the reset, the client reads as disconnected |
| Protocol.GetClientContext | iCloudLib/iCloud.cs:401-406 | afterwards a client context is always held: the existing one is kept, the default is created only when none was held, and nothing else changes |
| Protocol.Stamp | iCloudLib/iCloud.cs:440-444 | a returned server context is kept iff one was returned; its id becomes "server_ctx" and its client id, server timestamp and callback interval are the server's |
| Client.ICloud.constructor | iCloudLib/iCloud.cs:229-233 | the default constructor gives the initial state with a two-minute refresh interval |
| Client.ICloud.WithRefreshInterval | iCloudLib/iCloud.cs:238-241 | the constructor with an interval gives the initial state with that interval |
| Client.ICloud.IsConnected | iCloudLib/iCloud.cs:195-201 | the property over the object's fields agrees with Protocol.Connectivity |
| Client.ICloud.Contacts | iCloudLib/iCloud.cs:206-215 | the property over the object's fields agrees with Protocol.CachedContacts |
| Client.ICloud.Connect | iCloudLib/iCloud.cs:254-298 | the new fields, log and result are those of Protocol.Connect; what that means is stated by SessionLaws.ConnectOutcome |
| Client.ICloud.CompleteLogin | iCloudLib/iCloud.cs:272-291 | after a login answer: if connected, poll, fetch contacts in first-name order and start the keep-alive thread; the result is the connectivity |
| Client.ICloud.Disconnect | iCloudLib/iCloud.cs:303-326 | the new fields and outcome are those of Protocol.Disconnect (see SessionLaws.DisconnectClears) |
| Client.ICloud.ClearSnapshot | iCloudLib/iCloud.cs:313-316 | devices, user information, preferences and the me card become null; every other field is unchanged |
| Client.ICloud.ClearLogin | iCloudLib/iCloud.cs:317-322 | cookies, login response, both contexts and the cached contacts response are dropped; every other field is unchanged |
| Client.ICloud.StartKeepAliveThread | iCloudLib/iCloud.cs:331-368 | refuses when not connected, otherwise marks the keep-alive thread as created, as Protocol.StartKeepAliveThread |
| Client.ICloud.KeepAliveStep | iCloudLib/iCloud.cs:350-366 | one pass of the keep-alive loop as corrected: see Findings and SessionLaws.KeepAliveStepDisconnects |
| Client.ICloud.GetClientContext | iCloudLib/iCloud.cs:401-406 | returns the held client context, creating the default one first when none is held |
| Client.ICloud.UpdateFindMyiPhone | iCloudLib/iCloud.cs:410-466 | one poll, field by field, equal to Protocol.UpdateFindMyiPhone (see the Poll lemmas) |
| Client.ICloud.AdoptPoll | iCloudLib/iCloud.cs:439-465 | an answered poll adopts the snapshot, then raises the update event iff the status parses to 200 and the failed event for any other number; a missing, malformed or out-of-range status raises the parse error, as Protocol.AdoptPoll |
| Client.ICloud.AdoptSnapshot | iCloudLib/iCloud.cs:440-452 | the server context becomes the stamped returned one; devices, user information and preferences are replaced only when the response carries them; all else is unchanged |
| Client.ICloud.StartFindMyiPhone | iCloudLib/iCloud.cs:493-519 | refuses when not connected; otherwise stops any polling thread (resetting the server context) and marks a polling thread created |
| Client.ICloud.StopFindMyiPhone | iCloudLib/iCloud.cs:523-535 | the server context is dropped iff a polling thread was ever created |
| Client.ICloud.PlaySound | iCloudLib/iCloud.cs:552-586 | equal to Protocol.PlaySound; see SessionLaws.PlaySoundLaw |
| Client.ICloud.PlaySoundOn | iCloudLib/iCloud.cs:543-546 | playing a sound on a device is playing it on that device's id |
| Client.ICloud.GetContacts | iCloudLib/iCloud.cs:597-615 | equal to Protocol.GetContacts; see ContactsLaws.GetContactsFetchesCardThenList |
| Client.ICloud.SetContact | iCloudLib/iCloud.cs:621-624 | setting one contact is the upsert of the one-element batch |
| Client.ICloud.SetContacts | iCloudLib/iCloud.cs:630-637 | equal to Protocol.SetContacts: the edit batch, then the add batch |
| Client.ICloud.SetContactsBatch | iCloudLib/iCloud.cs:644-694 | one batch upload and the rebuild of the cached list, equal to Protocol.SetContactsBatch (see ContactsLaws.BatchReconciles) |
| Client.ICloud.DeleteContact | iCloudLib/iCloud.cs:700-703 | deleting one contact is the delete of the one-element batch |
| Client.ICloud.DeleteContacts | iCloudLib/iCloud.cs:709-742 | equal to Protocol.DeleteContacts (see ContactsLaws.DeleteReconciles) |
| ContactsSync.KeepMembers | iCloudLib/iCloud.cs:632-633 | a filter by id keeps exactly the contacts whose id is (or is not) in the given ids |
| ContactsSync.KeepIsSubsequence | iCloudLib/iCloud.cs:632-633 | a filter keeps the input order |
| ContactsSync.KeepSplits | iCloudLib/iCloud.cs:632-633 | the two filters together are the whole input, as a multiset and in length |
| ContactsSync.KeepCounts | iCloudLib/iCloud.cs:632-633 | a filter keeps every copy of a contact that passes and none of one that fails |
| ContactsSync.KeepAll | iCloudLib/iCloud.cs:632-633 | a filter that every element passes returns the input unchanged |
| ContactsSync.PartitionLaw | iCloudLib/iCloud.cs:632-633 | the edit batch holds the input contacts whose id is cached and the add batch the others; both keep input order and together they are the input |
| ContactsSync.LastByIdKeys | iCloudLib/iCloud.cs:675-677 | the dictionary's keys are exactly the returned contacts' ids |
| ContactsSync.LastByIdKeyed | iCloudLib/iCloud.cs:675-677 | each key maps to a contact with that id |
| ContactsSync.LastByIdIsLast | iCloudLib/iCloud.cs:675-677 | each key maps to the last contact with that id in the response |
| ContactsSync.IndexById | iCloudLib/iCloud.cs:675-677 | the dictionary the loop builds is LastById, keyed by id |
| ContactsSync.FirstWithId | iCloudLib/iCloud.cs:688 | finds the first cached contact with the id, or none iff no cached contact has it |
| ContactsSync.RebuildSucceeds | iCloudLib/iCloud.cs:680-689 | the rebuild succeeds iff every position of the server's order can be filled |
| ContactsSync.RebuildSpec | iCloudLib/iCloud.cs:680-689 | a successful rebuild has the order's length; position i carries id order[i], taken from the response when present and otherwise from the first cached contact with that id |
| ContactsSync.RebuildStopsAtFirstFailure | iCloudLib/iCloud.cs:681-689 | the first position that cannot be filled decides the error: no cache gives ArgumentNull, a missing id InvalidOperation |
| ContactsSync.RebuildList | iCloudLib/iCloud.cs:680-689 | the array-filling loop computes Rebuild |
| ContactsSync.RebuildKeepsUntouched | iCloudLib/iCloud.cs:680-689 | when the cached ids are pairwise distinct, rebuilding along the cached order succeeds, replaces exactly the returned contacts and keeps the others in place |
| ContactsSync.WithoutDeletedSpec | iCloudLib/iCloud.cs:738-740 | a cached contact survives iff its id was not reported deleted, with every copy kept; order is kept; an empty report removes nothing |
| ContactsSync.DeleteRequestFor | iCloudLib/iCloud.cs:1713-1718 | the delete request has one entry per contact, in order, carrying its id and etag |
| ContactsSync.EditInTheMiddle | iCloudLib/iCloud.cs:680-689 | editing the middle of three contacts replaces just that one |
| ContactsSync.DeleteInTheMiddle | iCloudLib/iCloud.cs:738-740 | deleting the middle of three contacts leaves the outer two in order |
| SessionLaws.DisconnectClears | iCloudLib/iCloud.cs:303-326 | a disconnect that does not throw clears the nine session fields, raises Disconnected iff the session was connected, sends nothing, and keeps the sort order and refresh interval; if the connectivity check throws, nothing changes |
| SessionLaws.DisconnectTwice | iCloudLib/iCloud.cs:303-326 | a second disconnect is a no-op |
| SessionLaws.DisconnectedRefuses | iCloudLib/iCloud.cs:412-413 | after a disconnect, every session operation raises not-connected and changes nothing; a nonempty SetContacts raises ArgumentNull instead |
| SessionLaws.PollKeepsLogin | iCloudLib/iCloud.cs:410-466 | a poll never changes cookies or the login response |
| SessionLaws.GetContactsKeepsLogin | iCloudLib/iCloud.cs:597-615 | a contacts fetch never changes cookies or the login response |
| SessionLaws.PollExtends | iCloudLib/iCloud.cs:410-466 | a poll only appends to the request log and the event log |
| SessionLaws.GetContactsExtends | iCloudLib/iCloud.cs:597-615 | a contacts fetch only appends to the request log and the event log |
| SessionLaws.ConnectOutcome | iCloudLib/iCloud.cs:254-298 | connect disconnects first, then posts the credentials; a protocol-error failure returns false and any other web failure is rethrown, both with the session cleared; on an answer, the result is the new connectivity: true iff the data set is active, and it throws iff the data set information is missing; when true, the keep-alive thread is started |
| SessionLaws.KeepAliveStepDisconnects | iCloudLib/iCloud.cs:350-366 | the corrected keep-alive pass: a successful refresh only logs its GET; a failed one ends the thread with the session cleared and Disconnected raised iff it was connected |
| SessionLaws.KeepAliveAsWrittenStaysConnected | iCloudLib/iCloud.cs:355-361 | as written, a failed refresh ends the keep-alive thread while the session still reads as connected, with nothing raised; the corrected pass disconnects |
| SessionLaws.PollChoosesInitOrRefresh | iCloudLib/iCloud.cs:414-438 | a poll posts form-encoded to the init URL iff no server context is held and to the refresh URL otherwise, with the (possibly new default) client context and the held server context |
| SessionLaws.PollWithoutService | iCloudLib/iCloud.cs:437-438 | without a find-my-device URL a connected poll raises ArgumentNull and sends nothing |
| SessionLaws.PollAdoptsAnswer | iCloudLib/iCloud.cs:438-465 | an answered poll stores the stamped server context, replaces devices, user information and preferences only when present, and raises the update event iff the status parses to 200 and the failed event for any other number; a missing, malformed or out-of-range status raises the parse error instead |
| SessionLaws.PollFailureKeepsSnapshot | iCloudLib/iCloud.cs:437-438 | a failed poll changes no snapshot field and raises no event |
| SessionLaws.StopThenPollInitialises | iCloudLib/iCloud.cs:493-535 | stopping changes nothing when no polling thread was created; after a stop of a created thread the next poll initialises; after a start it initialises iff a polling thread existed before or no server context was held, and refreshes otherwise |
| SessionLaws.PlaySoundLaw | iCloudLib/iCloud.cs:552-586 | play-sound polls first iff no server context is held, then posts the message for the device with the current contexts, never changes devices or user data, and stamps the returned server context |
| SessionLaws.PollStamps | iCloudLib/iCloud.cs:440-444 | a poll keeps every held server context stamped "server_ctx" |
| SessionLaws.PlaySoundStamps | iCloudLib/iCloud.cs:579-585 | play-sound keeps every held server context stamped "server_ctx" |
| SessionLaws.ContactsFetchStamps | iCloudLib/iCloud.cs:597-615 | a contacts fetch keeps the server context stamped |
| SessionLaws.ConnectStamps | iCloudLib/iCloud.cs:254-298 | connect keeps the server context stamped |
| SessionLaws.StateResetsStamp | iCloudLib/iCloud.cs:303-535 | stop, start, disconnect and the keep-alive pass keep the server context stamped, and a new client holds none |
| ContactsLaws.GetContactsFetchesCardThenList | iCloudLib/iCloud.cs:597-615 | a fetch records the sort order, GETs the me card and, unless that fails, the startup list in en_US with the order parameter; it stores each answer and rethrows the first failure |
| ContactsLaws.EmptyBatchesChangeNothing | iCloudLib/iCloud.cs:646-649 | an empty upsert, batch or delete sends nothing and changes nothing beyond the connectivity guard |
| ContactsLaws.NoCacheNoRequest | iCloudLib/iCloud.cs:660-665 | with no contacts response cached, a nonempty batch or delete raises ArgumentNull before sending |
| ContactsLaws.BatchFailure | iCloudLib/iCloud.cs:660-661 | a batch whose upload fails rethrows the web error exactly when the request went out; only the request log changes, by that one request, and the cache is kept |
| ContactsLaws.BatchSends | iCloudLib/iCloud.cs:660-661 | a batch that completes sent exactly that batch to the card URL, with the edit override unless it adds |
| ContactsLaws.BatchReconciles | iCloudLib/iCloud.cs:660-692 | an answered batch adopts the response's order, tokens and headers; it succeeds iff both lists are present and every ordered id is filled; the new list follows the server order, taking the last returned contact per id and otherwise the cached one; on failure the cached list is kept |
| ContactsLaws.UpsertSendsEditThenAdd | iCloudLib/iCloud.cs:630-637 | the upsert sends the edit batch before the add batch, one request per nonempty batch; the add URL carries the sync and preference tokens the edit answer returned |
| ContactsLaws.UpsertPartition | iCloudLib/iCloud.cs:632-633 | the edit and add batches are the input split by whether the id is cached, order-preserving and complete |
| ContactsLaws.UpsertEditFailure | iCloudLib/iCloud.cs:630-637 | when the edit batch's upload fails, the error reaches the caller, the add batch is never sent and nothing but the one edit request changes |
| ContactsLaws.DeleteReconciles | iCloudLib/iCloud.cs:709-742 | a delete posts one entry per input contact to the delete URL and adopts the response's tokens; it removes every copy of each contact whose id the server reports deleted and keeps every copy of the others, in order |
| ContactsLaws.DeleteFailure | iCloudLib/iCloud.cs:720-724 | a delete whose request fails rethrows the web error exactly when the request went out; only the request log changes, by that one request |
| ContactsLaws.EditOneOfThree | iCloudLib/iCloud.cs:630-694 | editing the middle of three cached contacts sends one request and leaves the other two in place |

## Left out

- The threads themselves are not modelled. That covers the polling loop and its interval sleep,
  the keep-alive loop's sleep, `Thread.Abort`, and the busy-waits on thread state. Each thread is
  a flag saying whether it was ever created. One pass of the keep-alive loop is `KeepAliveStep`.
  Interleavings between the threads and the caller are not modelled.
- An unhandled exception inside a thread would end the process. The model only reports it
  (`ThreadCrashed`).
- JSON serialisation and `Deserialize` are not modelled. Replies arrive already decoded, so a null
  or malformed body is not a case. The URL text, `Uri.EscapeDataString`, headers, the referer and
  the cookie container's contents are not modelled either. Cookies are a flag.
  `iCloudLib/NetClient.cs` is not part of this model beyond its treatment of a null URL.
- The connectivity re-checks in `UpdateFindMyiPhone` (lines 417-420) and `PlaySound` (lines
  563-567) are not modelled. They cannot fail in a sequential model.
- An exception thrown by an event handler is not modelled. Events are recorded whether or not a
  handler is attached.
- Null elements are not modelled: a null contact, a null contact id (a dictionary
  `ArgumentNullException`), a null device, or a null array argument. Every element is a value.
- Client.ICloud.WithRefreshInterval: the refresh interval is an unbounded integer. Its 32-bit width
  and the behaviour of a negative sleep are not modelled.
- `ContactsChangeSetUrl` is modelled only as a getter. Its one call site is commented out.
- Client.ICloud.Contacts, Client.ICloud.SetContacts and the find-my-device event payloads treat
  contacts, devices and responses as values. In the C# code the `Contacts` property returns the
  live cached array, and the event hands out the response whose device array the client also
  stores. A caller that edits a returned contact in place therefore changes the cache at once. If
  the upload then fails, the edit stays in the cache, while the model's cache is unchanged.
  Reference sharing and edits made in place by callers are not captured.
- Of a device, only its id is read by any operation: `PlaySound` on a device passes just that id.
  The name and class a device record carries are kept but never read. User and contact fields
  beyond ids and etags are carried as opaque payloads.

## Findings

The keep-alive thread cannot disconnect the session it guards. When the refresh GET fails, the
thread calls `Disconnect`. `Disconnect` first stops polling, then calls `StopKeepAliveThread`, which
aborts the keep-alive thread. That is the thread running the call, so it dies before the reset
block runs and before the event is raised. Only `StopFindMyiPhone` has run by then, and it may
have dropped the server context. `Protocol.KeepAliveStepAsWritten` models the code as
written. `Protocol.KeepAliveStep` is the corrected pass: the session is reset and `Disconnected` is
raised. `Client.ICloud.KeepAliveStep` uses the corrected pass.

| source | as written | input that shows it | evidently intended | confidence | as-written member | corrected member |
|---|---|---|---|---|---|---|
| iCloudLib/iCloud.cs:355-361 | on a failed refresh the keep-alive thread calls Disconnect, which aborts that same thread (line 378) before the reset block runs; only StopFindMyiPhone, which may drop the server context, has run | a connected session whose keep-alive GET fails, e.g. after the session expired | the session is cleared and the Disconnected event raised | not executed | SessionLaws.KeepAliveAsWrittenStaysConnected | SessionLaws.KeepAliveStepDisconnects |
