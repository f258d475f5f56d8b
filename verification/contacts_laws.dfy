/** What the client promises about uploading and deleting contacts and about
    the cached contact list it keeps in step with the server. */
module ContactsLaws {
  import opened Records
  import opened Endpoints
  import opened ContactsSync
  import opened Protocol

  /** Fetching contacts records the sort order, reads the personal card, then
      the startup list in that order, and caches both answers. */
  lemma GetContactsFetchesCardThenList(s: ClientState, order: SortOrder, meCardReply: Reply<MeCard>,
                                       startupReply: Reply<ContactsResponse>)
    requires RequireConnected(s) == Done
    requires Serves(s.loginResponse, ContactsService)
    ensures var t := GetContacts(s, order, meCardReply, startupReply);
      var card := Get(MeCardUrl(s.loginResponse).value);
      var list := Get(StartupUrl(s.loginResponse, ContactsLocale, order).value);
      && t.state.contactsSortOrder == order
      && t.state.sent[|s.sent|..] == (if meCardReply.WebFailure? then [card] else [card, list])
      && |t.state.sent| >= |s.sent|
      && t.state.sent[..|s.sent|] == s.sent
      && list.url.order == (if order == FirstName then "first,last" else "last,first")
      && list.url.locale == "en_US"
      && t.state.contactsMeCard == (if meCardReply.Answer? then Some(meCardReply.body) else s.contactsMeCard)
      && t.state.lastContactsResponse == (if meCardReply.Answer? && startupReply.Answer? then Some(startupReply.body)
                                          else s.lastContactsResponse)
      && t.result == (if meCardReply.WebFailure? then Raised(Web(meCardReply.status))
                      else if startupReply.WebFailure? then Raised(Web(startupReply.status))
                      else Done)
  {
  }

  /** An empty upload or delete sends nothing and changes nothing. */
  lemma EmptyBatchesChangeNothing(s: ClientState, addingNew: bool, reply: Reply<ContactsResponse>,
                                  addReply: Reply<ContactsResponse>)
    ensures SetContactsBatch(s, [], addingNew, reply) == Transition(s, RequireConnected(s))
    ensures DeleteContacts(s, [], reply) == Transition(s, RequireConnected(s))
    ensures SetContacts(s, [], reply, addReply) == Transition(s, RequireConnected(s))
  {
    var known := if CachedContacts(s).Some? then CachedContacts(s).value else [];
    assert Existing([], known) == [] && Fresh([], known) == [];
  }

  /** Without a startup response there are no tokens, hence no card URL: an
      upload or delete raises before anything is sent, so the branch that
      skips reconciling the cache is never reached with an answer. */
  lemma NoCacheNoRequest(s: ClientState, batch: seq<Contact>, addingNew: bool, reply: Reply<ContactsResponse>)
    requires RequireConnected(s) == Done
    requires s.lastContactsResponse.None?
    requires |batch| > 0
    ensures SetContactsBatch(s, batch, addingNew, reply) == Transition(s, Raised(ArgumentNull))
    ensures DeleteContacts(s, batch, reply) == Transition(s, Raised(ArgumentNull))
  {
  }

  /** The requests one batch upload puts on the wire. */
  function Upload(s: ClientState, batch: seq<Contact>, verb: Option<Verb>): seq<Request> {
    var url := CardUrl(s.loginResponse, s.lastContactsResponse, verb);
    if |batch| == 0 || url.None? then [] else [Post(url.value, ContactsUpdate(batch), false)]
  }

  /** A batch upload that ends normally sent exactly that batch to the card
      endpoint (with the edit override unless it adds) and nothing else. */
  lemma BatchSends(s: ClientState, batch: seq<Contact>, addingNew: bool, reply: Reply<ContactsResponse>)
    requires SetContactsBatch(s, batch, addingNew, reply).result == Done
    ensures SetContactsBatch(s, batch, addingNew, reply).state.sent == s.sent + Upload(s, batch, CardVerb(addingNew))
    ensures |batch| > 0 ==> Upload(s, batch, CardVerb(addingNew)) != []
  {
  }

  /** What an upload answer does to the cache.  The six sync fields are taken
      from the answer (groups and deletes stay).  The list is rebuilt along the
      answer's order: each position holds the answer's contact with that id if
      there is one (the last one, when the answer repeats an id), otherwise the
      first cached contact with that id.  The rebuild succeeds exactly when
      every position can be filled; otherwise the cached list is left as it was. */
  lemma BatchReconciles(s: ClientState, batch: seq<Contact>, addingNew: bool, response: ContactsResponse)
    requires RequireConnected(s) == Done
    requires |batch| > 0
    requires TokensHeld(s.lastContactsResponse) && Serves(s.loginResponse, ContactsService)
    ensures var t := SetContactsBatch(s, batch, addingNew, Answer(response));
      var cached := s.lastContactsResponse.value;
      && t.state.sent == s.sent + Upload(s, batch, CardVerb(addingNew))
      && |Upload(s, batch, CardVerb(addingNew))| == 1
      && t.state.lastContactsResponse.Some?
      && var last := t.state.lastContactsResponse.value;
      && last.contactsOrder == response.contactsOrder && last.collections == response.collections
      && last.headerPositions == response.headerPositions && last.meCardId == response.meCardId
      && last.prefToken == response.prefToken && last.syncToken == response.syncToken
      && last.groups == cached.groups && last.deletes == cached.deletes
      && (t.result == Done <==>
            && response.contacts.Some? && response.contactsOrder.Some?
            && forall i :: 0 <= i < |response.contactsOrder.value| ==>
                 Pick(response.contactsOrder.value[i], LastById(response.contacts.value), cached.contacts).Ok?)
      && (t.result == Done ==>
            var order := response.contactsOrder.value;
            var updated := LastById(response.contacts.value);
            && last.contacts.Some? && |last.contacts.value| == |order|
            && forall i :: 0 <= i < |order| ==>
                 && last.contacts.value[i].id == order[i]
                 && (order[i] in updated ==> last.contacts.value[i] == updated[order[i]])
                 && (order[i] !in updated ==> Some(last.contacts.value[i]) == FirstWithId(cached.contacts.value, order[i])))
      && (t.result.Raised? ==> last.contacts == cached.contacts)
      && (response.contacts.None? || response.contactsOrder.None? ==> t.result == Raised(NullReference))
      && t.state == s.(sent := t.state.sent, lastContactsResponse := t.state.lastContactsResponse)
  {
    if response.contacts.Some? && response.contactsOrder.Some? {
      LastByIdKeyed(response.contacts.value);
      RebuildSpec(response.contactsOrder.value, LastById(response.contacts.value),
                  s.lastContactsResponse.value.contacts);
    }
  }

  /** The public upsert splits its input by the cached ids, sends the known
      contacts as one edit batch and then the new ones as one add batch, each
      only when nonempty; the add batch goes out with the tokens the edit
      answer returned. */
  lemma UpsertSendsEditThenAdd(s: ClientState, contacts: seq<Contact>, editReply: Reply<ContactsResponse>,
                               addReply: Reply<ContactsResponse>)
    requires CachedContacts(s).Some?
    requires SetContacts(s, contacts, editReply, addReply).result == Done
    ensures var t := SetContacts(s, contacts, editReply, addReply);
      var cached := CachedContacts(s).value;
      var edits, additions := Existing(contacts, cached), Fresh(contacts, cached);
      var e := SetContactsBatch(s, edits, false, editReply);
      && t.state.sent == s.sent + Upload(s, edits, Some(Put)) + Upload(e.state, additions, None)
      && |t.state.sent| == |s.sent| + (if edits == [] then 0 else 1) + (if additions == [] then 0 else 1)
      && (edits != [] && additions != [] ==>
            && editReply.Answer?
            && Some(t.state.sent[|s.sent| + 1].url.syncToken) == editReply.body.syncToken
            && Some(t.state.sent[|s.sent| + 1].url.prefToken) == editReply.body.prefToken)
  {
    var cached := CachedContacts(s).value;
    var edits, additions := Existing(contacts, cached), Fresh(contacts, cached);
    var e := SetContactsBatch(s, edits, false, editReply);
    BatchSends(s, edits, false, editReply);
    BatchSends(e.state, additions, true, addReply);
    if edits != [] && additions != [] {
      var url := CardUrl(e.state.loginResponse, e.state.lastContactsResponse, None);
      assert url.Some?;
      assert e.state.lastContactsResponse.value.syncToken == editReply.body.syncToken;
      assert e.state.lastContactsResponse.value.prefToken == editReply.body.prefToken;
    }
  }

  /** The split behind the upsert: each half keeps input order, a contact
      goes to the edits exactly when the cache knows its id, and together the
      halves are the input.  Stated on the cached list the client reads. */
  lemma UpsertPartition(s: ClientState, contacts: seq<Contact>)
    requires CachedContacts(s).Some?
    ensures var cached := CachedContacts(s).value;
      && (forall c :: c in Existing(contacts, cached) <==> c in contacts && c.id in Ids(cached))
      && (forall c :: c in Fresh(contacts, cached) <==> c in contacts && c.id !in Ids(cached))
      && multiset(Existing(contacts, cached)) + multiset(Fresh(contacts, cached)) == multiset(contacts)
      && IsSubsequence(Existing(contacts, cached), contacts)
      && IsSubsequence(Fresh(contacts, cached), contacts)
  {
    PartitionLaw(contacts, CachedContacts(s).value);
  }

  /** A delete sends one entry (id and version tag) per contact, takes the six
      sync fields from the answer, and removes from the cached list, in order,
      exactly the contacts whose id the answer reports deleted.  An answer
      without such a report leaves the list as it was. */
  lemma DeleteReconciles(s: ClientState, contacts: seq<Contact>, response: ContactsResponse)
    requires RequireConnected(s) == Done
    requires |contacts| > 0
    requires TokensHeld(s.lastContactsResponse) && Serves(s.loginResponse, ContactsService)
    ensures var t := DeleteContacts(s, contacts, Answer(response));
      var cached := s.lastContactsResponse.value;
      var entries := DeleteEntries(contacts);
      && t.state.sent == s.sent + [Post(ContactsSetDeleteUrl(s.loginResponse, s.lastContactsResponse).value,
                                        ContactsDelete(entries), false)]
      && |entries| == |contacts|
      && (forall i :: 0 <= i < |contacts| ==> entries[i] == DeleteEntry(contacts[i].id, contacts[i].etag))
      && t.state.lastContactsResponse.Some?
      && var last := t.state.lastContactsResponse.value;
      && last.contactsOrder == response.contactsOrder && last.syncToken == response.syncToken
      && last.prefToken == response.prefToken && last.collections == response.collections
      && last.headerPositions == response.headerPositions && last.meCardId == response.meCardId
      && ((response.deletes.None? || response.deletes.value.contactIds.None?) ==>
            t.result == Done && last.contacts == cached.contacts)
      && (response.deletes.Some? && response.deletes.value.contactIds.Some? ==>
            var deleted := response.deletes.value.contactIds.value;
            && (cached.contacts.None? ==> t.result == Raised(ArgumentNull) && last.contacts.None?)
            && (cached.contacts.Some? ==>
                  && t.result == Done && last.contacts.Some?
                  && (forall c :: c in last.contacts.value <==> c in cached.contacts.value && c.id !in deleted)
                  && IsSubsequence(last.contacts.value, cached.contacts.value)
                  && (forall c :: multiset(last.contacts.value)[c] ==
                                    if c.id in deleted then 0 else multiset(cached.contacts.value)[c])
                  && (deleted == [] ==> last.contacts == cached.contacts)))
  {
    if response.deletes.Some? && response.deletes.value.contactIds.Some? && s.lastContactsResponse.value.contacts.Some? {
      WithoutDeletedSpec(s.lastContactsResponse.value.contacts.value, response.deletes.value.contactIds.value);
    }
  }

  /** The example the upsert is written for, through the whole operation:
      cached [A, B, C], B edited; the answer keeps the order and returns B';
      the cache becomes [A, B', C] after one edit request. */
  lemma EditOneOfThree(s: ClientState, a: Contact, b: Contact, b': Contact, c: Contact, response: ContactsResponse)
    requires RequireConnected(s) == Done
    requires TokensHeld(s.lastContactsResponse) && Serves(s.loginResponse, ContactsService)
    requires s.lastContactsResponse.value.contacts == Some([a, b, c])
    requires a.id != b.id && b.id != c.id && a.id != c.id && b'.id == b.id
    requires response.contacts == Some([b']) && response.contactsOrder == Some([a.id, b.id, c.id])
    ensures var t := SetContacts(s, [b'], Answer(response), WebFailure(OtherFailure));
      && t.result == Done
      && |t.state.sent| == |s.sent| + 1
      && CachedContacts(t.state) == Some([a, b', c])
  {
    assert Ids([a, b, c]) == [a.id, b.id, c.id];
    assert [b'][1..] == [];
    assert b'.id in Ids([a, b, c]);
    assert Keep([b'][1..], Ids([a, b, c]), true) == [] && Keep([b'][1..], Ids([a, b, c]), false) == [];
    assert Existing([b'], [a, b, c]) == [b'];
    assert Fresh([b'], [a, b, c]) == [];
    EditInTheMiddle(a, b, b', c);
    var e := SetContactsBatch(s, [b'], false, Answer(response));
    EmptyBatchesChangeNothing(e.state, true, WebFailure(OtherFailure), WebFailure(OtherFailure));
  }

  /** The delete request a call sends, if any: nothing for an empty list or a
      missing delete URL. */
  function Removal(s: ClientState, contacts: seq<Contact>): seq<Request> {
    var url := ContactsSetDeleteUrl(s.loginResponse, s.lastContactsResponse);
    if |contacts| == 0 || url.None? then [] else [Post(url.value, ContactsDelete(DeleteEntries(contacts)), false)]
  }

  /** A batch whose upload fails: the web error reaches the caller exactly
      when the request went out, and the request log is the only thing that
      changes; the cached response is left as it was. */
  lemma BatchFailure(s: ClientState, batch: seq<Contact>, addingNew: bool, status: WebStatus)
    ensures var t := SetContactsBatch(s, batch, addingNew, WebFailure(status));
      var upload := Upload(s, batch, CardVerb(addingNew));
      && |upload| <= 1
      && (t.result == Raised(Web(status)) <==> RequireConnected(s) == Done && upload != [])
      && t.state == s.(sent := s.sent + (if RequireConnected(s) == Done then upload else []))
  {
  }

  /** A delete whose request fails: the same, for the delete request. */
  lemma DeleteFailure(s: ClientState, contacts: seq<Contact>, status: WebStatus)
    ensures var t := DeleteContacts(s, contacts, WebFailure(status));
      var removal := Removal(s, contacts);
      && |removal| <= 1
      && (t.result == Raised(Web(status)) <==> RequireConnected(s) == Done && removal != [])
      && t.state == s.(sent := s.sent + (if RequireConnected(s) == Done then removal else []))
  {
  }

  /** An upsert whose edit batch fails stops there: the add batch is never
      sent and the cache is untouched. */
  lemma UpsertEditFailure(s: ClientState, contacts: seq<Contact>, status: WebStatus,
                          addReply: Reply<ContactsResponse>)
    ensures var t := SetContacts(s, contacts, WebFailure(status), addReply);
      CachedContacts(s).Some? && RequireConnected(s) == Done ==>
        var edits := Existing(contacts, CachedContacts(s).value);
        Upload(s, edits, Some(Put)) != [] ==>
          t == Transition(s.(sent := s.sent + Upload(s, edits, Some(Put))), Raised(Web(status)))
  {
    if CachedContacts(s).Some? && RequireConnected(s) == Done {
      BatchFailure(s, Existing(contacts, CachedContacts(s).value), false, status);
    }
  }
}
