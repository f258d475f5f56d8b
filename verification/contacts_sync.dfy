/** The list manipulations of the contacts synchronisation: splitting a batch
    into contacts to edit and contacts to add, indexing the server's changed
    contacts by id, rebuilding the cached list along the server's new order,
    filtering out deleted contacts, and building a delete request. */
module ContactsSync {
  import opened Records

  function Ids(cs: seq<Contact>): (r: seq<string>)
    ensures |r| == |cs| && forall i :: 0 <= i < |cs| ==> r[i] == cs[i].id
  {
    seq(|cs|, i requires 0 <= i < |cs| => cs[i].id)
  }

  // ---------------------------------------------------------------------------
  // Filtering by id (the `Where` comprehensions)
  // ---------------------------------------------------------------------------

  /** The contacts of `cs`, in order, whose id is (`member`) or is not
      (`!member`) among `ids`. */
  function Keep(cs: seq<Contact>, ids: seq<string>, member: bool): seq<Contact> {
    if cs == [] then []
    else (if (cs[0].id in ids) == member then [cs[0]] else []) + Keep(cs[1..], ids, member)
  }

  /** `a` can be obtained from `b` by deleting elements. */
  ghost predicate IsSubsequence<T>(a: seq<T>, b: seq<T>)
    decreases |b|
  {
    if a == [] then true
    else if b == [] then false
    else (a[0] == b[0] && IsSubsequence(a[1..], b[1..])) || IsSubsequence(a, b[1..])
  }

  /** A contact is kept exactly when it is in the input and its id passes the test. */
  lemma {:induction false} KeepMembers(cs: seq<Contact>, ids: seq<string>, member: bool)
    ensures forall c :: c in Keep(cs, ids, member) <==> c in cs && (c.id in ids) == member
  {
    if cs != [] {
      KeepMembers(cs[1..], ids, member);
      assert cs == [cs[0]] + cs[1..];
    }
  }

  /** Every copy of a contact that passes the test is kept, and no copy of
      one that fails it. */
  lemma {:induction false} KeepCounts(cs: seq<Contact>, ids: seq<string>, member: bool)
    ensures forall c :: multiset(Keep(cs, ids, member))[c] == if (c.id in ids) == member then multiset(cs)[c] else 0
  {
    if cs != [] {
      KeepCounts(cs[1..], ids, member);
      assert cs == [cs[0]] + cs[1..];
      assert multiset(cs) == multiset{cs[0]} + multiset(cs[1..]);
    }
  }

  /** Filtering keeps the input's relative order. */
  lemma {:induction false} KeepIsSubsequence(cs: seq<Contact>, ids: seq<string>, member: bool)
    ensures IsSubsequence(Keep(cs, ids, member), cs)
  {
    if cs != [] {
      KeepIsSubsequence(cs[1..], ids, member);
      var rest := Keep(cs[1..], ids, member);
      if (cs[0].id in ids) == member {
        assert Keep(cs, ids, member) == [cs[0]] + rest;
        assert ([cs[0]] + rest)[1..] == rest;
      } else {
        assert Keep(cs, ids, member) == rest;
      }
    }
  }

  /** The two halves of a split are disjoint in what they accept and together
      hold every input contact, as often as it occurs in the input. */
  lemma {:induction false} KeepSplits(cs: seq<Contact>, ids: seq<string>)
    ensures multiset(Keep(cs, ids, true)) + multiset(Keep(cs, ids, false)) == multiset(cs)
    ensures |Keep(cs, ids, true)| + |Keep(cs, ids, false)| == |cs|
  {
    if cs != [] {
      KeepSplits(cs[1..], ids);
      assert cs == [cs[0]] + cs[1..];
    }
  }

  /** Nothing is filtered out when every id passes the test. */
  lemma {:induction false} KeepAll(cs: seq<Contact>, ids: seq<string>, member: bool)
    requires forall i :: 0 <= i < |cs| ==> (cs[i].id in ids) == member
    ensures Keep(cs, ids, member) == cs
  {
    if cs != [] {
      KeepAll(cs[1..], ids, member);
      assert cs == [cs[0]] + cs[1..];
    }
  }

  // ---------------------------------------------------------------------------
  // The add / edit split (the public SetContacts)
  // ---------------------------------------------------------------------------

  /** The contacts of a batch whose id is already in the cached list: they go
      to the edit endpoint. */
  function Existing(batch: seq<Contact>, cached: seq<Contact>): seq<Contact> {
    Keep(batch, Ids(cached), true)
  }

  /** The contacts of a batch whose id is not in the cached list: they go to
      the add endpoint. */
  function Fresh(batch: seq<Contact>, cached: seq<Contact>): seq<Contact> {
    Keep(batch, Ids(cached), false)
  }

  /** The split of a batch: each half keeps input order, a contact is in the
      edit half iff its id is cached and in the add half iff it is not, and
      the halves together are the whole batch. */
  lemma PartitionLaw(batch: seq<Contact>, cached: seq<Contact>)
    ensures IsSubsequence(Existing(batch, cached), batch) && IsSubsequence(Fresh(batch, cached), batch)
    ensures forall c :: c in Existing(batch, cached) <==> c in batch && c.id in Ids(cached)
    ensures forall c :: c in Fresh(batch, cached) <==> c in batch && c.id !in Ids(cached)
    ensures multiset(Existing(batch, cached)) + multiset(Fresh(batch, cached)) == multiset(batch)
  {
    KeepIsSubsequence(batch, Ids(cached), true);
    KeepIsSubsequence(batch, Ids(cached), false);
    KeepMembers(batch, Ids(cached), true);
    KeepMembers(batch, Ids(cached), false);
    KeepSplits(batch, Ids(cached));
  }

  // ---------------------------------------------------------------------------
  // Indexing the changed contacts by id (the dictionary fill)
  // ---------------------------------------------------------------------------

  /** The dictionary `d[c.Id] = c` filled over `cs` in order: for a repeated id
      the last contact wins. */
  function LastById(cs: seq<Contact>): map<string, Contact> {
    if cs == [] then map[]
    else LastById(cs[..|cs| - 1])[cs[|cs| - 1].id := cs[|cs| - 1]]
  }

  /** The keys are exactly the ids of `cs`. */
  lemma {:induction false} LastByIdKeys(cs: seq<Contact>)
    ensures forall k :: k in LastById(cs) <==> k in Ids(cs)
  {
    if cs != [] {
      var init := cs[..|cs| - 1];
      LastByIdKeys(init);
      assert Ids(cs) == Ids(init) + [cs[|cs| - 1].id];
    }
  }

  /** Each key maps to a contact with that id. */
  lemma {:induction false} LastByIdKeyed(cs: seq<Contact>)
    ensures forall k :: k in LastById(cs) ==> LastById(cs)[k].id == k
  {
    if cs != [] {
      LastByIdKeyed(cs[..|cs| - 1]);
    }
  }

  /** Each key maps to the last contact of `cs` with that id. */
  lemma {:induction false} LastByIdIsLast(cs: seq<Contact>, k: string) returns (i: nat)
    requires k in LastById(cs)
    ensures i < |cs| && cs[i] == LastById(cs)[k]
    ensures forall j :: i < j < |cs| ==> cs[j].id != k
  {
    var init, x := cs[..|cs| - 1], cs[|cs| - 1];
    if k == x.id {
      i := |cs| - 1;
    } else {
      i := LastByIdIsLast(init, k);
    }
  }

  /** The `foreach` that fills the dictionary of changed contacts. */
  method IndexById(cs: seq<Contact>) returns (d: map<string, Contact>)
    ensures d == LastById(cs)
    ensures forall k :: k in d ==> d[k].id == k
  {
    d := map[];
    for i := 0 to |cs|
      invariant d == LastById(cs[..i])
    {
      assert cs[..i + 1][..i] == cs[..i];
      d := d[cs[i].id := cs[i]];
    }
    assert cs[..|cs|] == cs;
    LastByIdKeyed(cs);
  }

  // ---------------------------------------------------------------------------
  // Rebuilding the cached list (the index loop)
  // ---------------------------------------------------------------------------

  /** `First()` over the contacts with a given id. */
  function FirstWithId(cs: seq<Contact>, id: string): (r: Option<Contact>)
    ensures r.None? <==> forall i :: 0 <= i < |cs| ==> cs[i].id != id
    ensures r.Some? ==> exists i :: 0 <= i < |cs| && cs[i] == r.value && r.value.id == id
                                    && forall j :: 0 <= j < i ==> cs[j].id != id
  {
    if cs == [] then None
    else if cs[0].id == id then Some(cs[0])
    else
      var r := FirstWithId(cs[1..], id);
      assert r.Some? ==> exists i :: 0 <= i < |cs| - 1 && cs[1..][i] == r.value && r.value.id == id
                                      && forall j :: 0 <= j < i ==> cs[1..][j].id != id;
      r
  }

  /** The contact placed at a position holding `id`: the changed one when the
      server returned it, otherwise the first cached one; a cached list that
      is null, or one without the id, makes the rebuild fail. */
  function Pick(id: string, updated: map<string, Contact>, cached: Option<seq<Contact>>): Result<Contact> {
    if id in updated then Ok(updated[id])
    else if cached.None? then Err(ArgumentNull)
    else match FirstWithId(cached.value, id)
      case None => Err(InvalidOperation)
      case Some(c) => Ok(c)
  }

  /** The new cached list along the server's order: position by position, the
      first position that cannot be filled decides the failure. */
  function Rebuild(order: seq<string>, updated: map<string, Contact>, cached: Option<seq<Contact>>): Result<seq<Contact>> {
    if order == [] then Ok([])
    else match Rebuild(order[..|order| - 1], updated, cached)
      case Err(e) => Err(e)
      case Ok(prefix) =>
        match Pick(order[|order| - 1], updated, cached)
        case Err(e) => Err(e)
        case Ok(c) => Ok(prefix + [c])
  }

  /** A dictionary whose every key maps to a contact with that id. */
  ghost predicate KeyedById(updated: map<string, Contact>) {
    forall k :: k in updated ==> updated[k].id == k
  }

  /** The rebuild succeeds exactly when every position of the order can be
      filled. */
  lemma {:induction false} RebuildSucceeds(order: seq<string>, updated: map<string, Contact>, cached: Option<seq<Contact>>)
    ensures Rebuild(order, updated, cached).Ok? <==> forall i :: 0 <= i < |order| ==> Pick(order[i], updated, cached).Ok?
  {
    if order != [] {
      var n := |order| - 1;
      var init := order[..n];
      RebuildSucceeds(init, updated, cached);
      if Rebuild(init, updated, cached).Ok? && Pick(order[n], updated, cached).Ok? {
        forall i | 0 <= i < |order| ensures Pick(order[i], updated, cached).Ok? {
          if i < n { assert order[i] == init[i]; }
        }
      }
      if forall i :: 0 <= i < |order| ==> Pick(order[i], updated, cached).Ok? {
        forall i | 0 <= i < n ensures Pick(init[i], updated, cached).Ok? {
          assert order[i] == init[i];
        }
      }
    }
  }

  /** A successful rebuild has one contact per position of the order, carrying
      that position's id: the changed contact if there is one, otherwise the
      first cached one. */
  lemma {:induction false} RebuildSpec(order: seq<string>, updated: map<string, Contact>, cached: Option<seq<Contact>>)
    requires KeyedById(updated)
    ensures Rebuild(order, updated, cached).Ok? <==> forall i :: 0 <= i < |order| ==> Pick(order[i], updated, cached).Ok?
    ensures Rebuild(order, updated, cached).Ok? ==>
              var r := Rebuild(order, updated, cached).value;
              && |r| == |order|
              && forall i :: 0 <= i < |order| ==>
                   && r[i].id == order[i]
                   && r[i] == (if order[i] in updated then updated[order[i]]
                               else FirstWithId(cached.value, order[i]).value)
  {
    RebuildSucceeds(order, updated, cached);
    if order != [] && Rebuild(order, updated, cached).Ok? {
      var n := |order| - 1;
      var init := order[..n];
      RebuildSpec(init, updated, cached);
      var prefix := Rebuild(init, updated, cached).value;
      var r := Rebuild(order, updated, cached).value;
      assert r == prefix + [Pick(order[n], updated, cached).value];
      forall i | 0 <= i < n
        ensures r[i].id == order[i]
        ensures r[i] == (if order[i] in updated then updated[order[i]] else FirstWithId(cached.value, order[i]).value)
      {
        assert order[i] == init[i] && r[i] == prefix[i];
      }
    }
  }

  /** The loop stops at the first position that cannot be filled, and that
      position's error is the rebuild's error. */
  lemma {:induction false} RebuildStopsAtFirstFailure(order: seq<string>, i: nat, updated: map<string, Contact>, cached: Option<seq<Contact>>)
    requires i < |order|
    requires Rebuild(order[..i], updated, cached).Ok?
    requires Pick(order[i], updated, cached).Err?
    ensures Rebuild(order, updated, cached) == Err(Pick(order[i], updated, cached).error)
  {
    if i == |order| - 1 {
      assert order[..|order| - 1] == order[..i];
    } else {
      var init := order[..|order| - 1];
      assert init[..i] == order[..i];
      RebuildStopsAtFirstFailure(init, i, updated, cached);
    }
  }

  /** The index loop that fills a fresh array along the new order. */
  method RebuildList(order: seq<string>, updated: map<string, Contact>, cached: Option<seq<Contact>>)
    returns (r: Result<seq<Contact>>)
    ensures r == Rebuild(order, updated, cached)
  {
    var list := new Contact[|order|];
    for i := 0 to |order|
      invariant Rebuild(order[..i], updated, cached).Ok?
      invariant list[..i] == Rebuild(order[..i], updated, cached).value
    {
      var id := order[i];
      var pick := Pick(id, updated, cached);
      if pick.Err? {
        RebuildStopsAtFirstFailure(order, i, updated, cached);
        return Err(pick.error);
      }
      assert order[..i + 1][..i] == order[..i];
      list[i] := pick.value;
    }
    assert order[..|order|] == order;
    assert list[..] == list[..|order|];
    return Ok(list[..]);
  }

  /** When the server's order is exactly the cached ids, with no id twice, the
      rebuild puts each changed contact in its place and keeps every other
      cached contact where it was. */
  lemma RebuildKeepsUntouched(cached: seq<Contact>, updated: map<string, Contact>)
    requires KeyedById(updated)
    requires forall i, j :: 0 <= i < j < |cached| ==> cached[i].id != cached[j].id
    ensures Rebuild(Ids(cached), updated, Some(cached)).Ok?
    ensures var r := Rebuild(Ids(cached), updated, Some(cached)).value;
            |r| == |cached| &&
            forall i :: 0 <= i < |cached| ==>
              r[i] == (if cached[i].id in updated then updated[cached[i].id] else cached[i])
  {
    var order := Ids(cached);
    forall i | 0 <= i < |order| ensures Pick(order[i], updated, Some(cached)).Ok? {
      assert cached[i].id == order[i];
    }
    RebuildSpec(order, updated, Some(cached));
    forall i | 0 <= i < |cached| && cached[i].id !in updated
      ensures FirstWithId(cached, order[i]).value == cached[i]
    {
      var c := FirstWithId(cached, order[i]);
      var j :| 0 <= j < |cached| && cached[j] == c.value && c.value.id == order[i]
               && forall k :: 0 <= k < j ==> cached[k].id != order[i];
      assert cached[i].id == order[i];
      assert j == i;
    }
  }

  // ---------------------------------------------------------------------------
  // Deleting
  // ---------------------------------------------------------------------------

  /** The cached contacts that survive a delete: those whose id the server did
      not report as deleted, in their original order. */
  function WithoutDeleted(cached: seq<Contact>, deletedIds: seq<string>): seq<Contact> {
    Keep(cached, deletedIds, false)
  }

  /** A contact survives iff its id was not reported, order is kept, and an
      empty report removes nothing. */
  lemma WithoutDeletedSpec(cached: seq<Contact>, deletedIds: seq<string>)
    ensures forall c :: c in WithoutDeleted(cached, deletedIds) <==> c in cached && c.id !in deletedIds
    ensures IsSubsequence(WithoutDeleted(cached, deletedIds), cached)
    ensures deletedIds == [] ==> WithoutDeleted(cached, deletedIds) == cached
    ensures forall c :: multiset(WithoutDeleted(cached, deletedIds))[c] ==
                          if c.id in deletedIds then 0 else multiset(cached)[c]
  {
    KeepMembers(cached, deletedIds, false);
    KeepCounts(cached, deletedIds, false);
    KeepIsSubsequence(cached, deletedIds, false);
    if deletedIds == [] {
      KeepAll(cached, deletedIds, false);
    }
  }

  /** The id and version tag of every contact, in order: the payload of a delete request. */
  function DeleteEntries(cs: seq<Contact>): seq<DeleteEntry> {
    seq(|cs|, i requires 0 <= i < |cs| => DeleteEntry(cs[i].id, cs[i].etag))
  }

  /** The delete request's constructor: one entry per contact, filled in an
      array by index. */
  method DeleteRequestFor(contacts: seq<Contact>) returns (entries: seq<DeleteEntry>)
    ensures |entries| == |contacts|
    ensures forall i :: 0 <= i < |contacts| ==> entries[i] == DeleteEntry(contacts[i].id, contacts[i].etag)
    ensures entries == DeleteEntries(contacts)
  {
    var a := new DeleteEntry[|contacts|];
    for i := 0 to |contacts|
      invariant forall j :: 0 <= j < i ==> a[j] == DeleteEntry(contacts[j].id, contacts[j].etag)
    {
      a[i] := DeleteEntry(contacts[i].id, contacts[i].etag);
    }
    entries := a[..];
  }

  // ---------------------------------------------------------------------------
  // Worked cases
  // ---------------------------------------------------------------------------

  /** Cached [A, B, C], B edited: the server returns the same order and a new
      version of B, and the cache becomes [A, B', C]. */
  lemma EditInTheMiddle(a: Contact, b: Contact, b': Contact, c: Contact)
    requires a.id != b.id && b.id != c.id && a.id != c.id && b'.id == b.id
    ensures Rebuild([a.id, b.id, c.id], LastById([b']), Some([a, b, c])) == Ok([a, b', c])
  {
    var updated, cached, order := LastById([b']), Some([a, b, c]), [a.id, b.id, c.id];
    assert [b'][..0] == [];
    assert LastById([b']) == LastById([])[b'.id := b'];
    assert updated == map[b.id := b'];
    assert [a, b, c][1..] == [b, c] && [b, c][1..] == [c];
    assert FirstWithId([a, b, c], a.id) == Some(a);
    assert FirstWithId([c], c.id) == Some(c);
    assert FirstWithId([b, c], c.id) == Some(c);
    assert FirstWithId([a, b, c], c.id) == Some(c);
    assert forall i :: 0 <= i < 3 ==> Pick(order[i], updated, cached).Ok?;
    RebuildSpec(order, updated, cached);
    var r := Rebuild(order, updated, cached).value;
    assert r == [a, b', c];
  }

  /** Cached [A, B, C]; the server reports B deleted; the cache becomes [A, C]. */
  lemma DeleteInTheMiddle(a: Contact, b: Contact, c: Contact)
    requires a.id != b.id && b.id != c.id
    ensures WithoutDeleted([a, b, c], [b.id]) == [a, c]
  {
    assert [a, b, c][1..] == [b, c] && [b, c][1..] == [c] && [c][1..] == [];
    assert Keep([c], [b.id], false) == [c];
    assert Keep([b, c], [b.id], false) == [c];
  }
}
