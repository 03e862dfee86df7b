/** What each handler of subgraph/src/mapping.ts does to the entity tables, stated about
    the reference definitions `After...` that the handler methods are proved to follow. */
module HandlerProperties {
  import opened Encoding
  import opened Schema
  import opened Events
  import opened EntityStore
  import opened Mapping

  /** Every Profile's `owner` names a stored User. */
  ghost predicate OwnersResolve(t: Tables) {
    forall h | h in t.profiles :: t.profiles[h].owner in t.users
  }

  // ---------------------------------------------------------------- entity keys

  /** The Note key determines the (tokenId, noteId, author) triple it was built from. */
  lemma NoteIdInjective(t1: nat, n1: nat, a1: Address, t2: nat, n2: nat, a2: Address)
    ensures NoteId(t1, n1, a1) == NoteId(t2, n2, a2) <==> t1 == t2 && n1 == n2 && a1 == a2
  {
    if NoteId(t1, n1, a1) == NoteId(t2, n2, a2) {
      DecimalInjective(t1, t2);
      DecimalInjective(n1, n2);
      ToHexInjective(a1, a2);
    }
  }

  /** The Post key determines the (tokenId, postId) pair it was built from. */
  lemma PostIdInjective(t1: nat, n1: nat, t2: nat, n2: nat)
    ensures PostId(t1, n1) == PostId(t2, n2) <==> t1 == t2 && n1 == n2
  {
    if PostId(t1, n1) == PostId(t2, n2) {
      DecimalInjective(t1, t2);
      DecimalInjective(n1, n2);
    }
  }

  // ---------------------------------------------------------------- handleProfileCreated

  /** The Profile under the event's handle holds exactly the event's fields, the owner as
      its hex key, and the block time as both timestamps. */
  lemma ProfileCreatedStoresEvent(t: Tables, e: ProfileCreatedEvent)
    ensures var r, p := AfterProfileCreated(t, e), e.params;
      && p.handle in r.profiles
      && r.profiles[p.handle].id == p.handle
      && r.profiles[p.handle].tokenId == p.tokenId
      && r.profiles[p.handle].name == p.name
      && r.profiles[p.handle].handle == p.handle
      && r.profiles[p.handle].bio == p.bio
      && r.profiles[p.handle].avatar == p.avatar
      && r.profiles[p.handle].owner == ToHex(p.owner)
      && r.profiles[p.handle].linkKeys == p.linkKeys
      && r.profiles[p.handle].links == p.links
      && r.profiles[p.handle].createdAt == e.block.timestamp
      && r.profiles[p.handle].updatedAt == e.block.timestamp
  {
  }

  /** A User is created only when none is stored under the owner's hex address; an
      existing one is left as it was, and no other User changes. */
  lemma ProfileCreatedUserOnlyIfMissing(t: Tables, e: ProfileCreatedEvent)
    ensures var r, k := AfterProfileCreated(t, e), ToHex(e.params.owner);
      && k in r.users
      && (k in t.users ==> r.users[k] == t.users[k])
      && (k !in t.users ==> r.users[k] == User(k, k, e.block.timestamp))
      && (forall j :: j != k ==> Get(r.users, j) == Get(t.users, j))
  {
  }

  /** Whatever was stored under the handle before, the new Profile is the same: the
      previous entity, including its `createdAt`, is wholly replaced. */
  lemma ProfileCreatedReplacesPrevious(t1: Tables, t2: Tables, e: ProfileCreatedEvent)
    ensures var h := e.params.handle;
      AfterProfileCreated(t1, e).profiles[h] == AfterProfileCreated(t2, e).profiles[h]
  {
  }

  /** Only the Profile under the handle and possibly the owner's User change. */
  lemma ProfileCreatedFrame(t: Tables, e: ProfileCreatedEvent)
    ensures var r := AfterProfileCreated(t, e);
      && (forall h :: h != e.params.handle ==> Get(r.profiles, h) == Get(t.profiles, h))
      && t.users.Keys <= r.users.Keys
      && r.notes == t.notes
      && r.posts == t.posts
  {
  }

  /** After creation the Profile's owner resolves to a User whose address is the event
      owner's hex rendering. */
  lemma ProfileCreatedOwnerResolves(t: Tables, e: ProfileCreatedEvent)
    requires Consistent(t)
    ensures var r, h := AfterProfileCreated(t, e), e.params.handle;
      && r.profiles[h].owner in r.users
      && r.users[r.profiles[h].owner].address == ToHex(e.params.owner)
  {
  }

  // ---------------------------------------------------------------- handleProfileUpdated

  /** On a stored Profile: the identity fields and `createdAt` stay, the editable fields
      come from the event and `updatedAt` is the block time. */
  lemma ProfileUpdatedExisting(t: Tables, e: ProfileUpdatedEvent)
    requires e.params.handle in t.profiles
    ensures var h, p := e.params.handle, e.params;
      var before, after := t.profiles[h], AfterProfileUpdated(t, e).profiles[h];
      && after.id == before.id
      && after.tokenId == before.tokenId
      && after.handle == before.handle
      && after.owner == before.owner
      && after.createdAt == before.createdAt
      && after.name == p.name
      && after.bio == p.bio
      && after.avatar == p.avatar
      && after.linkKeys == p.linkKeys
      && after.links == p.links
      && after.updatedAt == e.block.timestamp
  {
  }

  /** On a missing Profile (a ProfileCreated that was never indexed): one is backfilled
      with the event's tokenId, handle and owner and the block time as `createdAt`. */
  lemma ProfileUpdatedMissing(t: Tables, e: ProfileUpdatedEvent)
    requires e.params.handle !in t.profiles
    ensures var h, p := e.params.handle, e.params;
      var r := AfterProfileUpdated(t, e);
      && h in r.profiles
      && r.profiles[h].id == h
      && r.profiles[h].tokenId == p.tokenId
      && r.profiles[h].handle == h
      && r.profiles[h].owner == ToHex(p.owner)
      && r.profiles[h].name == p.name
      && r.profiles[h].bio == p.bio
      && r.profiles[h].avatar == p.avatar
      && r.profiles[h].linkKeys == p.linkKeys
      && r.profiles[h].links == p.links
      && r.profiles[h].createdAt == e.block.timestamp
      && r.profiles[h].updatedAt == e.block.timestamp
  {
  }

  /** The Profile under the handle exists afterwards; nothing else changes. */
  lemma ProfileUpdatedFrame(t: Tables, e: ProfileUpdatedEvent)
    ensures var r := AfterProfileUpdated(t, e);
      && e.params.handle in r.profiles
      && (forall h :: h != e.params.handle ==> Get(r.profiles, h) == Get(t.profiles, h))
      && r.users == t.users
      && r.notes == t.notes
      && r.posts == t.posts
  {
  }

  /** Applying the same ProfileUpdated twice leaves the tables as applying it once. */
  lemma ProfileUpdatedIdempotent(t: Tables, e: ProfileUpdatedEvent)
    ensures AfterProfileUpdated(AfterProfileUpdated(t, e), e) == AfterProfileUpdated(t, e)
  {
  }

  /** The recovery path does not create the owner's User: after an update, every Profile
      owner resolves exactly when the Profile was already there or its owner already was a
      User. */
  lemma ProfileUpdatedOwnerResolves(t: Tables, e: ProfileUpdatedEvent)
    requires OwnersResolve(t)
    ensures OwnersResolve(AfterProfileUpdated(t, e))
            <==> e.params.handle in t.profiles || ToHex(e.params.owner) in t.users
  {
    var r, h := AfterProfileUpdated(t, e), e.params.handle;
    if h !in t.profiles && ToHex(e.params.owner) !in t.users {
      assert r.profiles[h].owner !in r.users;
    }
  }

  // ---------------------------------------------------------------- handleProfileDeleted

  /** The Profile under the handle is gone; every other Profile and every User, Note and
      Post is untouched (no cascade), and deleting a missing handle changes nothing. */
  lemma ProfileDeletedRemovesOnly(t: Tables, e: ProfileDeletedEvent)
    ensures var r, h := AfterProfileDeleted(t, e), e.params.handle;
      && h !in r.profiles
      && (forall j :: j != h ==> Get(r.profiles, j) == Get(t.profiles, j))
      && r.users == t.users
      && r.notes == t.notes
      && r.posts == t.posts
      && (h !in t.profiles ==> r == t)
  {
    var h := e.params.handle;
    if h !in t.profiles {
      assert t.profiles - {h} == t.profiles;
    }
  }

  // ---------------------------------------------------------------- handleNoteLeft

  /** One Note is written under its composite key, with the target handle, the content,
      the raw author address and the block time; nothing else changes. */
  lemma NoteLeftStoresNote(t: Tables, e: NoteLeftEvent)
    ensures var r, p := AfterNoteLeft(t, e), e.params;
      var k := NoteId(p.tokenId, p.noteId, p.author);
      && k in r.notes
      && r.notes[k].id == k
      && r.notes[k].to == p.handle
      && r.notes[k].content == p.content
      && r.notes[k].author == p.author
      && r.notes[k].createdAt == e.block.timestamp
      && (forall j :: j != k ==> Get(r.notes, j) == Get(t.notes, j))
      && r.users == t.users
      && r.profiles == t.profiles
      && r.posts == t.posts
  {
  }

  /** A second NoteLeft with the same (tokenId, noteId, author) overwrites the first in
      place; with any other triple both Notes are kept. */
  lemma NoteLeftReplay(t: Tables, e1: NoteLeftEvent, e2: NoteLeftEvent)
    ensures var p1, p2 := e1.params, e2.params;
      (p1.tokenId, p1.noteId, p1.author) == (p2.tokenId, p2.noteId, p2.author) ==>
        AfterNoteLeft(AfterNoteLeft(t, e1), e2) == AfterNoteLeft(t, e2)
    ensures var p1, p2 := e1.params, e2.params;
      var r := AfterNoteLeft(AfterNoteLeft(t, e1), e2);
      (p1.tokenId, p1.noteId, p1.author) != (p2.tokenId, p2.noteId, p2.author) ==>
        && r.notes[NoteId(p1.tokenId, p1.noteId, p1.author)] == LeftNote(e1)
        && r.notes[NoteId(p2.tokenId, p2.noteId, p2.author)] == LeftNote(e2)
  {
    var p1, p2 := e1.params, e2.params;
    NoteIdInjective(p1.tokenId, p1.noteId, p1.author, p2.tokenId, p2.noteId, p2.author);
  }

  // ---------------------------------------------------------------- handlePostCreated

  /** One Post is written under its composite key, with the content, the posting handle as
      its author and the block time; nothing else changes. */
  lemma PostCreatedStoresPost(t: Tables, e: PostCreatedEvent)
    ensures var r, p := AfterPostCreated(t, e), e.params;
      var k := PostId(p.tokenId, p.postId);
      && k in r.posts
      && r.posts[k].id == k
      && r.posts[k].content == p.content
      && r.posts[k].author == p.handle
      && r.posts[k].createdAt == e.block.timestamp
      && (forall j :: j != k ==> Get(r.posts, j) == Get(t.posts, j))
      && r.users == t.users
      && r.profiles == t.profiles
      && r.notes == t.notes
  {
  }

  /** A second PostCreated with the same (tokenId, postId) overwrites the first in place;
      with any other pair both Posts are kept. */
  lemma PostCreatedReplay(t: Tables, e1: PostCreatedEvent, e2: PostCreatedEvent)
    ensures var p1, p2 := e1.params, e2.params;
      (p1.tokenId, p1.postId) == (p2.tokenId, p2.postId) ==>
        AfterPostCreated(AfterPostCreated(t, e1), e2) == AfterPostCreated(t, e2)
    ensures var p1, p2 := e1.params, e2.params;
      var r := AfterPostCreated(AfterPostCreated(t, e1), e2);
      (p1.tokenId, p1.postId) != (p2.tokenId, p2.postId) ==>
        && r.posts[PostId(p1.tokenId, p1.postId)] == CreatedPost(e1)
        && r.posts[PostId(p2.tokenId, p2.postId)] == CreatedPost(e2)
  {
    var p1, p2 := e1.params, e2.params;
    PostIdInjective(p1.tokenId, p1.postId, p2.tokenId, p2.postId);
  }

  // ---------------------------------------------------------------- invariants

  /** Every handler keeps the tables Consistent. */
  lemma ProfileCreatedKeepsConsistent(t: Tables, e: ProfileCreatedEvent)
    requires Consistent(t)
    ensures Consistent(AfterProfileCreated(t, e))
  {
  }

  lemma ProfileUpdatedKeepsConsistent(t: Tables, e: ProfileUpdatedEvent)
    requires Consistent(t)
    ensures Consistent(AfterProfileUpdated(t, e))
  {
  }

  lemma ProfileDeletedKeepsConsistent(t: Tables, e: ProfileDeletedEvent)
    requires Consistent(t)
    ensures Consistent(AfterProfileDeleted(t, e))
  {
  }

  lemma NoteLeftKeepsConsistent(t: Tables, e: NoteLeftEvent)
    requires Consistent(t)
    ensures Consistent(AfterNoteLeft(t, e))
  {
  }

  lemma PostCreatedKeepsConsistent(t: Tables, e: PostCreatedEvent)
    requires Consistent(t)
    ensures Consistent(AfterPostCreated(t, e))
  {
  }

  /** Every handler but handleProfileUpdated keeps owners resolving unconditionally. */
  lemma OwnersResolvePreserved(t: Tables, c: ProfileCreatedEvent, d: ProfileDeletedEvent,
                               n: NoteLeftEvent, p: PostCreatedEvent)
    requires OwnersResolve(t)
    ensures OwnersResolve(AfterProfileCreated(t, c))
    ensures OwnersResolve(AfterProfileDeleted(t, d))
    ensures OwnersResolve(AfterNoteLeft(t, n))
    ensures OwnersResolve(AfterPostCreated(t, p))
  {
  }
}
