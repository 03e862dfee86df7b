/** The event handlers of the LinkFolio subgraph (subgraph/src/mapping.ts). Each handler
    is a method on the entity store that loads, builds and saves entities step by step as
    the source does; its postcondition ties the new tables to the pure reference definition
    `After...` of the same name, whose properties are proved in HandlerProperties. */
module Mapping {
  import opened Encoding
  import opened Schema
  import opened Events
  import opened EntityStore

  // ---------------------------------------------------------------- entity keys
  //
  // A User is keyed by `owner.toHex()` itself, which is `ToHex`.

  /** A Note's key: "note_", then tokenId and noteId in decimal and the author's hex
      address, joined by '-'. Cutting the prefix and splitting at each first '-' reads the
      three parts back. */
  function NoteId(tokenId: nat, noteId: nat, author: Address): (k: string)
    ensures |k| >= 5 && k[..5] == "note_"
    ensures UpToDash(k[5..]) == DecimalString(tokenId)
    ensures UpToDash(PastDash(k[5..])) == DecimalString(noteId)
    ensures PastDash(PastDash(k[5..])) == ToHex(author)
  {
    var d, n, h := DecimalString(tokenId), DecimalString(noteId), ToHex(author);
    DecimalHasNoDash(tokenId);
    DecimalHasNoDash(noteId);
    SplitAtFirstDash(d, n + "-" + h);
    SplitAtFirstDash(n, h);
    RegroupKey("note_", d, n, h);
    CutPrefix("note_", d + "-" + (n + "-" + h));
    "note_" + d + "-" + n + "-" + h
  }

  /** A Post's key: "post_", then tokenId and postId in decimal, joined by '-'. Cutting the
      prefix and splitting at the first '-' reads both parts back. */
  function PostId(tokenId: nat, postId: nat): (k: string)
    ensures |k| >= 5 && k[..5] == "post_"
    ensures UpToDash(k[5..]) == DecimalString(tokenId)
    ensures PastDash(k[5..]) == DecimalString(postId)
  {
    var d, n := DecimalString(tokenId), DecimalString(postId);
    DecimalHasNoDash(tokenId);
    SplitAtFirstDash(d, n);
    assert "post_" + d + "-" + n == "post_" + (d + "-" + n);
    CutPrefix("post_", d + "-" + n);
    "post_" + d + "-" + n
  }

  // ---------------------------------------------------------------- reference definitions

  /** The profile handleProfileCreated builds: every field from the event, both timestamps
      from the block. */
  function CreatedProfile(e: ProfileCreatedEvent): (r: Profile)
    ensures r.id == r.handle == e.params.handle
    ensures r.createdAt == r.updatedAt == e.block.timestamp
  {
    var p := e.params;
    Profile(
      id := p.handle, tokenId := p.tokenId, name := p.name, handle := p.handle,
      bio := p.bio, avatar := p.avatar, owner := ToHex(p.owner),
      linkKeys := p.linkKeys, links := p.links,
      createdAt := e.block.timestamp, updatedAt := e.block.timestamp)
  }

  /** The profile handleProfileUpdated saves: the existing one with its editable fields
      overwritten, or, when none exists, one backfilled from the event. */
  function UpdatedProfile(existing: Option<Profile>, e: ProfileUpdatedEvent): (r: Profile)
    ensures existing.Some? ==> && r.id == existing.value.id
                               && r.handle == existing.value.handle
                               && r.owner == existing.value.owner
                               && r.createdAt == existing.value.createdAt
    ensures existing.None? ==> r.id == r.handle == e.params.handle
    ensures r.updatedAt == e.block.timestamp
  {
    var p := e.params;
    match existing
    case Some(current) =>
      current.(name := p.name, bio := p.bio, avatar := p.avatar,
               linkKeys := p.linkKeys, links := p.links, updatedAt := e.block.timestamp)
    case None =>
      Profile(
        id := p.handle, tokenId := p.tokenId, name := p.name, handle := p.handle,
        bio := p.bio, avatar := p.avatar, owner := ToHex(p.owner),
        linkKeys := p.linkKeys, links := p.links,
        createdAt := e.block.timestamp, updatedAt := e.block.timestamp)
  }

  /** The note handleNoteLeft saves: under its composite key, with the raw author address. */
  function LeftNote(e: NoteLeftEvent): (r: Note)
    ensures r.id == NoteId(e.params.tokenId, e.params.noteId, e.params.author)
    ensures r.to == e.params.handle && r.author == e.params.author
  {
    var p := e.params;
    Note(NoteId(p.tokenId, p.noteId, p.author), p.handle, p.content, p.author, e.block.timestamp)
  }

  /** The post handlePostCreated saves: under its composite key, with the posting handle
      as author. */
  function CreatedPost(e: PostCreatedEvent): (r: Post)
    ensures r.id == PostId(e.params.tokenId, e.params.postId)
    ensures r.author == e.params.handle
  {
    var p := e.params;
    Post(PostId(p.tokenId, p.postId), p.content, p.handle, e.block.timestamp)
  }

  /** The tables after handleProfileCreated: the owner's User exists, and the handle holds
      the newly built Profile. */
  function AfterProfileCreated(t: Tables, e: ProfileCreatedEvent): (r: Tables)
    ensures t.users.Keys + {ToHex(e.params.owner)} == r.users.Keys
    ensures r.profiles.Keys == t.profiles.Keys + {e.params.handle}
    ensures r.profiles[e.params.handle] == CreatedProfile(e)
  {
    var k := ToHex(e.params.owner);
    t.(users := if k in t.users then t.users else t.users[k := User(k, k, e.block.timestamp)],
       profiles := t.profiles[e.params.handle := CreatedProfile(e)])
  }

  /** The tables after handleProfileUpdated: only the Profile under the handle is written,
      and it is there afterwards. */
  function AfterProfileUpdated(t: Tables, e: ProfileUpdatedEvent): (r: Tables)
    ensures r.profiles.Keys == t.profiles.Keys + {e.params.handle}
    ensures r.users == t.users && r.notes == t.notes && r.posts == t.posts
  {
    var h := e.params.handle;
    t.(profiles := t.profiles[h := UpdatedProfile(Get(t.profiles, h), e)])
  }

  /** The tables after handleProfileDeleted: the handle is gone, nothing else is. */
  function AfterProfileDeleted(t: Tables, e: ProfileDeletedEvent): (r: Tables)
    ensures r.profiles.Keys == t.profiles.Keys - {e.params.handle}
    ensures r.users == t.users && r.notes == t.notes && r.posts == t.posts
  {
    t.(profiles := t.profiles - {e.params.handle})
  }

  /** The tables after handleNoteLeft: one Note key is added or overwritten. */
  function AfterNoteLeft(t: Tables, e: NoteLeftEvent): (r: Tables)
    ensures r.notes.Keys == t.notes.Keys + {NoteId(e.params.tokenId, e.params.noteId, e.params.author)}
    ensures r.users == t.users && r.profiles == t.profiles && r.posts == t.posts
  {
    var n := LeftNote(e);
    t.(notes := t.notes[n.id := n])
  }

  /** The tables after handlePostCreated: one Post key is added or overwritten. */
  function AfterPostCreated(t: Tables, e: PostCreatedEvent): (r: Tables)
    ensures r.posts.Keys == t.posts.Keys + {PostId(e.params.tokenId, e.params.postId)}
    ensures r.users == t.users && r.profiles == t.profiles && r.notes == t.notes
  {
    var p := CreatedPost(e);
    t.(posts := t.posts[p.id := p])
  }

  // ---------------------------------------------------------------- handlers

  method HandleProfileCreated(store: Store, event: ProfileCreatedEvent)
    requires store.Valid()
    modifies store
    ensures store.Valid()
    ensures store.Contents() == AfterProfileCreated(old(store.Contents()), event)
    ensures var h := event.params.handle;
      && h in store.profiles
      && store.profiles[h].owner in store.users
      && store.users[store.profiles[h].owner].address == ToHex(event.params.owner)
  {
    var blockTimestamp := event.block.timestamp;
    var tokenId := event.params.tokenId;
    var owner := event.params.owner;
    var handle := event.params.handle;
    // Create the user if it does not exist yet
    var user := store.LoadUser(ToHex(owner));
    if user.None? {
      var created := NewUser(ToHex(owner));
      created := created.(address := ToHex(owner));
      created := created.(createdAt := blockTimestamp);
      store.SaveUser(created);
    }

    // Create the profile, whatever was stored under its handle before
    var profile := NewProfile(handle);
    profile := profile.(tokenId := tokenId);
    profile := profile.(name := event.params.name);
    profile := profile.(handle := handle);
    profile := profile.(bio := event.params.bio);
    profile := profile.(avatar := event.params.avatar);
    profile := profile.(owner := ToHex(owner));
    profile := profile.(linkKeys := event.params.linkKeys);
    profile := profile.(links := event.params.links);
    profile := profile.(createdAt := blockTimestamp);
    profile := profile.(updatedAt := blockTimestamp);
    store.SaveProfile(profile);
  }

  method HandleProfileUpdated(store: Store, event: ProfileUpdatedEvent)
    requires store.Valid()
    modifies store
    ensures store.Valid()
    ensures store.Contents() == AfterProfileUpdated(old(store.Contents()), event)
  {
    var handle := event.params.handle;
    var loaded := store.LoadProfile(handle);
    var profile: Profile;

    // Create the profile if it does not exist, with the handle as id
    if loaded.None? {
      profile := NewProfile(handle);
      profile := profile.(tokenId := event.params.tokenId);
      profile := profile.(handle := handle);
      profile := profile.(owner := ToHex(event.params.owner));
      profile := profile.(createdAt := event.block.timestamp);
    } else {
      profile := loaded.value;
    }

    // Update the profile
    profile := profile.(name := event.params.name);
    profile := profile.(bio := event.params.bio);
    profile := profile.(avatar := event.params.avatar);
    profile := profile.(linkKeys := event.params.linkKeys);
    profile := profile.(links := event.params.links);
    profile := profile.(updatedAt := event.block.timestamp);
    store.SaveProfile(profile);
  }

  method HandleProfileDeleted(store: Store, event: ProfileDeletedEvent)
    requires store.Valid()
    modifies store
    ensures store.Valid()
    ensures store.Contents() == AfterProfileDeleted(old(store.Contents()), event)
  {
    var profileId := event.params.handle;
    var profile := store.LoadProfile(profileId);
    if profile.Some? {
      store.RemoveProfile(profileId);
    } else {
      assert store.profiles - {profileId} == store.profiles;
    }
  }

  method HandleNoteLeft(store: Store, event: NoteLeftEvent)
    requires store.Valid()
    modifies store
    ensures store.Valid()
    ensures store.Contents() == AfterNoteLeft(old(store.Contents()), event)
  {
    var note := NewNote(NoteId(event.params.tokenId, event.params.noteId, event.params.author));
    note := note.(to := event.params.handle);
    note := note.(content := event.params.content);
    note := note.(author := event.params.author);
    note := note.(createdAt := event.block.timestamp);
    store.SaveNote(note);
  }

  method HandlePostCreated(store: Store, event: PostCreatedEvent)
    requires store.Valid()
    modifies store
    ensures store.Valid()
    ensures store.Contents() == AfterPostCreated(old(store.Contents()), event)
  {
    var post := NewPost(PostId(event.params.tokenId, event.params.postId));
    post := post.(content := event.params.content);
    post := post.(author := event.params.handle);
    post := post.(createdAt := event.block.timestamp);
    store.SavePost(post);
  }
}
