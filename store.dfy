/** The indexing runtime's entity store: one table per entity type, each a map from
    entity id to entity, with load, save (upsert) and remove. */
module EntityStore {
  import opened Schema

  datatype Option<T> = None | Some(value: T)

  /** `X.load(id)`: the entity stored under `k`, if any. */
  function Get<V>(m: map<string, V>, k: string): Option<V> {
    if k in m then Some(m[k]) else None
  }

  /** A snapshot of the four tables. */
  datatype Tables = Tables(
    users: map<string, User>,
    profiles: map<string, Profile>,
    notes: map<string, Note>,
    posts: map<string, Post>)

  const EmptyTables: Tables := Tables(map[], map[], map[], map[])

  /** Every entity is stored under its own id. */
  ghost predicate WellKeyed(t: Tables) {
    && (forall k | k in t.users :: t.users[k].id == k)
    && (forall k | k in t.profiles :: t.profiles[k].id == k)
    && (forall k | k in t.notes :: t.notes[k].id == k)
    && (forall k | k in t.posts :: t.posts[k].id == k)
  }

  /** The shape the handlers keep: every entity under its own id, every Profile under its
      handle and every User under its address. */
  ghost predicate Consistent(t: Tables) {
    && WellKeyed(t)
    && (forall h | h in t.profiles :: t.profiles[h].handle == h)
    && (forall k | k in t.users :: t.users[k].address == k)
  }

  class Store {
    var users: map<string, User>
    var profiles: map<string, Profile>
    var notes: map<string, Note>
    var posts: map<string, Post>

    function Contents(): Tables
      reads this
    {
      Tables(users, profiles, notes, posts)
    }

    ghost predicate Valid()
      reads this
    {
      Consistent(Contents())
    }

    constructor ()
      ensures Valid() && Contents() == EmptyTables
    {
      users, profiles, notes, posts := map[], map[], map[], map[];
    }

    /** `User.load(id)`. */
    function LoadUser(id: string): (r: Option<User>)
      reads this
      ensures r.Some? <==> id in users
      ensures r.Some? ==> r.value == users[id]
      ensures r.Some? && Valid() ==> r.value.id == id && r.value.address == id
    {
      Get(users, id)
    }

    /** `Profile.load(id)`. */
    function LoadProfile(id: string): (r: Option<Profile>)
      reads this
      ensures r.Some? <==> id in profiles
      ensures r.Some? ==> r.value == profiles[id]
      ensures r.Some? && Valid() ==> r.value.id == id && r.value.handle == id
    {
      Get(profiles, id)
    }

    /** `user.save()`: upsert under the entity's id; the other tables are untouched. */
    method SaveUser(user: User)
      requires Valid() && user.address == user.id
      modifies this
      ensures Valid()
      ensures Contents() == old(Contents()).(users := old(users)[user.id := user])
    {
      users := users[user.id := user];
    }

    method SaveProfile(profile: Profile)
      requires Valid() && profile.handle == profile.id
      modifies this
      ensures Valid()
      ensures Contents() == old(Contents()).(profiles := old(profiles)[profile.id := profile])
    {
      profiles := profiles[profile.id := profile];
    }

    method SaveNote(note: Note)
      requires Valid()
      modifies this
      ensures Valid()
      ensures Contents() == old(Contents()).(notes := old(notes)[note.id := note])
    {
      notes := notes[note.id := note];
    }

    method SavePost(post: Post)
      requires Valid()
      modifies this
      ensures Valid()
      ensures Contents() == old(Contents()).(posts := old(posts)[post.id := post])
    {
      posts := posts[post.id := post];
    }

    /** `store.remove("Profile", id)`: the profile table loses `id`, nothing else changes. */
    method RemoveProfile(id: string)
      requires Valid()
      modifies this
      ensures Valid()
      ensures Contents() == old(Contents()).(profiles := old(profiles) - {id})
    {
      profiles := profiles - {id};
    }
  }
}
