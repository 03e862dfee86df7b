/** The four entity types of the subgraph schema. Every entity carries the `id` it is
    stored under. */
module Schema {
  import opened Encoding

  /** A wallet seen as a profile owner; keyed by its hex address. */
  datatype User = User(id: string, address: string, createdAt: nat)

  /** A profile, keyed by its handle. `owner` is the key of a User; `linkKeys[i]` names
      `links[i]`. */
  datatype Profile = Profile(
    id: string,
    tokenId: nat,
    name: string,
    handle: string,
    bio: string,
    avatar: string,
    owner: string,
    linkKeys: seq<string>,
    links: seq<string>,
    createdAt: nat,
    updatedAt: nat)

  /** A note left on the profile whose handle is `to`; `author` is the raw author address. */
  datatype Note = Note(id: string, to: string, content: string, author: Address, createdAt: nat)

  /** A post; `author` is the handle of the posting profile. */
  datatype Post = Post(id: string, content: string, author: string, createdAt: nat)

  // `new X(id)`: an entity holding only its id until the handler assigns its fields.

  function NewUser(id: string): (u: User)
    ensures u.id == id
  {
    User(id, "", 0)
  }

  function NewProfile(id: string): (p: Profile)
    ensures p.id == id
  {
    Profile(id, 0, "", "", "", "", "", [], [], 0, 0)
  }

  function NewNote(id: string): (n: Note)
    ensures n.id == id
  {
    Note(id, "", "", [], 0)
  }

  function NewPost(id: string): (p: Post)
    ensures p.id == id
  {
    Post(id, "", "", 0)
  }
}
