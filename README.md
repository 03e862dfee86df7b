# LinkFolio subgraph mapping, modelled in Dafny

LinkFolio is a "link-in-bio" application. Each profile is a soulbound NFT, and the
contract emits an event whenever a profile is created, updated or deleted, a note is
left on a profile, or a post is published. The subgraph mirrors these events into an
entity store with four tables:

- `User`, keyed by the owner's hex address;
- `Profile`, keyed by its handle;
- `Note`, keyed by `note_<tokenId>-<noteId>-<authorHex>`;
- `Post`, keyed by `post_<tokenId>-<postId>`.

This project models the five event handlers of `subgraph/src/mapping.ts` and proves what
they do to the store.

Layout, one module per file:

- `encoding.dfy` (`Encoding`): `BigInt.toString()` as `DecimalString` and `Bytes.toHex()`
  as `ToHex`. It proves both are injective and proves that a dash-free prefix can be split
  off at the first `-`.
- `schema.dfy` (`Schema`): the four entity types. Each carries the `id` it is saved under.
- `events.dfy` (`Events`): the five decoded events, each with its parameters and block.
- `store.dfy` (`EntityStore`): the store as a class with one `map` per table. `Load*`
  functions read it; `Save*` and `RemoveProfile` are methods that change one table.
  `Valid()` is the store's invariant: every entity sits under its own id, every Profile
  under its handle and every User under its address. Every handler keeps it.
- `mapping.dfy` (`Mapping`): the entity keys and the handlers.
  - Each handler is a method. Like the source, it loads an entity or builds a new one,
    assigns its fields one at a time, then saves or removes it.
  - Each handler is proved to leave the store equal to a pure reference definition
    (`AfterProfileCreated`, …) applied to the old tables.
- `properties.dfy` (`HandlerProperties`): per-handler lemmas about those definitions:
  - field contents;
  - create-if-missing for Users;
  - full replacement on ProfileCreated;
  - preserve-or-backfill on ProfileUpdated;
  - the no-op, non-cascading delete;
  - injective Note and Post keys, and overwrite-in-place on replay;
  - frame conditions across tables and within a table;
  - preservation of the store's consistency invariant.
- `stream.dfy` (`EventStream`): the handlers applied to a stream of events in order.
  - Users are never lost or changed.
  - Notes and Posts are never removed.
  - Each Profile follows the explicit lifecycle `Absent`/`Live`.
  - Indexing the same stream again over its own result changes nothing
    (`ReplayTwiceIsReplayOnce`).
- `scenario.dfy` (`Scenario`): a concrete create / update / delete run for the handle
  "alice", once on the reference definitions and once through the handler methods on a
  fresh store.

What the model makes explicit about the code:

- `handleProfileUpdated`'s recovery path (a ProfileUpdated for a handle with no stored
  Profile) builds a Profile whose `owner` is the event owner's hex address, but it never
  creates that User. So after a ProfileUpdated for a handle that was never indexed,
  `Profile.owner` can name a User that was never stored: `mapping.ts:44-51` writes no
  User. `ProfileUpdatedOwnerResolves` states exactly when every Profile's owner still
  resolves to a stored User after an update: when the Profile was already stored, or when
  its owner already was a User.
- `Note.author` holds the raw address bytes (`mapping.ts:82`). `Post.author` holds the
  posting handle (`mapping.ts:95`). The model keeps this asymmetry.

## Model

| member | source | states |
|---|---|---|
| `Encoding.DecimalString` | subgraph/src/mapping.ts:74 | `BigInt.toString()` of an id is a non-empty string of decimal digits, with no leading zero unless the id is 0 |
| `Encoding.DecimalRoundTrip` | subgraph/src/mapping.ts:74 | reading the decimal rendering back gives the original number |
| `Encoding.DecimalInjective` | subgraph/src/mapping.ts:74-76 | two ids have the same decimal rendering exactly when they are equal |
| `Encoding.ToHex` | subgraph/src/mapping.ts:17-20 | `toHex()` is "0x" followed by two lower-case hex digits per byte; it is the User key here and at lines 32 and 49 |
| `Encoding.ToHexInjective` | subgraph/src/mapping.ts:17-20 | two addresses have the same hex rendering, and so the same User key, exactly when they are equal |
| `Encoding.DashJoinInjective` | subgraph/src/mapping.ts:73-78 | a dash-free part joined to a rest by "-" determines both the part and the rest |
| `Mapping.NoteId` | subgraph/src/mapping.ts:72-79 | the Note key starts with "note_", and splitting the rest at its first two '-' gives back the decimal tokenId, the decimal noteId and the author's hex address |
| `Mapping.PostId` | subgraph/src/mapping.ts:88-93 | the Post key starts with "post_", and splitting the rest at its first '-' gives back the decimal tokenId and postId |
| `Schema.NewUser` | subgraph/src/mapping.ts:19 | `new User(id)` holds the given id |
| `Schema.NewProfile` | subgraph/src/mapping.ts:26 | `new Profile(handle)` holds the given id |
| `Schema.NewNote` | subgraph/src/mapping.ts:72-79 | `new Note(key)` holds the given id |
| `Schema.NewPost` | subgraph/src/mapping.ts:88-93 | `new Post(key)` holds the given id |
| `EntityStore.Store.LoadUser` | subgraph/src/mapping.ts:17 | `User.load(id)` finds a User exactly when one is stored under id, returns that one, and on a valid store its id and address are both id |
| `EntityStore.Store.LoadProfile` | subgraph/src/mapping.ts:42 | `Profile.load(id)` finds a Profile exactly when one is stored under id, returns that one, and on a valid store its id and handle are both id |
| `Mapping.CreatedProfile` | subgraph/src/mapping.ts:26-36 | the Profile built on creation is keyed by its own handle, the event's, and has createdAt = updatedAt = block timestamp |
| `Mapping.UpdatedProfile` | subgraph/src/mapping.ts:44-59 | an existing Profile keeps its id, handle, owner and createdAt; a backfilled one has id = handle = the event's handle; updatedAt is the block timestamp |
| `Mapping.LeftNote` | subgraph/src/mapping.ts:72-83 | the Note is keyed by `NoteId` of the event's triple, addressed to the handle, and keeps the raw author address |
| `Mapping.CreatedPost` | subgraph/src/mapping.ts:88-96 | the Post is keyed by `PostId` of the event's pair and its author is the posting handle |
| `Mapping.AfterProfileCreated` | subgraph/src/mapping.ts:11-38 | after ProfileCreated the owner's User key and the handle are present, no key is lost, and the handle holds `CreatedProfile` |
| `Mapping.AfterProfileUpdated` | subgraph/src/mapping.ts:40-61 | after ProfileUpdated the handle is present, no Profile key is lost or added besides it, and the other tables are unchanged |
| `Mapping.AfterProfileDeleted` | subgraph/src/mapping.ts:63-69 | after ProfileDeleted exactly the handle has left the Profile keys, and the other tables are unchanged |
| `Mapping.AfterNoteLeft` | subgraph/src/mapping.ts:71-85 | after NoteLeft the Note keys gain exactly the event's key, and the other tables are unchanged |
| `Mapping.AfterPostCreated` | subgraph/src/mapping.ts:87-98 | after PostCreated the Post keys gain exactly the event's key, and the other tables are unchanged |
| `EntityStore.Store.constructor` | subgraph/src/mapping.ts:1 | the store starts with four empty tables |
| `EntityStore.Store.SaveUser` | subgraph/src/mapping.ts:22 | `user.save()` upserts the User under its id and keeps the store valid, given a User whose address is its id; the other tables are unchanged |
| `EntityStore.Store.SaveProfile` | subgraph/src/mapping.ts:37 | `profile.save()` upserts the Profile under its id and keeps the store valid, given a Profile whose handle is its id; the other tables are unchanged |
| `EntityStore.Store.SaveNote` | subgraph/src/mapping.ts:84 | `note.save()` upserts the Note under its id; the other tables are unchanged |
| `EntityStore.Store.SavePost` | subgraph/src/mapping.ts:97 | `post.save()` upserts the Post under its id; the other tables are unchanged |
| `EntityStore.Store.RemoveProfile` | subgraph/src/mapping.ts:67 | `store.remove("Profile", id)` drops that key from the Profile table only |
| `Mapping.HandleProfileCreated` | subgraph/src/mapping.ts:11-38 | the new tables are `AfterProfileCreated` of the old: the owner's User is created if missing, and the Profile under the handle is built from the event; on the resulting valid store its owner names a User whose address is toHex(owner) |
| `Mapping.HandleProfileUpdated` | subgraph/src/mapping.ts:40-61 | the new tables are `AfterProfileUpdated` of the old: the stored Profile, or a backfilled one if none is stored, gets the event's editable fields |
| `Mapping.HandleProfileDeleted` | subgraph/src/mapping.ts:63-69 | the new tables are `AfterProfileDeleted` of the old: the Profile is removed only if it is present |
| `Mapping.HandleNoteLeft` | subgraph/src/mapping.ts:71-85 | the new tables are `AfterNoteLeft` of the old: the Note is saved under its composite key |
| `Mapping.HandlePostCreated` | subgraph/src/mapping.ts:87-98 | the new tables are `AfterPostCreated` of the old: the Post is saved under its composite key |
| `HandlerProperties.NoteIdInjective` | subgraph/src/mapping.ts:72-79 | two Note keys are equal exactly when their (tokenId, noteId, author) triples are equal |
| `HandlerProperties.PostIdInjective` | subgraph/src/mapping.ts:88-93 | two Post keys are equal exactly when their (tokenId, postId) pairs are equal |
| `HandlerProperties.ProfileCreatedStoresEvent` | subgraph/src/mapping.ts:25-37 | the Profile under the handle has the event's tokenId, name, handle, bio, avatar, linkKeys and links, has owner = toHex(owner), and has createdAt = updatedAt = block timestamp |
| `HandlerProperties.ProfileCreatedUserOnlyIfMissing` | subgraph/src/mapping.ts:17-23 | a User exists at toHex(owner) afterwards; an existing one is unchanged; a new one has address = key and createdAt = timestamp; no other User changes |
| `HandlerProperties.ProfileCreatedReplacesPrevious` | subgraph/src/mapping.ts:26-37 | the new Profile does not depend on what was stored under the handle before, createdAt included |
| `HandlerProperties.ProfileCreatedFrame` | subgraph/src/mapping.ts:11-38 | other Profiles, all Notes and all Posts are unchanged, and no User is removed |
| `HandlerProperties.ProfileCreatedOwnerResolves` | subgraph/src/mapping.ts:17-37 | the new Profile's owner names a stored User whose address is toHex(owner) |
| `HandlerProperties.ProfileUpdatedExisting` | subgraph/src/mapping.ts:53-60 | on a stored Profile, id, tokenId, handle, owner and createdAt are kept; name, bio, avatar, linkKeys and links come from the event; updatedAt = timestamp |
| `HandlerProperties.ProfileUpdatedMissing` | subgraph/src/mapping.ts:44-51 | on a missing Profile, one is created with the event's tokenId, handle, owner and editable fields, and with createdAt = updatedAt = timestamp |
| `HandlerProperties.ProfileUpdatedFrame` | subgraph/src/mapping.ts:40-61 | the Profile under the handle always exists afterwards; every other Profile, User, Note and Post is unchanged |
| `HandlerProperties.ProfileUpdatedIdempotent` | subgraph/src/mapping.ts:40-61 | applying the same ProfileUpdated twice gives the same tables as applying it once |
| `HandlerProperties.ProfileUpdatedOwnerResolves` | subgraph/src/mapping.ts:44-51 | after an update all owners resolve exactly when the Profile was stored or its owner already was a User |
| `HandlerProperties.ProfileDeletedRemovesOnly` | subgraph/src/mapping.ts:63-69 | the handle is absent afterwards; other Profiles and all Users, Notes and Posts are unchanged; deleting an absent handle is a no-op |
| `HandlerProperties.NoteLeftStoresNote` | subgraph/src/mapping.ts:71-85 | the Note at its key has to = handle, the content, author = the raw address and createdAt = timestamp; nothing else changes |
| `HandlerProperties.NoteLeftReplay` | subgraph/src/mapping.ts:72-84 | a second NoteLeft with the same triple overwrites in place; with a different triple both Notes remain |
| `HandlerProperties.PostCreatedStoresPost` | subgraph/src/mapping.ts:87-98 | the Post at its key has the content, author = the handle and createdAt = timestamp; nothing else changes |
| `HandlerProperties.PostCreatedReplay` | subgraph/src/mapping.ts:88-97 | a second PostCreated with the same pair overwrites in place; with a different pair both Posts remain |
| `HandlerProperties.ProfileCreatedKeepsConsistent` | subgraph/src/mapping.ts:17-37 | ProfileCreated keeps every entity under its id, every Profile under its handle and every User under its address |
| `HandlerProperties.ProfileUpdatedKeepsConsistent` | subgraph/src/mapping.ts:42-60 | ProfileUpdated keeps the same consistency invariant |
| `HandlerProperties.ProfileDeletedKeepsConsistent` | subgraph/src/mapping.ts:63-69 | ProfileDeleted keeps the same consistency invariant |
| `HandlerProperties.NoteLeftKeepsConsistent` | subgraph/src/mapping.ts:71-85 | NoteLeft keeps the same consistency invariant |
| `HandlerProperties.PostCreatedKeepsConsistent` | subgraph/src/mapping.ts:87-98 | PostCreated keeps the same consistency invariant |
| `HandlerProperties.OwnersResolvePreserved` | subgraph/src/mapping.ts:11-98 | ProfileCreated, ProfileDeleted, NoteLeft and PostCreated never leave a Profile whose owner is not a stored User |
| `EventStream.ReplayTwiceIsReplayOnce` | subgraph/src/mapping.ts:11-98 | handling a stream twice in a row gives the same tables as handling it once |
| `EventStream.ProfileFoldIdempotent` | subgraph/src/mapping.ts:26-67 | for one handle, running the stream's profile events twice gives the same result as running them once |
| `EventStream.UsersAppendOnly` | subgraph/src/mapping.ts:17-23 | through any stream, a stored User stays stored and unchanged |
| `EventStream.NotesAndPostsNeverRemoved` | subgraph/src/mapping.ts:63-98 | no stream removes a Note or a Post, and an entry changes only when an event writes its own key |
| `EventStream.ReplayKeepsConsistent` | subgraph/src/mapping.ts:11-98 | every stream keeps the consistency invariant |
| `EventStream.ProfileLifecycle` | subgraph/src/mapping.ts:26-67 | a handle is stored after a stream exactly when the lifecycle ends `Live` (Created and Updated lead to `Live`, Deleted to `Absent`) |
| `Scenario.AliceOwnerHex` | subgraph/src/mapping.ts:17 | the address bytes 0x0a 0xbc render as "0x0abc" |
| `Scenario.AliceRun` | subgraph/src/mapping.ts:11-69 | running the three handler methods on a fresh store gives the same User, createdAt, link-order and deletion facts as `AliceLifecycle` |
| `Scenario.AliceLifecycle` | subgraph/src/mapping.ts:11-69 | creating "alice" stores User "0x0abc" and her Profile; an update keeps createdAt and the order of the links; a delete removes the Profile and keeps the User |

## Left out

- The indexing runtime itself is not modelled: persistence, the generated entity classes and event decoding. The store is an in-memory map per table, and each event is a datatype that holds its decoded parameters.
- The runtime calls one handler per event. That dispatch is configured outside `mapping.ts`, so `EventStream.Apply` stands in for it, only to state properties of event streams.
- Reading a field of `new Entity(id)` before it is assigned is not modelled. Such an entity starts from blank defaults, and every path assigns all fields before `save()`.
- Store failures and handler aborts are not modelled; the source does not handle them either.
- `uint256` ids and `BigInt` timestamps are unbounded `nat`s, with no width limit. Addresses are byte sequences of any length, although the chain supplies 20 bytes.
- The block's other fields (number, hash) and the transaction data are not used by the handlers and are left out.
- The client pages and components, the RPC/contract wrapper, the deployment module and the smart contract are not part of this model. The contract's guarantees are not re-checked, as in the source: unique handles at creation, and linkKeys and links of equal length.
