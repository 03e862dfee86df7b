/** The decoded events of the LinkFolio contract, as the indexing runtime hands them to
    the handlers: the event's parameters plus the block it was emitted in. */
module Events {
  import opened Encoding

  datatype Block = Block(timestamp: nat)

  datatype ProfileCreatedParams = ProfileCreatedParams(
    tokenId: nat,
    owner: Address,
    handle: string,
    name: string,
    bio: string,
    avatar: string,
    linkKeys: seq<string>,
    links: seq<string>)

  datatype ProfileCreatedEvent = ProfileCreatedEvent(params: ProfileCreatedParams, block: Block)

  datatype ProfileUpdatedParams = ProfileUpdatedParams(
    tokenId: nat,
    owner: Address,
    handle: string,
    name: string,
    bio: string,
    avatar: string,
    linkKeys: seq<string>,
    links: seq<string>)

  datatype ProfileUpdatedEvent = ProfileUpdatedEvent(params: ProfileUpdatedParams, block: Block)

  datatype ProfileDeletedParams = ProfileDeletedParams(handle: string)

  datatype ProfileDeletedEvent = ProfileDeletedEvent(params: ProfileDeletedParams, block: Block)

  datatype NoteLeftParams = NoteLeftParams(
    tokenId: nat,
    noteId: nat,
    author: Address,
    handle: string,
    content: string)

  datatype NoteLeftEvent = NoteLeftEvent(params: NoteLeftParams, block: Block)

  datatype PostCreatedParams = PostCreatedParams(
    tokenId: nat,
    postId: nat,
    handle: string,
    content: string)

  datatype PostCreatedEvent = PostCreatedEvent(params: PostCreatedParams, block: Block)

  /** Any one of the five events, as they arrive in chain order. */
  datatype LinkFolioEvent =
    | ProfileCreated(created: ProfileCreatedEvent)
    | ProfileUpdated(updated: ProfileUpdatedEvent)
    | ProfileDeleted(deleted: ProfileDeletedEvent)
    | NoteLeft(note: NoteLeftEvent)
    | PostCreated(post: PostCreatedEvent)
}
