/** A worked stream: "alice" is created, her links are edited, and she is deleted. */
module Scenario {
  import opened Encoding
  import opened Schema
  import opened Events
  import opened EntityStore
  import opened Mapping

  const AliceOwner: Address := [0x0a, 0xbc]

  const AliceCreated: ProfileCreatedEvent := ProfileCreatedEvent(
    ProfileCreatedParams(1, AliceOwner, "alice", "Alice", "hi", "", ["x"], ["http://x.com/a"]),
    Block(100))

  const AliceUpdated: ProfileUpdatedEvent := ProfileUpdatedEvent(
    ProfileUpdatedParams(1, AliceOwner, "alice", "Alice", "hi", "",
                         ["x", "github"], ["http://x", "http://gh"]),
    Block(200))

  const AliceDeleted: ProfileDeletedEvent := ProfileDeletedEvent(ProfileDeletedParams("alice"), Block(300))

  lemma AliceOwnerHex()
    ensures ToHex(AliceOwner) == "0x0abc"
  {
    var tail: seq<byte> := [0xbc];
    assert HexBody(tail) == "bc" by {
      assert tail[1..] == [];
    }
    assert AliceOwner[1..] == tail;
  }

  /** The owner's User appears under "0x0abc" and the Profile under "alice" with the event's
      token id; an update keeps `createdAt` and stores the links in the order the event
      gives them; deleting removes the Profile and keeps the User. */
  lemma AliceLifecycle()
    ensures var t1 := AfterProfileCreated(EmptyTables, AliceCreated);
      && "0x0abc" in t1.users && t1.users["0x0abc"] == User("0x0abc", "0x0abc", 100)
      && "alice" in t1.profiles
      && t1.profiles["alice"].tokenId == 1
      && t1.profiles["alice"].owner == "0x0abc"
      && t1.profiles["alice"].links == ["http://x.com/a"]
    ensures var t2 := AfterProfileUpdated(AfterProfileCreated(EmptyTables, AliceCreated), AliceUpdated);
      && t2.profiles["alice"].linkKeys == ["x", "github"]
      && t2.profiles["alice"].links == ["http://x", "http://gh"]
      && t2.profiles["alice"].createdAt == 100
      && t2.profiles["alice"].updatedAt == 200
    ensures var t1 := AfterProfileCreated(EmptyTables, AliceCreated);
      var t3 := AfterProfileDeleted(AfterProfileUpdated(t1, AliceUpdated), AliceDeleted);
      && "alice" !in t3.profiles
      && t3.users == t1.users
  {
    AliceOwnerHex();
  }

  /** The same run through the handler methods on one store: a fresh store, then the three
      events in order, with a snapshot of the tables after each. */
  method AliceRun() returns (created: Tables, updated: Tables, deleted: Tables)
    ensures "0x0abc" in created.users && created.users["0x0abc"] == User("0x0abc", "0x0abc", 100)
    ensures "alice" in created.profiles && created.profiles["alice"].owner == "0x0abc"
    ensures created.profiles["alice"].createdAt == 100
    ensures "alice" in updated.profiles
    ensures updated.profiles["alice"].links == ["http://x", "http://gh"]
    ensures updated.profiles["alice"].createdAt == 100
    ensures updated.profiles["alice"].updatedAt == 200
    ensures "alice" !in deleted.profiles && deleted.users == created.users
  {
    AliceOwnerHex();
    var store := new Store();
    HandleProfileCreated(store, AliceCreated);
    created := store.Contents();
    HandleProfileUpdated(store, AliceUpdated);
    updated := store.Contents();
    HandleProfileDeleted(store, AliceDeleted);
    deleted := store.Contents();
  }
}
