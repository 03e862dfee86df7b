/** The handlers applied to a stream of events, one at a time in chain order, and what
    holds of the whole stream: Users are never lost or changed, Notes and Posts are never
    removed, each Profile follows the absent/live lifecycle, and indexing the same stream
    a second time over its own result changes nothing. */
module EventStream {
  import opened Encoding
  import opened Schema
  import opened Events
  import opened EntityStore
  import opened Mapping
  import opened HandlerProperties

  /** The runtime's dispatch of one event to its handler. */
  function Apply(t: Tables, ev: LinkFolioEvent): Tables {
    match ev
    case ProfileCreated(e) => AfterProfileCreated(t, e)
    case ProfileUpdated(e) => AfterProfileUpdated(t, e)
    case ProfileDeleted(e) => AfterProfileDeleted(t, e)
    case NoteLeft(e) => AfterNoteLeft(t, e)
    case PostCreated(e) => AfterPostCreated(t, e)
  }

  /** The tables after handling `es` in order, starting from `t`. */
  function Replay(t: Tables, es: seq<LinkFolioEvent>): Tables
    decreases |es|
  {
    if es == [] then t else Replay(Apply(t, es[0]), es[1..])
  }

  lemma {:induction false} ReplayConcat(t: Tables, a: seq<LinkFolioEvent>, b: seq<LinkFolioEvent>)
    ensures Replay(t, a + b) == Replay(Replay(t, a), b)
    decreases |a|
  {
    if a == [] {
      assert a + b == b;
    } else {
      assert (a + b)[0] == a[0] && (a + b)[1..] == a[1..] + b;
      ReplayConcat(Apply(t, a[0]), a[1..], b);
    }
  }

  /** Two maps that agree at every key are equal. */
  lemma MapsAgree<V>(m1: map<string, V>, m2: map<string, V>)
    requires forall k :: Get(m1, k) == Get(m2, k)
    ensures m1 == m2
  {
    forall k | k in m1 ensures k in m2 && m1[k] == m2[k] {
      assert Get(m1, k) == Get(m2, k);
    }
    forall k | k in m2 ensures k in m1 {
      assert Get(m1, k) == Get(m2, k);
    }
  }

  // ---------------------------------------------------------------- Users, key by key

  /** What one event does to the User under `k`: create it if it is missing. */
  function UserStep(o: Option<User>, k: string, ev: LinkFolioEvent): Option<User> {
    match ev
    case ProfileCreated(e) =>
      if o.None? && ToHex(e.params.owner) == k then Some(User(k, k, e.block.timestamp)) else o
    case _ => o
  }

  function UserFold(o: Option<User>, k: string, es: seq<LinkFolioEvent>): Option<User>
    decreases |es|
  {
    if es == [] then o else UserFold(UserStep(o, k, es[0]), k, es[1..])
  }

  lemma {:induction false} ReplayUserAt(t: Tables, es: seq<LinkFolioEvent>, k: string)
    ensures Get(Replay(t, es).users, k) == UserFold(Get(t.users, k), k, es)
    decreases |es|
  {
    if es != [] {
      assert Get(Apply(t, es[0]).users, k) == UserStep(Get(t.users, k), k, es[0]);
      ReplayUserAt(Apply(t, es[0]), es[1..], k);
    }
  }

  lemma {:induction false} UserFoldKeepsExisting(o: Option<User>, k: string, es: seq<LinkFolioEvent>)
    requires o.Some?
    ensures UserFold(o, k, es) == o
    decreases |es|
  {
    if es != [] {
      UserFoldKeepsExisting(UserStep(o, k, es[0]), k, es[1..]);
    }
  }

  lemma UserFoldIdempotent(o: Option<User>, k: string, es: seq<LinkFolioEvent>)
    ensures UserFold(UserFold(o, k, es), k, es) == UserFold(o, k, es)
  {
    if o.Some? {
      UserFoldKeepsExisting(o, k, es);
    } else if UserFold(o, k, es).Some? {
      UserFoldKeepsExisting(UserFold(o, k, es), k, es);
    }
  }

  // ---------------------------------------------------------------- Profiles, key by key

  /** What one event does to the Profile under `h`. */
  function ProfileStep(o: Option<Profile>, h: string, ev: LinkFolioEvent): Option<Profile> {
    match ev
    case ProfileCreated(e) => if e.params.handle == h then Some(CreatedProfile(e)) else o
    case ProfileUpdated(e) => if e.params.handle == h then Some(UpdatedProfile(o, e)) else o
    case ProfileDeleted(e) => if e.params.handle == h then None else o
    case _ => o
  }

  function ProfileFold(o: Option<Profile>, h: string, es: seq<LinkFolioEvent>): Option<Profile>
    decreases |es|
  {
    if es == [] then o else ProfileFold(ProfileStep(o, h, es[0]), h, es[1..])
  }

  lemma {:induction false} ReplayProfileAt(t: Tables, es: seq<LinkFolioEvent>, h: string)
    ensures Get(Replay(t, es).profiles, h) == ProfileFold(Get(t.profiles, h), h, es)
    decreases |es|
  {
    if es != [] {
      assert Get(Apply(t, es[0]).profiles, h) == ProfileStep(Get(t.profiles, h), h, es[0]);
      ReplayProfileAt(Apply(t, es[0]), es[1..], h);
    }
  }

  /** ProfileCreated and ProfileDeleted for `h` decide the Profile whatever was there. */
  predicate Resets(h: string, ev: LinkFolioEvent) {
    || (ev.ProfileCreated? && ev.created.params.handle == h)
    || (ev.ProfileDeleted? && ev.deleted.params.handle == h)
  }

  predicate HasReset(h: string, es: seq<LinkFolioEvent>)
    decreases |es|
  {
    es != [] && (Resets(h, es[0]) || HasReset(h, es[1..]))
  }

  /** The fields handleProfileUpdated never overwrites. */
  function Identity(p: Profile): (string, nat, string, string, nat) {
    (p.id, p.tokenId, p.handle, p.owner, p.createdAt)
  }

  /** After a reset for `h`, the starting Profile no longer matters. */
  lemma {:induction false} ProfileFoldForgetsStart(a: Option<Profile>, b: Option<Profile>, h: string,
                                                   es: seq<LinkFolioEvent>)
    requires HasReset(h, es)
    ensures ProfileFold(a, h, es) == ProfileFold(b, h, es)
    decreases |es|
  {
    if es != [] {
      if Resets(h, es[0]) {
        assert ProfileStep(a, h, es[0]) == ProfileStep(b, h, es[0]);
      } else {
        ProfileFoldForgetsStart(ProfileStep(a, h, es[0]), ProfileStep(b, h, es[0]), h, es[1..]);
      }
    }
  }

  /** Without a reset for `h`, a stored Profile stays stored and keeps its Identity. */
  lemma {:induction false} ProfileFoldKeepsIdentity(p: Profile, h: string, es: seq<LinkFolioEvent>)
    requires !HasReset(h, es)
    ensures ProfileFold(Some(p), h, es).Some?
    ensures Identity(ProfileFold(Some(p), h, es).value) == Identity(p)
    decreases |es|
  {
    if es != [] {
      var s := ProfileStep(Some(p), h, es[0]);
      assert s.Some? && Identity(s.value) == Identity(p);
      ProfileFoldKeepsIdentity(s.value, h, es[1..]);
    }
  }

  /** An update depends on the stored Profile only through its Identity, and repeating it
      changes nothing. */
  lemma UpdatedProfileByIdentity(x: Profile, y: Profile, o: Option<Profile>, e: ProfileUpdatedEvent)
    requires Identity(x) == Identity(y)
    ensures UpdatedProfile(Some(x), e) == UpdatedProfile(Some(y), e)
    ensures UpdatedProfile(Some(UpdatedProfile(o, e)), e) == UpdatedProfile(o, e)
  {
  }

  lemma {:induction false} ProfileFoldIdempotent(o: Option<Profile>, h: string, es: seq<LinkFolioEvent>)
    ensures ProfileFold(ProfileFold(o, h, es), h, es) == ProfileFold(o, h, es)
    decreases |es|
  {
    if es != [] {
      var e, rest := es[0], es[1..];
      var x := ProfileFold(o, h, es);
      if Resets(h, e) {
        assert ProfileStep(x, h, e) == ProfileStep(o, h, e);
      } else if e.ProfileUpdated? && e.updated.params.handle == h {
        if HasReset(h, rest) {
          ProfileFoldForgetsStart(ProfileStep(x, h, e), ProfileStep(o, h, e), h, rest);
        } else {
          var u := UpdatedProfile(o, e.updated);
          ProfileFoldKeepsIdentity(u, h, rest);
          UpdatedProfileByIdentity(x.value, u, o, e.updated);
          assert ProfileStep(x, h, e) == ProfileStep(o, h, e);
        }
      } else {
        assert ProfileStep(o, h, e) == o;
        ProfileFoldIdempotent(o, h, rest);
      }
    }
  }

  // ---------------------------------------------------------------- Notes and Posts, key by key

  function NoteWrite(ev: LinkFolioEvent): Option<(string, Note)> {
    match ev
    case NoteLeft(e) => Some((LeftNote(e).id, LeftNote(e)))
    case _ => None
  }

  function PostWrite(ev: LinkFolioEvent): Option<(string, Post)> {
    match ev
    case PostCreated(e) => Some((CreatedPost(e).id, CreatedPost(e)))
    case _ => None
  }

  predicate WritesKey<T>(k: string, ev: LinkFolioEvent, write: LinkFolioEvent -> Option<(string, T)>) {
    write(ev).Some? && write(ev).value.0 == k
  }

  /** The entity under `k` after the writes of `es`: the last value written to `k`. */
  function WriteFold<T>(o: Option<T>, k: string, es: seq<LinkFolioEvent>,
                        write: LinkFolioEvent -> Option<(string, T)>): Option<T>
    decreases |es|
  {
    if es == [] then o
    else WriteFold(if WritesKey(k, es[0], write) then Some(write(es[0]).value.1) else o, k, es[1..], write)
  }

  predicate HasWrite<T>(k: string, es: seq<LinkFolioEvent>, write: LinkFolioEvent -> Option<(string, T)>)
    decreases |es|
  {
    es != [] && (WritesKey(k, es[0], write) || HasWrite(k, es[1..], write))
  }

  lemma {:induction false} ReplayNoteAt(t: Tables, es: seq<LinkFolioEvent>, k: string)
    ensures Get(Replay(t, es).notes, k) == WriteFold(Get(t.notes, k), k, es, NoteWrite)
    decreases |es|
  {
    if es != [] {
      assert Get(Apply(t, es[0]).notes, k)
          == if WritesKey(k, es[0], NoteWrite) then Some(NoteWrite(es[0]).value.1) else Get(t.notes, k);
      ReplayNoteAt(Apply(t, es[0]), es[1..], k);
    }
  }

  lemma {:induction false} ReplayPostAt(t: Tables, es: seq<LinkFolioEvent>, k: string)
    ensures Get(Replay(t, es).posts, k) == WriteFold(Get(t.posts, k), k, es, PostWrite)
    decreases |es|
  {
    if es != [] {
      assert Get(Apply(t, es[0]).posts, k)
          == if WritesKey(k, es[0], PostWrite) then Some(PostWrite(es[0]).value.1) else Get(t.posts, k);
      ReplayPostAt(Apply(t, es[0]), es[1..], k);
    }
  }

  /** A key that is written ends with a value whatever it started with; a key that is not
      written keeps its start. */
  lemma {:induction false} WriteFoldShape<T>(a: Option<T>, b: Option<T>, k: string, es: seq<LinkFolioEvent>,
                                             write: LinkFolioEvent -> Option<(string, T)>)
    ensures HasWrite(k, es, write) ==> WriteFold(a, k, es, write) == WriteFold(b, k, es, write)
    ensures HasWrite(k, es, write) ==> WriteFold(a, k, es, write).Some?
    ensures !HasWrite(k, es, write) ==> WriteFold(a, k, es, write) == a
    decreases |es|
  {
    if es != [] {
      var next := (o: Option<T>) => if WritesKey(k, es[0], write) then Some(write(es[0]).value.1) else o;
      WriteFoldShape(next(a), next(b), k, es[1..], write);
      WriteFoldShape(next(a), next(a), k, es[1..], write);
    }
  }

  lemma WriteFoldIdempotent<T>(o: Option<T>, k: string, es: seq<LinkFolioEvent>,
                               write: LinkFolioEvent -> Option<(string, T)>)
    ensures WriteFold(WriteFold(o, k, es, write), k, es, write) == WriteFold(o, k, es, write)
  {
    WriteFoldShape(WriteFold(o, k, es, write), o, k, es, write);
  }

  // ---------------------------------------------------------------- stream-level theorems

  /** Indexing the same stream again over its own result (a re-index from an earlier
      block) yields the same tables as indexing it once. */
  lemma ReplayTwiceIsReplayOnce(t: Tables, es: seq<LinkFolioEvent>)
    ensures Replay(t, es + es) == Replay(t, es)
  {
    ReplayConcat(t, es, es);
    var x := Replay(t, es);
    var y := Replay(x, es);
    forall k ensures Get(y.users, k) == Get(x.users, k) {
      ReplayUserAt(t, es, k);
      ReplayUserAt(x, es, k);
      UserFoldIdempotent(Get(t.users, k), k, es);
    }
    forall h ensures Get(y.profiles, h) == Get(x.profiles, h) {
      ReplayProfileAt(t, es, h);
      ReplayProfileAt(x, es, h);
      ProfileFoldIdempotent(Get(t.profiles, h), h, es);
    }
    forall k ensures Get(y.notes, k) == Get(x.notes, k) {
      ReplayNoteAt(t, es, k);
      ReplayNoteAt(x, es, k);
      WriteFoldIdempotent(Get(t.notes, k), k, es, NoteWrite);
    }
    forall k ensures Get(y.posts, k) == Get(x.posts, k) {
      ReplayPostAt(t, es, k);
      ReplayPostAt(x, es, k);
      WriteFoldIdempotent(Get(t.posts, k), k, es, PostWrite);
    }
    MapsAgree(y.users, x.users);
    MapsAgree(y.profiles, x.profiles);
    MapsAgree(y.notes, x.notes);
    MapsAgree(y.posts, x.posts);
  }

  /** A User, once stored, stays stored and unchanged through any stream. */
  lemma UsersAppendOnly(t: Tables, es: seq<LinkFolioEvent>)
    ensures forall k :: k in t.users ==> k in Replay(t, es).users && Replay(t, es).users[k] == t.users[k]
  {
    forall k | k in t.users ensures k in Replay(t, es).users && Replay(t, es).users[k] == t.users[k] {
      ReplayUserAt(t, es, k);
      UserFoldKeepsExisting(Get(t.users, k), k, es);
    }
  }

  /** No stream removes a Note or a Post, whatever Profiles it deletes; an entry is
      replaced only by an event that writes its own key. */
  lemma NotesAndPostsNeverRemoved(t: Tables, es: seq<LinkFolioEvent>)
    ensures forall k :: k in t.notes ==> k in Replay(t, es).notes
    ensures forall k :: k in t.posts ==> k in Replay(t, es).posts
    ensures forall k :: k in t.notes && !HasWrite(k, es, NoteWrite) ==> Replay(t, es).notes[k] == t.notes[k]
    ensures forall k :: k in t.posts && !HasWrite(k, es, PostWrite) ==> Replay(t, es).posts[k] == t.posts[k]
  {
    forall k | k in t.notes ensures k in Replay(t, es).notes
      && (!HasWrite(k, es, NoteWrite) ==> Replay(t, es).notes[k] == t.notes[k]) {
      ReplayNoteAt(t, es, k);
      WriteFoldShape(Get(t.notes, k), Get(t.notes, k), k, es, NoteWrite);
    }
    forall k | k in t.posts ensures k in Replay(t, es).posts
      && (!HasWrite(k, es, PostWrite) ==> Replay(t, es).posts[k] == t.posts[k]) {
      ReplayPostAt(t, es, k);
      WriteFoldShape(Get(t.posts, k), Get(t.posts, k), k, es, PostWrite);
    }
  }

  /** Every stream keeps the tables Consistent. */
  lemma {:induction false} ReplayKeepsConsistent(t: Tables, es: seq<LinkFolioEvent>)
    requires Consistent(t)
    ensures Consistent(Replay(t, es))
    decreases |es|
  {
    if es != [] {
      match es[0] {
        case ProfileCreated(e) => ProfileCreatedKeepsConsistent(t, e);
        case ProfileUpdated(e) => ProfileUpdatedKeepsConsistent(t, e);
        case ProfileDeleted(e) => ProfileDeletedKeepsConsistent(t, e);
        case NoteLeft(e) => NoteLeftKeepsConsistent(t, e);
        case PostCreated(e) => PostCreatedKeepsConsistent(t, e);
      }
      ReplayKeepsConsistent(Apply(t, es[0]), es[1..]);
    }
  }

  // ---------------------------------------------------------------- the Profile lifecycle

  datatype Lifecycle = Absent | Live

  /** absent/live --Created--> live, --Updated--> live, --Deleted--> absent. */
  function Transition(s: Lifecycle, h: string, ev: LinkFolioEvent): Lifecycle {
    match ev
    case ProfileCreated(e) => if e.params.handle == h then Live else s
    case ProfileUpdated(e) => if e.params.handle == h then Live else s
    case ProfileDeleted(e) => if e.params.handle == h then Absent else s
    case _ => s
  }

  function Run(s: Lifecycle, h: string, es: seq<LinkFolioEvent>): Lifecycle
    decreases |es|
  {
    if es == [] then s else Run(Transition(s, h, es[0]), h, es[1..])
  }

  function StateOf(o: Option<Profile>): Lifecycle {
    if o.Some? then Live else Absent
  }

  lemma {:induction false} ProfileFoldFollowsLifecycle(o: Option<Profile>, h: string, es: seq<LinkFolioEvent>)
    ensures StateOf(ProfileFold(o, h, es)) == Run(StateOf(o), h, es)
    decreases |es|
  {
    if es != [] {
      assert StateOf(ProfileStep(o, h, es[0])) == Transition(StateOf(o), h, es[0]);
      ProfileFoldFollowsLifecycle(ProfileStep(o, h, es[0]), h, es[1..]);
    }
  }

  /** A Profile is live after a stream exactly when the lifecycle, started from whether it
      was stored, ends live. */
  lemma ProfileLifecycle(t: Tables, es: seq<LinkFolioEvent>, h: string)
    ensures h in Replay(t, es).profiles <==> Run(if h in t.profiles then Live else Absent, h, es) == Live
  {
    ReplayProfileAt(t, es, h);
    ProfileFoldFollowsLifecycle(Get(t.profiles, h), h, es);
  }
}
