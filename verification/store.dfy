/** The document database behind the services: one map per collection, the
    `messages` sub-collection of every conversation, and a counter for the
    ids `addDoc` invents. Which accesses fail (security rules, an unreachable
    server) is a fixed table of the environment, `Faults`. */
module Store {
  import opened Common
  import opened Sorting

  /** `Timestamp.now()`, supplied by the caller. */
  type Time = int

  datatype Role = Mentor | Mentee
  datatype Direction = Left | Right

  /** `users/{id}`: the global profile. */
  datatype UserDoc = UserDoc(id: string, email: Option<string>, fullName: string, role: Role,
                             createdAt: string, isPublic: bool, avatar: string)

  /** `mentors/{id}` and `mentees/{id}`: the role-specific profile; only mentors carry `hourlyRate`. */
  datatype RoleDoc = RoleDoc(bio: string, skills: seq<string>, location: string, experience: string,
                             education: string, languages: seq<string>, hourlyRate: Option<int>,
                             availability: string)

  /** `swipes/{actor}_{target}`. */
  datatype SwipeDoc = SwipeDoc(userId: string, targetUserId: string, direction: Direction, timestamp: Time)

  /** `matches/{mentorId}_{menteeId}`. */
  datatype MatchDoc = MatchDoc(mentorId: string, menteeId: string, createdAt: Time, status: string)

  /** `conversations/{id}`; the `lastMessage*` fields are missing until a message updates them. */
  datatype ConvDoc = ConvDoc(participants: seq<string>, participantNames: map<string, string>,
                             participantAvatars: map<string, string>, lastMessage: Option<string>,
                             lastMessageTime: Option<Time>, lastMessageSender: Option<string>,
                             createdAt: Time)

  /** `conversations/{id}/messages/{auto-id}`; `read` may be missing in documents other clients wrote. */
  datatype MessageDoc = MessageDoc(id: nat, text: string, sender: string, senderName: string,
                                   senderAvatar: string, timestamp: Time, read: Option<bool>)

  /** One key of a partial update: left out, present with the value `undefined`, or given a value. */
  datatype Field<T> = Absent | Undefined | Defined(value: T)

  /** `Partial<UserProfile>`. */
  datatype UserPatch = UserPatch(id: Field<string>, email: Field<string>, fullName: Field<string>,
                                 role: Field<Role>, createdAt: Field<string>, isPublic: Field<bool>,
                                 avatar: Field<string>)

  /** `Partial<MentorProfile>` / `Partial<MenteeProfile>`. */
  datatype RolePatch = RolePatch(bio: Field<string>, skills: Field<seq<string>>, location: Field<string>,
                                 experience: Field<string>, education: Field<string>,
                                 languages: Field<seq<string>>, hourlyRate: Field<int>,
                                 availability: Field<string>)

  function Pick<T>(f: Field<T>, current: T): T {
    if f.Defined? then f.value else current
  }

  predicate UserPatchHasUndefined(p: UserPatch) {
    p.id.Undefined? || p.email.Undefined? || p.fullName.Undefined? || p.role.Undefined? ||
    p.createdAt.Undefined? || p.isPublic.Undefined? || p.avatar.Undefined?
  }

  predicate RolePatchHasUndefined(p: RolePatch) {
    p.bio.Undefined? || p.skills.Undefined? || p.location.Undefined? || p.experience.Undefined? ||
    p.education.Undefined? || p.languages.Undefined? || p.hourlyRate.Undefined? ||
    p.availability.Undefined?
  }

  /** The merge `updateDoc` performs: given keys replace, the others stay. */
  function ApplyUserPatch(d: UserDoc, p: UserPatch): UserDoc {
    UserDoc(Pick(p.id, d.id), if p.email.Defined? then Some(p.email.value) else d.email,
            Pick(p.fullName, d.fullName), Pick(p.role, d.role), Pick(p.createdAt, d.createdAt),
            Pick(p.isPublic, d.isPublic), Pick(p.avatar, d.avatar))
  }

  function ApplyRolePatch(d: RoleDoc, p: RolePatch): RoleDoc {
    RoleDoc(Pick(p.bio, d.bio), Pick(p.skills, d.skills), Pick(p.location, d.location),
            Pick(p.experience, d.experience), Pick(p.education, d.education),
            Pick(p.languages, d.languages),
            if p.hourlyRate.Defined? then Some(p.hourlyRate.value) else d.hourlyRate,
            Pick(p.availability, d.availability))
  }

  datatype Collection = Users | Mentors | Mentees | Swipes | Matches | Conversations

  /** What an access touches: one document, the messages of one conversation, a
      whole collection, or the match query on one field (security rules judge
      each query on its own). */
  datatype Path =
    | Doc(coll: Collection, id: string)
    | Messages(conversationId: string)
    | All(coll: Collection)
    | MatchesWhere(field: MatchField)

  /** `setDoc` counts as a create when the document is absent and as an update otherwise. */
  datatype Op = Read | Create | Update
  datatype Access = Access(op: Op, path: Path)

  datatype StoreError = StoreError(code: string, message: string)

  /** The accesses that fail, and how. */
  type Faults = map<Access, StoreError>

  const NotFound := StoreError("not-found", "No document to update")
  const UndefinedValue := StoreError("invalid-argument", "Function updateDoc() called with invalid data. Unsupported field value: undefined")

  datatype Result<T> = Ok(value: T) | Err(error: StoreError)

  /** How an operation without a value ended: normally, or by throwing. */
  datatype Status = Done | Thrown(error: StoreError)

  datatype DbState = DbState(
    users: map<string, UserDoc>,
    mentors: map<string, RoleDoc>,
    mentees: map<string, RoleDoc>,
    swipes: map<string, SwipeDoc>,
    matches: map<string, MatchDoc>,
    conversations: map<string, ConvDoc>,
    messages: map<string, seq<MessageDoc>>,
    nextAutoId: nat)

  function RoleCollection(r: Role): Collection {
    if r == Mentor then Mentors else Mentees
  }

  function RoleDocs(s: DbState, r: Role): map<string, RoleDoc> {
    if r == Mentor then s.mentors else s.mentees
  }

  function WithRoleDocs(s: DbState, r: Role, m: map<string, RoleDoc>): DbState {
    if r == Mentor then s.(mentors := m) else s.(mentees := m)
  }

  /** The messages of a conversation, in the order they were added. */
  function MessagesOf(s: DbState, cid: string): seq<MessageDoc> {
    if cid in s.messages then s.messages[cid] else []
  }

  // ---- getDoc / setDoc / updateDoc / addDoc ----

  /** `getDoc`: the document, or `None` when there is none; fails when reading is denied. */
  function GetDoc<T>(m: map<string, T>, f: Faults, c: Collection, id: string): Result<Option<T>> {
    var a := Access(Read, Doc(c, id));
    if a in f then Err(f[a]) else Ok(if id in m then Some(m[id]) else None)
  }

  /** `setDoc`: writes the whole document, replacing any earlier one. */
  function SetDoc<T>(m: map<string, T>, f: Faults, c: Collection, id: string, d: T): Result<map<string, T>> {
    var a := Access(if id in m then Update else Create, Doc(c, id));
    if a in f then Err(f[a]) else Ok(m[id := d])
  }

  /** Why `updateDoc` throws, if it does: a patch holding `undefined` is rejected
      before anything is sent, then a denied write, then a missing document. */
  function UpdateRefusal<T>(m: map<string, T>, f: Faults, c: Collection, id: string,
                            hasUndefined: bool): (r: Option<StoreError>)
    ensures r.None? ==> id in m
  {
    var a := Access(Update, Doc(c, id));
    if hasUndefined then Some(UndefinedValue)
    else if a in f then Some(f[a])
    else if id !in m then Some(NotFound)
    else None
  }

  function SetUserF(s: DbState, f: Faults, id: string, d: UserDoc): (DbState, Status) {
    match SetDoc(s.users, f, Users, id, d)
    case Ok(m) => (s.(users := m), Done)
    case Err(e) => (s, Thrown(e))
  }

  function SetRoleDocF(s: DbState, f: Faults, r: Role, id: string, d: RoleDoc): (DbState, Status) {
    match SetDoc(RoleDocs(s, r), f, RoleCollection(r), id, d)
    case Ok(m) => (WithRoleDocs(s, r, m), Done)
    case Err(e) => (s, Thrown(e))
  }

  function SetSwipeF(s: DbState, f: Faults, key: string, d: SwipeDoc): (DbState, Status)
    ensures var r := SetSwipeF(s, f, key, d).0; r == s.(swipes := r.swipes)
  {
    match SetDoc(s.swipes, f, Swipes, key, d)
    case Ok(m) => (s.(swipes := m), Done)
    case Err(e) => (s, Thrown(e))
  }

  function SetMatchF(s: DbState, f: Faults, key: string, d: MatchDoc): (DbState, Status)
    ensures var r := SetMatchF(s, f, key, d).0; r == s.(matches := r.matches)
  {
    match SetDoc(s.matches, f, Matches, key, d)
    case Ok(m) => (s.(matches := m), Done)
    case Err(e) => (s, Thrown(e))
  }

  function SetConversationF(s: DbState, f: Faults, cid: string, d: ConvDoc): (DbState, Status)
    ensures var r := SetConversationF(s, f, cid, d).0; r == s.(conversations := r.conversations)
  {
    match SetDoc(s.conversations, f, Conversations, cid, d)
    case Ok(m) => (s.(conversations := m), Done)
    case Err(e) => (s, Thrown(e))
  }

  function UpdateUserF(s: DbState, f: Faults, id: string, p: UserPatch): (DbState, Status) {
    match UpdateRefusal(s.users, f, Users, id, UserPatchHasUndefined(p))
    case Some(e) => (s, Thrown(e))
    case None => (s.(users := s.users[id := ApplyUserPatch(s.users[id], p)]), Done)
  }

  function UpdateRoleDocF(s: DbState, f: Faults, r: Role, id: string, p: RolePatch): (DbState, Status) {
    var m := RoleDocs(s, r);
    match UpdateRefusal(m, f, RoleCollection(r), id, RolePatchHasUndefined(p))
    case Some(e) => (s, Thrown(e))
    case None => (WithRoleDocs(s, r, m[id := ApplyRolePatch(m[id], p)]), Done)
  }

  /** `updateDoc(conversation, {lastMessage, lastMessageTime, lastMessageSender})`. */
  function UpdateLastMessageF(s: DbState, f: Faults, cid: string, text: string, now: Time, sender: string): (DbState, Status)
    ensures var r := UpdateLastMessageF(s, f, cid, text, now, sender).0; r == s.(conversations := r.conversations)
  {
    match UpdateRefusal(s.conversations, f, Conversations, cid, false)
    case Some(e) => (s, Thrown(e))
    case None =>
      var c := s.conversations[cid];
      (s.(conversations := s.conversations[cid := c.(lastMessage := Some(text), lastMessageTime := Some(now),
                                                     lastMessageSender := Some(sender))]), Done)
  }

  /** `addDoc` on `conversations/{cid}/messages`: appends under a fresh id. */
  function AddMessageF(s: DbState, f: Faults, cid: string, m: MessageDoc): (DbState, Status)
    ensures var r := AddMessageF(s, f, cid, m).0; r == s.(messages := r.messages, nextAutoId := r.nextAutoId)
  {
    var a := Access(Create, Messages(cid));
    if a in f then (s, Thrown(f[a]))
    else (s.(messages := s.messages[cid := MessagesOf(s, cid) + [m.(id := s.nextAutoId)]],
             nextAutoId := s.nextAutoId + 1), Done)
  }

  // ---- queries ----

  function MessageTime(m: MessageDoc): int { m.timestamp }

  /** `query(messages, orderBy('timestamp', 'asc'))`: ties keep the order of the auto-ids. */
  function QueryMessagesF(s: DbState, f: Faults, cid: string): Result<seq<MessageDoc>> {
    var a := Access(Read, Messages(cid));
    if a in f then Err(f[a]) else Ok(SortBy(MessagesOf(s, cid), MessageTime))
  }

  /** The order of `orderBy('lastMessageTime', 'desc')`. */
  function NewestFirst(p: (string, ConvDoc)): int {
    if p.1.lastMessageTime.Some? then -p.1.lastMessageTime.value else 0
  }

  /** The conversations `where('participants', 'array-contains', userId)` with
      `orderBy('lastMessageTime')` selects: a query ordered by a field leaves out
      the documents that lack it. */
  ghost function ConversationKeysOf(m: map<string, ConvDoc>, userId: string): set<string> {
    set k | k in m && userId in m[k].participants && m[k].lastMessageTime.Some?
  }

  datatype MatchField = MentorIdField | MenteeIdField

  function FieldOf(m: MatchDoc, field: MatchField): string {
    if field == MentorIdField then m.mentorId else m.menteeId
  }

  ghost function MatchKeysWhere(m: map<string, MatchDoc>, field: MatchField, value: string): set<string> {
    set k | k in m && FieldOf(m[k], field) == value
  }

  /** Each key at most once, each entry as stored. */
  ghost predicate Snapshot<T>(r: seq<(string, T)>, m: map<string, T>, keys: set<string>) {
    && |r| == |keys|
    && (set p | p in r :: p.0) == keys
    && (forall p :: p in r ==> p.0 in m && p.1 == m[p.0])
  }

  /** A sequence of entries names at most as many keys as it has entries. */
  lemma {:induction false} KeyCountBound<T>(r: seq<(string, T)>)
    ensures |set p | p in r :: p.0| <= |r|
  {
    if r != [] {
      var init := r[..|r| - 1];
      KeyCountBound(init);
      assert (set p | p in r :: p.0) == (set p | p in init :: p.0) + {r[|r| - 1].0} by {
        assert forall p :: p in r <==> p in init || p == r[|r| - 1] by {
          assert r == init + [r[|r| - 1]];
        }
      }
    }
  }

  /** A snapshot lists every key once. */
  lemma SnapshotDistinct<T>(r: seq<(string, T)>, m: map<string, T>, keys: set<string>)
    requires Snapshot(r, m, keys)
    ensures forall i, j :: 0 <= i < j < |r| ==> r[i].0 != r[j].0
  {
    forall i, j | 0 <= i < j < |r| ensures r[i].0 != r[j].0 {
      if r[i].0 == r[j].0 {
        var rest := r[..j] + r[j + 1..];
        assert (set p | p in rest :: p.0) == keys by {
          forall p | p in r ensures p.0 in (set q | q in rest :: q.0) {
            var k :| 0 <= k < |r| && r[k] == p;
            if k < j {
              assert rest[k] == p;
            } else if k > j {
              assert rest[k - 1] == p;
            } else {
              assert rest[i] == r[i];
            }
          }
          assert forall p :: p in rest ==> p in r;
        }
        KeyCountBound(rest);
        assert false;
      }
    }
  }

  /** Storing the value a key already holds leaves the map as it was. */
  lemma RewriteSame<K, V>(m: map<K, V>, k: K, v: V)
    requires k in m && m[k] == v
    ensures m[k := v] == m
  {
  }

  /** Taking `k` out of the keys still to visit adds it to the visited part of `wanted`, if wanted. */
  lemma VisitKey<T>(wanted: set<T>, remaining: set<T>, k: T)
    requires k in remaining
    ensures k !in wanted - remaining
    ensures k in wanted ==> wanted - (remaining - {k}) == (wanted - remaining) + {k}
    ensures k !in wanted ==> wanted - (remaining - {k}) == wanted - remaining
  {
  }

  /** Adding the entry of a key not yet listed keeps a snapshot a snapshot. */
  lemma SnapshotAdd<T>(r: seq<(string, T)>, r2: seq<(string, T)>, m: map<string, T>, keys: set<string>, k: string)
    requires Snapshot(r, m, keys) && k in m && k !in keys
    requires multiset(r2) == multiset(r) + multiset{(k, m[k])}
    ensures Snapshot(r2, m, keys + {k})
  {
    assert |r2| == |multiset(r2)|;
    forall y ensures y in r2 <==> y in r || y == (k, m[k]) {
      assert y in r2 <==> y in multiset(r2);
      assert y in r <==> y in multiset(r);
    }
    assert (set p | p in r2 :: p.0) == (set p | p in r :: p.0) + {k};
  }

  class Firestore {
    var users: map<string, UserDoc>
    var mentors: map<string, RoleDoc>
    var mentees: map<string, RoleDoc>
    var swipes: map<string, SwipeDoc>
    var matches: map<string, MatchDoc>
    var conversations: map<string, ConvDoc>
    var messages: map<string, seq<MessageDoc>>
    var nextAutoId: nat
    const faults: Faults

    function State(): DbState
      reads this
    {
      DbState(users, mentors, mentees, swipes, matches, conversations, messages, nextAutoId)
    }

    constructor (initial: DbState, faults: Faults)
      ensures State() == initial && this.faults == faults
    {
      users, mentors, mentees := initial.users, initial.mentors, initial.mentees;
      swipes, matches, conversations := initial.swipes, initial.matches, initial.conversations;
      messages, nextAutoId := initial.messages, initial.nextAutoId;
      this.faults := faults;
    }

    method Load(s: DbState)
      modifies this
      ensures State() == s
    {
      users, mentors, mentees := s.users, s.mentors, s.mentees;
      swipes, matches, conversations := s.swipes, s.matches, s.conversations;
      messages, nextAutoId := s.messages, s.nextAutoId;
    }

    method GetUser(id: string) returns (r: Result<Option<UserDoc>>)
      ensures r == GetDoc(users, faults, Users, id)
    {
      r := GetDoc(users, faults, Users, id);
    }

    method GetRoleDoc(role: Role, id: string) returns (r: Result<Option<RoleDoc>>)
      ensures r == GetDoc(RoleDocs(State(), role), faults, RoleCollection(role), id)
    {
      r := GetDoc(if role == Mentor then mentors else mentees, faults, RoleCollection(role), id);
    }

    method GetSwipe(key: string) returns (r: Result<Option<SwipeDoc>>)
      ensures r == GetDoc(swipes, faults, Swipes, key)
    {
      r := GetDoc(swipes, faults, Swipes, key);
    }

    method GetConversation(cid: string) returns (r: Result<Option<ConvDoc>>)
      ensures r == GetDoc(conversations, faults, Conversations, cid)
    {
      r := GetDoc(conversations, faults, Conversations, cid);
    }

    method SetUser(id: string, d: UserDoc) returns (st: Status)
      modifies this
      ensures (State(), st) == SetUserF(old(State()), faults, id, d)
    {
      var r := SetDoc(users, faults, Users, id, d);
      if r.Ok? { users := r.value; st := Done; } else { st := Thrown(r.error); }
    }

    method SetRoleDoc(role: Role, id: string, d: RoleDoc) returns (st: Status)
      modifies this
      ensures (State(), st) == SetRoleDocF(old(State()), faults, role, id, d)
    {
      var r := SetDoc(if role == Mentor then mentors else mentees, faults, RoleCollection(role), id, d);
      if r.Err? {
        st := Thrown(r.error);
      } else {
        if role == Mentor { mentors := r.value; } else { mentees := r.value; }
        st := Done;
      }
    }

    method SetSwipe(key: string, d: SwipeDoc) returns (st: Status)
      modifies this
      ensures (State(), st) == SetSwipeF(old(State()), faults, key, d)
    {
      var r := SetDoc(swipes, faults, Swipes, key, d);
      if r.Ok? { swipes := r.value; st := Done; } else { st := Thrown(r.error); }
    }

    method SetMatch(key: string, d: MatchDoc) returns (st: Status)
      modifies this
      ensures (State(), st) == SetMatchF(old(State()), faults, key, d)
    {
      var r := SetDoc(matches, faults, Matches, key, d);
      if r.Ok? { matches := r.value; st := Done; } else { st := Thrown(r.error); }
    }

    method SetConversation(cid: string, d: ConvDoc) returns (st: Status)
      modifies this
      ensures (State(), st) == SetConversationF(old(State()), faults, cid, d)
    {
      var r := SetDoc(conversations, faults, Conversations, cid, d);
      if r.Ok? { conversations := r.value; st := Done; } else { st := Thrown(r.error); }
    }

    method UpdateUser(id: string, p: UserPatch) returns (st: Status)
      modifies this
      ensures (State(), st) == UpdateUserF(old(State()), faults, id, p)
    {
      var e := UpdateRefusal(users, faults, Users, id, UserPatchHasUndefined(p));
      if e.Some? { st := Thrown(e.value); } else { users := users[id := ApplyUserPatch(users[id], p)]; st := Done; }
    }

    method UpdateRoleDoc(role: Role, id: string, p: RolePatch) returns (st: Status)
      modifies this
      ensures (State(), st) == UpdateRoleDocF(old(State()), faults, role, id, p)
    {
      var m := if role == Mentor then mentors else mentees;
      var e := UpdateRefusal(m, faults, RoleCollection(role), id, RolePatchHasUndefined(p));
      if e.Some? {
        st := Thrown(e.value);
      } else {
        m := m[id := ApplyRolePatch(m[id], p)];
        if role == Mentor { mentors := m; } else { mentees := m; }
        st := Done;
      }
    }

    method UpdateLastMessage(cid: string, text: string, now: Time, sender: string) returns (st: Status)
      modifies this
      ensures (State(), st) == UpdateLastMessageF(old(State()), faults, cid, text, now, sender)
    {
      var e := UpdateRefusal(conversations, faults, Conversations, cid, false);
      if e.Some? {
        st := Thrown(e.value);
      } else {
        var c := conversations[cid];
        conversations := conversations[cid := c.(lastMessage := Some(text), lastMessageTime := Some(now),
                                                 lastMessageSender := Some(sender))];
        st := Done;
      }
    }

    method AddMessage(cid: string, m: MessageDoc) returns (st: Status)
      modifies this
      ensures (State(), st) == AddMessageF(old(State()), faults, cid, m)
    {
      var a := Access(Create, Messages(cid));
      if a in faults {
        st := Thrown(faults[a]);
      } else {
        var list := if cid in messages then messages[cid] else [];
        messages := messages[cid := list + [m.(id := nextAutoId)]];
        nextAutoId := nextAutoId + 1;
        st := Done;
      }
    }

    method QueryMessages(cid: string) returns (r: Result<seq<MessageDoc>>)
      ensures r == QueryMessagesF(State(), faults, cid)
    {
      r := QueryMessagesF(State(), faults, cid);
    }

    /** `query(matches, where(field, '==', value))`, in no particular order. */
    method QueryMatches(field: MatchField, value: string) returns (r: Result<seq<(string, MatchDoc)>>)
      ensures Access(Read, MatchesWhere(field)) in faults ==> r == Err(faults[Access(Read, MatchesWhere(field))])
      ensures Access(Read, MatchesWhere(field)) !in faults ==>
        r.Ok? && Snapshot(r.value, matches, MatchKeysWhere(matches, field, value))
    {
      var a := Access(Read, MatchesWhere(field));
      if a in faults {
        return Err(faults[a]);
      }
      var out := SelectMatches(matches, field, value);
      r := Ok(out);
    }

    /** `query(conversations, where('participants', 'array-contains', userId),
        orderBy('lastMessageTime', 'desc'))`. */
    method QueryConversations(userId: string) returns (r: Result<seq<(string, ConvDoc)>>)
      ensures Access(Read, All(Conversations)) in faults ==> r == Err(faults[Access(Read, All(Conversations))])
      ensures Access(Read, All(Conversations)) !in faults ==>
        && r.Ok?
        && Snapshot(r.value, conversations, ConversationKeysOf(conversations, userId))
        && SortedBy(r.value, NewestFirst)
    {
      var a := Access(Read, All(Conversations));
      if a in faults {
        return Err(faults[a]);
      }
      var out := SelectConversations(conversations, userId);
      r := Ok(out);
    }

    /** `getDocs(collection(role))`: every document of `mentors` or `mentees`, in no particular order. */
    method ListRoleDocs(role: Role) returns (r: Result<seq<(string, RoleDoc)>>)
      ensures Access(Read, All(RoleCollection(role))) in faults ==>
        r == Err(faults[Access(Read, All(RoleCollection(role)))])
      ensures Access(Read, All(RoleCollection(role))) !in faults ==>
        r.Ok? && Snapshot(r.value, RoleDocs(State(), role), RoleDocs(State(), role).Keys)
    {
      var a := Access(Read, All(RoleCollection(role)));
      if a in faults {
        return Err(faults[a]);
      }
      var out := ListAll(if role == Mentor then mentors else mentees);
      r := Ok(out);
    }
  }

  lemma SelectMatchStep(out: seq<(string, MatchDoc)>, docs: map<string, MatchDoc>, field: MatchField,
                        value: string, remaining: set<string>, k: string)
    requires k in remaining && remaining <= docs.Keys
    requires Snapshot(out, docs, MatchKeysWhere(docs, field, value) - remaining)
    ensures FieldOf(docs[k], field) == value ==>
      Snapshot(out + [(k, docs[k])], docs, MatchKeysWhere(docs, field, value) - (remaining - {k}))
    ensures FieldOf(docs[k], field) != value ==>
      Snapshot(out, docs, MatchKeysWhere(docs, field, value) - (remaining - {k}))
  {
    var wanted := MatchKeysWhere(docs, field, value);
    VisitKey(wanted, remaining, k);
    if FieldOf(docs[k], field) == value {
      SnapshotAdd(out, out + [(k, docs[k])], docs, wanted - remaining, k);
    }
  }

  /** The entries of `docs` whose `field` equals `value`, each once. */
  method SelectMatches(docs: map<string, MatchDoc>, field: MatchField, value: string) returns (out: seq<(string, MatchDoc)>)
    ensures Snapshot(out, docs, MatchKeysWhere(docs, field, value))
  {
    var remaining := docs.Keys;
    out := [];
    while remaining != {}
      invariant remaining <= docs.Keys
      invariant Snapshot(out, docs, MatchKeysWhere(docs, field, value) - remaining)
      decreases remaining
    {
      var k :| k in remaining;
      SelectMatchStep(out, docs, field, value, remaining, k);
      if FieldOf(docs[k], field) == value {
        out := out + [(k, docs[k])];
      }
      remaining := remaining - {k};
    }
  }

  lemma SelectConversationStep(out: seq<(string, ConvDoc)>, docs: map<string, ConvDoc>, userId: string,
                               remaining: set<string>, k: string)
    requires k in remaining && remaining <= docs.Keys
    requires Snapshot(out, docs, ConversationKeysOf(docs, userId) - remaining)
    requires SortedBy(out, NewestFirst)
    ensures userId in docs[k].participants && docs[k].lastMessageTime.Some? ==>
      Snapshot(InsertBy(out, (k, docs[k]), NewestFirst), docs, ConversationKeysOf(docs, userId) - (remaining - {k}))
    ensures !(userId in docs[k].participants && docs[k].lastMessageTime.Some?) ==>
      Snapshot(out, docs, ConversationKeysOf(docs, userId) - (remaining - {k}))
  {
    var wanted := ConversationKeysOf(docs, userId);
    VisitKey(wanted, remaining, k);
    if userId in docs[k].participants && docs[k].lastMessageTime.Some? {
      SnapshotAdd(out, InsertBy(out, (k, docs[k]), NewestFirst), docs, wanted - remaining, k);
    }
  }

  /** The conversations listing `userId` that carry a `lastMessageTime`, newest first. */
  method SelectConversations(docs: map<string, ConvDoc>, userId: string) returns (out: seq<(string, ConvDoc)>)
    ensures Snapshot(out, docs, ConversationKeysOf(docs, userId))
    ensures SortedBy(out, NewestFirst)
  {
    var remaining := docs.Keys;
    out := [];
    while remaining != {}
      invariant remaining <= docs.Keys
      invariant Snapshot(out, docs, ConversationKeysOf(docs, userId) - remaining)
      invariant SortedBy(out, NewestFirst)
      decreases remaining
    {
      var k :| k in remaining;
      SelectConversationStep(out, docs, userId, remaining, k);
      if userId in docs[k].participants && docs[k].lastMessageTime.Some? {
        out := InsertBy(out, (k, docs[k]), NewestFirst);
      }
      remaining := remaining - {k};
    }
  }

  /** Every entry of `docs`, each once. */
  method ListAll<T>(docs: map<string, T>) returns (out: seq<(string, T)>)
    ensures Snapshot(out, docs, docs.Keys)
  {
    var remaining := docs.Keys;
    out := [];
    while remaining != {}
      invariant remaining <= docs.Keys
      invariant Snapshot(out, docs, docs.Keys - remaining)
      decreases remaining
    {
      var k :| k in remaining;
      VisitKey(docs.Keys, remaining, k);
      SnapshotAdd(out, out + [(k, docs[k])], docs, docs.Keys - remaining, k);
      out := out + [(k, docs[k])];
      remaining := remaining - {k};
    }
  }
}
