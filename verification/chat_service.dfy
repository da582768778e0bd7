/** Conversations and their messages: create-if-absent under a symmetric id,
    append-then-update on send, and the two one-shot queries. */
module ChatService {
  import opened Common
  import opened Text
  import opened Ids
  import opened Sorting
  import opened Store

  /** A message as the screens receive it. */
  datatype Message = Message(id: nat, text: string, sender: string, senderName: string,
                             senderAvatar: string, timestamp: Time, read: bool)

  /** A conversation as the screens receive it. */
  datatype Conversation = Conversation(id: string, participants: seq<string>,
                                       participantNames: map<string, string>,
                                       participantAvatars: map<string, string>,
                                       lastMessage: string, lastMessageTime: Time,
                                       lastMessageSender: string, unreadCount: nat, createdAt: Time)

  datatype Participant = Participant(id: string, name: string, avatar: string)

  // ---- getOrCreateConversation ----

  function NewConversation(cur: string, curName: string, curAvatar: string,
                           other: string, otherName: string, otherAvatar: string, now: Time): ConvDoc {
    ConvDoc([cur, other], map[cur := curName][other := otherName],
            map[cur := curAvatar][other := otherAvatar], Some(""), Some(now), Some(cur), now)
  }

  /** The new state and the conversation id, or the error the call throws. */
  function GetOrCreateF(s: DbState, f: Faults, cur: string, curName: string, curAvatar: string,
                        other: string, otherName: string, otherAvatar: string, now: Time): (DbState, Result<string>) {
    var cid := ConversationId(cur, other);
    match GetDoc(s.conversations, f, Conversations, cid)
    case Err(e) => (s, Err(e))
    case Ok(Some(_)) => (s, Ok(cid))
    case Ok(None) =>
      var (s1, st) := SetConversationF(s, f, cid, NewConversation(cur, curName, curAvatar, other, otherName, otherAvatar, now));
      if st.Thrown? then (s1, Err(st.error)) else (s1, Ok(cid))
  }

  method GetOrCreateConversation(db: Firestore, cur: string, curName: string, curAvatar: string,
                                 other: string, otherName: string, otherAvatar: string, now: Time)
    returns (r: Result<string>)
    modifies db
    ensures (db.State(), r) == GetOrCreateF(old(db.State()), db.faults, cur, curName, curAvatar, other, otherName, otherAvatar, now)
  {
    var cid := ConversationId(cur, other);
    var snap := db.GetConversation(cid);
    if snap.Err? {
      return Err(snap.error);
    }
    if snap.value.None? {
      var st := db.SetConversation(cid, NewConversation(cur, curName, curAvatar, other, otherName, otherAvatar, now));
      if st.Thrown? {
        return Err(st.error);
      }
    }
    r := Ok(cid);
  }

  /** Whichever user opens the conversation, the id is the same, and it is the
      only document the call may write. */
  lemma GetOrCreateSymmetric(s: DbState, f: Faults, a: string, aName: string, aAvatar: string,
                             b: string, bName: string, bAvatar: string, now: Time)
    ensures var (s1, r1) := GetOrCreateF(s, f, a, aName, aAvatar, b, bName, bAvatar, now);
            var (s2, r2) := GetOrCreateF(s, f, b, bName, bAvatar, a, aName, aAvatar, now);
            && (r1.Ok? ==> r1.value == ConversationId(a, b))
            && (r1.Ok? && r2.Ok? ==> r1.value == r2.value)
            && s1 == s.(conversations := s1.conversations)
            && (forall k :: k != ConversationId(a, b) ==> (k in s1.conversations <==> k in s.conversations))
            && (forall k :: k != ConversationId(a, b) && k in s.conversations ==> s1.conversations[k] == s.conversations[k])
  {
    GetOrCreateTouchesOneDoc(s, f, a, aName, aAvatar, b, bName, bAvatar, now);
    GetOrCreateTouchesOneDoc(s, f, b, bName, bAvatar, a, aName, aAvatar, now);
    ConversationIdSymmetric(a, b);
  }

  /** One caller's view: the result is the conversation id, and only that document may change. */
  lemma GetOrCreateTouchesOneDoc(s: DbState, f: Faults, cur: string, curName: string, curAvatar: string,
                                 other: string, otherName: string, otherAvatar: string, now: Time)
    ensures var (s1, r) := GetOrCreateF(s, f, cur, curName, curAvatar, other, otherName, otherAvatar, now);
            var cid := ConversationId(cur, other);
            && (r.Ok? ==> r.value == cid)
            && s1 == s.(conversations := s1.conversations)
            && (forall k :: k != cid ==> (k in s1.conversations <==> k in s.conversations))
            && (forall k :: k != cid && k in s.conversations ==> s1.conversations[k] == s.conversations[k])
  {
    var cid := ConversationId(cur, other);
    var s1 := GetOrCreateF(s, f, cur, curName, curAvatar, other, otherName, otherAvatar, now).0;
    if Access(Read, Doc(Conversations, cid)) in f || cid in s.conversations {
      assert s1 == s;
    } else {
      var conv := NewConversation(cur, curName, curAvatar, other, otherName, otherAvatar, now);
      assert s1 == SetConversationF(s, f, cid, conv).0;
      assert s1.conversations == s.conversations || s1.conversations == s.conversations[cid := conv];
    }
  }

  /** An existing conversation is returned untouched. */
  lemma GetOrCreateExisting(s: DbState, f: Faults, cur: string, curName: string, curAvatar: string,
                            other: string, otherName: string, otherAvatar: string, now: Time)
    requires ConversationId(cur, other) in s.conversations
    requires Access(Read, Doc(Conversations, ConversationId(cur, other))) !in f
    ensures GetOrCreateF(s, f, cur, curName, curAvatar, other, otherName, otherAvatar, now) == (s, Ok(ConversationId(cur, other)))
  {
  }

  /** A missing conversation is created with the caller first, an empty last
      message sent by the caller, and both names and avatars. */
  lemma GetOrCreateNew(s: DbState, f: Faults, cur: string, curName: string, curAvatar: string,
                       other: string, otherName: string, otherAvatar: string, now: Time)
    requires ConversationId(cur, other) !in s.conversations
    requires Access(Read, Doc(Conversations, ConversationId(cur, other))) !in f
    requires Access(Create, Doc(Conversations, ConversationId(cur, other))) !in f
    requires cur != other
    ensures var (s1, r) := GetOrCreateF(s, f, cur, curName, curAvatar, other, otherName, otherAvatar, now);
            var c := s1.conversations[ConversationId(cur, other)];
            && r == Ok(ConversationId(cur, other))
            && s1 == s.(conversations := s.conversations[ConversationId(cur, other) := c])
            && c.participants == [cur, other]
            && c.lastMessage == Some("") && c.lastMessageSender == Some(cur) && c.lastMessageTime == Some(now)
            && c.participantNames[cur] == curName && c.participantNames[other] == otherName
            && c.participantAvatars[cur] == curAvatar && c.participantAvatars[other] == otherAvatar
  {
  }

  /** A second call with the same arguments changes nothing more and returns the same id. */
  lemma GetOrCreateIdempotent(s: DbState, f: Faults, cur: string, curName: string, curAvatar: string,
                                                 other: string, otherName: string, otherAvatar: string, now: Time)
    requires GetOrCreateF(s, f, cur, curName, curAvatar, other, otherName, otherAvatar, now).1.Ok?
    ensures var (s1, r1) := GetOrCreateF(s, f, cur, curName, curAvatar, other, otherName, otherAvatar, now);
            GetOrCreateF(s1, f, cur, curName, curAvatar, other, otherName, otherAvatar, now) == (s1, r1)
  {
    var cid := ConversationId(cur, other);
    var (s1, r1) := GetOrCreateF(s, f, cur, curName, curAvatar, other, otherName, otherAvatar, now);
    assert Access(Read, Doc(Conversations, cid)) !in f;
    assert cid in s1.conversations;
  }

  // ---- sendMessage ----

  /** The message `sendMessage` adds; the store assigns its id. */
  function OutgoingMessage(sender: string, senderName: string, senderAvatar: string, text: string, now: Time): MessageDoc {
    MessageDoc(0, text, sender, senderName, senderAvatar, now, Some(false))
  }

  function SendMessageF(s: DbState, f: Faults, cid: string, sender: string, senderName: string,
                        senderAvatar: string, text: string, now: Time): (DbState, Status)
    ensures var r := SendMessageF(s, f, cid, sender, senderName, senderAvatar, text, now).0;
            r == s.(conversations := r.conversations, messages := r.messages, nextAutoId := r.nextAutoId)
  {
    var (s1, st1) := AddMessageF(s, f, cid, OutgoingMessage(sender, senderName, senderAvatar, text, now));
    if st1.Thrown? then (s1, st1)
    else UpdateLastMessageF(s1, f, cid, text, now, sender)
  }

  method SendMessage(db: Firestore, cid: string, sender: string, senderName: string,
                     senderAvatar: string, text: string, now: Time) returns (st: Status)
    modifies db
    ensures (db.State(), st) == SendMessageF(old(db.State()), db.faults, cid, sender, senderName, senderAvatar, text, now)
  {
    st := db.AddMessage(cid, OutgoingMessage(sender, senderName, senderAvatar, text, now));
    if st.Thrown? {
      return;
    }
    st := db.UpdateLastMessage(cid, text, now, sender);
  }

  /** Unless the append is refused, exactly one unread message from `sender` is
      appended to this conversation and no other, and it stays there even when
      the update of the conversation fails afterwards. */
  lemma SendMessageAppendsOne(s: DbState, f: Faults, cid: string, sender: string, senderName: string,
                              senderAvatar: string, text: string, now: Time)
    requires Access(Create, Messages(cid)) !in f
    ensures var (s1, st) := SendMessageF(s, f, cid, sender, senderName, senderAvatar, text, now);
            && MessagesOf(s1, cid) == MessagesOf(s, cid) + [MessageDoc(s.nextAutoId, text, sender, senderName, senderAvatar, now, Some(false))]
            && (forall k :: k != cid ==> MessagesOf(s1, k) == MessagesOf(s, k))
            && s1.users == s.users && s1.swipes == s.swipes && s1.matches == s.matches
            && (st.Thrown? <==> Access(Update, Doc(Conversations, cid)) in f || cid !in s.conversations)
  {
  }

  /** A send that goes through rewrites the three `lastMessage*` fields and nothing else. */
  lemma SendMessageUpdatesLast(s: DbState, f: Faults, cid: string, sender: string, senderName: string,
                               senderAvatar: string, text: string, now: Time)
    requires Access(Create, Messages(cid)) !in f && Access(Update, Doc(Conversations, cid)) !in f
    requires cid in s.conversations
    ensures var (s1, st) := SendMessageF(s, f, cid, sender, senderName, senderAvatar, text, now);
            var c := s.conversations[cid];
            && st == Done
            && s1.conversations == s.conversations[cid := c.(lastMessage := Some(text), lastMessageTime := Some(now), lastMessageSender := Some(sender))]
  {
  }

  /** A refused append throws and writes nothing. */
  lemma SendMessageRefused(s: DbState, f: Faults, cid: string, sender: string, senderName: string,
                           senderAvatar: string, text: string, now: Time)
    requires Access(Create, Messages(cid)) in f
    ensures SendMessageF(s, f, cid, sender, senderName, senderAvatar, text, now) == (s, Thrown(f[Access(Create, Messages(cid))]))
  {
  }

  // ---- getMessages ----

  /** `read: data.read || false`. */
  function ToMessage(d: MessageDoc): (m: Message)
    ensures m.read <==> d.read == Some(true)
    ensures m.id == d.id && m.text == d.text && m.sender == d.sender && m.timestamp == d.timestamp
  {
    Message(d.id, d.text, d.sender, d.senderName, d.senderAvatar, d.timestamp, d.read == Some(true))
  }

  function ToMessages(ds: seq<MessageDoc>): (r: seq<Message>)
    ensures |r| == |ds|
  {
    if ds == [] then [] else ToMessages(ds[..|ds| - 1]) + [ToMessage(ds[|ds| - 1])]
  }

  /** What `getMessages` resolves to: the converted snapshot, or `[]` when the query fails. */
  function GetMessagesF(s: DbState, f: Faults, cid: string): seq<Message> {
    match QueryMessagesF(s, f, cid)
    case Err(_) => []
    case Ok(ds) => ToMessages(ds)
  }

  method GetMessages(db: Firestore, cid: string) returns (r: seq<Message>)
    ensures r == GetMessagesF(db.State(), db.faults, cid)
  {
    var q := db.QueryMessages(cid);
    if q.Err? {
      return [];
    }
    var docs := q.value;
    r := [];
    var i := 0;
    while i < |docs|
      invariant 0 <= i <= |docs|
      invariant r == ToMessages(docs[..i])
    {
      assert docs[..i + 1][..i] == docs[..i];
      r := r + [ToMessage(docs[i])];
      i := i + 1;
    }
    assert docs[..|docs|] == docs;
  }

  function Timestamp(m: Message): int { m.timestamp }

  /** `getMessages` lists every stored message once, converted, oldest first;
      a failed query gives the empty list. */
  lemma GetMessagesSpec(s: DbState, f: Faults, cid: string)
    ensures Access(Read, Messages(cid)) in f ==> GetMessagesF(s, f, cid) == []
    ensures Access(Read, Messages(cid)) !in f ==>
      var r := GetMessagesF(s, f, cid);
      && SortedBy(r, Timestamp)
      && multiset(r) == multiset(ToMessages(MessagesOf(s, cid)))
  {
    if Access(Read, Messages(cid)) !in f {
      SortCommutes(MessagesOf(s, cid));
    }
  }

  lemma {:induction false} ToMessagesSorted(xs: seq<MessageDoc>)
    requires SortedBy(xs, MessageTime)
    ensures SortedBy(ToMessages(xs), Timestamp)
  {
    if xs != [] {
      var init := xs[..|xs| - 1];
      assert SortedBy(init, MessageTime);
      ToMessagesSorted(init);
      ToMessagesIndex(xs);
    }
  }

  lemma {:induction false} ToMessagesIndex(xs: seq<MessageDoc>)
    ensures forall i :: 0 <= i < |xs| ==> ToMessages(xs)[i] == ToMessage(xs[i])
  {
    if xs != [] {
      ToMessagesIndex(xs[..|xs| - 1]);
    }
  }

  lemma ToMessagesSnoc(ds: seq<MessageDoc>, d: MessageDoc)
    ensures ToMessages(ds + [d]) == ToMessages(ds) + [ToMessage(d)]
  {
    assert (ds + [d])[..|ds|] == ds;
  }

  /** Converting commutes with inserting by time. */
  lemma {:induction false} InsertCommutes(xs: seq<MessageDoc>, x: MessageDoc)
    requires SortedBy(xs, MessageTime)
    ensures SortedBy(ToMessages(xs), Timestamp)
    ensures ToMessages(InsertBy(xs, x, MessageTime)) == InsertBy(ToMessages(xs), ToMessage(x), Timestamp)
  {
    ToMessagesSorted(xs);
    var t, m := ToMessages(xs), ToMessage(x);
    if xs == [] || MessageTime(xs[|xs| - 1]) <= MessageTime(x) {
      InsertAtEnd(xs, x, MessageTime);
      ToMessagesSnoc(xs, x);
      if xs != [] {
        ToMessagesLast(xs);
      }
      InsertAtEnd(t, m, Timestamp);
    } else {
      var init, last := xs[..|xs| - 1], xs[|xs| - 1];
      InsertBeforeLast(xs, x, MessageTime);
      InsertCommutes(init, x);
      ToMessagesSnoc(InsertBy(init, x, MessageTime), last);
      ToMessagesLast(xs);
      InsertBeforeLast(t, m, Timestamp);
    }
  }

  /** The converted list ends with the converted last document. */
  lemma ToMessagesLast(xs: seq<MessageDoc>)
    requires xs != []
    ensures var t := ToMessages(xs);
            t[..|t| - 1] == ToMessages(xs[..|xs| - 1]) && t[|t| - 1] == ToMessage(xs[|xs| - 1])
  {
  }

  /** Sorting the documents and converting them gives the converted documents, sorted. */
  lemma {:induction false} SortCommutes(xs: seq<MessageDoc>)
    ensures ToMessages(SortBy(xs, MessageTime)) == SortBy(ToMessages(xs), Timestamp)
  {
    if xs != [] {
      var init := xs[..|xs| - 1];
      SortCommutes(init);
      InsertCommutes(SortBy(init, MessageTime), xs[|xs| - 1]);
    }
  }

  // ---- getUserConversations ----

  /** `data.lastMessage || ''`. */
  function OrEmpty(o: Option<string>): string {
    if o.Some? then o.value else ""
  }

  /** The conversion of one document; the query only yields documents with a `lastMessageTime`. */
  function ToConversation(id: string, d: ConvDoc): Conversation
    requires d.lastMessageTime.Some?
  {
    Conversation(id, d.participants, d.participantNames, d.participantAvatars, OrEmpty(d.lastMessage),
                 d.lastMessageTime.value, OrEmpty(d.lastMessageSender), 0, d.createdAt)
  }

  /** Every entry of the query's snapshot can be converted. */
  lemma SnapshotConvertible(docs: seq<(string, ConvDoc)>, m: map<string, ConvDoc>, userId: string)
    requires Snapshot(docs, m, ConversationKeysOf(m, userId))
    ensures forall j :: 0 <= j < |docs| ==> docs[j].1.lastMessageTime.Some? && userId in docs[j].1.participants
  {
    forall j | 0 <= j < |docs| ensures docs[j].1.lastMessageTime.Some? && userId in docs[j].1.participants {
      assert docs[j] in docs;
      assert docs[j].0 in (set p | p in docs :: p.0);
      assert docs[j].0 in ConversationKeysOf(m, userId);
      assert docs[j].1 == m[docs[j].0];
    }
  }

  /** The converted snapshot keeps what the query promised about the documents. */
  lemma ConvertedSnapshot(docs: seq<(string, ConvDoc)>, m: map<string, ConvDoc>, userId: string, r: seq<Conversation>)
    requires Snapshot(docs, m, ConversationKeysOf(m, userId)) && SortedBy(docs, NewestFirst)
    requires forall j :: 0 <= j < |docs| ==> docs[j].1.lastMessageTime.Some? && userId in docs[j].1.participants
    requires |r| == |docs| && forall j :: 0 <= j < |docs| ==> r[j] == ToConversation(docs[j].0, docs[j].1)
    ensures |r| == |ConversationKeysOf(m, userId)|
    ensures (set c | c in r :: c.id) == ConversationKeysOf(m, userId)
    ensures forall c :: c in r ==> c.id in m && m[c.id].lastMessageTime.Some? && c == ToConversation(c.id, m[c.id])
    ensures forall c :: c in r ==> userId in c.participants && c.unreadCount == 0
    ensures forall i, j :: 0 <= i < j < |r| ==> r[i].lastMessageTime >= r[j].lastMessageTime
  {
    forall c | c in r
      ensures c.id in m && m[c.id].lastMessageTime.Some? && c == ToConversation(c.id, m[c.id])
    {
      var j :| 0 <= j < |r| && r[j] == c;
      assert docs[j] in docs;
    }
    forall a, b | 0 <= a < b < |r| ensures r[a].lastMessageTime >= r[b].lastMessageTime {
      assert NewestFirst(docs[a]) <= NewestFirst(docs[b]);
    }
    assert (set c | c in r :: c.id) == (set p | p in docs :: p.0) by {
      forall p | p in docs ensures p.0 in (set c | c in r :: c.id) {
        var j :| 0 <= j < |docs| && docs[j] == p;
        assert r[j] in r;
      }
      forall c | c in r ensures c.id in (set p | p in docs :: p.0) {
        var j :| 0 <= j < |r| && r[j] == c;
        assert docs[j] in docs;
      }
    }
  }

  /** `getUserConversations`: every conversation listing `userId` that has a last
      message time, once each, newest first, with no unread count; `[]` when the
      query fails. */
  method GetUserConversations(db: Firestore, userId: string) returns (r: seq<Conversation>)
    ensures Access(Read, All(Conversations)) in db.faults ==> r == []
    ensures Access(Read, All(Conversations)) !in db.faults ==>
      && |r| == |ConversationKeysOf(db.conversations, userId)|
      && (set c | c in r :: c.id) == ConversationKeysOf(db.conversations, userId)
      && (forall c :: c in r ==> c.id in db.conversations && db.conversations[c.id].lastMessageTime.Some?
                                 && c == ToConversation(c.id, db.conversations[c.id]))
      && (forall c :: c in r ==> userId in c.participants && c.unreadCount == 0)
      && (forall i, j :: 0 <= i < j < |r| ==> r[i].lastMessageTime >= r[j].lastMessageTime)
  {
    var q := db.QueryConversations(userId);
    if q.Err? {
      return [];
    }
    var docs := q.value;
    SnapshotConvertible(docs, db.conversations, userId);
    r := [];
    var i := 0;
    while i < |docs|
      invariant 0 <= i <= |docs|
      invariant |r| == i
      invariant forall j :: 0 <= j < i ==> r[j] == ToConversation(docs[j].0, docs[j].1)
    {
      r := r + [ToConversation(docs[i].0, docs[i].1)];
      i := i + 1;
    }
    ConvertedSnapshot(docs, db.conversations, userId, r);
  }

  // ---- getOtherParticipant ----

  /** Position `i` holds the first participant other than `cur`. */
  ghost predicate FirstOtherAt(ps: seq<string>, cur: string, i: int) {
    0 <= i < |ps| && ps[i] != cur && forall j :: 0 <= j < i ==> ps[j] == cur
  }

  /** `participants.find(id => id !== current)`. */
  function FirstOther(ps: seq<string>, cur: string): (r: Option<string>)
    ensures r.None? <==> forall p :: p in ps ==> p == cur
    ensures r.Some? ==> exists i :: FirstOtherAt(ps, cur, i) && ps[i] == r.value
    ensures forall i :: FirstOtherAt(ps, cur, i) ==> r == Some(ps[i])
  {
    if ps == [] then None
    else if ps[0] != cur then
      assert ps[0] in ps && FirstOtherAt(ps, cur, 0);
      assert forall i :: FirstOtherAt(ps, cur, i) ==> i == 0;
      Some(ps[0])
    else
      var r := FirstOther(ps[1..], cur);
      assert forall i :: FirstOtherAt(ps, cur, i) <==> i > 0 && FirstOtherAt(ps[1..], cur, i - 1) by {
        forall i ensures FirstOtherAt(ps, cur, i) <==> i > 0 && FirstOtherAt(ps[1..], cur, i - 1) {
          if i > 0 && i < |ps| {
            assert forall j :: 0 < j < i ==> ps[j] == ps[1..][j - 1];
          }
        }
      }
      assert r.Some? ==> exists i :: FirstOtherAt(ps, cur, i) && ps[i] == r.value by {
        if r.Some? {
          var i :| FirstOtherAt(ps[1..], cur, i) && ps[1..][i] == r.value;
          assert FirstOtherAt(ps, cur, i + 1);
        }
      }
      assert forall p :: p in ps ==> p == ps[0] || p in ps[1..];
      assert forall p :: p in ps[1..] ==> p in ps;
      r
  }

  /** The other participant, with `'Unknown User'` for a missing or empty name
      and `''` for a missing avatar; none when everyone else is the current user
      or the found id is empty. */
  function GetOtherParticipant(c: Conversation, cur: string): (r: Option<Participant>)
    ensures r.Some? ==> r.value.id in c.participants && r.value.id != cur && r.value.id != ""
    ensures (forall p :: p in c.participants ==> p == cur) ==> r.None?
    ensures forall i :: FirstOtherAt(c.participants, cur, i) ==>
              (r.Some? <==> c.participants[i] != "") && (r.Some? ==> r.value.id == c.participants[i])
    ensures r.Some? ==> r.value.name != ""
    ensures r.Some? ==> r.value.name == (if r.value.id in c.participantNames && c.participantNames[r.value.id] != ""
                                         then c.participantNames[r.value.id] else "Unknown User")
    ensures r.Some? ==> r.value.avatar == (if r.value.id in c.participantAvatars
                                           then c.participantAvatars[r.value.id] else "")
  {
    match FirstOther(c.participants, cur)
    case None => None
    case Some(id) =>
      if id == "" then None
      else
        Some(Participant(id,
                         OrElse(if id in c.participantNames then c.participantNames[id] else "", "Unknown User"),
                         if id in c.participantAvatars then c.participantAvatars[id] else ""))
  }

  /** In a two-party conversation each side sees the other. */
  lemma TwoPartyOther(c: Conversation, a: string, b: string)
    requires c.participants == [a, b] && a != b && a != "" && b != ""
    ensures GetOtherParticipant(c, a).Some? && GetOtherParticipant(c, a).value.id == b
    ensures GetOtherParticipant(c, b).Some? && GetOtherParticipant(c, b).value.id == a
  {
    assert c.participants[1..] == [b];
    assert FirstOther([b], a) == Some(b);
    assert FirstOther(c.participants, a) == Some(b);
    assert FirstOther(c.participants, b) == Some(a);
  }
}
