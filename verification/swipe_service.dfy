/** The swipe ledger and the match detector: a swipe is stored under
    `actor_target`; a right swipe looks up `target_actor`, and a mutual right
    swipe writes the match, opens the conversation if it is new, and sends the
    mentee's introduction. */
module SwipeService {
  import opened Common
  import opened Text
  import opened Ids
  import opened Store
  import opened ChatService

  /** The catch of `checkAndCreateMatch`: errors mentioning "permission" end the call normally. */
  function Swallow(s: DbState, e: StoreError): (r: (DbState, Status))
    ensures r.0 == s && (r.1.Thrown? ==> r.1.error == e)
  {
    if Contains(e.message, "permission") then (s, Done) else (s, Thrown(e))
  }

  /** Who is mentor and who is mentee, from the swiper's role alone. */
  function MentorOf(u: string, t: string, uRole: Role): string {
    if uRole == Mentor then u else t
  }

  function MenteeOf(u: string, t: string, uRole: Role): string {
    if uRole == Mentor then t else u
  }

  function IntroText(mentorName: string): string {
    "Hi " + OrElse(mentorName, "Mentor") + "! I'd like to connect with you."
  }

  /** The conversation a match opens; it has no `lastMessage*` fields until a message is sent. */
  function IntroConversation(mentorId: string, menteeId: string, mentor: UserDoc, mentee: UserDoc, now: Time): ConvDoc {
    ConvDoc([mentorId, menteeId],
            map[mentorId := OrElse(mentor.fullName, "Mentor")][menteeId := OrElse(mentee.fullName, "Mentee")],
            map[mentorId := OrElse(mentor.avatar, "")][menteeId := OrElse(mentee.avatar, "")],
            None, None, None, now)
  }

  /** The second half of `createMatchAndConversation`: create the conversation
      if it is absent and send the introduction, whose failure is ignored. */
  function OpenConversationF(s: DbState, f: Faults, mentorId: string, menteeId: string,
                             mentor: UserDoc, mentee: UserDoc, menteeUser: UserDoc, now: Time): (DbState, Status) {
    var cid := ConversationId(mentorId, menteeId);
    match GetDoc(s.conversations, f, Conversations, cid)
    case Err(e) => (s, Thrown(e))
    case Ok(Some(_)) => (s, Done)
    case Ok(None) =>
      var (s1, st1) := SetConversationF(s, f, cid, IntroConversation(mentorId, menteeId, mentor, mentee, now));
      if st1.Thrown? then (s1, st1)
      else
        var (s2, _) := SendMessageF(s1, f, cid, menteeId, OrElse(menteeUser.fullName, "User"),
                                    OrElse(menteeUser.avatar, ""), IntroText(mentor.fullName), now);
        (s2, Done)
  }

  /** The writes of `createMatchAndConversation` once both profiles are read:
      the match record under `mentorId_menteeId`, then the conversation. */
  function WriteMatchF(s: DbState, f: Faults, u: string, t: string, user: UserDoc, target: UserDoc, now: Time): (DbState, Status) {
    var mentorId, menteeId := MentorOf(u, t, user.role), MenteeOf(u, t, user.role);
    var mentor := if user.role == Mentor then user else target;
    var mentee := if user.role == Mentor then target else user;
    var (s1, st1) := SetMatchF(s, f, PairKey(mentorId, menteeId), MatchDoc(mentorId, menteeId, now, "active"));
    if st1.Thrown? then (s1, st1)
    else OpenConversationF(s1, f, mentorId, menteeId, mentor, mentee, if menteeId == u then user else target, now)
  }

  /** `createMatchAndConversation(u, t)`; `signedIn` is whether there is a current user. */
  function CreateMatchF(s: DbState, f: Faults, signedIn: bool, u: string, t: string, now: Time): (DbState, Status) {
    if !signedIn then (s, Done)
    else
      match GetDoc(s.users, f, Users, u)
      case Err(e) => (s, Thrown(e))
      case Ok(ud) =>
        match GetDoc(s.users, f, Users, t)
        case Err(e) => (s, Thrown(e))
        case Ok(td) =>
          if ud.None? || td.None? then (s, Done)
          else WriteMatchF(s, f, u, t, ud.value, td.value, now)
  }

  /** `checkAndCreateMatch(u, t)`. */
  function CheckAndCreateMatchF(s: DbState, f: Faults, signedIn: bool, u: string, t: string, now: Time): (DbState, Status) {
    match GetDoc(s.swipes, f, Swipes, PairKey(t, u))
    case Err(e) => Swallow(s, e)
    case Ok(rev) =>
      if rev.Some? && rev.value.direction == Right then
        var (s1, st) := CreateMatchF(s, f, signedIn, u, t, now);
        if st.Thrown? then Swallow(s1, st.error) else (s1, Done)
      else (s, Done)
  }

  /** `recordSwipe(u, t, dir)`. */
  function RecordSwipeF(s: DbState, f: Faults, signedIn: bool, u: string, t: string, dir: Direction, now: Time): (DbState, Status) {
    var (s1, st) := SetSwipeF(s, f, PairKey(u, t), SwipeDoc(u, t, dir, now));
    if st.Thrown? then (s1, st)
    else if dir == Right then CheckAndCreateMatchF(s1, f, signedIn, u, t, now)
    else (s1, Done)
  }

  method OpenConversation(db: Firestore, mentorId: string, menteeId: string, mentor: UserDoc, mentee: UserDoc,
                          menteeUser: UserDoc, now: Time) returns (st: Status)
    modifies db
    ensures (db.State(), st) == OpenConversationF(old(db.State()), db.faults, mentorId, menteeId, mentor, mentee, menteeUser, now)
  {
    var cid := ConversationId(mentorId, menteeId);
    var snap := db.GetConversation(cid);
    if snap.Err? {
      return Thrown(snap.error);
    }
    if snap.value.Some? {
      return Done;
    }
    st := db.SetConversation(cid, IntroConversation(mentorId, menteeId, mentor, mentee, now));
    if st.Thrown? {
      return;
    }
    var _ := SendMessage(db, cid, menteeId, OrElse(menteeUser.fullName, "User"), OrElse(menteeUser.avatar, ""),
                         IntroText(mentor.fullName), now);
    st := Done;
  }

  method WriteMatch(db: Firestore, u: string, t: string, user: UserDoc, target: UserDoc, now: Time) returns (st: Status)
    modifies db
    ensures (db.State(), st) == WriteMatchF(old(db.State()), db.faults, u, t, user, target, now)
  {
    var mentorId, menteeId := MentorOf(u, t, user.role), MenteeOf(u, t, user.role);
    var mentor := if user.role == Mentor then user else target;
    var mentee := if user.role == Mentor then target else user;
    st := db.SetMatch(PairKey(mentorId, menteeId), MatchDoc(mentorId, menteeId, now, "active"));
    if st.Thrown? {
      return;
    }
    st := OpenConversation(db, mentorId, menteeId, mentor, mentee, if menteeId == u then user else target, now);
  }

  method CreateMatchAndConversation(db: Firestore, signedIn: bool, u: string, t: string, now: Time) returns (st: Status)
    modifies db
    ensures (db.State(), st) == CreateMatchF(old(db.State()), db.faults, signedIn, u, t, now)
  {
    if !signedIn {
      return Done;
    }
    var ud := db.GetUser(u);
    if ud.Err? {
      return Thrown(ud.error);
    }
    var td := db.GetUser(t);
    if td.Err? {
      return Thrown(td.error);
    }
    if ud.value.None? || td.value.None? {
      return Done;
    }
    st := WriteMatch(db, u, t, ud.value.value, td.value.value, now);
  }

  method CheckAndCreateMatch(db: Firestore, signedIn: bool, u: string, t: string, now: Time) returns (st: Status)
    modifies db
    ensures (db.State(), st) == CheckAndCreateMatchF(old(db.State()), db.faults, signedIn, u, t, now)
  {
    var rev := db.GetSwipe(PairKey(t, u));
    if rev.Err? {
      if Contains(rev.error.message, "permission") { return Done; }
      return Thrown(rev.error);
    }
    if rev.value.Some? && rev.value.value.direction == Right {
      st := CreateMatchAndConversation(db, signedIn, u, t, now);
      if st.Thrown? && !Contains(st.error.message, "permission") {
        return;
      }
    }
    st := Done;
  }

  method RecordSwipe(db: Firestore, signedIn: bool, u: string, t: string, dir: Direction, now: Time) returns (st: Status)
    modifies db
    ensures (db.State(), st) == RecordSwipeF(old(db.State()), db.faults, signedIn, u, t, dir, now)
  {
    st := db.SetSwipe(PairKey(u, t), SwipeDoc(u, t, dir, now));
    if st.Thrown? {
      return;
    }
    if dir == Right {
      st := CheckAndCreateMatch(db, signedIn, u, t, now);
    }
  }

  // ---- properties ----

  /** The profiles and the swipes agree. */
  predicate KeepsProfilesAndSwipes(a: DbState, b: DbState) {
    a.users == b.users && a.mentors == b.mentors && a.mentees == b.mentees && a.swipes == b.swipes
  }

  lemma OpenConversationFrame(s: DbState, f: Faults, mentorId: string, menteeId: string,
                              mentor: UserDoc, mentee: UserDoc, menteeUser: UserDoc, now: Time)
    ensures KeepsProfilesAndSwipes(OpenConversationF(s, f, mentorId, menteeId, mentor, mentee, menteeUser, now).0, s)
    ensures OpenConversationF(s, f, mentorId, menteeId, mentor, mentee, menteeUser, now).0.matches == s.matches
  {
    var cid := ConversationId(mentorId, menteeId);
    var (s1, st1) := SetConversationF(s, f, cid, IntroConversation(mentorId, menteeId, mentor, mentee, now));
    assert KeepsProfilesAndSwipes(s1, s);
    var text := IntroText(mentor.fullName);
    var (s2, _) := SendMessageF(s1, f, cid, menteeId, OrElse(menteeUser.fullName, "User"), OrElse(menteeUser.avatar, ""), text, now);
    assert KeepsProfilesAndSwipes(s2, s1) && s2.matches == s1.matches;
  }

  lemma WriteMatchFrame(s: DbState, f: Faults, u: string, t: string, user: UserDoc, target: UserDoc, now: Time)
    ensures KeepsProfilesAndSwipes(WriteMatchF(s, f, u, t, user, target, now).0, s)
  {
    var mentorId, menteeId := MentorOf(u, t, user.role), MenteeOf(u, t, user.role);
    var mentor := if user.role == Mentor then user else target;
    var mentee := if user.role == Mentor then target else user;
    var menteeUser := if menteeId == u then user else target;
    if MatchWrite(s, u, t, user.role) in f {
      assert WriteMatchF(s, f, u, t, user, target, now).0 == s;
    } else {
      WriteMatchThenOpen(s, f, u, t, user, target, now);
      var s1 := s.(matches := s.matches[MatchKey(u, t, user.role) := MatchRecord(u, t, user.role, now)]);
      OpenConversationFrame(s1, f, mentorId, menteeId, mentor, mentee, menteeUser, now);
    }
  }

  /** Nothing after the swipe write touches the profiles or the swipes. */
  lemma CreateMatchFrame(s: DbState, f: Faults, signedIn: bool, u: string, t: string, now: Time)
    ensures KeepsProfilesAndSwipes(CreateMatchF(s, f, signedIn, u, t, now).0, s)
  {
    if signedIn && u in s.users && t in s.users && Access(Read, Doc(Users, u)) !in f && Access(Read, Doc(Users, t)) !in f {
      CreateMatchBothUsers(s, f, u, t, now);
      WriteMatchFrame(s, f, u, t, s.users[u], s.users[t], now);
    } else {
      assert CreateMatchF(s, f, signedIn, u, t, now).0 == s;
    }
  }

  /** The key of a swipe; it does not depend on the direction. */
  function SwipeKey(u: string, t: string): string { PairKey(u, t) }

  /** The access the swipe write needs: a create for a new pair, an update for a repeated one. */
  function SwipeWrite(s: DbState, u: string, t: string): Access {
    Access(if SwipeKey(u, t) in s.swipes then Update else Create, Doc(Swipes, SwipeKey(u, t)))
  }

  /** A swipe replaces whatever was stored for the pair and leaves every other
      swipe and every profile as it was; a refused write throws and changes nothing. */
  lemma RecordSwipeOverwrites(s: DbState, f: Faults, signedIn: bool, u: string, t: string, dir: Direction, now: Time)
    ensures SwipeWrite(s, u, t) in f ==> RecordSwipeF(s, f, signedIn, u, t, dir, now) == (s, Thrown(f[SwipeWrite(s, u, t)]))
    ensures SwipeWrite(s, u, t) !in f ==>
      var s1 := RecordSwipeF(s, f, signedIn, u, t, dir, now).0;
      && s1.swipes == s.swipes[SwipeKey(u, t) := SwipeDoc(u, t, dir, now)]
      && s1.users == s.users && s1.mentors == s.mentors && s1.mentees == s.mentees
  {
    if SwipeWrite(s, u, t) !in f {
      var s0 := AfterSwipe(s, u, t, dir, now);
      if dir == Right {
        RightSwipeThenCheck(s, f, signedIn, u, t, now);
        CheckFrame(s0, f, signedIn, u, t, now);
      } else {
        LeftSwipeOnlyRecords(s, f, signedIn, u, t, now);
      }
    }
  }

  /** The match check touches neither the profiles nor the swipes. */
  lemma CheckFrame(s: DbState, f: Faults, signedIn: bool, u: string, t: string, now: Time)
    ensures KeepsProfilesAndSwipes(CheckAndCreateMatchF(s, f, signedIn, u, t, now).0, s)
  {
    CreateMatchFrame(s, f, signedIn, u, t, now);
    var s1 := CreateMatchF(s, f, signedIn, u, t, now).0;
    assert CheckAndCreateMatchF(s, f, signedIn, u, t, now).0 in {s, s1};
  }

  /** Swiping the same pair twice leaves only the second decision. */
  lemma LatestSwipeWins(s: DbState, f: Faults, signedIn: bool, u: string, t: string,
                                           d1: Direction, now1: Time, d2: Direction, now2: Time)
    requires Access(Create, Doc(Swipes, SwipeKey(u, t))) !in f && Access(Update, Doc(Swipes, SwipeKey(u, t))) !in f
    ensures var s1 := RecordSwipeF(s, f, signedIn, u, t, d1, now1).0;
            var s2 := RecordSwipeF(s1, f, signedIn, u, t, d2, now2).0;
            s2.swipes == s.swipes[SwipeKey(u, t) := SwipeDoc(u, t, d2, now2)]
  {
    RecordSwipeOverwrites(s, f, signedIn, u, t, d1, now1);
    var s1 := RecordSwipeF(s, f, signedIn, u, t, d1, now1).0;
    RecordSwipeOverwrites(s1, f, signedIn, u, t, d2, now2);
  }

  /** A left swipe writes the swipe and nothing else. */
  lemma LeftSwipeOnlyRecords(s: DbState, f: Faults, signedIn: bool, u: string, t: string, now: Time)
    ensures RecordSwipeF(s, f, signedIn, u, t, Left, now) == SetSwipeF(s, f, SwipeKey(u, t), SwipeDoc(u, t, Left, now))
  {
  }

  /** The state with only the swipe written. */
  function AfterSwipe(s: DbState, u: string, t: string, dir: Direction, now: Time): DbState {
    s.(swipes := s.swipes[SwipeKey(u, t) := SwipeDoc(u, t, dir, now)])
  }

  /** No false match: when the target has not swiped right on the actor (no
      record, or a left one), or the lookup is refused, a right swipe writes the
      swipe and nothing else. Distinct ids without `_` keep the two keys apart. */
  lemma NoFalseMatch(s: DbState, f: Faults, signedIn: bool, u: string, t: string, now: Time)
    requires '_' !in u && '_' !in t && u != t
    requires SwipeWrite(s, u, t) !in f
    requires Access(Read, Doc(Swipes, SwipeKey(t, u))) in f ||
             SwipeKey(t, u) !in s.swipes || s.swipes[SwipeKey(t, u)].direction == Left
    ensures RecordSwipeF(s, f, signedIn, u, t, Right, now).0 == AfterSwipe(s, u, t, Right, now)
  {
    ReverseKeyDiffers(u, t);
  }

  /** The conversation id does not depend on which of the two completed the match. */
  lemma ConversationIdEitherSide(u: string, t: string, r: Role)
    ensures ConversationId(MentorOf(u, t, r), MenteeOf(u, t, r)) == ConversationId(u, t)
    ensures ConversationId(u, t) == ConversationId(t, u)
  {
    ConversationIdSymmetric(u, t);
  }

  /** With the roles set consistently, the match key is the same whichever user swiped second. */
  lemma MatchKeyEitherSide(u: string, t: string, uRole: Role, tRole: Role)
    requires uRole != tRole
    ensures MentorOf(u, t, uRole) == MentorOf(t, u, tRole) && MenteeOf(u, t, uRole) == MenteeOf(t, u, tRole)
  {
  }

  /** The introduction the mentee sends when a match opens a new conversation. */
  function IntroMessage(s: DbState, menteeId: string, mentor: UserDoc, menteeUser: UserDoc, now: Time): MessageDoc {
    MessageDoc(s.nextAutoId, IntroText(mentor.fullName), menteeId, OrElse(menteeUser.fullName, "User"),
               OrElse(menteeUser.avatar, ""), now, Some(false))
  }

  /** An existing conversation is neither rewritten nor sent another introduction. */
  lemma ExistingConversationUntouched(s: DbState, f: Faults, mentorId: string, menteeId: string,
                                      mentor: UserDoc, mentee: UserDoc, menteeUser: UserDoc, now: Time)
    requires ConversationId(mentorId, menteeId) in s.conversations
    requires Access(Read, Doc(Conversations, ConversationId(mentorId, menteeId))) !in f
    ensures OpenConversationF(s, f, mentorId, menteeId, mentor, mentee, menteeUser, now) == (s, Done)
  {
  }

  /** A new conversation lists mentor then mentee, and receives exactly one
      message: the mentee's introduction, which also becomes its last message. */
  lemma NewConversationGetsOneIntro(s: DbState, f: Faults, mentorId: string, menteeId: string,
                                    mentor: UserDoc, mentee: UserDoc, menteeUser: UserDoc, now: Time)
    requires ConversationId(mentorId, menteeId) !in s.conversations
    requires Access(Read, Doc(Conversations, ConversationId(mentorId, menteeId))) !in f
    requires Access(Create, Doc(Conversations, ConversationId(mentorId, menteeId))) !in f
    requires Access(Create, Messages(ConversationId(mentorId, menteeId))) !in f
    requires Access(Update, Doc(Conversations, ConversationId(mentorId, menteeId))) !in f
    ensures var cid := ConversationId(mentorId, menteeId);
            var (s1, st) := OpenConversationF(s, f, mentorId, menteeId, mentor, mentee, menteeUser, now);
            && st == Done
            && MessagesOf(s1, cid) == MessagesOf(s, cid) + [IntroMessage(s, menteeId, mentor, menteeUser, now)]
            && (forall k :: k != cid ==> MessagesOf(s1, k) == MessagesOf(s, k))
            && cid in s1.conversations
            && var c := s1.conversations[cid];
               && s1.conversations == s.conversations[cid := c]
               && c.participants == [mentorId, menteeId] && c.createdAt == now
               && c.lastMessage == Some(IntroText(mentor.fullName)) && c.lastMessageSender == Some(menteeId)
  {
    var cid := ConversationId(mentorId, menteeId);
    var conv := IntroConversation(mentorId, menteeId, mentor, mentee, now);
    var s1 := s.(conversations := s.conversations[cid := conv]);
    var name, avatar, text := OrElse(menteeUser.fullName, "User"), OrElse(menteeUser.avatar, ""), IntroText(mentor.fullName);
    NewConversationThenIntro(s, f, mentorId, menteeId, mentor, mentee, menteeUser, now);
    SendMessageAppendsOne(s1, f, cid, menteeId, name, avatar, text, now);
    SendMessageUpdatesLast(s1, f, cid, menteeId, name, avatar, text, now);
  }

  /** A new conversation is created, then the introduction is sent and its outcome dropped. */
  lemma NewConversationThenIntro(s: DbState, f: Faults, mentorId: string, menteeId: string,
                                 mentor: UserDoc, mentee: UserDoc, menteeUser: UserDoc, now: Time)
    requires ConversationId(mentorId, menteeId) !in s.conversations
    requires Access(Read, Doc(Conversations, ConversationId(mentorId, menteeId))) !in f
    requires Access(Create, Doc(Conversations, ConversationId(mentorId, menteeId))) !in f
    ensures var cid := ConversationId(mentorId, menteeId);
            var s1 := s.(conversations := s.conversations[cid := IntroConversation(mentorId, menteeId, mentor, mentee, now)]);
            OpenConversationF(s, f, mentorId, menteeId, mentor, mentee, menteeUser, now) ==
            (SendMessageF(s1, f, cid, menteeId, OrElse(menteeUser.fullName, "User"), OrElse(menteeUser.avatar, ""),
                          IntroText(mentor.fullName), now).0, Done)
  {
    var cid := ConversationId(mentorId, menteeId);
    var conv := IntroConversation(mentorId, menteeId, mentor, mentee, now);
    assert SetConversationF(s, f, cid, conv) == (s.(conversations := s.conversations[cid := conv]), Done);
  }

  /** A refused introduction does not undo the conversation and is not reported. */
  lemma IntroFailureSwallowed(s: DbState, f: Faults, mentorId: string, menteeId: string,
                              mentor: UserDoc, mentee: UserDoc, menteeUser: UserDoc, now: Time)
    requires ConversationId(mentorId, menteeId) !in s.conversations
    requires Access(Read, Doc(Conversations, ConversationId(mentorId, menteeId))) !in f
    requires Access(Create, Doc(Conversations, ConversationId(mentorId, menteeId))) !in f
    requires Access(Create, Messages(ConversationId(mentorId, menteeId))) in f
    ensures OpenConversationF(s, f, mentorId, menteeId, mentor, mentee, menteeUser, now) ==
            (s.(conversations := s.conversations[ConversationId(mentorId, menteeId) := IntroConversation(mentorId, menteeId, mentor, mentee, now)]), Done)
  {
  }

  /** The match key and record of a match. */
  function MatchKey(u: string, t: string, uRole: Role): string {
    PairKey(MentorOf(u, t, uRole), MenteeOf(u, t, uRole))
  }

  function MatchRecord(u: string, t: string, uRole: Role, now: Time): MatchDoc {
    MatchDoc(MentorOf(u, t, uRole), MenteeOf(u, t, uRole), now, "active")
  }

  function MatchWrite(s: DbState, u: string, t: string, uRole: Role): Access {
    Access(if MatchKey(u, t, uRole) in s.matches then Update else Create, Doc(Matches, MatchKey(u, t, uRole)))
  }

  /** The match record overwrites whatever was stored under its key, and is
      decided by the swiper's role alone: the target's role plays no part. */
  lemma MatchRecordFromSwiperRole(s: DbState, f: Faults, u: string, t: string, user: UserDoc, target: UserDoc,
                                  otherRole: Role, now: Time)
    requires MatchWrite(s, u, t, user.role) !in f
    ensures WriteMatchF(s, f, u, t, user, target, now).0.matches ==
            s.matches[MatchKey(u, t, user.role) := MatchRecord(u, t, user.role, now)]
    ensures WriteMatchF(s, f, u, t, user, target.(role := otherRole), now).0.matches ==
            WriteMatchF(s, f, u, t, user, target, now).0.matches
  {
    var mentorId, menteeId := MentorOf(u, t, user.role), MenteeOf(u, t, user.role);
    var s1 := SetMatchF(s, f, PairKey(mentorId, menteeId), MatchDoc(mentorId, menteeId, now, "active")).0;
    var target' := target.(role := otherRole);
    OpenConversationFrame(s1, f, mentorId, menteeId, if user.role == Mentor then user else target,
                          if user.role == Mentor then target else user, if menteeId == u then user else target, now);
    OpenConversationFrame(s1, f, mentorId, menteeId, if user.role == Mentor then user else target',
                          if user.role == Mentor then target' else user, if menteeId == u then user else target', now);
  }

  /** A refused conversation write is reported, and the match written before it stays. */
  lemma ConversationFailureKeepsMatch(s: DbState, f: Faults, u: string, t: string, user: UserDoc, target: UserDoc, now: Time)
    requires MatchWrite(s, u, t, user.role) !in f
    requires ConversationId(u, t) !in s.conversations
    requires Access(Read, Doc(Conversations, ConversationId(u, t))) !in f
    requires Access(Create, Doc(Conversations, ConversationId(u, t))) in f
    ensures WriteMatchF(s, f, u, t, user, target, now) ==
            (s.(matches := s.matches[MatchKey(u, t, user.role) := MatchRecord(u, t, user.role, now)]),
             Thrown(f[Access(Create, Doc(Conversations, ConversationId(u, t)))]))
  {
    ConversationIdEitherSide(u, t, user.role);
  }

  /** `checkAndCreateMatch` lets no error mentioning "permission" escape and
      rethrows every other; a refused lookup writes nothing, and a failure while
      creating the match keeps what was written before it. */
  lemma MatchCheckErrors(s: DbState, f: Faults, signedIn: bool, u: string, t: string, now: Time)
    ensures var (s1, st) := CheckAndCreateMatchF(s, f, signedIn, u, t, now);
            st.Thrown? ==> !Contains(st.error.message, "permission")
    ensures var (s1, st) := CheckAndCreateMatchF(s, f, signedIn, u, t, now);
            var a := Access(Read, Doc(Swipes, SwipeKey(t, u)));
            a in f ==> s1 == s && (st.Thrown? <==> !Contains(f[a].message, "permission"))
    ensures var (s1, st) := CheckAndCreateMatchF(s, f, signedIn, u, t, now);
            var (s2, st2) := CreateMatchF(s, f, signedIn, u, t, now);
            && Access(Read, Doc(Swipes, SwipeKey(t, u))) !in f
            && SwipeKey(t, u) in s.swipes && s.swipes[SwipeKey(t, u)].direction == Right
            ==> s1 == s2 && (st.Thrown? <==> st2.Thrown? && !Contains(st2.error.message, "permission"))
  {
  }

  /** Once the match record is written, what remains is opening the conversation. */
  lemma WriteMatchThenOpen(s: DbState, f: Faults, u: string, t: string, user: UserDoc, target: UserDoc, now: Time)
    requires MatchWrite(s, u, t, user.role) !in f
    ensures WriteMatchF(s, f, u, t, user, target, now) ==
            OpenConversationF(s.(matches := s.matches[MatchKey(u, t, user.role) := MatchRecord(u, t, user.role, now)]), f,
                              MentorOf(u, t, user.role), MenteeOf(u, t, user.role),
                              if user.role == Mentor then user else target, if user.role == Mentor then target else user,
                              if MenteeOf(u, t, user.role) == u then user else target, now)
  {
  }

  /** With every access allowed the match step always ends normally: the match
      is stored, the conversation exists, and only a new conversation gets the
      introduction. */
  lemma WriteMatchNoFaults(s: DbState, u: string, t: string, user: UserDoc, target: UserDoc, now: Time)
    ensures var (s1, st) := WriteMatchF(s, map[], u, t, user, target, now);
            && st == Done
            && s1.matches == s.matches[MatchKey(u, t, user.role) := MatchRecord(u, t, user.role, now)]
            && ConversationId(u, t) in s1.conversations
            && (ConversationId(u, t) in s.conversations ==> s1 == s.(matches := s1.matches))
  {
    var f: Faults := map[];
    var mentorId, menteeId := MentorOf(u, t, user.role), MenteeOf(u, t, user.role);
    var mentor := if user.role == Mentor then user else target;
    var mentee := if user.role == Mentor then target else user;
    var menteeUser := if menteeId == u then user else target;
    ConversationIdEitherSide(u, t, user.role);
    WriteMatchThenOpen(s, f, u, t, user, target, now);
    OpenConversationNoFaults(s, s.matches[MatchKey(u, t, user.role) := MatchRecord(u, t, user.role, now)],
                             mentorId, menteeId, mentor, mentee, menteeUser, now);
  }

  /** With no refusals and no conversation yet, the match step opens one between
      mentor and mentee holding the mentee's introduction after what was there. */
  lemma WriteMatchOpensConversation(s: DbState, u: string, t: string, user: UserDoc, target: UserDoc, now: Time)
    requires ConversationId(u, t) !in s.conversations
    ensures var s1 := WriteMatchF(s, map[], u, t, user, target, now).0;
            var cid := ConversationId(u, t);
            var mentor := if user.role == Mentor then user else target;
            var menteeUser := if MenteeOf(u, t, user.role) == u then user else target;
            && cid in s1.conversations
            && s1.conversations[cid].participants == [MentorOf(u, t, user.role), MenteeOf(u, t, user.role)]
            && MessagesOf(s1, cid) == MessagesOf(s, cid) + [IntroMessage(s, MenteeOf(u, t, user.role), mentor, menteeUser, now)]
  {
    var f: Faults := map[];
    var mentorId, menteeId := MentorOf(u, t, user.role), MenteeOf(u, t, user.role);
    var mentor := if user.role == Mentor then user else target;
    var mentee := if user.role == Mentor then target else user;
    var menteeUser := if menteeId == u then user else target;
    ConversationIdEitherSide(u, t, user.role);
    WriteMatchThenOpen(s, f, u, t, user, target, now);
    OpenConversationNoFaults(s, s.matches[MatchKey(u, t, user.role) := MatchRecord(u, t, user.role, now)],
                             mentorId, menteeId, mentor, mentee, menteeUser, now);
  }

  /** With every access allowed, opening the conversation right after the
      matches became `m` ends normally; an existing conversation is left as it
      was and a new one gets the introduction. */
  lemma OpenConversationNoFaults(s: DbState, m: map<string, MatchDoc>, mentorId: string, menteeId: string,
                                 mentor: UserDoc, mentee: UserDoc, menteeUser: UserDoc, now: Time)
    ensures var cid := ConversationId(mentorId, menteeId);
            var (s1, st) := OpenConversationF(s.(matches := m), map[], mentorId, menteeId, mentor, mentee, menteeUser, now);
            && st == Done && cid in s1.conversations && s1.matches == m
            && (cid in s.conversations ==> s1 == s.(matches := m))
            && (cid !in s.conversations ==>
                  && s1.conversations[cid].participants == [mentorId, menteeId]
                  && MessagesOf(s1, cid) == MessagesOf(s, cid) + [IntroMessage(s, menteeId, mentor, menteeUser, now)])
  {
    var f: Faults := map[];
    var sm := s.(matches := m);
    var cid := ConversationId(mentorId, menteeId);
    OpenConversationFrame(sm, f, mentorId, menteeId, mentor, mentee, menteeUser, now);
    if cid in s.conversations {
      ExistingConversationUntouched(sm, f, mentorId, menteeId, mentor, mentee, menteeUser, now);
    } else {
      NewConversationGetsOneIntro(sm, f, mentorId, menteeId, mentor, mentee, menteeUser, now);
      assert MessagesOf(sm, cid) == MessagesOf(s, cid);
      assert IntroMessage(sm, menteeId, mentor, menteeUser, now) == IntroMessage(s, menteeId, mentor, menteeUser, now);
    }
  }

  /** Repeating the match step changes nothing: the record is rewritten with the
      same content and the conversation already exists. */
  lemma WriteMatchTwice(s: DbState, u: string, t: string, user: UserDoc, target: UserDoc, now: Time)
    ensures var s1 := WriteMatchF(s, map[], u, t, user, target, now).0;
            WriteMatchF(s1, map[], u, t, user, target, now) == (s1, Done)
  {
    var f: Faults := map[];
    var s1 := WriteMatchF(s, f, u, t, user, target, now).0;
    WriteMatchNoFaults(s, u, t, user, target, now);
    var mentorId, menteeId := MentorOf(u, t, user.role), MenteeOf(u, t, user.role);
    var m := s1.matches[MatchKey(u, t, user.role) := MatchRecord(u, t, user.role, now)];
    RewriteSame(s1.matches, MatchKey(u, t, user.role), MatchRecord(u, t, user.role, now));
    assert s1.(matches := m) == s1;
    ConversationIdEitherSide(u, t, user.role);
    WriteMatchThenOpen(s1, f, u, t, user, target, now);
    OpenConversationNoFaults(s1, m, mentorId, menteeId, if user.role == Mentor then user else target,
                             if user.role == Mentor then target else user, if menteeId == u then user else target, now);
  }

  /** With every access allowed `createMatchAndConversation` ends normally and a
      second run changes nothing. */
  lemma CreateMatchTwice(s: DbState, signedIn: bool, u: string, t: string, now: Time)
    ensures CreateMatchF(s, map[], signedIn, u, t, now).1 == Done
    ensures var s1 := CreateMatchF(s, map[], signedIn, u, t, now).0;
            CreateMatchF(s1, map[], signedIn, u, t, now) == (s1, Done)
  {
    var f: Faults := map[];
    if signedIn && u in s.users && t in s.users {
      WriteMatchNoFaults(s, u, t, s.users[u], s.users[t], now);
      WriteMatchTwice(s, u, t, s.users[u], s.users[t], now);
      WriteMatchFrame(s, f, u, t, s.users[u], s.users[t], now);
    }
  }

  /** Repeating a swipe with every access allowed changes nothing: the swipe and
      the match are rewritten with the same content, and no second conversation
      or introduction appears. */
  lemma RecordSwipeIdempotent(s: DbState, signedIn: bool, u: string, t: string, dir: Direction, now: Time)
    ensures RecordSwipeF(s, map[], signedIn, u, t, dir, now).1 == Done
    ensures var s1 := RecordSwipeF(s, map[], signedIn, u, t, dir, now).0;
            RecordSwipeF(s1, map[], signedIn, u, t, dir, now) == (s1, Done)
  {
    var f: Faults := map[];
    var s0 := AfterSwipe(s, u, t, dir, now);
    var s1 := RecordSwipeF(s, f, signedIn, u, t, dir, now).0;
    assert AfterSwipe(s0, u, t, dir, now) == s0;
    if dir == Right {
      CreateMatchTwice(s0, signedIn, u, t, now);
      CreateMatchFrame(s0, f, signedIn, u, t, now);
      assert AfterSwipe(s1, u, t, dir, now) == s1;
    }
  }

  /** A right swipe answering a stored right swipe goes straight to the match
      step with both profiles. */
  lemma CompletingSwipe(s: DbState, u: string, t: string, now: Time)
    requires SwipeKey(u, t) != SwipeKey(t, u)
    requires u in s.users && t in s.users
    requires SwipeKey(t, u) in s.swipes && s.swipes[SwipeKey(t, u)].direction == Right
    ensures RecordSwipeF(s, map[], true, u, t, Right, now) ==
            WriteMatchF(AfterSwipe(s, u, t, Right, now), map[], u, t, s.users[u], s.users[t], now)
  {
    var f: Faults := map[];
    var s' := AfterSwipe(s, u, t, Right, now);
    RightSwipeThenCheck(s, f, true, u, t, now);
    assert s'.swipes[SwipeKey(t, u)] == s.swipes[SwipeKey(t, u)];
    CreateMatchBothUsers(s', f, u, t, now);
    WriteMatchNoFaults(s', u, t, s.users[u], s.users[t], now);
    CheckFindsRight(s', f, true, u, t, now);
  }

  /** A stored right swipe is answered by the match step. */
  lemma RightSwipeThenCheck(s: DbState, f: Faults, signedIn: bool, u: string, t: string, now: Time)
    requires SwipeWrite(s, u, t) !in f
    ensures RecordSwipeF(s, f, signedIn, u, t, Right, now) ==
            CheckAndCreateMatchF(AfterSwipe(s, u, t, Right, now), f, signedIn, u, t, now)
  {
  }

  /** A readable right swipe of the target leads to `createMatchAndConversation`,
      whose normal end is reported as is. */
  lemma CheckFindsRight(s: DbState, f: Faults, signedIn: bool, u: string, t: string, now: Time)
    requires Access(Read, Doc(Swipes, SwipeKey(t, u))) !in f
    requires SwipeKey(t, u) in s.swipes && s.swipes[SwipeKey(t, u)].direction == Right
    requires CreateMatchF(s, f, signedIn, u, t, now).1 == Done
    ensures CheckAndCreateMatchF(s, f, signedIn, u, t, now) == CreateMatchF(s, f, signedIn, u, t, now)
  {
  }

  /** With both profiles readable, `createMatchAndConversation` is the match step. */
  lemma CreateMatchBothUsers(s: DbState, f: Faults, u: string, t: string, now: Time)
    requires u in s.users && t in s.users
    requires Access(Read, Doc(Users, u)) !in f && Access(Read, Doc(Users, t)) !in f
    ensures CreateMatchF(s, f, true, u, t, now) == WriteMatchF(s, f, u, t, s.users[u], s.users[t], now)
  {
  }

  /** With no current user, or with either profile missing, nothing is written. */
  lemma NoUserNoMatch(s: DbState, f: Faults, signedIn: bool, u: string, t: string, now: Time)
    requires !signedIn || ((u !in s.users || t !in s.users) &&
                           Access(Read, Doc(Users, u)) !in f && Access(Read, Doc(Users, t)) !in f)
    ensures CreateMatchF(s, f, signedIn, u, t, now) == (s, Done)
  {
  }

  /** A refused profile read is rethrown, the swiper's first, and nothing is written. */
  lemma ProfileReadRefused(s: DbState, f: Faults, u: string, t: string, now: Time)
    requires Access(Read, Doc(Users, u)) in f || Access(Read, Doc(Users, t)) in f
    ensures var a := if Access(Read, Doc(Users, u)) in f then Access(Read, Doc(Users, u)) else Access(Read, Doc(Users, t));
            CreateMatchF(s, f, true, u, t, now) == (s, Thrown(f[a]))
  {
  }

  /** Two right swipes, `t` on `u` and then `u` on `t`: the first writes no
      match; the second stores the match chosen by `u`'s role, opens the
      conversation and posts one introduction from the mentee. */
  lemma MutualRightSwipes(s: DbState, u: string, t: string, now1: Time, now2: Time)
    requires '_' !in u && '_' !in t && u != t
    requires u in s.users && t in s.users
    requires SwipeKey(u, t) !in s.swipes || s.swipes[SwipeKey(u, t)].direction == Left
    requires ConversationId(u, t) !in s.conversations
    ensures var s1 := RecordSwipeF(s, map[], true, t, u, Right, now1).0;
            var (s2, st) := RecordSwipeF(s1, map[], true, u, t, Right, now2);
            var role := s.users[u].role;
            var mentor := s.users[MentorOf(u, t, role)];
            var menteeId := MenteeOf(u, t, role);
            && s1.matches == s.matches && s1.conversations == s.conversations
            && st == Done
            && s2.matches == s.matches[MatchKey(u, t, role) := MatchRecord(u, t, role, now2)]
            && ConversationId(u, t) in s2.conversations
            && s2.conversations[ConversationId(u, t)].participants == [MentorOf(u, t, role), menteeId]
            && MessagesOf(s2, ConversationId(u, t)) ==
               MessagesOf(s, ConversationId(u, t)) + [IntroMessage(s, menteeId, mentor, s.users[menteeId], now2)]
  {
    var f: Faults := map[];
    ReverseKeyDiffers(u, t);
    NoFalseMatch(s, f, true, t, u, now1);
    var s1 := AfterSwipe(s, t, u, Right, now1);
    assert RecordSwipeF(s, f, true, t, u, Right, now1).0 == s1;
    CompletingSwipe(s1, u, t, now2);
    var s1' := AfterSwipe(s1, u, t, Right, now2);
    WriteMatchNoFaults(s1', u, t, s.users[u], s.users[t], now2);
    WriteMatchOpensConversation(s1', u, t, s.users[u], s.users[t], now2);
    assert MessagesOf(s1', ConversationId(u, t)) == MessagesOf(s, ConversationId(u, t));
  }

  /** Why `NoFalseMatch` needs ids without `_`: a right swipe of "x" on "x_x"
      writes the very key the reverse lookup reads, so it matches with a user
      who never swiped. */
  lemma UnderscoreIdsFalseMatch(now: Time)
    ensures var user := UserDoc("x", None, "", Mentee, "", true, "");
            var target := UserDoc("x_x", None, "", Mentor, "", true, "");
            var s := DbState(map["x" := user, "x_x" := target], map[], map[], map[], map[], map[], map[], 0);
            var s1 := RecordSwipeF(s, map[], true, "x", "x_x", Right, now).0;
            PairKey("x_x", "x") in s1.matches
  {
    var user := UserDoc("x", None, "", Mentee, "", true, "");
    var target := UserDoc("x_x", None, "", Mentor, "", true, "");
    var s := DbState(map["x" := user, "x_x" := target], map[], map[], map[], map[], map[], map[], 0);
    UnderscoreKeysCollide();
    var s0 := AfterSwipe(s, "x", "x_x", Right, now);
    RightSwipeThenCheck(s, map[], true, "x", "x_x", now);
    assert s0.swipes[SwipeKey("x_x", "x")].direction == Right;
    assert s0.users["x"] == user && s0.users["x_x"] == target;
    CreateMatchBothUsers(s0, map[], "x", "x_x", now);
    WriteMatchNoFaults(s0, "x", "x_x", user, target, now);
    CheckFindsRight(s0, map[], true, "x", "x_x", now);
  }

  // ---- getDiscoverUsers, getUserMatches, filterOutMatched ----

  const DefaultAvatar := "https://api.dicebear.com/7.x/avataaars/svg?seed=default"

  /** A card of the discover deck: the role profile merged with name, avatar and role from `users`. */
  datatype DiscoverProfile = DiscoverProfile(id: string, name: string, avatar: string, photo: string,
                                             role: Role, details: RoleDoc)

  function OppositeRole(r: Role): Role {
    if r == Mentor then Mentee else Mentor
  }

  /** A missing `users` document gives 'User', the default avatar and the role 'mentor'. */
  function ToProfile(id: string, user: Option<UserDoc>, details: RoleDoc): DiscoverProfile {
    if user.None? then DiscoverProfile(id, "User", DefaultAvatar, DefaultAvatar, Mentor, details)
    else DiscoverProfile(id, OrElse(user.value.fullName, "User"), OrElse(user.value.avatar, DefaultAvatar),
                         OrElse(user.value.avatar, DefaultAvatar), user.value.role, details)
  }

  function Lookup<T>(m: map<string, T>, k: string): Option<T> {
    if k in m then Some(m[k]) else None
  }

  /** The keys of a snapshot, position by position. */
  lemma SnapshotIndexes<T>(docs: seq<(string, T)>, m: map<string, T>, keys: set<string>)
    requires Snapshot(docs, m, keys)
    ensures (set j | 0 <= j < |docs| :: docs[j].0) == keys
    ensures forall k :: k in keys ==> exists j :: 0 <= j < |docs| && docs[j].0 == k
    ensures forall j :: 0 <= j < |docs| ==> docs[j].0 in m && docs[j].1 == m[docs[j].0]
  {
    forall k | k in keys ensures exists j :: 0 <= j < |docs| && docs[j].0 == k {
      assert k in (set p | p in docs :: p.0);
      var p :| p in docs && p.0 == k;
      var j :| 0 <= j < |docs| && docs[j] == p;
    }
    forall j | 0 <= j < |docs| ensures docs[j].0 in keys && docs[j].0 in m && docs[j].1 == m[docs[j].0] {
      assert docs[j] in docs;
    }
  }

  lemma IdsSnoc(out: seq<DiscoverProfile>, card: DiscoverProfile)
    ensures forall p :: p in out + [card] <==> p in out || p == card
    ensures (set p | p in out + [card] :: p.id) == (set p | p in out :: p.id) + {card.id}
  {
    assert forall p :: p in out + [card] <==> p in out || p == card;
  }

  lemma KeyNotSeen<T>(docs: seq<(string, T)>, i: nat)
    requires i < |docs|
    requires forall a, b :: 0 <= a < b < |docs| ==> docs[a].0 != docs[b].0
    ensures docs[i].0 !in (set j | 0 <= j < i :: docs[j].0)
  {
  }

  /** No two profiles share an id. */
  predicate DistinctIds(ps: seq<DiscoverProfile>) {
    forall a, b :: 0 <= a < b < |ps| ==> ps[a].id != ps[b].id
  }

  lemma DistinctIdsSnoc(out: seq<DiscoverProfile>, card: DiscoverProfile)
    requires DistinctIds(out)
    requires card.id !in (set p | p in out :: p.id)
    ensures DistinctIds(out + [card])
  {
    forall a | 0 <= a < |out| ensures out[a].id != card.id {
      assert out[a] in out;
    }
  }

  lemma AddThenRemove<T>(a: set<T>, k: T, c: T)
    ensures (a + {k}) - {c} == if k == c then a - {c} else (a - {c}) + {k}
  {
  }

  lemma KeysPrefixSnoc<T>(docs: seq<(string, T)>, i: nat)
    requires i < |docs|
    ensures (set j | 0 <= j < i + 1 :: docs[j].0) == (set j | 0 <= j < i :: docs[j].0) + {docs[i].0}
  {
  }

  /** Appending the profile of a listed key not yet seen keeps the ids those of
      the keys seen so far, and distinct. */
  lemma MergeStep(out: seq<DiscoverProfile>, card: DiscoverProfile, docs: seq<(string, RoleDoc)>, i: nat, cur: string)
    requires i < |docs| && card.id == docs[i].0 && card.id != cur
    requires forall a, b :: 0 <= a < b < |docs| ==> docs[a].0 != docs[b].0
    requires (set p | p in out :: p.id) == (set j | 0 <= j < i :: docs[j].0) - {cur}
    requires DistinctIds(out)
    ensures forall p :: p in out + [card] <==> p in out || p == card
    ensures (set p | p in out + [card] :: p.id) == (set p | p in out :: p.id) + {card.id}
    ensures DistinctIds(out + [card])
  {
    IdsSnoc(out, card);
    KeyNotSeen(docs, i);
    DistinctIdsSnoc(out, card);
  }

  /** The loop of `getDiscoverUsers`: every listed profile except the caller's own,
      merged with its `users` document, in listing order; the first refused read
      fails the whole call. */
  method MergeUsers(db: Firestore, docs: seq<(string, RoleDoc)>, ghost m: map<string, RoleDoc>, cur: string)
    returns (r: Result<seq<DiscoverProfile>>)
    requires forall j :: 0 <= j < |docs| ==> docs[j].0 in m && docs[j].1 == m[docs[j].0]
    requires forall i, j :: 0 <= i < j < |docs| ==> docs[i].0 != docs[j].0  // a snapshot lists each document once
    ensures r.Err? <==> exists j :: 0 <= j < |docs| && docs[j].0 != cur && Access(Read, Doc(Users, docs[j].0)) in db.faults
    ensures r.Ok? ==> (set p | p in r.value :: p.id) == (set j | 0 <= j < |docs| :: docs[j].0) - {cur}
    ensures r.Ok? ==> DistinctIds(r.value)
    ensures r.Ok? ==> forall p :: p in r.value ==> p.id in m && p == ToProfile(p.id, Lookup(db.users, p.id), m[p.id])
  {
    var out: seq<DiscoverProfile> := [];
    var i := 0;
    ghost var users, faults := db.users, db.faults;
    while i < |docs|
      invariant 0 <= i <= |docs|
      invariant (set p | p in out :: p.id) == (set j | 0 <= j < i :: docs[j].0) - {cur}
      invariant DistinctIds(out)
      invariant forall p :: p in out ==> p.id in m && p == ToProfile(p.id, Lookup(users, p.id), m[p.id])
      invariant forall j :: 0 <= j < i && docs[j].0 != cur ==> Access(Read, Doc(Users, docs[j].0)) !in faults
    {
      var (k, d) := docs[i];
      ghost var seen := set j | 0 <= j < i :: docs[j].0;
      KeysPrefixSnoc(docs, i);
      AddThenRemove(seen, k, cur);
      if k != cur {
        var ud := db.GetUser(k);
        if ud.Err? {
          return Err(ud.error);
        }
        var card := ToProfile(k, ud.value, d);
        MergeStep(out, card, docs, i, cur);
        out := out + [card];
      }
      i := i + 1;
    }
    r := Ok(out);
  }

  /** `getDiscoverUsers`: every profile of the opposite role except the caller's
      own, each merged with its `users` document; any failed read fails the call. */
  method GetDiscoverUsers(db: Firestore, cur: string, role: Role) returns (r: Result<seq<DiscoverProfile>>)
    ensures var docs := RoleDocs(db.State(), OppositeRole(role));
            var a := Access(Read, All(RoleCollection(OppositeRole(role))));
            && (a in db.faults ==> r == Err(db.faults[a]))
            && (a !in db.faults ==>
                  (r.Err? <==> exists k :: k in docs && k != cur && Access(Read, Doc(Users, k)) in db.faults))
            && (r.Ok? ==>
                  && (set p | p in r.value :: p.id) == docs.Keys - {cur}
                  && DistinctIds(r.value)
                  && (forall p :: p in r.value ==> p.id in docs && p == ToProfile(p.id, Lookup(db.users, p.id), docs[p.id])))
  {
    ghost var m := RoleDocs(db.State(), OppositeRole(role));
    var listed := db.ListRoleDocs(OppositeRole(role));
    if listed.Err? {
      return Err(listed.error);
    }
    var docs := listed.value;
    SnapshotIndexes(docs, m, m.Keys);
    SnapshotDistinct(docs, m, m.Keys);
    r := MergeUsers(db, docs, m, cur);
  }

  /** `{id, mentorId, menteeId, ...data}` for one match document. */
  datatype MatchView = MatchView(id: string, mentorId: string, menteeId: string, createdAt: Time, status: string)

  function ToView(p: (string, MatchDoc)): MatchView {
    MatchView(p.0, p.1.mentorId, p.1.menteeId, p.1.createdAt, p.1.status)
  }

  function ToViews(ps: seq<(string, MatchDoc)>): (r: seq<MatchView>)
    ensures |r| == |ps| && forall i :: 0 <= i < |ps| ==> r[i] == ToView(ps[i])
  {
    if ps == [] then [] else [ToView(ps[0])] + ToViews(ps[1..])
  }

  /** The views of a query snapshot: one per selected key, each as stored. */
  lemma ViewsOfSnapshot(ps: seq<(string, MatchDoc)>, m: map<string, MatchDoc>, keys: set<string>)
    requires Snapshot(ps, m, keys)
    ensures |ToViews(ps)| == |keys|
    ensures (set v | v in ToViews(ps) :: v.id) == keys
    ensures forall v :: v in ToViews(ps) ==> v.id in m && v == ToView((v.id, m[v.id]))
  {
    var vs := ToViews(ps);
    forall v | v in vs ensures v.id in m && v == ToView((v.id, m[v.id])) {
      var i :| 0 <= i < |vs| && vs[i] == v;
      assert ps[i] in ps;
    }
    forall k | k in keys ensures k in (set v | v in vs :: v.id) {
      assert k in (set p | p in ps :: p.0);
      var p :| p in ps && p.0 == k;
      var i :| 0 <= i < |ps| && ps[i] == p;
      assert vs[i] in vs;
    }
    forall k | k in (set v | v in vs :: v.id) ensures k in keys {
      var v :| v in vs && v.id == k;
      var i :| 0 <= i < |vs| && vs[i] == v;
      assert ps[i] in ps;
    }
  }

  /** The result of `getUserMatches`: the matches where the user is mentor, then
      those where the user is mentee, each as stored. */
  ghost predicate UserMatchesListing(vs: seq<MatchView>, m: map<string, MatchDoc>, userId: string) {
    var mk, ek := MatchKeysWhere(m, MentorIdField, userId), MatchKeysWhere(m, MenteeIdField, userId);
    && |vs| == |mk| + |ek|
    && (set v | v in vs[..|mk|] :: v.id) == mk
    && (set v | v in vs[|mk|..] :: v.id) == ek
    && (forall v :: v in vs ==> v.id in m && v == ToView((v.id, m[v.id])))
  }

  /** Whether either match query of `getUserMatches` is refused. */
  predicate MatchQueriesRefused(f: Faults) {
    Access(Read, MatchesWhere(MentorIdField)) in f || Access(Read, MatchesWhere(MenteeIdField)) in f
  }

  method GetUserMatches(db: Firestore, userId: string) returns (r: Result<seq<MatchView>>)
    ensures Access(Read, MatchesWhere(MentorIdField)) in db.faults ==>
      r == Err(db.faults[Access(Read, MatchesWhere(MentorIdField))])
    ensures Access(Read, MatchesWhere(MentorIdField)) !in db.faults && Access(Read, MatchesWhere(MenteeIdField)) in db.faults ==>
      r == Err(db.faults[Access(Read, MatchesWhere(MenteeIdField))])
    ensures !MatchQueriesRefused(db.faults) ==>
      && r.Ok? && UserMatchesListing(r.value, db.matches, userId)
      && (forall v :: v in r.value ==> v.mentorId == userId || v.menteeId == userId)
  {
    var asMentor := db.QueryMatches(MentorIdField, userId);
    var asMentee := db.QueryMatches(MenteeIdField, userId);
    // `Promise.all` rejects when either query does.
    if asMentor.Err? {
      return Err(asMentor.error);
    }
    if asMentee.Err? {
      return Err(asMentee.error);
    }
    var a, b := ToViews(asMentor.value), ToViews(asMentee.value);
    ViewsOfSnapshot(asMentor.value, db.matches, MatchKeysWhere(db.matches, MentorIdField, userId));
    ViewsOfSnapshot(asMentee.value, db.matches, MatchKeysWhere(db.matches, MenteeIdField, userId));
    assert (a + b)[..|a|] == a && (a + b)[|a|..] == b;
    forall v: MatchView | v in a + b ensures v.mentorId == userId || v.menteeId == userId {
      assert v == ToView((v.id, db.matches[v.id]));
      if v in a {
        assert v.id in (set w | w in a :: w.id);
        assert v.id in MatchKeysWhere(db.matches, MentorIdField, userId);
      } else {
        assert v.id in (set w | w in b :: w.id);
        assert v.id in MatchKeysWhere(db.matches, MenteeIdField, userId);
      }
    }
    r := Ok(a + b);
  }

  /** The matches a user takes part in, under either role. */
  function KeysWith(m: map<string, MatchDoc>, userId: string): set<string> {
    set k | k in m && (m[k].mentorId == userId || m[k].menteeId == userId)
  }

  /** Everyone named in one of the user's matches, the user included. */
  function PartnersOf(m: map<string, MatchDoc>, userId: string): set<string> {
    (set k | k in KeysWith(m, userId) :: m[k].mentorId) + (set k | k in KeysWith(m, userId) :: m[k].menteeId)
  }

  /** `xs` keeps the order of `ys` and leaves some of its elements out. */
  ghost predicate Subsequence<T>(xs: seq<T>, ys: seq<T>)
    decreases |ys|
  {
    if ys == [] then xs == []
    else (xs != [] && xs[0] == ys[0] && Subsequence(xs[1..], ys[1..])) || Subsequence(xs, ys[1..])
  }

  /** `profiles.filter(p => !ids.has(p.id))`. */
  function Without(profiles: seq<DiscoverProfile>, ids: set<string>): (r: seq<DiscoverProfile>)
    ensures Subsequence(r, profiles)
    ensures forall p :: p in r ==> p.id !in ids
    ensures forall p :: p in profiles && p.id !in ids ==> p in r
    ensures forall p :: multiset(r)[p] == if p.id in ids then 0 else multiset(profiles)[p]
  {
    if profiles == [] then []
    else
      assert profiles == [profiles[0]] + profiles[1..];
      if profiles[0].id in ids then Without(profiles[1..], ids)
      else
        var rest := Without(profiles[1..], ids);
        assert ([profiles[0]] + rest)[1..] == rest;
        [profiles[0]] + rest
  }

  function NamedIn(vs: seq<MatchView>): set<string> {
    (set v | v in vs :: v.mentorId) + (set v | v in vs :: v.menteeId)
  }

  lemma NamedInSnoc(ws: seq<MatchView>, v: MatchView)
    ensures NamedIn(ws + [v]) == NamedIn(ws) + {v.mentorId, v.menteeId}
  {
    assert forall w :: w in ws + [v] <==> w in ws || w == v;
  }

  function ViewIds(vs: seq<MatchView>): set<string> {
    set v | v in vs :: v.id
  }

  lemma ViewIdsConcat(a: seq<MatchView>, b: seq<MatchView>)
    ensures ViewIds(a + b) == ViewIds(a) + ViewIds(b)
  {
    assert forall v :: v in a + b <==> v in a || v in b;
  }

  /** The listing holds one view per match the user takes part in. */
  lemma ListingIds(vs: seq<MatchView>, m: map<string, MatchDoc>, userId: string)
    requires UserMatchesListing(vs, m, userId)
    ensures ViewIds(vs) == KeysWith(m, userId)
  {
    var mk, ek := MatchKeysWhere(m, MentorIdField, userId), MatchKeysWhere(m, MenteeIdField, userId);
    assert vs == vs[..|mk|] + vs[|mk|..];
    ViewIdsConcat(vs[..|mk|], vs[|mk|..]);
    assert ViewIds(vs[..|mk|]) == mk && ViewIds(vs[|mk|..]) == ek;
    assert mk + ek == KeysWith(m, userId) by {
      forall k ensures k in mk + ek <==> k in KeysWith(m, userId) {
        if k in m {
          assert FieldOf(m[k], MentorIdField) == m[k].mentorId && FieldOf(m[k], MenteeIdField) == m[k].menteeId;
        }
      }
    }
  }

  /** The ids named in the listing are exactly the user's partners. */
  lemma NamedInListing(vs: seq<MatchView>, m: map<string, MatchDoc>, userId: string)
    requires UserMatchesListing(vs, m, userId)
    ensures NamedIn(vs) == PartnersOf(m, userId)
  {
    ListingIds(vs, m, userId);
    var keys := KeysWith(m, userId);
    assert forall v :: v in vs ==> v.id in keys && v.mentorId == m[v.id].mentorId && v.menteeId == m[v.id].menteeId by {
      forall v | v in vs ensures v.id in keys && v.mentorId == m[v.id].mentorId && v.menteeId == m[v.id].menteeId {
        assert v.id in ViewIds(vs);
      }
    }
    forall x | x in NamedIn(vs) ensures x in PartnersOf(m, userId) {
      var v :| v in vs && (v.mentorId == x || v.menteeId == x);
      assert v.id in keys;
    }
    forall x | x in PartnersOf(m, userId) ensures x in NamedIn(vs) {
      var k :| k in keys && (m[k].mentorId == x || m[k].menteeId == x);
      assert k in ViewIds(vs);
      var v :| v in vs && v.id == k;
    }
  }

  /** `filterOutMatched`: the profiles in their order, without anyone the user
      has matched with; when the matches cannot be read, the profiles unchanged. */
  method FilterOutMatched(db: Firestore, profiles: seq<DiscoverProfile>, userId: string) returns (r: seq<DiscoverProfile>)
    ensures MatchQueriesRefused(db.faults) ==> r == profiles
    ensures !MatchQueriesRefused(db.faults) ==> r == Without(profiles, PartnersOf(db.matches, userId))
  {
    var matches := GetUserMatches(db, userId);
    if matches.Err? {
      return profiles;
    }
    var vs := matches.value;
    var matchedIds: set<string> := {};
    var i := 0;
    while i < |vs|
      invariant 0 <= i <= |vs|
      invariant matchedIds == NamedIn(vs[..i])
    {
      assert vs[..i + 1] == vs[..i] + [vs[i]];
      NamedInSnoc(vs[..i], vs[i]);
      matchedIds := matchedIds + {vs[i].mentorId, vs[i].menteeId};
      i := i + 1;
    }
    assert vs[..|vs|] == vs;
    NamedInListing(vs, db.matches, userId);
    r := Without(profiles, matchedIds);
  }
}
