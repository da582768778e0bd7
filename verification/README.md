# MatchingApp in Dafny

A model of the core of MatchingApp, a React Native app that connects mentors and
mentees. Its backend is a Firestore document store. The model covers:

- **The swipe pipeline.** A swipe is recorded under `swiperId_targetId`. A right
  swipe looks up the reverse swipe. A mutual right swipe writes a match record,
  opens a conversation under an order-independent id and sends the mentee's
  introduction message.
- **The chat service.** Create-if-absent conversations, sending a message
  (append, then update the conversation's `lastMessage*` fields), listing
  messages and conversations, and finding the other participant.
- **The user service.** The global `users` profile and the role document in
  `mentors` or `mentees`: reading, combining, updating and creating them.
- **The screens that drive them:**
  - registration (validation, error messages, the two documents it creates);
  - the profile editor (load, comma lists, the hourly rate, image-upload gating, save);
  - the swipe deck;
  - the feed's likes and comment box;
  - the chat input;
  - the onboarding steps.
- **The generator of the 50 sample mentors.**

The document store is the class `Store.Firestore`. It has one map per
collection and a counter for auto-generated ids. A constant map `faults` says
which reads or writes the store refuses and with which error. Each service
operation is a method proved equal to a pure function of the old state (for
example `(db.State(), st) == RecordSwipeF(old(db.State()), db.faults, …)`). The
lemmas about those functions state what the source promises. The screens are
classes whose fields are the component's `useState` variables. Navigation,
alerts and storage writes are recorded as a sequence of `Effect`s.

Files:

| file | contents |
|---|---|
| `common.dfy` | `Option`, `Effect` |
| `text.dfy` | `trim`, `split`/`join`, lexicographic order, decimal digits |
| `ids.dfy` | `a_b` keys and the sorted conversation id |
| `sorting.dfy` | stable insertion sort by a key |
| `store.dfy` | the documents, `getDoc`/`setDoc`/`updateDoc`/`addDoc`, queries, `Firestore` |
| `chat_service.dfy` | chat service |
| `swipe_service.dfy` | swipe service |
| `user_service.dfy` | user service |
| `images.dfy` | the default avatar URL |
| the remaining `*_screen.dfy` and `onboarding_flow.dfy` | the screens |
| `mentor_data.dfy` | the sample mentors |

## Model

A function whose name ends in `F` (`RecordSwipeF`, `CreateMatchF`, `GetOrCreateF`,
`GetCombinedF`, `RegisterF`, `SaveF`, …) is the specification of one operation,
and the method that performs the operation is proved equal to it. Such a
function has no row of its own; the rows of the lemmas about it say what it
does. `ValidateEmail`, `ValidationError` and `JoinList` are covered the same way,
by `ValidateEmailSound`, `ValidationOrder` and `ParseJoinedList`.

| member | source | states |
|---|---|---|
| Ids.ConversationId | src/services/chatService.ts:53 | the id is `a_b` with the lexicographically smaller id first |
| Ids.ConversationIdSymmetric | src/services/swipeService.ts:196 | `[a, b].sort().join('_')` is the same for both argument orders |
| Ids.PairKeyInjective | src/services/swipeService.ts:76-80 | when neither id contains `_`, distinct (swiper, target) pairs get distinct swipe keys |
| Ids.ReverseKeyDiffers | src/services/swipeService.ts:110-112 | for distinct ids without `_`, the reverse-swipe key differs from the swipe's own key |
| Ids.UnderscoreKeysCollide | src/services/swipeService.ts:76-80 | ids containing `_` can make a swipe and its reverse share one key: (`x`, `x_x`) and (`x_x`, `x`) both give `x_x_x` |
| Store.Firestore.GetUser | src/services/userService.ts:47-53 | `getDoc` of `users/{id}`: the document or none; the error when the read is refused |
| Store.Firestore.SetUser | src/services/userService.ts:168 | `setDoc` replaces the whole document (a create or an update, depending on whether it exists) or throws and changes nothing |
| Store.Firestore.UpdateUser | src/services/userService.ts:120-121 | `updateDoc` rejects a patch holding `undefined`, throws not-found on a missing document, otherwise merges the patch |
| Store.Firestore.AddMessage | src/services/chatService.ts:90-98 | `addDoc` appends one message with a fresh auto id to this conversation's messages |
| Store.Firestore.UpdateLastMessage | src/services/chatService.ts:101-106 | `updateDoc` of the three `lastMessage*` fields of an existing conversation |
| Store.Firestore.QueryMessages | src/services/chatService.ts:116-119 | `orderBy('timestamp', 'asc')`: the stored messages sorted by time, stable on ties |
| Store.Firestore.QueryMatches | src/services/swipeService.ts:262-269 | `where(field, '==', userId)`: each matching match once, as stored; refused per query, on its own field |
| Store.Firestore.QueryConversations | src/services/chatService.ts:173-180 | `array-contains` plus `orderBy('lastMessageTime', 'desc')`: each conversation listing the user that has a last-message time, once, newest first |
| Store.Firestore.ListRoleDocs | src/services/swipeService.ts:31-33 | `getDocs` of `mentors` or `mentees`: every document once, as stored |
| Store.SnapshotDistinct | src/services/swipeService.ts:31-33 | a query snapshot lists each document id once |
| Store.SelectMatches | src/services/swipeService.ts:263-264 | the selection behind the equality query is a snapshot of exactly the matching keys |
| Store.SelectConversations | src/services/chatService.ts:174-178 | the selection behind the conversation query is a snapshot of exactly the matching keys, sorted newest first |
| Sorting.SortBy | src/services/chatService.ts:117 | the ordering of a query: sorted by the key and a permutation of its input |
| Text.Trim | src/screens/Auth/RegisterScreen.tsx:64 | `trim()` gives a string without leading or trailing white space, no longer than the input, and empty iff the input is blank |
| Text.TrimInnerSlice | src/screens/Profile/EditProfileScreen.tsx:144-145 | the trimmed string is one slice `s[i..j]` of the input, and everything before `i` and after `j` is white space |
| Text.TrimKeepsChars | src/screens/Profile/EditProfileScreen.tsx:145 | every character of the trimmed string occurs in the input |
| Text.SplitJoin | src/screens/Profile/EditProfileScreen.tsx:144 | `split(sep)` inverts `join(sep)` for pieces without the separator |
| Text.Split | src/screens/Profile/EditProfileScreen.tsx:144-145 | `split(',')` gives at least one piece, and no piece holds the separator |
| Text.JoinSplit | src/screens/Profile/EditProfileScreen.tsx:144-145 | joining the pieces of `split(sep)` with `sep` gives the text back |
| Text.DecimalInjective | src/screens/Swipe/mentorData.ts:11 | the decimal text of a number determines the number |
| ChatService.GetOrCreateConversation | src/services/chatService.ts:44-78 | the new store and the returned id are those of `GetOrCreateF` on the old store |
| ChatService.GetOrCreateSymmetric | src/services/chatService.ts:53 | the id is the sorted pair key, both participants get the same one, and no other document can change |
| ChatService.GetOrCreateTouchesOneDoc | src/services/chatService.ts:44-78 | a successful call returns the sorted pair id; only the conversations can change, and only the document under that id |
| ChatService.GetOrCreateExisting | src/services/chatService.ts:56-58 | an existing conversation is returned and left untouched |
| ChatService.GetOrCreateNew | src/services/chatService.ts:58-77 | a missing conversation is created: participants `[cur, other]`, both names and avatars, `lastMessage` `''`, sender `cur`, time `now`; nothing else changes |
| ChatService.GetOrCreateIdempotent | src/services/chatService.ts:44-78 | a second identical call returns the same id and changes nothing |
| ChatService.SendMessage | src/services/chatService.ts:81-111 | the new store and status are those of `SendMessageF` on the old store |
| ChatService.SendMessageF | src/services/chatService.ts:81-111 | sending a message changes only conversations, messages and the id counter |
| ChatService.SendMessageAppendsOne | src/services/chatService.ts:91-98 | exactly one unread message from the sender is appended to that conversation only; it stays even when the following update fails |
| ChatService.SendMessageUpdatesLast | src/services/chatService.ts:102-106 | a send that goes through rewrites `lastMessage`, `lastMessageTime` and `lastMessageSender` and nothing else |
| ChatService.SendMessageRefused | src/services/chatService.ts:107-110 | a refused append rethrows its error and writes nothing |
| ChatService.ToMessage | src/services/chatService.ts:122-132 | the conversion keeps id, text, sender and time; `read` is true only when stored as true |
| ChatService.GetMessages | src/services/chatService.ts:114-140 | the result is `GetMessagesF` of the store |
| ChatService.GetMessagesSpec | src/services/chatService.ts:114-140 | the messages are sorted oldest first and are a permutation of the stored ones, converted; a failed query gives `[]` |
| ChatService.SortCommutes | src/services/chatService.ts:117-133 | sorting the documents and then converting them equals converting and then sorting |
| ChatService.ConvertedSnapshot | src/services/chatService.ts:182-199 | the converted list keeps the query's promises: one entry per matching conversation, unread 0, newest first |
| ChatService.GetUserConversations | src/services/chatService.ts:171-203 | every conversation listing the user with a last-message time, once each, as stored, newest first, unread count 0; `[]` when the query fails |
| ChatService.FirstOther | src/services/chatService.ts:244 | `find(id => id !== cur)`: none iff every participant is `cur`; otherwise the first such participant |
| ChatService.GetOtherParticipant | src/services/chatService.ts:240-252 | the FIRST participant other than the caller: present exactly when that id is non-empty, named by the stored name when present and non-empty ('Unknown User' otherwise), with the stored avatar or '' ; null when everyone is the caller |
| ChatService.TwoPartyOther | src/services/chatService.ts:240-252 | in a two-party conversation each side gets the other |
| SwipeService.RecordSwipe | src/services/swipeService.ts:68-101 | the new store and status are those of `RecordSwipeF` on the old store |
| SwipeService.CheckAndCreateMatch | src/services/swipeService.ts:106-131 | the new store and status are those of `CheckAndCreateMatchF` |
| SwipeService.CreateMatchAndConversation | src/services/swipeService.ts:136-253 | the new store and status are those of `CreateMatchF` |
| SwipeService.WriteMatch | src/services/swipeService.ts:179-223 | the new store and status are those of `WriteMatchF` |
| SwipeService.OpenConversation | src/services/swipeService.ts:195-252 | the new store and status are those of `OpenConversationF` |
| SwipeService.OpenConversationFrame | src/services/swipeService.ts:195-252 | opening the conversation changes no profile, swipe or match |
| SwipeService.WriteMatchFrame | src/services/swipeService.ts:179-223 | the match step changes no profile or swipe |
| SwipeService.CheckFrame | src/services/swipeService.ts:106-131 | the match check changes no profile or swipe |
| SwipeService.CreateMatchFrame | src/services/swipeService.ts:136-253 | creating a match never changes a profile or a swipe |
| SwipeService.RecordSwipeOverwrites | src/services/swipeService.ts:82-90 | a refused swipe write throws and changes nothing; otherwise the swipe document replaces any earlier one under the same key |
| SwipeService.LatestSwipeWins | src/services/swipeService.ts:76-90 | after two swipes by the same user on the same target, the stored swipe is the second one |
| SwipeService.LeftSwipeOnlyRecords | src/services/swipeService.ts:94-96 | a left swipe only stores the swipe document |
| SwipeService.NoFalseMatch | src/services/swipeService.ts:108-119 | without a stored reverse right swipe, a right swipe stores only the swipe |
| SwipeService.ConversationIdEitherSide | src/services/swipeService.ts:183-196 | the conversation id of (mentor, mentee) equals that of (swiper, target) in either order |
| SwipeService.MatchKeyEitherSide | src/services/swipeService.ts:158-163 | with opposite roles, either user's swipe names the same mentor and mentee |
| SwipeService.ExistingConversationUntouched | src/services/swipeService.ts:198-202 | an existing conversation is neither rewritten nor sent another introduction |
| SwipeService.NewConversationGetsOneIntro | src/services/swipeService.ts:203-243 | a new conversation is created and gets exactly one message, the mentee's introduction naming the mentor, recorded as its last message |
| SwipeService.IntroFailureSwallowed | src/services/swipeService.ts:226-243 | a failed introduction leaves the created conversation and still ends normally |
| SwipeService.MatchRecordFromSwiperRole | src/services/swipeService.ts:158-192 | the match record is stored under `mentorId_menteeId` with roles taken from the swiper alone; the target's role does not matter |
| SwipeService.ConversationFailureKeepsMatch | src/services/swipeService.ts:217-223 | a refused conversation write rethrows, and the match stays written |
| SwipeService.MatchCheckErrors | src/services/swipeService.ts:121-130 | no error mentioning "permission" escapes and every other is rethrown; a refused reverse lookup writes nothing; a failure while matching keeps what was written before it |
| SwipeService.OpenConversationNoFaults | src/services/swipeService.ts:195-246 | with no refusals the step ends normally and keeps the matches; an existing conversation stays as it was; a new one lists mentor then mentee and gets the introduction after the messages already there |
| SwipeService.WriteMatchNoFaults | src/services/swipeService.ts:179-246 | with no refusals the step ends normally, the match record is stored, the conversation exists, and an existing conversation is left as it was |
| SwipeService.WriteMatchOpensConversation | src/services/swipeService.ts:179-243 | with no refusals and no conversation yet, the new conversation lists mentor then mentee and holds the mentee's introduction |
| SwipeService.WriteMatchTwice | src/services/swipeService.ts:179-243 | with every access allowed, repeating the match step returns normally and changes nothing |
| SwipeService.CreateMatchTwice | src/services/swipeService.ts:136-253 | with every access allowed the call ends normally, and a second run changes nothing (no second conversation or introduction) |
| SwipeService.RecordSwipeIdempotent | src/services/swipeService.ts:68-101 | with every access allowed a swipe ends normally, and repeating it changes nothing |
| SwipeService.RightSwipeThenCheck | src/services/swipeService.ts:82-96 | a right swipe whose write goes through is followed by the match check on the updated store |
| SwipeService.CheckFindsRight | src/services/swipeService.ts:111-117 | a readable reverse right swipe leads to `createMatchAndConversation`, whose normal end is the check's |
| SwipeService.CreateMatchBothUsers | src/services/swipeService.ts:140-192 | signed in and with both profiles readable, `createMatchAndConversation` is the match step with those profiles |
| SwipeService.NoUserNoMatch | src/services/swipeService.ts:140-156 | with no current user, or with either `users` document missing, nothing is written and the call ends normally |
| SwipeService.ProfileReadRefused | src/services/swipeService.ts:146-152 | a refused profile read, the swiper's first, is rethrown and nothing is written |
| SwipeService.WriteMatchThenOpen | src/services/swipeService.ts:182-196 | once the match record is written, what remains is opening the conversation between the mentor and mentee the swiper's role names |
| SwipeService.NewConversationThenIntro | src/services/swipeService.ts:202-243 | a new conversation is created, then the introduction is sent and its outcome dropped |
| SwipeService.CompletingSwipe | src/services/swipeService.ts:94-131 | a right swipe answering a stored right swipe stores the swipe and goes on to the match step with both profiles |
| SwipeService.MutualRightSwipes | src/services/swipeService.ts:68-253 | two right swipes in turn on each other, starting from no match, produce the match, the conversation and one introduction |
| SwipeService.UnderscoreIdsFalseMatch | src/services/swipeService.ts:76-80 | a right swipe of `x` on `x_x` writes the very key its reverse lookup reads, so a match is written although `x_x` never swiped |
| SwipeService.MergeUsers | src/services/swipeService.ts:36-56 | every listed profile but the caller's, each once, merged with its `users` document; fails exactly when one of those reads is refused |
| SwipeService.GetDiscoverUsers | src/services/swipeService.ts:26-63 | every profile of the opposite role except the caller, each exactly once, merged with name, avatar and role from `users` (defaults when missing); a refused read fails the call |
| SwipeService.ToViews | src/services/swipeService.ts:271-282 | one view per document, in order, with the document's fields |
| SwipeService.ViewsOfSnapshot | src/services/swipeService.ts:271-282 | the views of a snapshot have exactly its keys and each is the stored match |
| SwipeService.GetUserMatches | src/services/swipeService.ts:258-291 | matches where the user is mentor, then those where the user is mentee, each as stored, each naming the user; a refused query gives its error, the mentor query's first |
| SwipeService.ListingIds | src/services/swipeService.ts:262-282 | the listing holds exactly the matches naming the user as mentor or as mentee |
| SwipeService.NamedInListing | src/services/swipeService.ts:298-306 | the ids named by the listed matches are exactly the user's match partners and the user |
| SwipeService.Without | src/services/swipeService.ts:307 | the filter keeps order, removes every listed id, and keeps each other profile as many times as it occurs |
| SwipeService.FilterOutMatched | src/services/swipeService.ts:296-311 | the profiles in order without anyone the user matched with; unchanged when either match query is refused |
| UserService.GetUserProfile | src/services/userService.ts:45-58 | the stored profile or null; a refused read is rethrown |
| UserService.GetMentorProfile | src/services/userService.ts:61-74 | the stored mentor document or null; a refused read is rethrown |
| UserService.GetMenteeProfile | src/services/userService.ts:77-90 | the stored mentee document or null; a refused read is rethrown |
| UserService.GetCombinedUserProfile | src/services/userService.ts:93-115 | the result is `GetCombinedF` of the store |
| UserService.CombinedProfileSpec | src/services/userService.ts:93-115 | null iff there is no global profile; otherwise the profile with only the document of its own role attached (or none) |
| UserService.CombinedProfileErrors | src/services/userService.ts:111-114 | a refused global or role read fails the whole call |
| UserService.UpdateUserProfile | src/services/userService.ts:118-126 | the new store and status are those of `UpdateUserF` |
| UserService.UpdateUserProfileSpec | src/services/userService.ts:118-126 | only `users/{id}` can change; a patch with `undefined` is rejected; a missing document gives not-found; otherwise the patch is merged |
| UserService.DropUndefined | src/services/userService.ts:131-134 | the filtered patch holds no `undefined` |
| UserService.DropUndefinedKeepsMerge | src/services/userService.ts:131-134 | filtering does not change the merge, and filtering twice is filtering once |
| UserService.UpdateMentorProfile | src/services/userService.ts:129-142 | the new store and status are those of the filtered update of `mentors/{id}` |
| UserService.UpdateMenteeProfile | src/services/userService.ts:145-158 | the new store and status are those of the filtered update of `mentees/{id}` |
| UserService.UpdateRoleProfileSpec | src/services/userService.ts:129-158 | a role update never fails on `undefined`, changes only that role's document, and merges the defined fields |
| UserService.CreateUserDocuments | src/services/userService.ts:161-177 | the new store and status are those of `CreateUserDocumentsF` |
| UserService.SetRoleDocEffect | src/services/userService.ts:171-172 | writing the role document leaves `users` and the other role's collection alone; a refused write throws and changes nothing; otherwise the document is stored |
| UserService.CreateUserDocumentsSpec | src/services/userService.ts:161-177 | the global document is written first; a failure stops before the role document; the role document goes to the collection the role names; the other collection is untouched |
| Images.DefaultAvatarUrl | src/services/imageService.ts:92-95 | the dicebear URL with the user id as seed |
| RegisterScreen.IndexOf | src/screens/Auth/RegisterScreen.tsx:36-39 | the first position of a character, or none iff it does not occur |
| RegisterScreen.ValidateEmailSound | src/screens/Auth/RegisterScreen.tsx:36-39 | the matcher accepts exactly `[^\s@]+@[^\s@]+\.[^\s@]+` (both directions) |
| RegisterScreen.ValidateEmailExamples | src/screens/Auth/RegisterScreen.tsx:36-39 | `a@b.c` is accepted; `a@b.` and `a b@c.d` are rejected |
| RegisterScreen.GetErrorMessage | src/screens/Auth/RegisterScreen.tsx:41-54 | the four known codes get their messages, and every other code gets the generic one |
| RegisterScreen.MissingCodeIsGeneric | src/screens/Auth/RegisterScreen.tsx:116-118 | an error without a code, or a document-store error, shows the generic message |
| RegisterScreen.ValidationOrder | src/screens/Auth/RegisterScreen.tsx:59-82 | each check fails iff all earlier checks pass and its own condition fails; no error iff all pass |
| RegisterScreen.BlankNameRejected | src/screens/Auth/RegisterScreen.tsx:59-67 | a name of blanks passes the "all fields" check and fails the name-length check |
| RegisterScreen.NewUserDoc | src/screens/Auth/RegisterScreen.tsx:91-99 | uid, e-mail, trimmed name, role, creation time, public, default avatar |
| RegisterScreen.NewRoleDoc | src/screens/Auth/RegisterScreen.tsx:102-112 | empty fields, availability 'anytime', and `hourlyRate` 0 iff the role is mentor |
| RegisterScreen.RegisterForm.constructor | src/screens/Auth/RegisterScreen.tsx:24-33 | the role from the route, 'mentee' by default; empty inputs, no error, not loading |
| RegisterScreen.SignUp | src/screens/Auth/RegisterScreen.tsx:91-118 | the store, the error and the navigation are those of `SignedUpF`: both documents, then Main |
| RegisterScreen.RegisterForm.HandleRegister | src/screens/Auth/RegisterScreen.tsx:56-121 | the store, the error shown and the navigation are those of `RegisterF`; the inputs are kept; loading ends |
| RegisterScreen.RejectedFormWritesNothing | src/screens/Auth/RegisterScreen.tsx:59-82 | a form failing a check writes nothing, shows that check's message and does not navigate |
| RegisterScreen.RegisterSucceeds | src/screens/Auth/RegisterScreen.tsx:84-115 | a valid form with both writes allowed stores both documents under the new uid and replaces the screen with Main |
| RegisterScreen.SignUpFailureWritesNothing | src/screens/Auth/RegisterScreen.tsx:116-118 | a refused sign-up writes nothing and shows the message for its code |
| EditProfileScreen.Clean | src/screens/Profile/EditProfileScreen.tsx:144-145 | at most one item per piece |
| EditProfileScreen.CleanItems | src/screens/Profile/EditProfileScreen.tsx:144-145 | every kept item is non-empty and trimmed |
| EditProfileScreen.CleanOne | src/screens/Profile/EditProfileScreen.tsx:144-145 | one piece gives its trimmed text, or nothing when it is blank |
| EditProfileScreen.CleanAppend | src/screens/Profile/EditProfileScreen.tsx:144-145 | cleaning distributes over concatenation, so the items keep the order of their pieces |
| EditProfileScreen.CleanMembers | src/screens/Profile/EditProfileScreen.tsx:144-145 | the items are exactly the non-empty trimmed pieces |
| EditProfileScreen.CleanKeepsOut | src/screens/Profile/EditProfileScreen.tsx:144-145 | cleaning adds no character: pieces without a comma give items without one |
| EditProfileScreen.ParseList | src/screens/Profile/EditProfileScreen.tsx:144-145 | the parsed items are non-empty, trimmed and free of commas |
| EditProfileScreen.ParseListNoComma | src/screens/Profile/EditProfileScreen.tsx:144-145 | a text without a comma parses to its trimmed self, or to nothing when blank |
| EditProfileScreen.ParseListAtComma | src/screens/Profile/EditProfileScreen.tsx:144-145 | the text before the first comma gives the first items and the text after it the rest, in order |
| EditProfileScreen.ParseJoinedList | src/screens/Profile/EditProfileScreen.tsx:63-64 | a list shown joined by `', '` and parsed on save comes back unchanged |
| EditProfileScreen.ParseListStable | src/screens/Profile/EditProfileScreen.tsx:144-145 | loading and saving without edits keeps a parsed list |
| EditProfileScreen.RateToText | src/screens/Profile/EditProfileScreen.tsx:70 | `toString()` of a rate is rate text the save can parse |
| EditProfileScreen.RateRoundTrip | src/screens/Profile/EditProfileScreen.tsx:150-155 | `parseInt(n.toString()) == n` |
| EditProfileScreen.ParseHourlyRate | src/screens/Profile/EditProfileScreen.tsx:153 | an empty rate saves as 0; a rate without a minus sign is not negative |
| EditProfileScreen.EditProfileForm.constructor | src/screens/Profile/EditProfileScreen.tsx:27-41 | the initial inputs |
| EditProfileScreen.EditProfileForm.LoadProfile | src/screens/Profile/EditProfileScreen.tsx:46-77 | the inputs become `LoadF` of the store |
| EditProfileScreen.WriteProfile | src/screens/Profile/EditProfileScreen.tsx:131-166 | the store and the alert are those of `WriteProfileF`: global document first, then the role document, 'saved' and back only when both succeed |
| EditProfileScreen.EditProfileForm.HandleSave | src/screens/Profile/EditProfileScreen.tsx:110-168 | the store and the alerts are those of `SaveF`; the inputs are unchanged; saving ends |
| EditProfileScreen.LoadedFields | src/screens/Profile/EditProfileScreen.tsx:50-66 | the name, role, visibility and avatar (the default when empty) are loaded; the role data comes from the role's own document, with lists joined |
| EditProfileScreen.ZeroRateNotLoaded | src/screens/Profile/EditProfileScreen.tsx:68-71 | a stored rate of 0 is not loaded: the form keeps '50' and a save writes 50 |
| EditProfileScreen.NonZeroRateKept | src/screens/Profile/EditProfileScreen.tsx:68-71 | a non-zero stored rate is loaded and saved back unchanged |
| EditProfileScreen.UploadGate | src/screens/Profile/EditProfileScreen.tsx:118-128 | only a `file://` avatar is uploaded; a failed upload writes nothing and alerts; otherwise the upload does not matter |
| EditProfileScreen.GlobalBeforeRole | src/screens/Profile/EditProfileScreen.tsx:131-164 | when the global update fails, the role document is not written and the error alert is shown |
| EditProfileScreen.RoleDispatch | src/screens/Profile/EditProfileScreen.tsx:148-158 | a mentor's save writes the parsed rate into `mentors`; a mentee's save writes `mentees` without a rate; both show the success alert and go back |
| MentorData.GenerateSampleMentors | src/screens/Swipe/mentorData.ts:10-33 | 50 sample mentors |
| MentorData.MentorIdsDistinct | src/screens/Swipe/mentorData.ts:11 | different indices give different ids `mentor-i` |
| MentorData.DeckIdsDistinct | src/screens/Swipe/mentorData.ts:10-11 | no two cards of the deck share an id |
| MentorData.NoRepeatedSkill | src/screens/Swipe/mentorData.ts:23-27 | the four skills taken cyclically from `i` are pairwise different, and so are the two languages |
| MentorData.ExperienceAndRate | src/screens/Swipe/mentorData.ts:24-32 | experience in 3..17 and quoted in the bio; hourly rate in 50..99 for the deck; reviews in 10..109 |
| MentorData.Periods | src/screens/Swipe/mentorData.ts:12-30 | sector and company repeat every 8 mentors, availability every 3, the name every 10 |
| SwipeScreen.SwipeDeck.constructor | src/screens/Swipe/SwipeScreen.tsx:11-14 | the first render: index 0, no mentors, no matches, so the screen shows "Loading mentors..." |
| SwipeScreen.SwipeDeck.Mount | src/screens/Swipe/SwipeScreen.tsx:16-18 | the mount effect loads the 50 sample mentors and leaves index and matches alone; the first cards are then shown |
| SwipeScreen.SwipeDeck.HandleSwipe | src/screens/Swipe/SwipeScreen.tsx:20-26 | the index advances by one; a right swipe appends the current mentor to the matches; the matches stay those liked so far, in order |
| SwipeScreen.SwipeDeck.HandleReject | src/screens/Swipe/SwipeScreen.tsx:28-30 | advance without a match |
| SwipeScreen.SwipeDeck.HandleAccept | src/screens/Swipe/SwipeScreen.tsx:32-34 | advance and append the current mentor |
| SwipeScreen.SwipeDeck.Restart | src/screens/Swipe/SwipeScreen.tsx:53-56 | index 0 and no matches |
| SwipeScreen.SwipeDeck.Render | src/screens/Swipe/SwipeScreen.tsx:36-92 | loading iff there are no mentors; "no more mentors" iff the deck is exhausted; otherwise at most two cards with the current one on top, the match count and `mentors.length - currentIndex - 1` left |
| SwipeScreen.LikedBound | src/screens/Swipe/SwipeScreen.tsx:20-26 | the matches are at most the mentors seen, all of them from the deck |
| SwipeScreen.LikedExtremes | src/screens/Swipe/SwipeScreen.tsx:20-26 | all left swipes give no matches; all right swipes match every mentor seen |
| FeedScreen.WithLike | src/screens/Feed/FeedScreen.tsx:70-81 | posts with the id flip `isLiked` with likes ±1; all other posts are unchanged |
| FeedScreen.LikeTwice | src/screens/Feed/FeedScreen.tsx:70-81 | liking twice restores the posts |
| FeedScreen.LikeUnknown | src/screens/Feed/FeedScreen.tsx:70-81 | an unknown id changes nothing |
| FeedScreen.LikesCommute | src/screens/Feed/FeedScreen.tsx:70-81 | likes on two posts commute |
| FeedScreen.ToggleInputTwice | src/screens/Feed/FeedScreen.tsx:160 | the comment button opens a post's box iff it was not open, and a second press closes it |
| FeedScreen.ToggledInput | src/screens/Feed/FeedScreen.tsx:160 | the comment button opens this post's box iff it was not the open one, and otherwise closes it |
| FeedScreen.Feed.constructor | src/screens/Feed/FeedScreen.tsx:65-68 | mock posts, empty comment, no open box |
| FeedScreen.Feed.HandleLike | src/screens/Feed/FeedScreen.tsx:70-81 | the posts become `WithLike`; nothing else changes |
| FeedScreen.Feed.HandleAddComment | src/screens/Feed/FeedScreen.tsx:83-92 | a blank comment is ignored; otherwise the text is cleared and the box closed; the posts are unchanged |
| FeedScreen.Feed.PressComment | src/screens/Feed/FeedScreen.tsx:160 | the open box toggles |
| ChatScreen.EnabledButDropped | src/screens/Chat/ChatScreen.tsx:59-60 | the send button is enabled yet the send is dropped iff the message is non-empty white space |
| ChatScreen.BlankSpaceEnabledButDropped | src/screens/Chat/ChatScreen.tsx:143-145 | a single blank enables the button and is dropped |
| ChatScreen.Chat.constructor | src/screens/Chat/ChatScreen.tsx:44-45 | empty input and the mock messages |
| ChatScreen.Chat.HandleSend | src/screens/Chat/ChatScreen.tsx:59-75 | a blank input changes nothing; otherwise the untrimmed text is appended as a message from 'me' and the input is cleared |
| OnboardingFlow.NextF | src/screens/Onboarding/OnboardingFlow.tsx:63-81 | before the last step Next advances by one; on the last step it navigates to Login and stores `@firstLaunch` = 'false' |
| OnboardingFlow.PressesFromStart | src/screens/Onboarding/OnboardingFlow.tsx:63-70 | n presses from the start reach step n with no effects, up to the last step; each press after that completes again (two effects each) |
| OnboardingFlow.StepsAhead | src/screens/Onboarding/OnboardingFlow.tsx:63-70 | presses that stay before the last step advance one step each with no effects |
| OnboardingFlow.PressesBeyond | src/screens/Onboarding/OnboardingFlow.tsx:63-81 | presses beyond the last step stay there and repeat the completion |
| OnboardingFlow.ButtonTitle | src/screens/Onboarding/OnboardingFlow.tsx:185 | 'Get Started' iff on the last step, 'Next' otherwise |
| OnboardingFlow.Flow.constructor | src/screens/Onboarding/OnboardingFlow.tsx:22-27 | step 0, empty user data, no effects |
| OnboardingFlow.Flow.UpdateData | src/screens/Onboarding/OnboardingFlow.tsx:56-61 | one key of the user data is set; nothing else changes |
| OnboardingFlow.Flow.HandleNext | src/screens/Onboarding/OnboardingFlow.tsx:63-70 | the step and the effects follow `NextF`; the step stays in range |

## Left out

- The order of `getDocs` results without `orderBy` is not modelled. `getDiscoverUsers`, the match queries and the role listing give each document once (`Store.SnapshotDistinct`, `SwipeService.GetDiscoverUsers`), in an order the model leaves open.
- The live subscriptions (`subscribeToMessages`, `subscribeToUserConversations`) are callbacks over time and are not modelled. Their queries are the same as in `getMessages` and `getUserConversations`.
- Concurrency is not modelled: the calls of one client run one after another. Two clients swiping on each other at the same instant, and `Promise.all`'s interleaving, are out of scope.
- SwipeService.GetUserMatches: when both match queries are refused, the model reports the mentor query's error. `Promise.all` rejects with whichever query fails first in time.
- SwipeService.GetDiscoverUsers: when several user reads fail, the model reports the first failure in listing order. `Promise.all` rejects with whichever fails first in time.
- The re-reads of the two users at `src/services/swipeService.ts:167-177` return the documents read a moment earlier in a sequential run. The model reuses the first reads.
- Image upload (`uploadProfileImage`) and the picker (`handlePickImage`) are not modelled. The save takes the upload's outcome as the parameter `upload`. As in the source, the uploaded URL is written to `users` but not copied back into the form's `avatar`.
- EditProfileScreen.EditProfileForm.HandleSave: requires the rate text to be empty or an optionally signed digit string, which is what the number pad and `toString` produce. `parseInt` on other text (a prefix parse, or NaN) is not modelled.
- SwipeScreen.SwipeDeck.HandleSwipe: requires a deck that is not exhausted, because cards and their swipe buttons render only then. With no current mentor, the source would append `undefined` to the matches.
- Firebase Auth (`createUserWithEmailAndPassword`) is not modelled. It becomes the parameter `auth` of `HandleRegister`: either the new account or the error it throws.
- The clock is not modelled. `Timestamp.now()`, `new Date().toISOString()`, `Date.now()` and `toLocaleTimeString` become parameters, one per call. Two `Timestamp.now()` calls in one operation get the same value.
- Messages with equal timestamps keep their auto-id order.
- Documents are the TypeScript interfaces with every field present. A document missing a field (read as `undefined`) is not modelled.
- `handleRegister` writes its two documents inline. Those writes are exactly `createUserDocuments`, so the screen calls that method.
- `console` logging, `Alert.alert` button handlers, scrolling, animations and styles are not modelled.
- The `SwipeableCard` gesture handling is not modelled. It reports a direction, which is `HandleSwipe`'s argument.
- `OnboardingScreen`'s page index is not modelled.
- `FeedScreen`'s `onRefresh` timer is not modelled.
- In `mentorData.ts`, `rating` uses `Math.random()`, so it is not modelled. `location` reads `locations[i % locations.location]`, which is `undefined`, so it is absent from `SampleMentor`. `calculateCompatibility` is random and is not modelled.
- Text is a sequence of characters. UTF-16 code units versus code points, and Unicode white space beyond the ECMAScript `WhiteSpace` and `LineTerminator` sets, are not modelled.
- Quirks of the source that the model keeps as written:
  - Ids containing `_` can collide as swipe keys (`SwipeService.UnderscoreIdsFalseMatch`).
  - A stored hourly rate of 0 is not loaded into the editor (`EditProfileScreen.ZeroRateNotLoaded`).
  - A message of blanks enables the chat send button but is dropped (`ChatScreen.EnabledButDropped`).
