/** The profile editor: comma lists shown joined and saved split, the hourly
    rate as text, loading the combined profile into the form, and saving it
    back, global document first, role document second. */
module EditProfileScreen {
  import opened Common
  import opened Text
  import opened Store
  import opened Images
  import UserService

  // ---- comma lists ----

  /** Trims every piece and drops the empty ones, keeping their order. */
  function Clean(pieces: seq<string>): (r: seq<string>)
    ensures |r| <= |pieces|
  {
    if pieces == [] then []
    else
      var t := Trim(pieces[0]);
      if t == "" then Clean(pieces[1..]) else [t] + Clean(pieces[1..])
  }

  /** `s.split(',').map(s => s.trim()).filter(s => s.length > 0)`. */
  function ParseList(s: string): (r: seq<string>)
    ensures forall i :: 0 <= i < |r| ==> r[i] != "" && Trimmed(r[i]) && ',' !in r[i]
  {
    var pieces := Split(s, ',');
    var r := Clean(pieces);
    assert forall i :: 0 <= i < |r| ==> r[i] != "" && Trimmed(r[i]) && ',' !in r[i] by {
      CleanItems(pieces);
      CleanKeepsOut(pieces, ',');
    }
    r
  }

  /** Every item is non-empty and trimmed. */
  lemma {:induction false} CleanItems(pieces: seq<string>)
    ensures forall i :: 0 <= i < |Clean(pieces)| ==> Clean(pieces)[i] != "" && Trimmed(Clean(pieces)[i])
  {
    if pieces != [] {
      CleanItems(pieces[1..]);
      var t, r, rest := Trim(pieces[0]), Clean(pieces), Clean(pieces[1..]);
      if t != "" {
        assert r == [t] + rest;
        forall i | 0 <= i < |r| ensures r[i] != "" && Trimmed(r[i]) {
          if i > 0 {
            assert r[i] == rest[i - 1];
          }
        }
      }
    }
  }

  lemma {:induction false} CleanKeepsOut(pieces: seq<string>, c: char)
    requires forall i :: 0 <= i < |pieces| ==> c !in pieces[i]
    ensures forall i :: 0 <= i < |Clean(pieces)| ==> c !in Clean(pieces)[i]
  {
    if pieces != [] {
      CleanKeepsOut(pieces[1..], c);
      TrimKeepsChars(pieces[0]);
      var t, r, rest := Trim(pieces[0]), Clean(pieces), Clean(pieces[1..]);
      if t != "" {
        assert r == [t] + rest;
        forall i | 0 <= i < |r| ensures c !in r[i] {
          if i > 0 {
            assert r[i] == rest[i - 1];
          }
        }
      }
    }
  }

  /** Cleaning works piece by piece: it distributes over concatenation. */
  lemma {:induction false} CleanAppend(a: seq<string>, b: seq<string>)
    ensures Clean(a + b) == Clean(a) + Clean(b)
  {
    if a != [] {
      CleanAppend(a[1..], b);
      HeadTail(a, b);
      var t := Trim(a[0]);
      if t != "" {
        AppendAssoc([t], Clean(a[1..]), Clean(b));
      }
    } else {
      assert a + b == b;
    }
  }

  lemma CleanHead(p: string, rest: seq<string>)
    ensures Clean([p] + rest) == Clean([p]) + Clean(rest)
  {
    CleanOne(p);
    if Trim(p) == "" {
      assert ([p] + rest)[1..] == rest;
    } else {
      CleanCons(p, rest);
    }
  }

  /** One piece is kept, trimmed, exactly when it is not blank. */
  lemma CleanOne(p: string)
    ensures Clean([p]) == if Trim(p) == "" then [] else [Trim(p)]
  {
    assert [p][1..] == [];
  }

  /** The items are exactly the non-empty trimmed pieces. */
  lemma {:induction false} CleanMembers(pieces: seq<string>)
    ensures forall x :: x in Clean(pieces) <==>
              x != "" && exists i :: 0 <= i < |pieces| && Trim(pieces[i]) == x
  {
    if pieces != [] {
      var rest := pieces[1..];
      CleanMembers(rest);
      forall x ensures x in Clean(pieces) <==> x != "" && exists i :: 0 <= i < |pieces| && Trim(pieces[i]) == x {
        if x != "" && (exists i :: 0 <= i < |pieces| && Trim(pieces[i]) == x) {
          var i :| 0 <= i < |pieces| && Trim(pieces[i]) == x;
          if i > 0 {
            assert Trim(rest[i - 1]) == x;
          }
        }
        if x in Clean(rest) {
          var i :| 0 <= i < |rest| && Trim(rest[i]) == x;
          assert Trim(pieces[i + 1]) == x;
        }
      }
    }
  }

  /** A text without a comma is one item, trimmed, or none when it is blank. */
  lemma ParseListNoComma(a: string)
    requires ',' !in a
    ensures ParseList(a) == if Trim(a) == "" then [] else [Trim(a)]
  {
    SplitWithoutSeparator(a, ',');
    CleanOne(a);
  }

  /** The text up to the first comma gives the first items, the rest the others. */
  lemma ParseListAtComma(a: string, b: string)
    requires ',' !in a
    ensures ParseList(a + [','] + b) == ParseList(a) + ParseList(b)
  {
    SplitAtFirstSeparator(a, ',', b);
    CleanAppend([a], Split(b, ','));
    ParseListNoComma(a);
    CleanOne(a);
  }

  /** `xs.join(', ')`, as the form shows a stored list. */
  function JoinList(xs: seq<string>): string {
    Join(xs, ", ")
  }

  /** An item a list can hold and survive a join and a parse. */
  predicate ListItem(x: string) {
    x != "" && Trimmed(x) && ',' !in x
  }

  /** The items, each behind a blank. */
  function Spaced(ys: seq<string>): (r: seq<string>)
    ensures |r| == |ys|
  {
    if ys == [] then [] else [" " + ys[0]] + Spaced(ys[1..])
  }

  /** The pieces of `' ' + join(ys, ', ')` split at commas: every item behind a blank. */
  lemma {:induction false} SplitSpacedJoin(ys: seq<string>)
    requires |ys| >= 1
    requires forall i :: 0 <= i < |ys| ==> ListItem(ys[i])
    ensures Split(" " + Join(ys, ", "), ',') == Spaced(ys)
  {
    if |ys| == 1 {
      SplitWithoutSeparator(" " + ys[0], ',');
      assert Spaced(ys) == [" " + ys[0]] + Spaced([]);
    } else {
      var rest := Join(ys[1..], ", ");
      assert " " + Join(ys, ", ") == (" " + ys[0]) + [','] + (" " + rest);
      SplitAtFirstSeparator(" " + ys[0], ',', " " + rest);
      SplitSpacedJoin(ys[1..]);
    }
  }

  /** Cleaning the pieces `[' ' + x0, ' ' + x1, ...]` gives the items back. */
  lemma {:induction false} CleanSpaced(ys: seq<string>)
    requires forall i :: 0 <= i < |ys| ==> ListItem(ys[i])
    ensures Clean(Spaced(ys)) == ys
  {
    if ys != [] {
      assert Spaced(ys) == [[' '] + ys[0]] + Spaced(ys[1..]);
      CleanSpaced(ys[1..]);
      CleanSpacedItem(ys[0], Spaced(ys[1..]));
      assert ys == [ys[0]] + ys[1..];
    }
  }

  /** An item behind a blank is kept as the item itself. */
  lemma CleanSpacedItem(x: string, rest: seq<string>)
    requires ListItem(x)
    ensures Clean([[' '] + x] + rest) == [x] + Clean(rest)
  {
    TrimSpacePrefix(' ', x);
    TrimOfTrimmed(x);
    CleanCons([' '] + x, rest);
  }

  /** A piece that is not blank is kept, trimmed, ahead of the rest. */
  lemma CleanCons(p: string, rest: seq<string>)
    requires Trim(p) != ""
    ensures Clean([p] + rest) == [Trim(p)] + Clean(rest)
  {
    assert ([p] + rest)[1..] == rest;
  }

  /** Showing a list joined by `', '` and parsing the text on save gives the
      list back when its items are non-empty, trimmed and comma-free. */
  lemma ParseJoinedList(xs: seq<string>)
    requires forall i :: 0 <= i < |xs| ==> ListItem(xs[i])
    ensures ParseList(JoinList(xs)) == xs
  {
    if |xs| == 0 {
      assert Split("", ',') == [""];
      assert Clean([""]) == [];
    } else if |xs| == 1 {
      SplitWithoutSeparator(xs[0], ',');
      TrimOfTrimmed(xs[0]);
      assert Clean([xs[0]]) == [xs[0]] + Clean([]);
    } else {
      SplitJoinedList(xs);
      var pieces := [xs[0]] + Spaced(xs[1..]);
      TrimOfTrimmed(xs[0]);
      CleanSpaced(xs[1..]);
      assert pieces[1..] == Spaced(xs[1..]);
      assert Clean(pieces) == [xs[0]] + Clean(pieces[1..]);
    }
  }

  lemma SplitJoinedList(xs: seq<string>)
    requires |xs| > 1
    requires forall i :: 0 <= i < |xs| ==> ListItem(xs[i])
    ensures Split(JoinList(xs), ',') == [xs[0]] + Spaced(xs[1..])
  {
    var rest := Join(xs[1..], ", ");
    assert JoinList(xs) == xs[0] + [','] + (" " + rest);
    SplitAtFirstSeparator(xs[0], ',', " " + rest);
    SplitSpacedJoin(xs[1..]);
  }

  /** Loading and saving again without edits keeps a parsed list as it is. */
  lemma ParseListStable(s: string)
    ensures ParseList(JoinList(ParseList(s))) == ParseList(s)
  {
    ParseJoinedList(ParseList(s));
  }

  // ---- the hourly rate as text ----

  /** What the number pad can produce, and what `toString` of an integer gives. */
  predicate RateText(s: string) {
    s == "" || IsDigits(s) || (|s| >= 2 && s[0] == '-' && IsDigits(s[1..]))
  }

  /** `n.toString()`. */
  function RateToText(n: int): (s: string)
    ensures RateText(s) && s != ""
  {
    if n >= 0 then Decimal(n) else "-" + Decimal(-n)
  }

  /** `hourlyRate ? parseInt(hourlyRate) : 0`. */
  function ParseHourlyRate(s: string): (n: int)
    requires RateText(s)
    ensures s == "" ==> n == 0
    ensures n < 0 ==> s[0] == '-'
    ensures s != "" && s[0] != '-' ==> n >= 0
  {
    if s == "" then 0
    else if s[0] == '-' then 0 - ParseDigits(s[1..]) as int
    else ParseDigits(s)
  }

  /** A stored rate shown in the form is saved back unchanged. */
  lemma RateRoundTrip(n: int)
    ensures ParseHourlyRate(RateToText(n)) == n
  {
    if n >= 0 {
      ParseDecimal(n);
    } else {
      assert RateToText(n)[1..] == Decimal(-n);
      ParseDecimal(-n);
    }
  }

  // ---- the form ----

  /** The values of the form's inputs. */
  datatype FormFields = FormFields(name: string, bio: string, location: string, experience: string,
                                   education: string, skills: string, role: Role, languages: string,
                                   hourlyRate: string, availability: string, isPublic: bool, avatar: string)

  /** The inputs before anything is loaded. */
  const InitialFields := FormFields("John Doe", "Experienced software engineer with 5+ years of experience",
                                    "San Francisco, CA", "5 years", "B.S. Computer Science",
                                    "React Native, JavaScript, TypeScript, Node.js", Mentor,
                                    "English, Spanish, Mandarin", "50", "weekends", true, "")

  /** `loadProfile` once a profile came back: the global fields, then the
      fields of the role document the role names, if there is one. */
  function LoadedF(ff: FormFields, uid: string, p: UserService.CombinedProfile): FormFields {
    var g := p.profile;
    var ff1 := ff.(name := g.fullName, role := g.role, isPublic := g.isPublic,
                   avatar := OrElse(g.avatar, DefaultAvatarUrl(uid)));
    var roleData := if g.role == Mentor then p.mentorData else p.menteeData;
    match roleData
    case None => ff1
    case Some(d) =>
      ff1.(bio := d.bio, location := d.location, experience := d.experience, education := d.education,
           skills := JoinList(d.skills), languages := JoinList(d.languages), availability := d.availability,
           hourlyRate := if g.role == Mentor && d.hourlyRate.Some? && d.hourlyRate.value != 0
                         then RateToText(d.hourlyRate.value) else ff.hourlyRate)
  }

  /** `loadProfile`: no signed-in user, a failed read or a missing profile leave the form as it is. */
  function LoadF(ff: FormFields, s: DbState, f: Faults, user: Option<string>): FormFields {
    if user.None? then ff
    else
      match UserService.GetCombinedF(s, f, user.value)
      case Err(_) => ff
      case Ok(None) => ff
      case Ok(Some(p)) => LoadedF(ff, user.value, p)
  }

  /** The global part of the save: name, visibility and the avatar URL. */
  function GlobalPatch(ff: FormFields, avatarUrl: string): UserPatch {
    UserPatch(Absent, Absent, Defined(ff.name), Absent, Absent, Defined(ff.isPublic), Defined(avatarUrl))
  }

  /** The role part of the save; `hourlyRate` only for a mentor. */
  function RolePatchOf(ff: FormFields): RolePatch
    requires RateText(ff.hourlyRate)
  {
    RolePatch(Defined(ff.bio), Defined(ParseList(ff.skills)), Defined(ff.location), Defined(ff.experience),
              Defined(ff.education), Defined(ParseList(ff.languages)),
              if ff.role == Mentor then Defined(ParseHourlyRate(ff.hourlyRate)) else Absent,
              Defined(ff.availability))
  }

  const UploadFailed := "Image upload failed. Please check your internet connection and try again."
  const SaveFailed := "Error saving profile. Please try again."
  const Saved := "Profile saved successfully!"

  /** An avatar the user picked from the device, which must be uploaded first. */
  predicate NeedsUpload(avatar: string) {
    avatar != "" && StartsWith(avatar, "file://")
  }

  /** The two profile writes of `handleSave`, once the avatar URL is known. */
  function WriteProfileF(ff: FormFields, s: DbState, f: Faults, uid: string, avatarUrl: string): (DbState, seq<Effect>)
    requires RateText(ff.hourlyRate)
  {
    var (s1, st1) := UpdateUserF(s, f, uid, GlobalPatch(ff, avatarUrl));
    if st1.Thrown? then (s1, [ShowAlert(SaveFailed)])
    else
      var (s2, st2) := UserService.UpdateRoleProfileF(s1, f, ff.role, uid, RolePatchOf(ff));
      if st2.Thrown? then (s2, [ShowAlert(SaveFailed)]) else (s2, [ShowAlert(Saved), GoBack])
  }

  /** `handleSave` on values. `upload` is what `uploadProfileImage` answers. */
  function SaveF(ff: FormFields, s: DbState, f: Faults, user: Option<string>, upload: Result<string>): (DbState, seq<Effect>)
    requires RateText(ff.hourlyRate)
  {
    if user.None? then (s, [])
    else if NeedsUpload(ff.avatar) then
      match upload
      case Err(_) => (s, [ShowAlert(UploadFailed)])
      case Ok(url) => WriteProfileF(ff, s, f, user.value, url)
    else WriteProfileF(ff, s, f, user.value, ff.avatar)
  }

  /** The two writes of `handleSave`: the global document, then the role document. */
  method WriteProfile(db: Firestore, ff: FormFields, uid: string, avatarUrl: string) returns (fx: seq<Effect>)
    requires RateText(ff.hourlyRate)
    modifies db
    ensures (db.State(), fx) == WriteProfileF(ff, old(db.State()), db.faults, uid, avatarUrl)
  {
    var st := UserService.UpdateUserProfile(db, uid, GlobalPatch(ff, avatarUrl));
    if st.Done? {
      if ff.role == Mentor {
        st := UserService.UpdateMentorProfile(db, uid, RolePatchOf(ff));
      } else {
        st := UserService.UpdateMenteeProfile(db, uid, RolePatchOf(ff));
      }
    }
    fx := if st.Thrown? then [ShowAlert(SaveFailed)] else [ShowAlert(Saved), GoBack];
  }

  class EditProfileForm {
    /** The twelve input hooks of the screen, held together. */
    var inputs: FormFields
    var isSaving: bool
    var effects: seq<Effect>

    constructor()
      ensures inputs == InitialFields && !isSaving && effects == []
    {
      inputs := InitialFields;
      isSaving, effects := false, [];
    }

    /** `loadProfile`. */
    method LoadProfile(db: Firestore, user: Option<string>)
      modifies this
      ensures inputs == LoadF(old(inputs), db.State(), db.faults, user)
      ensures isSaving == old(isSaving) && effects == old(effects)
    {
      if user.None? {
        return;
      }
      var r := UserService.GetCombinedUserProfile(db, user.value);
      if r.Err? || r.value.None? {
        return;
      }
      inputs := LoadedF(inputs, user.value, r.value.value);
    }

    /** `handleSave`. */
    method HandleSave(db: Firestore, user: Option<string>, upload: Result<string>)
      requires RateText(inputs.hourlyRate)
      modifies this, db
      ensures inputs == old(inputs)
      ensures var (s1, fx) := SaveF(old(inputs), old(db.State()), db.faults, user, upload);
              db.State() == s1 && effects == old(effects) + fx
      ensures isSaving == (if user.None? then old(isSaving) else false)
    {
      if user.None? {
        return;
      }
      var uid := user.value;
      var ff := inputs;
      isSaving := true;
      var avatarUrl := ff.avatar;
      if ff.avatar != "" && StartsWith(ff.avatar, "file://") {
        if upload.Err? {
          effects := effects + [ShowAlert(UploadFailed)];
          isSaving := false;
          return;
        }
        avatarUrl := upload.value;
      }
      var fx := WriteProfile(db, ff, uid, avatarUrl);
      effects := effects + fx;
      isSaving := false;
    }
  }

  // ---- what loading and saving promise ----

  /** Loading takes the role data from the document the role names; blank
      avatars fall back to the generated one; lists are shown joined. */
  lemma LoadedFields(ff: FormFields, uid: string, p: UserService.CombinedProfile, d: RoleDoc)
    requires (if p.profile.role == Mentor then p.mentorData else p.menteeData) == Some(d)
    ensures var r := LoadedF(ff, uid, p);
            && r.name == p.profile.fullName && r.role == p.profile.role && r.isPublic == p.profile.isPublic
            && (p.profile.avatar == "" ==> r.avatar == DefaultAvatarUrl(uid))
            && (p.profile.avatar != "" ==> r.avatar == p.profile.avatar)
            && r.bio == d.bio && r.availability == d.availability
            && ((forall i :: 0 <= i < |d.skills| ==> ListItem(d.skills[i])) ==> ParseList(r.skills) == d.skills)
            && ((forall i :: 0 <= i < |d.languages| ==> ListItem(d.languages[i])) ==> ParseList(r.languages) == d.languages)
  {
    var r := LoadedF(ff, uid, p);
    if forall i :: 0 <= i < |d.skills| ==> ListItem(d.skills[i]) {
      ParseJoinedList(d.skills);
    }
    if forall i :: 0 <= i < |d.languages| ==> ListItem(d.languages[i]) {
      ParseJoinedList(d.languages);
    }
  }

  /** A rate of 0 reads as false, so loading it keeps whatever rate the form held:
      a mentor whose stored rate is 0 opens the editor on the initial 50, and
      saving without edits stores 50. */
  lemma ZeroRateNotLoaded(uid: string, p: UserService.CombinedProfile, d: RoleDoc)
    requires p.profile.role == Mentor && p.mentorData == Some(d) && d.hourlyRate == Some(0)
    ensures LoadedF(InitialFields, uid, p).hourlyRate == "50"
    ensures ParseHourlyRate(LoadedF(InitialFields, uid, p).hourlyRate) == 50
  {
    assert ParseDigits("50") == ParseDigits("5") * 10 + 0;
  }

  /** A non-zero stored rate is loaded and saved back unchanged. */
  lemma NonZeroRateKept(ff: FormFields, uid: string, p: UserService.CombinedProfile, d: RoleDoc)
    requires p.profile.role == Mentor && p.mentorData == Some(d) && d.hourlyRate.Some? && d.hourlyRate.value != 0
    ensures RateText(LoadedF(ff, uid, p).hourlyRate)
    ensures ParseHourlyRate(LoadedF(ff, uid, p).hourlyRate) == d.hourlyRate.value
  {
    RateRoundTrip(d.hourlyRate.value);
  }

  /** Upload gating: only a device file is uploaded; when its upload fails
      nothing is written; any other avatar ignores the upload entirely. */
  lemma UploadGate(ff: FormFields, s: DbState, f: Faults, uid: string, upload: Result<string>, other: Result<string>)
    requires RateText(ff.hourlyRate)
    ensures NeedsUpload(ff.avatar) && upload.Err? ==> SaveF(ff, s, f, Some(uid), upload) == (s, [ShowAlert(UploadFailed)])
    ensures !NeedsUpload(ff.avatar) ==> SaveF(ff, s, f, Some(uid), upload) == SaveF(ff, s, f, Some(uid), other)
  {
  }

  /** The global document is written before the role document: when the
      global update fails, no role document changes. When it succeeds, the
      global document holds the form's name, visibility and avatar URL. */
  lemma GlobalBeforeRole(ff: FormFields, s: DbState, f: Faults, uid: string, avatarUrl: string)
    requires RateText(ff.hourlyRate)
    ensures var (s1, fx) := WriteProfileF(ff, s, f, uid, avatarUrl);
            var (g, st) := UpdateUserF(s, f, uid, GlobalPatch(ff, avatarUrl));
            && s1.mentees == (if ff.role == Mentor then s.mentees else s1.mentees)
            && s1.mentors == (if ff.role == Mentee then s.mentors else s1.mentors)
            && (st.Thrown? ==> s1 == s && fx == [ShowAlert(SaveFailed)])
            && (st.Done? ==> s1.users == s.users[uid := ApplyUserPatch(s.users[uid], GlobalPatch(ff, avatarUrl))])
  {
    var (g, st) := UpdateUserF(s, f, uid, GlobalPatch(ff, avatarUrl));
    UserService.UpdateUserProfileSpec(s, f, uid, GlobalPatch(ff, avatarUrl));
    UserService.UpdateRoleProfileSpec(g, f, ff.role, uid, RolePatchOf(ff));
  }

  /** A mentor's save writes the parsed rate into `mentors`; a mentee's save
      goes to `mentees` and leaves the stored rate as it was. */
  lemma RoleDispatch(ff: FormFields, s: DbState, f: Faults, uid: string, avatarUrl: string)
    requires RateText(ff.hourlyRate)
    requires Access(Update, Doc(Users, uid)) !in f && uid in s.users
    requires Access(Update, Doc(RoleCollection(ff.role), uid)) !in f && uid in RoleDocs(s, ff.role)
    ensures var (s1, fx) := WriteProfileF(ff, s, f, uid, avatarUrl);
            var d := RoleDocs(s1, ff.role)[uid];
            && fx == [ShowAlert(Saved), GoBack]
            && uid in RoleDocs(s1, ff.role)
            && d.bio == ff.bio && d.skills == ParseList(ff.skills) && d.languages == ParseList(ff.languages)
            && (ff.role == Mentor ==> d.hourlyRate == Some(ParseHourlyRate(ff.hourlyRate)))
            && (ff.role == Mentee ==> d.hourlyRate == RoleDocs(s, Mentee)[uid].hourlyRate)
  {
    var (g, st) := UpdateUserF(s, f, uid, GlobalPatch(ff, avatarUrl));
    UserService.UpdateUserProfileSpec(s, f, uid, GlobalPatch(ff, avatarUrl));
    assert RoleDocs(g, ff.role) == RoleDocs(s, ff.role);
    UserService.UpdateRoleProfileSpec(g, f, ff.role, uid, RolePatchOf(ff));
  }
}
