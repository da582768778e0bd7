/** Profiles: the global `users` document and the role document in `mentors`
    or `mentees`, read one at a time or combined, updated in part, or created
    together at registration. */
module UserService {
  import opened Common
  import opened Store

  method GetUserProfile(db: Firestore, id: string) returns (r: Result<Option<UserDoc>>)
    ensures Access(Read, Doc(Users, id)) in db.faults ==> r == Err(db.faults[Access(Read, Doc(Users, id))])
    ensures Access(Read, Doc(Users, id)) !in db.faults ==>
      r.Ok? && (r.value.None? <==> id !in db.users) && (r.value.Some? ==> r.value.value == db.users[id])
  {
    r := db.GetUser(id);
  }

  method GetMentorProfile(db: Firestore, id: string) returns (r: Result<Option<RoleDoc>>)
    ensures Access(Read, Doc(Mentors, id)) in db.faults ==> r == Err(db.faults[Access(Read, Doc(Mentors, id))])
    ensures Access(Read, Doc(Mentors, id)) !in db.faults ==>
      r.Ok? && (r.value.None? <==> id !in db.mentors) && (r.value.Some? ==> r.value.value == db.mentors[id])
  {
    r := db.GetRoleDoc(Mentor, id);
  }

  method GetMenteeProfile(db: Firestore, id: string) returns (r: Result<Option<RoleDoc>>)
    ensures Access(Read, Doc(Mentees, id)) in db.faults ==> r == Err(db.faults[Access(Read, Doc(Mentees, id))])
    ensures Access(Read, Doc(Mentees, id)) !in db.faults ==>
      r.Ok? && (r.value.None? <==> id !in db.mentees) && (r.value.Some? ==> r.value.value == db.mentees[id])
  {
    r := db.GetRoleDoc(Mentee, id);
  }

  /** `CombinedUserProfile`: the global profile with at most one role document attached. */
  datatype CombinedProfile = CombinedProfile(profile: UserDoc, mentorData: Option<RoleDoc>, menteeData: Option<RoleDoc>)

  function GetCombinedF(s: DbState, f: Faults, id: string): Result<Option<CombinedProfile>> {
    match GetDoc(s.users, f, Users, id)
    case Err(e) => Err(e)
    case Ok(None) => Ok(None)
    case Ok(Some(g)) =>
      if g.role == Mentor then
        match GetDoc(s.mentors, f, Mentors, id)
        case Err(e) => Err(e)
        case Ok(md) => Ok(Some(CombinedProfile(g, md, None)))
      else
        match GetDoc(s.mentees, f, Mentees, id)
        case Err(e) => Err(e)
        case Ok(md) => Ok(Some(CombinedProfile(g, None, md)))
  }

  method GetCombinedUserProfile(db: Firestore, id: string) returns (r: Result<Option<CombinedProfile>>)
    ensures r == GetCombinedF(db.State(), db.faults, id)
  {
    var global := GetUserProfile(db, id);
    if global.Err? {
      return Err(global.error);
    }
    if global.value.None? {
      return Ok(None);
    }
    var g := global.value.value;
    if g.role == Mentor {
      var md := GetMentorProfile(db, id);
      if md.Err? {
        return Err(md.error);
      }
      r := Ok(Some(CombinedProfile(g, md.value, None)));
    } else {
      var md := GetMenteeProfile(db, id);
      if md.Err? {
        return Err(md.error);
      }
      r := Ok(Some(CombinedProfile(g, None, md.value)));
    }
  }

  /** With the reads allowed: no profile without a global document; otherwise the
      global document with the role document its role names, absent if missing,
      and never both role documents. */
  lemma CombinedProfileSpec(s: DbState, f: Faults, id: string)
    requires Access(Read, Doc(Users, id)) !in f
    requires Access(Read, Doc(Mentors, id)) !in f && Access(Read, Doc(Mentees, id)) !in f
    ensures var r := GetCombinedF(s, f, id);
            && r.Ok?
            && (r.value.None? <==> id !in s.users)
            && (r.value.Some? ==>
                  var c := r.value.value;
                  && c.profile == s.users[id]
                  && !(c.mentorData.Some? && c.menteeData.Some?)
                  && (c.profile.role == Mentor ==> c.menteeData.None? && c.mentorData == (if id in s.mentors then Some(s.mentors[id]) else None))
                  && (c.profile.role == Mentee ==> c.mentorData.None? && c.menteeData == (if id in s.mentees then Some(s.mentees[id]) else None)))
  {
  }

  /** A failed read fails the whole call. */
  lemma CombinedProfileErrors(s: DbState, f: Faults, id: string)
    ensures Access(Read, Doc(Users, id)) in f ==> GetCombinedF(s, f, id) == Err(f[Access(Read, Doc(Users, id))])
    ensures (Access(Read, Doc(Users, id)) !in f && id in s.users && s.users[id].role == Mentor &&
             Access(Read, Doc(Mentors, id)) in f) ==>
              GetCombinedF(s, f, id) == Err(f[Access(Read, Doc(Mentors, id))])
    ensures (Access(Read, Doc(Users, id)) !in f && id in s.users && s.users[id].role == Mentee &&
             Access(Read, Doc(Mentees, id)) in f) ==>
              GetCombinedF(s, f, id) == Err(f[Access(Read, Doc(Mentees, id))])
  {
  }

  /** `updateUserProfile`: the patch goes to `updateDoc` as given. */
  method UpdateUserProfile(db: Firestore, id: string, p: UserPatch) returns (st: Status)
    modifies db
    ensures (db.State(), st) == UpdateUserF(old(db.State()), db.faults, id, p)
  {
    st := db.UpdateUser(id, p);
  }

  /** Only `users/{id}` can change: it becomes the merge of the patch into the
      stored document; a patch holding `undefined` or a missing document is an error. */
  lemma UpdateUserProfileSpec(s: DbState, f: Faults, id: string, p: UserPatch)
    ensures var (s1, st) := UpdateUserF(s, f, id, p);
            && s1 == s.(users := s1.users)
            && (UserPatchHasUndefined(p) ==> st == Thrown(UndefinedValue) && s1 == s)
            && (!UserPatchHasUndefined(p) && Access(Update, Doc(Users, id)) !in f ==>
                  if id in s.users then st == Done && s1.users == s.users[id := ApplyUserPatch(s.users[id], p)]
                  else st == Thrown(NotFound) && s1 == s)
  {
  }

  /** The `Object.entries(...).filter(value !== undefined)` step. */
  function DropUndefined(p: RolePatch): (q: RolePatch)
    ensures !RolePatchHasUndefined(q)
  {
    RolePatch(KeepDefined(p.bio), KeepDefined(p.skills), KeepDefined(p.location), KeepDefined(p.experience),
              KeepDefined(p.education), KeepDefined(p.languages), KeepDefined(p.hourlyRate), KeepDefined(p.availability))
  }

  function KeepDefined<T>(f: Field<T>): Field<T> {
    if f.Undefined? then Absent else f
  }

  /** Dropping the `undefined` keys changes nothing about the merge, and doing it twice is doing it once. */
  lemma DropUndefinedKeepsMerge(d: RoleDoc, p: RolePatch)
    ensures ApplyRolePatch(d, DropUndefined(p)) == ApplyRolePatch(d, p)
    ensures DropUndefined(DropUndefined(p)) == DropUndefined(p)
  {
  }

  function UpdateRoleProfileF(s: DbState, f: Faults, role: Role, id: string, p: RolePatch): (DbState, Status) {
    UpdateRoleDocF(s, f, role, id, DropUndefined(p))
  }

  method UpdateMentorProfile(db: Firestore, id: string, p: RolePatch) returns (st: Status)
    modifies db
    ensures (db.State(), st) == UpdateRoleProfileF(old(db.State()), db.faults, Mentor, id, p)
  {
    st := db.UpdateRoleDoc(Mentor, id, DropUndefined(p));
  }

  method UpdateMenteeProfile(db: Firestore, id: string, p: RolePatch) returns (st: Status)
    modifies db
    ensures (db.State(), st) == UpdateRoleProfileF(old(db.State()), db.faults, Mentee, id, p)
  {
    st := db.UpdateRoleDoc(Mentee, id, DropUndefined(p));
  }

  /** The role update never fails on `undefined`; it changes only the role
      document of `id`, whose fields not in the patch keep their values. */
  lemma UpdateRoleProfileSpec(s: DbState, f: Faults, role: Role, id: string, p: RolePatch)
    ensures var (s1, st) := UpdateRoleProfileF(s, f, role, id, p);
            var a := Access(Update, Doc(RoleCollection(role), id));
            && (st != Thrown(UndefinedValue) || (a in f && f[a] == UndefinedValue))
            && s1 == WithRoleDocs(s, role, RoleDocs(s1, role))
            && (a in f ==> s1 == s && st == Thrown(f[a]))
            && (a !in f && id !in RoleDocs(s, role) ==> s1 == s && st == Thrown(NotFound))
            && (a !in f && id in RoleDocs(s, role) ==>
                  st == Done && RoleDocs(s1, role) == RoleDocs(s, role)[id := ApplyRolePatch(RoleDocs(s, role)[id], p)])
  {
    DropUndefinedKeepsMerge(if id in RoleDocs(s, role) then RoleDocs(s, role)[id] else RoleDoc("", [], "", "", "", [], None, ""), p);
  }

  function CreateUserDocumentsF(s: DbState, f: Faults, id: string, g: UserDoc, rd: RoleDoc): (DbState, Status) {
    var (s1, st) := SetUserF(s, f, id, g);
    if st.Thrown? then (s1, st) else SetRoleDocF(s1, f, g.role, id, rd)
  }

  method CreateUserDocuments(db: Firestore, id: string, g: UserDoc, rd: RoleDoc) returns (st: Status)
    modifies db
    ensures (db.State(), st) == CreateUserDocumentsF(old(db.State()), db.faults, id, g, rd)
  {
    st := db.SetUser(id, g);
    if st.Thrown? {
      return;
    }
    st := db.SetRoleDoc(g.role, id, rd);
  }

  function UserWrite(s: DbState, id: string): Access {
    Access(if id in s.users then Update else Create, Doc(Users, id))
  }

  function RoleWrite(s: DbState, role: Role, id: string): Access {
    Access(if id in RoleDocs(s, role) then Update else Create, Doc(RoleCollection(role), id))
  }

  /** The global document is written first and the role document second, into
      the collection `g.role` names; the other role's collection is never
      touched. A refused first write writes nothing; a refused second write
      leaves the first in place. */
  lemma CreateUserDocumentsSpec(s: DbState, f: Faults, id: string, g: UserDoc, rd: RoleDoc)
    ensures var (s1, st) := CreateUserDocumentsF(s, f, id, g, rd);
            && RoleDocs(s1, OppositeOf(g.role)) == RoleDocs(s, OppositeOf(g.role))
            && (UserWrite(s, id) in f ==> (s1, st) == (s, Thrown(f[UserWrite(s, id)])))
            && (UserWrite(s, id) !in f ==> s1.users == s.users[id := g])
            && (UserWrite(s, id) !in f && RoleWrite(s, g.role, id) in f ==>
                  st == Thrown(f[RoleWrite(s, g.role, id)]) && RoleDocs(s1, g.role) == RoleDocs(s, g.role))
            && (UserWrite(s, id) !in f && RoleWrite(s, g.role, id) !in f ==>
                  st == Done && RoleDocs(s1, g.role) == RoleDocs(s, g.role)[id := rd])
  {
    if UserWrite(s, id) !in f {
      var su := s.(users := s.users[id := g]);
      assert SetUserF(s, f, id, g) == (su, Done);
      assert CreateUserDocumentsF(s, f, id, g, rd) == SetRoleDocF(su, f, g.role, id, rd);
      SetRoleDocEffect(su, f, g.role, id, rd);
      assert RoleDocs(su, g.role) == RoleDocs(s, g.role);
      assert RoleDocs(su, OppositeOf(g.role)) == RoleDocs(s, OppositeOf(g.role));
    }
  }

  /** The role document write touches one collection and no `users` document. */
  lemma SetRoleDocEffect(s: DbState, f: Faults, r: Role, id: string, d: RoleDoc)
    ensures var (s1, st) := SetRoleDocF(s, f, r, id, d);
            && s1.users == s.users
            && RoleDocs(s1, OppositeOf(r)) == RoleDocs(s, OppositeOf(r))
            && (RoleWrite(s, r, id) in f ==> (s1, st) == (s, Thrown(f[RoleWrite(s, r, id)])))
            && (RoleWrite(s, r, id) !in f ==> st == Done && RoleDocs(s1, r) == RoleDocs(s, r)[id := d])
  {
  }

  function OppositeOf(r: Role): Role {
    if r == Mentor then Mentee else Mentor
  }
}
