/** The application's store: the current resume and its settings, the saved
    CVs, cover letters, job applications and the user profile, each a state
    cell that its operations overwrite and write through to its own
    `localStorage` key. The class keeps both: the cells, and what the six
    keys hold. Every operation keeps the cells and the keys in agreement,
    so a reload reads back exactly the state the user left. */
module CVisionStorage {
  import opened Seqs
  import opened ResumeTypes
  import opened LocalStorage

  /** The six keys `cvision_data`, `cvision_settings`, `cvision_saved_cvs`,
      `cvision_cover_letters`, `cvision_applications` and `cvision_profile`,
      in the order the load reads them. */
  datatype CVisionSlots = CVisionSlots(
    data: Slot<ResumeData>,
    settings: Slot<TemplateSettings>,
    savedCVs: Slot<seq<SavedCV>>,
    coverLetters: Slot<seq<CoverLetter>>,
    applications: Slot<seq<JobApplication>>,
    profile: Slot<UserProfile>)

  /** The number of keys the load reads before the first one that throws
      (six when none throws). */
  function ReadableKeys(s: CVisionSlots): (n: nat)
    ensures n <= 6
    ensures n > 0 ==> !s.data.Malformed?
    ensures n > 1 ==> !s.settings.Malformed?
    ensures n > 2 ==> !s.savedCVs.Malformed?
    ensures n > 3 ==> !s.coverLetters.Malformed?
    ensures n > 4 ==> !s.applications.Malformed?
    ensures n > 5 ==> !s.profile.Malformed?
    ensures n < 6 ==> [s.data.Malformed?, s.settings.Malformed?, s.savedCVs.Malformed?,
                       s.coverLetters.Malformed?, s.applications.Malformed?, s.profile.Malformed?][n]
  {
    if s.data.Malformed? then 0
    else if s.settings.Malformed? then 1
    else if s.savedCVs.Malformed? then 2
    else if s.coverLetters.Malformed? then 3
    else if s.applications.Malformed? then 4
    else if s.profile.Malformed? then 5
    else 6
  }

  /** `defaultProfile`, whose creation time is the clock when the module is
      loaded. */
  function DefaultProfile(createdAt: string): (p: UserProfile)
    ensures p.id == "local-user" && p.name == "" && p.email == "" && p.avatar == None
    ensures p.createdAt == createdAt
  {
    UserProfile("local-user", "", "", None, createdAt)
  }

  /** `Partial<CoverLetter>`: the fields an update names. */
  datatype CoverLetterPatch = CoverLetterPatch(
    id: Option<string>,
    name: Option<string>,
    targetCompany: Option<string>,
    targetPosition: Option<string>,
    content: Option<string>,
    createdAt: Option<string>,
    updatedAt: Option<string>)

  /** `{ ...l, ...updates, updatedAt: now }`: named fields take the new
      value, the rest keep theirs, and the update time is always `now`. */
  function PatchCoverLetter(l: CoverLetter, p: CoverLetterPatch, now: string): (r: CoverLetter)
    ensures r.id == p.id.GetOr(l.id) && r.name == p.name.GetOr(l.name)
    ensures r.targetCompany == p.targetCompany.GetOr(l.targetCompany)
    ensures r.targetPosition == p.targetPosition.GetOr(l.targetPosition)
    ensures r.content == p.content.GetOr(l.content) && r.createdAt == p.createdAt.GetOr(l.createdAt)
    ensures r.updatedAt == now
  {
    CoverLetter(p.id.GetOr(l.id), p.name.GetOr(l.name), p.targetCompany.GetOr(l.targetCompany),
                p.targetPosition.GetOr(l.targetPosition), p.content.GetOr(l.content),
                p.createdAt.GetOr(l.createdAt), now)
  }

  /** `Partial<JobApplication>`; for the optional fields a named value
      makes the field present. */
  datatype ApplicationPatch = ApplicationPatch(
    id: Option<string>,
    company: Option<string>,
    position: Option<string>,
    status: Option<ApplicationStatus>,
    appliedDate: Option<string>,
    notes: Option<string>,
    cvId: Option<string>,
    coverLetterId: Option<string>)

  /** `{ ...a, ...updates }`. */
  function PatchApplication(a: JobApplication, p: ApplicationPatch): (r: JobApplication)
    ensures r.id == p.id.GetOr(a.id) && r.company == p.company.GetOr(a.company)
    ensures r.position == p.position.GetOr(a.position) && r.status == p.status.GetOr(a.status)
    ensures r.appliedDate == p.appliedDate.GetOr(a.appliedDate)
    ensures r.notes == (if p.notes.Some? then p.notes else a.notes)
    ensures r.cvId == (if p.cvId.Some? then p.cvId else a.cvId)
    ensures r.coverLetterId == (if p.coverLetterId.Some? then p.coverLetterId else a.coverLetterId)
  {
    JobApplication(p.id.GetOr(a.id), p.company.GetOr(a.company), p.position.GetOr(a.position),
                   p.status.GetOr(a.status), p.appliedDate.GetOr(a.appliedDate),
                   if p.notes.Some? then p.notes else a.notes,
                   if p.cvId.Some? then p.cvId else a.cvId,
                   if p.coverLetterId.Some? then p.coverLetterId else a.coverLetterId)
  }

  /** `Partial<UserProfile>`. */
  datatype ProfilePatch = ProfilePatch(
    id: Option<string>,
    name: Option<string>,
    email: Option<string>,
    avatar: Option<string>,
    createdAt: Option<string>)

  /** `{ ...profile, ...updates }`. */
  function PatchProfile(u: UserProfile, p: ProfilePatch): (r: UserProfile)
    ensures r.id == p.id.GetOr(u.id) && r.name == p.name.GetOr(u.name) && r.email == p.email.GetOr(u.email)
    ensures r.avatar == (if p.avatar.Some? then p.avatar else u.avatar)
    ensures r.createdAt == p.createdAt.GetOr(u.createdAt)
  {
    UserProfile(p.id.GetOr(u.id), p.name.GetOr(u.name), p.email.GetOr(u.email),
                if p.avatar.Some? then p.avatar else u.avatar, p.createdAt.GetOr(u.createdAt))
  }

  /** An empty update changes nothing (for a cover letter, nothing but the
      update time); applying the same update twice is applying it once. */
  lemma PatchLaws(l: CoverLetter, a: JobApplication, u: UserProfile,
                  pl: CoverLetterPatch, pa: ApplicationPatch, pu: ProfilePatch, now: string, later: string)
    ensures PatchCoverLetter(l, CoverLetterPatch(None, None, None, None, None, None, None), now)
            == l.(updatedAt := now)
    ensures PatchApplication(a, ApplicationPatch(None, None, None, None, None, None, None, None)) == a
    ensures PatchProfile(u, ProfilePatch(None, None, None, None, None)) == u
    ensures PatchCoverLetter(PatchCoverLetter(l, pl, now), pl, later) == PatchCoverLetter(l, pl, later)
    ensures PatchApplication(PatchApplication(a, pa), pa) == PatchApplication(a, pa)
    ensures PatchProfile(PatchProfile(u, pu), pu) == PatchProfile(u, pu)
  {
  }

  /** `deleteCV`, `deleteCoverLetter`, `deleteApplication`: the entries with
      the id go, and with the dropped ones the kept ones interleave to the
      old list. */
  function WithoutCV(cvs: seq<SavedCV>, id: string): (r: seq<SavedCV>)
    ensures forall i :: 0 <= i < |r| ==> r[i].id != id
    ensures forall i :: 0 <= i < |cvs| && cvs[i].id != id ==> cvs[i] in r
    ensures Interleaving(r, Filter(cvs, (c: SavedCV) => c.id == id), cvs)
  {
    FilterPartition(cvs, (c: SavedCV) => c.id != id, (c: SavedCV) => c.id == id);
    Filter(cvs, (c: SavedCV) => c.id != id)
  }

  function WithoutLetter(ls: seq<CoverLetter>, id: string): (r: seq<CoverLetter>)
    ensures forall i :: 0 <= i < |r| ==> r[i].id != id
    ensures forall i :: 0 <= i < |ls| && ls[i].id != id ==> ls[i] in r
    ensures Interleaving(r, Filter(ls, (l: CoverLetter) => l.id == id), ls)
  {
    FilterPartition(ls, (l: CoverLetter) => l.id != id, (l: CoverLetter) => l.id == id);
    Filter(ls, (l: CoverLetter) => l.id != id)
  }

  function WithoutApplication(apps: seq<JobApplication>, id: string): (r: seq<JobApplication>)
    ensures forall i :: 0 <= i < |r| ==> r[i].id != id
    ensures forall i :: 0 <= i < |apps| && apps[i].id != id ==> apps[i] in r
    ensures Interleaving(r, Filter(apps, (a: JobApplication) => a.id == id), apps)
  {
    FilterPartition(apps, (a: JobApplication) => a.id != id, (a: JobApplication) => a.id == id);
    Filter(apps, (a: JobApplication) => a.id != id)
  }

  /** `updateCoverLetter(id, updates)` on the list: entries with the id are
      patched and stamped, all others stay. */
  function PatchLetters(ls: seq<CoverLetter>, id: string, p: CoverLetterPatch, now: string): (r: seq<CoverLetter>)
    ensures |r| == |ls|
    ensures forall i :: 0 <= i < |ls| && ls[i].id != id ==> r[i] == ls[i]
    ensures forall i :: 0 <= i < |ls| && ls[i].id == id ==> r[i] == PatchCoverLetter(ls[i], p, now)
  {
    UpdateWhere(ls, (l: CoverLetter) => l.id == id, (l: CoverLetter) => PatchCoverLetter(l, p, now))
  }

  /** `updateApplication(id, updates)` on the list. */
  function PatchApplications(apps: seq<JobApplication>, id: string, p: ApplicationPatch): (r: seq<JobApplication>)
    ensures |r| == |apps|
    ensures forall i :: 0 <= i < |apps| && apps[i].id != id ==> r[i] == apps[i]
    ensures forall i :: 0 <= i < |apps| && apps[i].id == id ==> r[i] == PatchApplication(apps[i], p)
  {
    UpdateWhere(apps, (a: JobApplication) => a.id == id, (a: JobApplication) => PatchApplication(a, p))
  }

  class CVisionStore {
    var resumeData: ResumeData
    var settings: TemplateSettings
    var savedCVs: seq<SavedCV>
    var coverLetters: seq<CoverLetter>
    var applications: seq<JobApplication>
    var profile: UserProfile
    var isLoaded: bool
    var isLoggedIn: bool
    /** What the six keys hold. */
    var storage: CVisionSlots
    /** The clock reading stamped on the default profile. */
    const startedAt: string

    /** Every cell agrees with its key. */
    ghost predicate Synced()
      reads this
    {
      && SlotSynced(storage.data, resumeData, DefaultResumeData)
      && SlotSynced(storage.settings, settings, DefaultSettings)
      && SlotSynced(storage.savedCVs, savedCVs, [])
      && SlotSynced(storage.coverLetters, coverLetters, [])
      && SlotSynced(storage.applications, applications, [])
      && SlotSynced(storage.profile, profile, DefaultProfile(startedAt))
    }

    /** The hook's initial state, over whatever the keys hold. */
    constructor (startedAt: string, stored: CVisionSlots)
      ensures this.startedAt == startedAt && storage == stored
      ensures resumeData == DefaultResumeData && settings == DefaultSettings
      ensures savedCVs == [] && coverLetters == [] && applications == []
      ensures profile == DefaultProfile(startedAt)
      ensures !isLoaded && !isLoggedIn
    {
      this.startedAt := startedAt;
      storage := stored;
      resumeData, settings := DefaultResumeData, DefaultSettings;
      savedCVs, coverLetters, applications := [], [], [];
      profile := DefaultProfile(startedAt);
      isLoaded, isLoggedIn := false, false;
    }

    /** The mount effect: the keys are read in order; a present key sets its
      cell, and the first key that fails to parse ends the reading. The
      store is loaded either way. */
    method Load()
      modifies this`resumeData, this`settings, this`savedCVs, this`coverLetters,
               this`applications, this`profile, this`isLoggedIn, this`isLoaded
      ensures isLoaded
      ensures var n := ReadableKeys(storage);
        && resumeData == (if n > 0 then ReadBack(storage.data, old(resumeData)) else old(resumeData))
        && settings == (if n > 1 then ReadBack(storage.settings, old(settings)) else old(settings))
        && savedCVs == (if n > 2 then ReadBack(storage.savedCVs, old(savedCVs)) else old(savedCVs))
        && coverLetters == (if n > 3 then ReadBack(storage.coverLetters, old(coverLetters)) else old(coverLetters))
        && applications == (if n > 4 then ReadBack(storage.applications, old(applications)) else old(applications))
        && profile == (if n > 5 then ReadBack(storage.profile, old(profile)) else old(profile))
      ensures isLoggedIn == if ReadableKeys(storage) > 5 && storage.profile.Stored?
                            then storage.profile.value.email != "" else old(isLoggedIn)
      ensures old(Synced()) ==> Synced()
    {
      // `JSON.parse` throwing on one key ends the try block: only the keys
      // before it are read.
      var n := ReadableKeys(storage);
      if n > 0 { resumeData := ReadBack(storage.data, resumeData); }
      if n > 1 { settings := ReadBack(storage.settings, settings); }
      if n > 2 { savedCVs := ReadBack(storage.savedCVs, savedCVs); }
      if n > 3 { coverLetters := ReadBack(storage.coverLetters, coverLetters); }
      if n > 4 { applications := ReadBack(storage.applications, applications); }
      if n > 5 && storage.profile.Stored? {
        profile := storage.profile.value;
        isLoggedIn := profile.email != "";
      }
      isLoaded := true;
    }

    /** `saveResumeData(data)`. */
    method SaveResumeData(data: ResumeData)
      modifies this`resumeData, this`storage
      ensures resumeData == data && storage == old(storage).(data := Stored(data))
      ensures old(Synced()) ==> Synced()
    {
      resumeData := data;
      storage := storage.(data := Stored(data));
    }

    /** `saveSettings(settings)`. */
    method SaveSettings(newSettings: TemplateSettings)
      modifies this`settings, this`storage
      ensures settings == newSettings && storage == old(storage).(settings := Stored(newSettings))
      ensures old(Synced()) ==> Synced()
    {
      settings := newSettings;
      storage := storage.(settings := Stored(newSettings));
    }

    /** `updateSection(section, value)`: exactly the named section of the
      resume changes, and the result is saved. */
    method UpdateSection(s: Section)
      modifies this`resumeData, this`storage
      ensures GetSection(resumeData, KeyOf(s)) == s
      ensures forall k :: k != KeyOf(s) ==> GetSection(resumeData, k) == GetSection(old(resumeData), k)
      ensures storage == old(storage).(data := Stored(resumeData))
      ensures old(Synced()) ==> Synced()
    {
      SaveResumeData(WithSection(resumeData, s));
    }

    /** `saveCV(name)` with `id` and `now` for the clock: a snapshot of the
      current resume and settings is appended and returned. */
    method SaveCV(name: string, id: string, now: string) returns (cv: SavedCV)
      modifies this`savedCVs, this`storage
      ensures cv == SavedCV(id, name, resumeData, settings, now, now)
      ensures savedCVs == old(savedCVs) + [cv]
      ensures storage == old(storage).(savedCVs := Stored(savedCVs))
      ensures old(Synced()) ==> Synced()
    {
      cv := SavedCV(id, name, resumeData, settings, now, now);
      savedCVs := savedCVs + [cv];
      storage := storage.(savedCVs := Stored(savedCVs));
    }

    /** `loadCV(cv)`: the CV's resume and settings become current. */
    method LoadCV(cv: SavedCV)
      modifies this`resumeData, this`settings, this`storage
      ensures resumeData == cv.resumeData && settings == cv.settings
      ensures storage == old(storage).(data := Stored(cv.resumeData), settings := Stored(cv.settings))
      ensures old(Synced()) ==> Synced()
    {
      resumeData, settings := cv.resumeData, cv.settings;
      storage := storage.(data := Stored(cv.resumeData), settings := Stored(cv.settings));
    }

    /** `deleteCV(id)`. */
    method DeleteCV(id: string)
      modifies this`savedCVs, this`storage
      ensures savedCVs == WithoutCV(old(savedCVs), id)
      ensures storage == old(storage).(savedCVs := Stored(savedCVs))
      ensures old(Synced()) ==> Synced()
    {
      savedCVs := WithoutCV(savedCVs, id);
      storage := storage.(savedCVs := Stored(savedCVs));
    }

    /** `saveCoverLetter(letter)` with `id` and `now` for the clock. */
    method SaveCoverLetter(name: string, targetCompany: string, targetPosition: string, content: string,
                           id: string, now: string) returns (letter: CoverLetter)
      modifies this`coverLetters, this`storage
      ensures letter == CoverLetter(id, name, targetCompany, targetPosition, content, now, now)
      ensures coverLetters == old(coverLetters) + [letter]
      ensures storage == old(storage).(coverLetters := Stored(coverLetters))
      ensures old(Synced()) ==> Synced()
    {
      letter := CoverLetter(id, name, targetCompany, targetPosition, content, now, now);
      coverLetters := coverLetters + [letter];
      storage := storage.(coverLetters := Stored(coverLetters));
    }

    /** `updateCoverLetter(id, updates)` with `now` for the clock. */
    method UpdateCoverLetter(id: string, p: CoverLetterPatch, now: string)
      modifies this`coverLetters, this`storage
      ensures coverLetters == PatchLetters(old(coverLetters), id, p, now)
      ensures storage == old(storage).(coverLetters := Stored(coverLetters))
      ensures old(Synced()) ==> Synced()
    {
      coverLetters := PatchLetters(coverLetters, id, p, now);
      storage := storage.(coverLetters := Stored(coverLetters));
    }

    /** `deleteCoverLetter(id)`. */
    method DeleteCoverLetter(id: string)
      modifies this`coverLetters, this`storage
      ensures coverLetters == WithoutLetter(old(coverLetters), id)
      ensures storage == old(storage).(coverLetters := Stored(coverLetters))
      ensures old(Synced()) ==> Synced()
    {
      coverLetters := WithoutLetter(coverLetters, id);
      storage := storage.(coverLetters := Stored(coverLetters));
    }

    /** `addApplication(app)` with `id` for the clock: the given record
      takes the new id and is appended. */
    method AddApplication(app: JobApplication, id: string) returns (added: JobApplication)
      modifies this`applications, this`storage
      ensures added == app.(id := id)
      ensures applications == old(applications) + [added]
      ensures storage == old(storage).(applications := Stored(applications))
      ensures old(Synced()) ==> Synced()
    {
      added := app.(id := id);
      applications := applications + [added];
      storage := storage.(applications := Stored(applications));
    }

    /** `updateApplication(id, updates)`. */
    method UpdateApplication(id: string, p: ApplicationPatch)
      modifies this`applications, this`storage
      ensures applications == PatchApplications(old(applications), id, p)
      ensures storage == old(storage).(applications := Stored(applications))
      ensures old(Synced()) ==> Synced()
    {
      applications := PatchApplications(applications, id, p);
      storage := storage.(applications := Stored(applications));
    }

    /** `deleteApplication(id)`. */
    method DeleteApplication(id: string)
      modifies this`applications, this`storage
      ensures applications == WithoutApplication(old(applications), id)
      ensures storage == old(storage).(applications := Stored(applications))
      ensures old(Synced()) ==> Synced()
    {
      applications := WithoutApplication(applications, id);
      storage := storage.(applications := Stored(applications));
    }

    /** `login(name, email)` with `id` and `now` for the clock: a new profile,
      and the user is logged in whatever the email. */
    method Login(name: string, email: string, id: string, now: string)
      modifies this`profile, this`isLoggedIn, this`storage
      ensures profile == UserProfile(id, name, email, None, now) && isLoggedIn
      ensures storage == old(storage).(profile := Stored(profile))
      ensures old(Synced()) ==> Synced()
    {
      profile := UserProfile(id, name, email, None, now);
      isLoggedIn := true;
      storage := storage.(profile := Stored(profile));
    }

    /** `logout()`: the default profile, logged out, and the key removed. */
    method Logout()
      modifies this`profile, this`isLoggedIn, this`storage
      ensures profile == DefaultProfile(startedAt) && !isLoggedIn
      ensures storage == old(storage).(profile := Absent)
      ensures old(Synced()) ==> Synced()
    {
      profile := DefaultProfile(startedAt);
      isLoggedIn := false;
      storage := storage.(profile := Absent);
    }

    /** `updateProfile(updates)`: the login state is left as it is. */
    method UpdateProfile(p: ProfilePatch)
      modifies this`profile, this`storage
      ensures profile == PatchProfile(old(profile), p)
      ensures storage == old(storage).(profile := Stored(profile))
      ensures old(Synced()) ==> Synced()
    {
      profile := PatchProfile(profile, p);
      storage := storage.(profile := Stored(profile));
    }

    /** `clearAllData()`: the resume, the settings and the three lists go
      back to their defaults and their keys are removed; the profile and
      the login state are kept. */
    method ClearAllData()
      modifies this`resumeData, this`settings, this`savedCVs, this`coverLetters,
               this`applications, this`storage
      ensures resumeData == DefaultResumeData && settings == DefaultSettings
      ensures savedCVs == [] && coverLetters == [] && applications == []
      ensures storage == CVisionSlots(Absent, Absent, Absent, Absent, Absent, old(storage).profile)
      ensures old(Synced()) ==> Synced()
    {
      resumeData, settings := DefaultResumeData, DefaultSettings;
      savedCVs, coverLetters, applications := [], [], [];
      storage := CVisionSlots(Absent, Absent, Absent, Absent, Absent, storage.profile);
    }
  }

  /** A page reload at clock reading `now`: the module is evaluated again,
      so the default profile carries `now`, and a new store over the same
      keys is loaded. When the old store's cells agree with the keys, the
      new one has the same resume, settings and lists; its profile is the
      stored one, or the new default when the key is empty (after
      `logout`); it is logged in exactly when the stored profile has an
      email, and its cells agree with the keys again. */
  method Reload(s: CVisionStore, now: string) returns (t: CVisionStore)
    requires s.Synced()
    ensures t.startedAt == now && t.storage == s.storage
    ensures t.resumeData == s.resumeData && t.settings == s.settings
    ensures t.savedCVs == s.savedCVs && t.coverLetters == s.coverLetters
    ensures t.applications == s.applications
    ensures t.profile == ReadBack(s.storage.profile, DefaultProfile(now))
    ensures s.storage.profile.Stored? ==> t.profile == s.profile
    ensures s.storage.profile.Absent? ==> t.profile == DefaultProfile(now)
    ensures t.isLoaded && t.isLoggedIn == (s.storage.profile.Stored? && s.profile.email != "")
    ensures t.Synced()
  {
    t := new CVisionStore(now, s.storage);
    t.Load();
  }
}
