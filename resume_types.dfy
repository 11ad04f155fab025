/** The resume data model: one datatype per record of the application, an
    enumeration per closed string union, and the `keyof ResumeData` view used
    to replace one section at a time. A field the source marks optional (`?`)
    is an `Option`; every other field is always present. */
module ResumeTypes {

  datatype Option<T> = None | Some(value: T) {
    /** `x ?? fallback` for a possibly absent value. */
    function GetOr(fallback: T): T {
      match this
      case Some(v) => v
      case None => fallback
    }
  }

  datatype PersonalInfo = PersonalInfo(
    fullName: string,
    email: string,
    phone: string,
    location: string,
    linkedin: Option<string>,
    website: Option<string>,
    summary: string)

  datatype Experience = Experience(
    id: string,
    company: string,
    position: string,
    startDate: string,
    endDate: string,
    current: bool,
    description: string,
    achievements: seq<string>)

  datatype Education = Education(
    id: string,
    institution: string,
    degree: string,
    field: string,
    startDate: string,
    endDate: string,
    gpa: Option<string>,
    achievements: seq<string>)

  datatype SkillLevel = Beginner | Intermediate | Advanced | Expert

  datatype Skill = Skill(id: string, name: string, level: SkillLevel, category: string)

  datatype Project = Project(
    id: string,
    name: string,
    description: string,
    technologies: seq<string>,
    link: Option<string>,
    highlights: seq<string>)

  datatype Certification = Certification(
    id: string,
    name: string,
    issuer: string,
    date: string,
    expiry: Option<string>,
    credentialId: Option<string>)

  /** The aggregate root: exactly one personal-info record and five ordered
      sections, plus the two optional targeting strings. */
  datatype ResumeData = ResumeData(
    personalInfo: PersonalInfo,
    experiences: seq<Experience>,
    education: seq<Education>,
    skills: seq<Skill>,
    projects: seq<Project>,
    certifications: seq<Certification>,
    targetRole: Option<string>,
    targetIndustry: Option<string>)

  datatype TemplateType = Modern | Classic | Creative | Professional | Minimal | Executive

  datatype FontSize = Small | Medium | Large

  datatype TemplateSettings = TemplateSettings(
    template: TemplateType,
    primaryColor: string,
    accentColor: string,
    fontFamily: string,
    fontSize: FontSize)

  /** The keyword sub-score is the unrounded ratio the source computes. */
  datatype ATSScore = ATSScore(
    overall: int,
    formatting: int,
    keywords: real,
    readability: int,
    suggestions: seq<string>)

  datatype JobMatch = JobMatch(
    score: int,
    matchedKeywords: seq<string>,
    missingKeywords: seq<string>,
    suggestions: seq<string>)

  datatype CoverLetter = CoverLetter(
    id: string,
    name: string,
    targetCompany: string,
    targetPosition: string,
    content: string,
    createdAt: string,
    updatedAt: string)

  /** A saved CV carries full copies of a resume and of its settings. */
  datatype SavedCV = SavedCV(
    id: string,
    name: string,
    resumeData: ResumeData,
    settings: TemplateSettings,
    createdAt: string,
    updatedAt: string)

  datatype ApplicationStatus = Applied | Interviewing | Offered | Rejected | Accepted

  datatype JobApplication = JobApplication(
    id: string,
    company: string,
    position: string,
    status: ApplicationStatus,
    appliedDate: string,
    notes: Option<string>,
    cvId: Option<string>,
    coverLetterId: Option<string>)

  datatype UserProfile = UserProfile(
    id: string,
    name: string,
    email: string,
    avatar: Option<string>,
    createdAt: string)

  // The string spellings of the closed unions, as they are stored and serialised.

  function SkillLevelName(l: SkillLevel): string
  {
    match l
    case Beginner => "beginner"
    case Intermediate => "intermediate"
    case Advanced => "advanced"
    case Expert => "expert"
  }

  /** Reads a skill level back from its spelling; no other string is a level. */
  function ParseSkillLevel(s: string): (r: Option<SkillLevel>)
    ensures r.Some? ==> SkillLevelName(r.value) == s
    ensures forall l :: SkillLevelName(l) == s ==> r == Some(l)
  {
    if s == "beginner" then Some(Beginner)
    else if s == "intermediate" then Some(Intermediate)
    else if s == "advanced" then Some(Advanced)
    else if s == "expert" then Some(Expert)
    else None
  }

  function TemplateName(t: TemplateType): string
  {
    match t
    case Modern => "modern"
    case Classic => "classic"
    case Creative => "creative"
    case Professional => "professional"
    case Minimal => "minimal"
    case Executive => "executive"
  }

  /** Reads a template back from its spelling; exactly six strings name one. */
  function ParseTemplate(s: string): (r: Option<TemplateType>)
    ensures r.Some? ==> TemplateName(r.value) == s
    ensures forall t :: TemplateName(t) == s ==> r == Some(t)
  {
    if s == "modern" then Some(Modern)
    else if s == "classic" then Some(Classic)
    else if s == "creative" then Some(Creative)
    else if s == "professional" then Some(Professional)
    else if s == "minimal" then Some(Minimal)
    else if s == "executive" then Some(Executive)
    else None
  }

  function FontSizeName(f: FontSize): string
  {
    match f
    case Small => "small"
    case Medium => "medium"
    case Large => "large"
  }

  /** Reads a font size back from its spelling; exactly three strings name one. */
  function ParseFontSize(s: string): (r: Option<FontSize>)
    ensures r.Some? ==> FontSizeName(r.value) == s
    ensures forall f :: FontSizeName(f) == s ==> r == Some(f)
  {
    if s == "small" then Some(Small)
    else if s == "medium" then Some(Medium)
    else if s == "large" then Some(Large)
    else None
  }

  function StatusName(s: ApplicationStatus): string
  {
    match s
    case Applied => "applied"
    case Interviewing => "interviewing"
    case Offered => "offered"
    case Rejected => "rejected"
    case Accepted => "accepted"
  }

  /** Reads an application status back from its spelling; exactly five strings name one. */
  function ParseStatus(s: string): (r: Option<ApplicationStatus>)
    ensures r.Some? ==> StatusName(r.value) == s
    ensures forall st :: StatusName(st) == s ==> r == Some(st)
  {
    if s == "applied" then Some(Applied)
    else if s == "interviewing" then Some(Interviewing)
    else if s == "offered" then Some(Offered)
    else if s == "rejected" then Some(Rejected)
    else if s == "accepted" then Some(Accepted)
    else None
  }

  // `keyof ResumeData` and the value of one section, `ResumeData[K]`.

  datatype SectionKey =
    | PersonalInfoKey | ExperiencesKey | EducationKey | SkillsKey
    | ProjectsKey | CertificationsKey | TargetRoleKey | TargetIndustryKey

  datatype Section =
    | PersonalInfoSection(personalInfo: PersonalInfo)
    | ExperiencesSection(experiences: seq<Experience>)
    | EducationSection(education: seq<Education>)
    | SkillsSection(skills: seq<Skill>)
    | ProjectsSection(projects: seq<Project>)
    | CertificationsSection(certifications: seq<Certification>)
    | TargetRoleSection(targetRole: Option<string>)
    | TargetIndustrySection(targetIndustry: Option<string>)

  function KeyOf(s: Section): SectionKey
  {
    match s
    case PersonalInfoSection(_) => PersonalInfoKey
    case ExperiencesSection(_) => ExperiencesKey
    case EducationSection(_) => EducationKey
    case SkillsSection(_) => SkillsKey
    case ProjectsSection(_) => ProjectsKey
    case CertificationsSection(_) => CertificationsKey
    case TargetRoleSection(_) => TargetRoleKey
    case TargetIndustrySection(_) => TargetIndustryKey
  }

  /** `data[k]`. */
  function GetSection(d: ResumeData, k: SectionKey): (s: Section)
    ensures KeyOf(s) == k
  {
    match k
    case PersonalInfoKey => PersonalInfoSection(d.personalInfo)
    case ExperiencesKey => ExperiencesSection(d.experiences)
    case EducationKey => EducationSection(d.education)
    case SkillsKey => SkillsSection(d.skills)
    case ProjectsKey => ProjectsSection(d.projects)
    case CertificationsKey => CertificationsSection(d.certifications)
    case TargetRoleKey => TargetRoleSection(d.targetRole)
    case TargetIndustryKey => TargetIndustrySection(d.targetIndustry)
  }

  /** A resume is determined by its eight sections. */
  lemma SectionsDetermineResume(d: ResumeData, e: ResumeData)
    requires forall k :: GetSection(d, k) == GetSection(e, k)
    ensures d == e
  {
    assert GetSection(d, PersonalInfoKey) == GetSection(e, PersonalInfoKey);
    assert GetSection(d, ExperiencesKey) == GetSection(e, ExperiencesKey);
    assert GetSection(d, EducationKey) == GetSection(e, EducationKey);
    assert GetSection(d, SkillsKey) == GetSection(e, SkillsKey);
    assert GetSection(d, ProjectsKey) == GetSection(e, ProjectsKey);
    assert GetSection(d, CertificationsKey) == GetSection(e, CertificationsKey);
    assert GetSection(d, TargetRoleKey) == GetSection(e, TargetRoleKey);
    assert GetSection(d, TargetIndustryKey) == GetSection(e, TargetIndustryKey);
  }

  /** `{ ...data, [section]: value }`: the named section takes the new
      value and every other section keeps its old one. */
  function WithSection(d: ResumeData, s: Section): (r: ResumeData)
    ensures GetSection(r, KeyOf(s)) == s
    ensures forall k :: k != KeyOf(s) ==> GetSection(r, k) == GetSection(d, k)
  {
    match s
    case PersonalInfoSection(v) => d.(personalInfo := v)
    case ExperiencesSection(v) => d.(experiences := v)
    case EducationSection(v) => d.(education := v)
    case SkillsSection(v) => d.(skills := v)
    case ProjectsSection(v) => d.(projects := v)
    case CertificationsSection(v) => d.(certifications := v)
    case TargetRoleSection(v) => d.(targetRole := v)
    case TargetIndustrySection(v) => d.(targetIndustry := v)
  }

  /** Writing back a section's current value changes nothing. */
  lemma WithSameSection(d: ResumeData, k: SectionKey)
    ensures WithSection(d, GetSection(d, k)) == d
  {
    SectionsDetermineResume(WithSection(d, GetSection(d, k)), d);
  }

  /** Of two writes to the same section only the later one is visible. */
  lemma WithSectionTwice(d: ResumeData, s: Section, t: Section)
    requires KeyOf(s) == KeyOf(t)
    ensures WithSection(WithSection(d, s), t) == WithSection(d, t)
  {
    SectionsDetermineResume(WithSection(WithSection(d, s), t), WithSection(d, t));
  }

  /** Writes to different sections commute. */
  lemma WithSectionCommute(d: ResumeData, s: Section, t: Section)
    requires KeyOf(s) != KeyOf(t)
    ensures WithSection(WithSection(d, s), t) == WithSection(WithSection(d, t), s)
  {
    SectionsDetermineResume(WithSection(WithSection(d, s), t), WithSection(WithSection(d, t), s));
  }

  // The defaults that both storage hooks start from (each hook declares
  // its own copy; the two are identical).

  const DefaultPersonalInfo := PersonalInfo("", "", "", "", Some(""), Some(""), "")

  const DefaultResumeData := ResumeData(DefaultPersonalInfo, [], [], [], [], [], Some(""), Some(""))

  const DefaultSettings := TemplateSettings(Modern, "#1e3a5f", "#2d9596", "Inter", Medium)

  /** The default resume is blank: every text field is empty and every
      list section has no entries. */
  lemma DefaultResumeBlank()
    ensures var p := DefaultResumeData.personalInfo;
      p.fullName == "" && p.email == "" && p.phone == "" && p.location == ""
      && p.linkedin == Some("") && p.website == Some("") && p.summary == ""
    ensures DefaultResumeData.experiences == [] && DefaultResumeData.education == []
      && DefaultResumeData.skills == [] && DefaultResumeData.projects == []
      && DefaultResumeData.certifications == []
    ensures DefaultResumeData.targetRole == Some("") && DefaultResumeData.targetIndustry == Some("")
  {
  }

  /** The default settings are the `modern` template at `medium` size,
      read back by their names. */
  lemma DefaultSettingsNamed()
    ensures ParseTemplate("modern") == Some(DefaultSettings.template)
    ensures ParseFontSize("medium") == Some(DefaultSettings.fontSize)
    ensures DefaultSettings.primaryColor == "#1e3a5f" && DefaultSettings.accentColor == "#2d9596"
    ensures DefaultSettings.fontFamily == "Inter"
  {
  }
}
