/** The searchable text of a resume, shared by the ATS score and the job
    match: `JSON.stringify(data).toLowerCase()`. The serialisation writes
    every record as an object with its keys in declaration order, omits
    absent optional fields, escapes string values as `JSON.stringify` does
    and, like the original, puts the key names into the text, so a word
    such as `skills` is always found. */
module ResumeText {
  import opened ResumeTypes
  import opened Strings

  /** A character `JSON.stringify` writes as it is. */
  predicate Plain(c: char) { c != '"' && c != '\\' && c >= ' ' }

  /** A string with no character that needs an escape. */
  predicate PlainString(s: string) { forall i :: 0 <= i < |s| ==> Plain(s[i]) }

  /** The lower-case hexadecimal digit of `n`. */
  function HexDigit(n: nat): (c: char)
    requires n < 16
    ensures HexValue(c) == n
  {
    if n < 10 then ('0' as int + n) as char else ('a' as int + n - 10) as char
  }

  function HexValue(c: char): (n: nat)
    ensures n < 16
  {
    if '0' <= c <= '9' then c as int - '0' as int
    else if 'a' <= c <= 'f' then c as int - 'a' as int + 10
    else 0
  }

  /** How `JSON.stringify` writes one character of a string: the quote and
      the backslash get a backslash, the five control characters with a
      short escape get it, the other control characters become `\u00XX`,
      and everything else is written as it is. */
  function EscapeChar(c: char): string
  {
    if c == '"' then "\\\""
    else if c == '\\' then "\\\\"
    else if c == '\U{0008}' then "\\b"
    else if c == '\t' then "\\t"
    else if c == '\n' then "\\n"
    else if c == '\U{000C}' then "\\f"
    else if c == '\r' then "\\r"
    else if c < ' ' then "\\u00" + [HexDigit(c as int / 16), HexDigit(c as int % 16)]
    else [c]
  }

  /** A character is written as it is exactly when it needs no escape. */
  lemma EscapeCharPlain(c: char)
    ensures Plain(c) <==> EscapeChar(c) == [c]
  {
  }

  /** The contents of a JSON string literal for `s`. */
  function Escape(s: string): string
    decreases |s|
  {
    if s == "" then "" else EscapeChar(s[0]) + Escape(s[1..])
  }

  /** A string that needs no escape is written as it is. */
  lemma {:induction false} EscapePlain(s: string)
    requires PlainString(s)
    ensures Escape(s) == s
    decreases |s|
  {
    if s != "" {
      EscapeCharPlain(s[0]);
      assert PlainString(s[1..]) by {
        forall i | 0 <= i < |s[1..]| ensures s[1..][i] == s[i + 1] { }
      }
      EscapePlain(s[1..]);
    }
  }

  /** The character a short escape `\e` stands for. */
  function EscapedChar(e: char): char
  {
    if e == 'b' then '\U{0008}'
    else if e == 't' then '\t'
    else if e == 'n' then '\n'
    else if e == 'f' then '\U{000C}'
    else if e == 'r' then '\r'
    else e
  }

  /** Reading the contents of a JSON string literal back, for the escapes
      `Escape` writes. */
  function Unescape(t: string): string
    decreases |t|
  {
    if t == "" then ""
    else if t[0] != '\\' || |t| == 1 then [t[0]] + Unescape(t[1..])
    else if t[1] == 'u' && |t| >= 6 && t[2] == '0' && t[3] == '0' then
      [(16 * HexValue(t[4]) + HexValue(t[5])) as char] + Unescape(t[6..])
    else [EscapedChar(t[1])] + Unescape(t[2..])
  }

  lemma UnescapeCons(c: char, rest: string)
    ensures Unescape(EscapeChar(c) + rest) == [c] + Unescape(rest)
  {
    var t := EscapeChar(c) + rest;
    EscapeCharPlain(c);
    if Plain(c) {
      assert t[0] == c && t[1..] == rest;
    } else if c < ' ' && c != '\U{0008}' && c != '\t' && c != '\n' && c != '\U{000C}' && c != '\r' {
      var h, l := c as int / 16, c as int % 16;
      assert t[0] == '\\' && t[1] == 'u' && t[2] == '0' && t[3] == '0';
      assert t[4] == HexDigit(h) && t[5] == HexDigit(l) && t[6..] == rest;
      assert (16 * h + l) as char == c;
    } else {
      assert t[0] == '\\' && t[1] != 'u' && t[2..] == rest;
    }
  }

  /** Reading an escaped string back gives the string: escaping loses
      nothing. */
  lemma {:induction false} UnescapeEscape(s: string)
    ensures Unescape(Escape(s)) == s
    decreases |s|
  {
    if s != "" {
      UnescapeCons(s[0], Escape(s[1..]));
      UnescapeEscape(s[1..]);
    }
  }

  /** A JSON string literal. */
  function Quote(s: string): string { "\"" + Escape(s) + "\"" }

  /** `"key":value`. The keys are the records' field names, which need no
      escaping. */
  function Member(key: string, value: string): string { "\"" + key + "\"" + ":" + value }

  /** The member for an optional string field, or nothing when it is absent. */
  function OptMember(key: string, v: Option<string>): seq<string>
  {
    if v.Some? then [Member(key, Quote(v.value))] else []
  }

  function Obj(members: seq<string>): string { "{" + Join(members, ",") + "}" }

  function Array<T>(xs: seq<T>, f: T -> string): string
  {
    "[" + Join(seq(|xs|, i requires 0 <= i < |xs| => f(xs[i])), ",") + "]"
  }

  function StringJson(s: string): string { Quote(s) }

  function BoolJson(b: bool): string { if b then "true" else "false" }

  function PersonalInfoJson(p: PersonalInfo): string
  {
    Obj([Member("fullName", Quote(p.fullName)), Member("email", Quote(p.email)),
         Member("phone", Quote(p.phone)), Member("location", Quote(p.location))]
        + OptMember("linkedin", p.linkedin) + OptMember("website", p.website)
        + [Member("summary", Quote(p.summary))])
  }

  function ExperienceJson(e: Experience): string
  {
    Obj([Member("id", Quote(e.id)), Member("company", Quote(e.company)),
         Member("position", Quote(e.position)), Member("startDate", Quote(e.startDate)),
         Member("endDate", Quote(e.endDate)), Member("current", BoolJson(e.current)),
         Member("description", Quote(e.description)),
         Member("achievements", Array(e.achievements, StringJson))])
  }

  function EducationJson(e: Education): string
  {
    Obj([Member("id", Quote(e.id)), Member("institution", Quote(e.institution)),
         Member("degree", Quote(e.degree)), Member("field", Quote(e.field)),
         Member("startDate", Quote(e.startDate)), Member("endDate", Quote(e.endDate))]
        + OptMember("gpa", e.gpa)
        + [Member("achievements", Array(e.achievements, StringJson))])
  }

  function SkillJson(s: Skill): string
  {
    Obj([Member("id", Quote(s.id)), Member("name", Quote(s.name)),
         Member("level", Quote(SkillLevelName(s.level))), Member("category", Quote(s.category))])
  }

  function ProjectJson(p: Project): string
  {
    Obj([Member("id", Quote(p.id)), Member("name", Quote(p.name)),
         Member("description", Quote(p.description)),
         Member("technologies", Array(p.technologies, StringJson))]
        + OptMember("link", p.link)
        + [Member("highlights", Array(p.highlights, StringJson))])
  }

  function CertificationJson(c: Certification): string
  {
    Obj([Member("id", Quote(c.id)), Member("name", Quote(c.name)),
         Member("issuer", Quote(c.issuer)), Member("date", Quote(c.date))]
        + OptMember("expiry", c.expiry) + OptMember("credentialId", c.credentialId))
  }

  /** The top-level members of the serialised resume, in order. */
  function ResumeMembers(d: ResumeData): seq<string>
  {
    [Member("personalInfo", PersonalInfoJson(d.personalInfo)),
     Member("experiences", Array(d.experiences, ExperienceJson)),
     Member("education", Array(d.education, EducationJson)),
     Member("skills", Array(d.skills, SkillJson)),
     Member("projects", Array(d.projects, ProjectJson)),
     Member("certifications", Array(d.certifications, CertificationJson))]
    + OptMember("targetRole", d.targetRole) + OptMember("targetIndustry", d.targetIndustry)
  }

  function ResumeJson(d: ResumeData): string { Obj(ResumeMembers(d)) }

  /** The one text both engines search. */
  function Text(d: ResumeData): string { Lower(ResumeJson(d)) }

  lemma ObjContains(members: seq<string>, i: nat, w: string)
    requires i < |members| && Contains(members[i], w)
    ensures Contains(Obj(members), w)
  {
    var j := Join(members, ",");
    JoinContains(members, ",");
    ContainsInfix("{", j, "}");
    ContainsTrans(Obj(members), j, members[i]);
    ContainsTrans(Obj(members), members[i], w);
  }

  lemma ArrayContains<T>(xs: seq<T>, f: T -> string, i: nat, w: string)
    requires i < |xs| && Contains(f(xs[i]), w)
    ensures Contains(Array(xs, f), w)
  {
    var parts := seq(|xs|, k requires 0 <= k < |xs| => f(xs[k]));
    var j := Join(parts, ",");
    JoinContains(parts, ",");
    ContainsInfix("[", j, "]");
    assert parts[i] == f(xs[i]);
    ContainsTrans(Array(xs, f), j, parts[i]);
    ContainsTrans(Array(xs, f), parts[i], w);
  }

  lemma MemberContainsKey(key: string, value: string)
    ensures Contains(Member(key, value), key)
  {
    assert Member(key, value) == "\"" + key + ("\"" + ":" + value);
    assert Member(key, value) == "\"" + key + "\"" + ":" + value + "";
    ContainsInfix("\"", key, "\"" + ":" + value);
  }

  lemma MemberContainsValue(key: string, value: string, w: string)
    requires Contains(value, w)
    ensures Contains(Member(key, value), w)
  {
    assert Member(key, value) == "\"" + key + "\"" + ":" + value + "";
    ContainsInfix("\"" + key + "\"" + ":", value, "");
    ContainsTrans(Member(key, value), value, w);
  }

  lemma QuoteContains(s: string)
    ensures Contains(Quote(s), Escape(s))
  {
    ContainsInfix("\"", Escape(s), "\"");
  }

  /** What the serialised resume contains, the text contains in lower case. */
  lemma TextContains(d: ResumeData, w: string)
    requires Contains(ResumeJson(d), w)
    ensures Contains(Text(d), Lower(w))
  {
    ContainsLower(ResumeJson(d), w);
  }

  /** A top-level member's key is found in the text. */
  lemma TopKeyInText(d: ResumeData, i: nat, key: string, value: string)
    requires i < |ResumeMembers(d)| && ResumeMembers(d)[i] == Member(key, value)
    ensures Contains(Text(d), Lower(key))
  {
    MemberContainsKey(key, value);
    ObjContains(ResumeMembers(d), i, key);
    TextContains(d, key);
  }

  /** Whatever a top-level member's value contains is found in the text. */
  lemma TopValueInText(d: ResumeData, i: nat, key: string, value: string, w: string)
    requires i < |ResumeMembers(d)| && ResumeMembers(d)[i] == Member(key, value)
    requires Contains(value, w)
    ensures Contains(Text(d), Lower(w))
  {
    MemberContainsValue(key, value, w);
    ObjContains(ResumeMembers(d), i, w);
    TextContains(d, w);
  }

  /** The first six top-level members, in order. */
  lemma ResumeMembersHead(d: ResumeData)
    ensures |ResumeMembers(d)| >= 6
    ensures ResumeMembers(d)[0] == Member("personalInfo", PersonalInfoJson(d.personalInfo))
    ensures ResumeMembers(d)[1] == Member("experiences", Array(d.experiences, ExperienceJson))
    ensures ResumeMembers(d)[2] == Member("education", Array(d.education, EducationJson))
    ensures ResumeMembers(d)[3] == Member("skills", Array(d.skills, SkillJson))
    ensures ResumeMembers(d)[4] == Member("projects", Array(d.projects, ProjectJson))
    ensures ResumeMembers(d)[5] == Member("certifications", Array(d.certifications, CertificationJson))
  {
  }

  /** Whatever the serialised experiences (k = 1) or skills (k = 3) contain
      is found in the text. */
  lemma SectionValueInText(d: ResumeData, k: nat, w: string)
    requires k == 1 || k == 3
    requires k == 1 ==> Contains(Array(d.experiences, ExperienceJson), w)
    requires k == 3 ==> Contains(Array(d.skills, SkillJson), w)
    ensures Contains(Text(d), Lower(w))
  {
    ResumeMembersHead(d);
    if k == 1 {
      TopValueInText(d, 1, "experiences", Array(d.experiences, ExperienceJson), w);
    } else {
      TopValueInText(d, 3, "skills", Array(d.skills, SkillJson), w);
    }
  }

  /** The section names are the six top-level keys, lower-cased. */
  lemma SectionNamesLower()
    ensures SectionNames[0] == Lower("personalInfo") && SectionNames[1] == Lower("experiences")
    ensures SectionNames[2] == Lower("education") && SectionNames[3] == Lower("skills")
    ensures SectionNames[4] == Lower("projects") && SectionNames[5] == Lower("certifications")
  {
  }

  /** The lower-cased keys of the six top-level members that every resume has. */
  const SectionNames: seq<string> :=
    ["personalinfo", "experiences", "education", "skills", "projects", "certifications"]

  /** The names of the six always-present top-level sections occur in the
      text of every resume, whatever it holds. */
  lemma SectionNameInText(d: ResumeData, k: nat)
    requires k < |SectionNames|
    ensures Contains(Text(d), SectionNames[k])
  {
    SectionNamesLower();
    ResumeMembersHead(d);
    if k == 0 {
      TopKeyInText(d, 0, "personalInfo", PersonalInfoJson(d.personalInfo));
    } else if k == 1 {
      TopKeyInText(d, 1, "experiences", Array(d.experiences, ExperienceJson));
    } else if k == 2 {
      TopKeyInText(d, 2, "education", Array(d.education, EducationJson));
    } else if k == 3 {
      TopKeyInText(d, 3, "skills", Array(d.skills, SkillJson));
    } else if k == 4 {
      TopKeyInText(d, 4, "projects", Array(d.projects, ProjectJson));
    } else {
      TopKeyInText(d, 5, "certifications", Array(d.certifications, CertificationJson));
    }
  }

  lemma SkillJsonContainsName(s: Skill)
    ensures Contains(SkillJson(s), Escape(s.name))
  {
    var sm := [Member("id", Quote(s.id)), Member("name", Quote(s.name)),
               Member("level", Quote(SkillLevelName(s.level))), Member("category", Quote(s.category))];
    QuoteContains(s.name);
    MemberContainsValue("name", Quote(s.name), Escape(s.name));
    ObjContains(sm, 1, Escape(s.name));
  }

  /** Every skill name is part of the text, escaped and lower-cased; a name
      that needs no escape is there as it is, lower-cased: adding such a
      skill is a way to make a job-description word match. */
  lemma SkillNameInText(d: ResumeData, i: nat)
    requires i < |d.skills|
    ensures Contains(Text(d), Lower(Escape(d.skills[i].name)))
    ensures PlainString(d.skills[i].name) ==> Contains(Text(d), Lower(d.skills[i].name))
  {
    EscapedSkillNameInText(d, i);
    if PlainString(d.skills[i].name) {
      EscapePlain(d.skills[i].name);
    }
  }

  lemma EscapedSkillNameInText(d: ResumeData, i: nat)
    requires i < |d.skills|
    ensures Contains(Text(d), Lower(Escape(d.skills[i].name)))
  {
    var w := Escape(d.skills[i].name);
    SkillJsonContainsName(d.skills[i]);
    ArrayContains(d.skills, SkillJson, i, w);
    SectionValueInText(d, 3, w);
  }

  lemma ExperienceJsonContainsDescription(e: Experience)
    ensures Contains(ExperienceJson(e), Escape(e.description))
  {
    var em := [Member("id", Quote(e.id)), Member("company", Quote(e.company)),
               Member("position", Quote(e.position)), Member("startDate", Quote(e.startDate)),
               Member("endDate", Quote(e.endDate)), Member("current", BoolJson(e.current)),
               Member("description", Quote(e.description)),
               Member("achievements", Array(e.achievements, StringJson))];
    QuoteContains(e.description);
    MemberContainsValue("description", Quote(e.description), Escape(e.description));
    ObjContains(em, 6, Escape(e.description));
  }

  /** The description of every experience is part of the text, escaped and
      lower-cased; one without quotes, backslashes or line breaks is there
      as it is, lower-cased. */
  lemma ExperienceDescriptionInText(d: ResumeData, i: nat)
    requires i < |d.experiences|
    ensures Contains(Text(d), Lower(Escape(d.experiences[i].description)))
    ensures PlainString(d.experiences[i].description) ==> Contains(Text(d), Lower(d.experiences[i].description))
  {
    EscapedDescriptionInText(d, i);
    if PlainString(d.experiences[i].description) {
      EscapePlain(d.experiences[i].description);
    }
  }

  lemma EscapedDescriptionInText(d: ResumeData, i: nat)
    requires i < |d.experiences|
    ensures Contains(Text(d), Lower(Escape(d.experiences[i].description)))
  {
    var w := Escape(d.experiences[i].description);
    ExperienceJsonContainsDescription(d.experiences[i]);
    ArrayContains(d.experiences, ExperienceJson, i, w);
    SectionValueInText(d, 1, w);
  }
}
