/** The skills section editor. The helpers build a new skills list from the
    old one (spread, `filter`, `map`), so they are functions; the grouping
    of skills by category pushes into an accumulator object, so it is a
    method with the loop of the `reduce`, proved against `InCategory`. No two
    skills have names that are equal ignoring case, and each helper keeps
    that so. */
module SkillsForm {
  import opened Seqs
  import opened Strings
  import opened ResumeTypes

  /** `skillSuggestions`: a suggestion list for each of five industries. */
  const SkillSuggestions: map<string, seq<string>> := map[
    "software" := ["JavaScript", "TypeScript", "React", "Node.js", "Python", "Git", "AWS", "Docker",
                   "SQL", "REST APIs", "Agile", "CI/CD"],
    "marketing" := ["SEO", "Google Analytics", "Content Marketing", "Social Media", "Email Marketing",
                    "CRM", "A/B Testing", "Copywriting", "PPC", "Brand Strategy"],
    "finance" := ["Financial Analysis", "Excel", "Financial Modeling", "Budgeting", "Forecasting",
                  "SAP", "Bloomberg", "Risk Assessment", "Accounting", "Compliance"],
    "healthcare" := ["Patient Care", "EMR Systems", "HIPAA Compliance", "Medical Terminology",
                     "Clinical Documentation", "Vital Signs", "Medication Administration"],
    "general" := ["Communication", "Leadership", "Problem Solving", "Team Collaboration",
                  "Project Management", "Time Management", "Critical Thinking", "Adaptability"]
  ]

  /** The categories offered by the category selector. */
  const Categories: seq<string> := ["Technical", "Soft Skills", "Tools", "Languages", "Certifications", "Other"]

  /** The skills the form edits, together with its own input cells: the
      name being typed, the selected category and the selected level. */
  datatype SkillsState = SkillsState(
    data: seq<Skill>,
    newSkill: string,
    newCategory: string,
    newLevel: SkillLevel)

  /** The input cells start empty, on 'Technical' and on 'intermediate'. */
  function InitialState(data: seq<Skill>): (st: SkillsState)
    ensures st.data == data && st.newSkill == ""
    ensures st.newCategory == Categories[0] && st.newLevel == Intermediate
  {
    SkillsState(data, "", "Technical", Intermediate)
  }

  /** `data.some(s => s.name.toLowerCase() === name.toLowerCase())`. */
  predicate NameTaken(data: seq<Skill>, name: string)
  {
    exists i :: 0 <= i < |data| && Lower(data[i].name) == Lower(name)
  }

  /** The invariant of the skills list: names are unique ignoring case. */
  ghost predicate NamesUnique(data: seq<Skill>)
  {
    forall i, j :: 0 <= i < j < |data| ==> Lower(data[i].name) != Lower(data[j].name)
  }

  /** `skillName || newSkill.trim()`: an explicit non-empty name wins, and
      only the typed input is trimmed. */
  function ChosenName(skillName: Option<string>, input: string): (name: string)
    ensures skillName.Some? && skillName.value != "" ==> name == skillName.value
    ensures (skillName.None? || skillName.value == "") ==>
              name == Trim(input) && (name == "" <==> AllSpace(input))
  {
    if skillName.Some? && skillName.value != "" then skillName.value else Trim(input)
  }

  /** `addSkill(skillName?)` with `id` for `Date.now()`: nothing happens when
      the chosen name is empty or already present ignoring case; otherwise
      exactly one skill with that name and the selected level and category
      is appended and the input is cleared. */
  function AddSkill(st: SkillsState, skillName: Option<string>, id: string): (r: SkillsState)
    ensures var name := ChosenName(skillName, st.newSkill);
      && (name == "" || NameTaken(st.data, name) <==> r == st)
      && (name != "" && !NameTaken(st.data, name) ==>
            && |r.data| == |st.data| + 1
            && r.data[..|st.data|] == st.data
            && r.data[|st.data|] == Skill(id, name, st.newLevel, st.newCategory)
            && r.newSkill == ""
            && r.newCategory == st.newCategory && r.newLevel == st.newLevel)
  {
    var name := ChosenName(skillName, st.newSkill);
    if name == "" || NameTaken(st.data, name) then st
    else
      var r := st.(data := st.data + [Skill(id, name, st.newLevel, st.newCategory)], newSkill := "");
      assert |r.data| != |st.data|;
      r
  }

  /** `removeSkill(id)`: the kept skills are those with another id, and with
      the dropped ones they interleave to the old list, so order is kept. */
  function RemoveSkill(data: seq<Skill>, id: string): (r: seq<Skill>)
    ensures forall i :: 0 <= i < |r| ==> r[i].id != id
    ensures forall i :: 0 <= i < |data| && data[i].id != id ==> data[i] in r
    ensures Interleaving(r, Filter(data, (s: Skill) => s.id == id), data)
  {
    FilterPartition(data, (s: Skill) => s.id != id, (s: Skill) => s.id == id);
    Filter(data, (s: Skill) => s.id != id)
  }

  /** `updateSkillLevel(id, level)`: only the level changes, and only on the
      skills with that id; ids, names, categories and order stay. */
  function UpdateSkillLevel(data: seq<Skill>, id: string, level: SkillLevel): (r: seq<Skill>)
    ensures |r| == |data|
    ensures forall i :: 0 <= i < |r| ==>
              r[i].id == data[i].id && r[i].name == data[i].name && r[i].category == data[i].category
    ensures forall i :: 0 <= i < |r| ==> r[i].level == if data[i].id == id then level else data[i].level
  {
    UpdateWhere(data, (s: Skill) => s.id == id, (s: Skill) => s.(level := level))
  }

  /** A successful add makes the name taken; adding the same name again
      changes nothing, whichever way the name was given. */
  lemma AddSkillTwice(st: SkillsState, skillName: Option<string>, id: string, id': string)
    ensures AddSkill(AddSkill(st, skillName, id), skillName, id') == AddSkill(st, skillName, id)
  {
    var name := ChosenName(skillName, st.newSkill);
    var r := AddSkill(st, skillName, id);
    if name != "" && !NameTaken(st.data, name) {
      assert r.data[|st.data|].name == name;
      assert NameTaken(r.data, name);
      if skillName.None? || skillName.value == "" {
        assert ChosenName(skillName, r.newSkill) == "";
      }
    }
  }

  /** Adding keeps skill names unique. */
  lemma AddSkillKeepsNamesUnique(st: SkillsState, skillName: Option<string>, id: string)
    requires NamesUnique(st.data)
    ensures NamesUnique(AddSkill(st, skillName, id).data)
  {
    var name := ChosenName(skillName, st.newSkill);
    var r := AddSkill(st, skillName, id).data;
    if name != "" && !NameTaken(st.data, name) {
      forall i, j | 0 <= i < j < |r| ensures Lower(r[i].name) != Lower(r[j].name) {
        if j == |st.data| {
          assert r[i] == st.data[i];
        } else {
          assert r[i] == st.data[i] && r[j] == st.data[j];
        }
      }
    }
  }

  /** Filtering keeps skill names unique. */
  lemma {:induction false} FilterKeepsNamesUnique(data: seq<Skill>, p: Skill -> bool)
    requires NamesUnique(data)
    ensures NamesUnique(Filter(data, p))
    decreases |data|
  {
    if data != [] {
      var init, x := data[..|data| - 1], data[|data| - 1];
      assert NamesUnique(init) by {
        forall i, j | 0 <= i < j < |init| ensures Lower(init[i].name) != Lower(init[j].name) {
          assert init[i] == data[i] && init[j] == data[j];
        }
      }
      FilterKeepsNamesUnique(init, p);
      var f := Filter(init, p);
      if p(x) {
        var r := f + [x];
        forall i, j | 0 <= i < j < |r| ensures Lower(r[i].name) != Lower(r[j].name) {
          if j == |f| {
            assert r[i] in init;
            var k :| 0 <= k < |init| && init[k] == r[i];
            assert data[k] == r[i];
          } else {
            assert r[i] == f[i] && r[j] == f[j];
          }
        }
      }
    }
  }

  /** Removing keeps skill names unique. */
  lemma RemoveSkillKeepsNamesUnique(data: seq<Skill>, id: string)
    requires NamesUnique(data)
    ensures NamesUnique(RemoveSkill(data, id))
  {
    FilterKeepsNamesUnique(data, (s: Skill) => s.id != id);
  }

  /** Changing levels keeps skill names unique. */
  lemma UpdateSkillLevelKeepsNamesUnique(data: seq<Skill>, id: string, level: SkillLevel)
    requires NamesUnique(data)
    ensures NamesUnique(UpdateSkillLevel(data, id, level))
  {
  }

  /** Of two level changes on the same id only the later one is visible. */
  lemma UpdateSkillLevelTwice(data: seq<Skill>, id: string, l1: SkillLevel, l2: SkillLevel)
    ensures UpdateSkillLevel(UpdateSkillLevel(data, id, l1), id, l2) == UpdateSkillLevel(data, id, l2)
  {
    var a := UpdateSkillLevel(UpdateSkillLevel(data, id, l1), id, l2);
    var b := UpdateSkillLevel(data, id, l2);
    assert forall i :: 0 <= i < |a| ==> a[i] == b[i];
  }

  // ---------------------------------------------------------------------
  // Suggestions
  // ---------------------------------------------------------------------

  /** `skillSuggestions[industry.toLowerCase()] || skillSuggestions.general`,
      with the prop defaulting to 'general'. */
  function Suggestions(industry: Option<string>): (r: seq<string>)
    ensures r in SkillSuggestions.Values
    ensures Lower(industry.GetOr("general")) in SkillSuggestions ==>
      r == SkillSuggestions[Lower(industry.GetOr("general"))]
    ensures Lower(industry.GetOr("general")) !in SkillSuggestions ==> r == SkillSuggestions["general"]
    ensures industry.None? ==> r == SkillSuggestions["general"]
  {
    var key := Lower(industry.GetOr("general"));
    assert industry.None? ==> key == "general";
    if key in SkillSuggestions then SkillSuggestions[key] else SkillSuggestions["general"]
  }

  /** `unusedSuggestions`: the suggestions no skill has taken ignoring case,
      in dictionary order. */
  function UnusedSuggestions(industry: Option<string>, data: seq<Skill>): (r: seq<string>)
    ensures forall i :: 0 <= i < |r| ==> r[i] in Suggestions(industry) && !NameTaken(data, r[i])
    ensures forall w :: w in Suggestions(industry) && !NameTaken(data, w) ==> w in r
    ensures Subseq(r, Suggestions(industry))
  {
    var all := Suggestions(industry);
    FilterIsSubseq(all, (w: string) => !NameTaken(data, w));
    Filter(all, (w: string) => !NameTaken(data, w))
  }

  /** The badges shown: the first eight unused suggestions, or all of them
      when there are fewer. */
  function ShownSuggestions(industry: Option<string>, data: seq<Skill>): (r: seq<string>)
    ensures var u := UnusedSuggestions(industry, data); |r| == if |u| < 8 then |u| else 8
    ensures r <= UnusedSuggestions(industry, data)
  {
    Take(UnusedSuggestions(industry, data), 8)
  }

  /** No suggestion is the empty string. */
  lemma SuggestionsNonEmpty(industry: Option<string>, w: string)
    requires w in Suggestions(industry)
    ensures w != ""
  {
    var r := Suggestions(industry);
    if r == SkillSuggestions["software"] {
    } else if r == SkillSuggestions["marketing"] {
    } else if r == SkillSuggestions["finance"] {
    } else if r == SkillSuggestions["healthcare"] {
    } else {
      assert r == SkillSuggestions["general"];
    }
  }

  /** Clicking a shown suggestion adds it, and it is no longer suggested. */
  lemma AddShownSuggestion(industry: Option<string>, st: SkillsState, w: string, id: string)
    requires w in ShownSuggestions(industry, st.data)
    ensures AddSkill(st, Some(w), id).data == st.data + [Skill(id, w, st.newLevel, st.newCategory)]
    ensures w !in UnusedSuggestions(industry, AddSkill(st, Some(w), id).data)
  {
    assert w in UnusedSuggestions(industry, st.data);
    SuggestionsNonEmpty(industry, w);
    var r := AddSkill(st, Some(w), id).data;
    assert r == st.data + [Skill(id, w, st.newLevel, st.newCategory)];
    assert r[|st.data|].name == w;
    assert NameTaken(r, w);
  }

  // ---------------------------------------------------------------------
  // Grouping by category
  // ---------------------------------------------------------------------

  /** The category of each skill, in list order. */
  function CategoriesOf(data: seq<Skill>): (r: seq<string>)
    ensures |r| == |data|
    ensures forall i :: 0 <= i < |data| ==> r[i] == data[i].category
  {
    seq(|data|, i requires 0 <= i < |data| => data[i].category)
  }

  /** The skills of one category, in list order. */
  function InCategory(data: seq<Skill>, k: string): seq<Skill>
  {
    Filter(data, (s: Skill) => s.category == k)
  }

  /** One more skill, as the loop of `GroupSkills` sees it. */
  lemma InCategoryStep(data: seq<Skill>, i: nat)
    requires i < |data|
    ensures forall k :: InCategory(data[..i + 1], k)
              == InCategory(data[..i], k) + (if data[i].category == k then [data[i]] else [])
  {
    assert data[..i + 1] == data[..i] + [data[i]];
    forall k
      ensures InCategory(data[..i + 1], k)
              == InCategory(data[..i], k) + (if data[i].category == k then [data[i]] else [])
    {
      FilterAppend(data[..i], data[i], (s: Skill) => s.category == k);
    }
  }

  /** A category not seen yet has an empty group so far. */
  lemma InCategoryUnseen(data: seq<Skill>, k: string)
    requires k !in CategoriesOf(data)
    ensures InCategory(data, k) == []
  {
    FilterKeepsNone(data, (s: Skill) => s.category == k);
  }

  lemma DedupeStep(cats: seq<string>, i: nat)
    requires i < |cats|
    ensures Dedupe(cats[..i + 1])
            == if cats[i] in cats[..i] then Dedupe(cats[..i]) else Dedupe(cats[..i]) + [cats[i]]
    ensures forall k :: k in Dedupe(cats[..i]) <==> k in cats[..i]
  {
    assert cats[..i + 1][..i] == cats[..i];
  }

  /** What the accumulator holds after the first `n` skills: the keys in
      order of first appearance, and for each key its skills in list order. */
  ghost predicate GroupedUpTo(data: seq<Skill>, n: nat, order: seq<string>, groups: map<string, seq<Skill>>)
    requires n <= |data|
  {
    && order == Dedupe(CategoriesOf(data)[..n])
    && (forall k :: k in groups <==> k in order)
    && (forall k :: k in groups ==> groups[k] == InCategory(data[..n], k))
  }

  /** One turn of the `reduce`: create the category's array if missing,
      then push the skill onto it. */
  lemma GroupStep(data: seq<Skill>, n: nat, order: seq<string>, groups: map<string, seq<Skill>>)
    requires n < |data| && GroupedUpTo(data, n, order, groups)
    ensures var c := data[n].category;
      GroupedUpTo(data, n + 1,
                  if c in groups then order else order + [c],
                  groups[c := (if c in groups then groups[c] else []) + [data[n]]])
  {
    GroupStepOrder(data, n, order, groups);
    GroupStepGroups(data, n, order, groups);
  }

  lemma GroupStepOrder(data: seq<Skill>, n: nat, order: seq<string>, groups: map<string, seq<Skill>>)
    requires n < |data| && GroupedUpTo(data, n, order, groups)
    ensures var c := data[n].category;
      && (if c in groups then order else order + [c]) == Dedupe(CategoriesOf(data)[..n + 1])
      && c in Dedupe(CategoriesOf(data)[..n + 1])
  {
    var cats := CategoriesOf(data);
    DedupeStep(cats, n);
    assert cats[n] == data[n].category;
  }

  lemma GroupStepGroups(data: seq<Skill>, n: nat, order: seq<string>, groups: map<string, seq<Skill>>)
    requires n < |data| && GroupedUpTo(data, n, order, groups)
    ensures var c := data[n].category;
      var groups' := groups[c := (if c in groups then groups[c] else []) + [data[n]]];
      forall k :: k in groups' ==> groups'[k] == InCategory(data[..n + 1], k)
  {
    var c := data[n].category;
    var groups' := groups[c := (if c in groups then groups[c] else []) + [data[n]]];
    InCategoryStep(data, n);
    if c !in groups {
      var cats := CategoriesOf(data);
      DedupeStep(cats, n);
      assert CategoriesOf(data[..n]) == cats[..n];
      InCategoryUnseen(data[..n], c);
    }
    forall k | k in groups' ensures groups'[k] == InCategory(data[..n + 1], k) {
      if k != c {
        assert groups'[k] == groups[k];
      }
    }
  }

  /** `groupedSkills`: the `reduce` that pushes each skill onto the array of
      its category, creating the array on first sight. `order` is the key
      order of the resulting object, which `Object.entries` follows. */
  method GroupSkills(data: seq<Skill>) returns (order: seq<string>, groups: map<string, seq<Skill>>)
    ensures order == Dedupe(CategoriesOf(data))
    ensures forall k :: k in groups <==> k in order
    ensures forall k :: k in groups ==> groups[k] == InCategory(data, k)
  {
    order, groups := [], map[];
    var i := 0;
    while i < |data|
      invariant 0 <= i <= |data|
      invariant GroupedUpTo(data, i, order, groups)
    {
      var skill := data[i];
      GroupStep(data, i, order, groups);
      if skill.category !in groups {
        groups := groups[skill.category := []];
        order := order + [skill.category];
      }
      groups := groups[skill.category := groups[skill.category] + [skill]];
      i := i + 1;
    }
    assert CategoriesOf(data)[..|data|] == CategoriesOf(data);
    assert data[..|data|] == data;
  }

  /** Every skill lies in exactly one group, the one of its own category,
      and each group keeps the relative order of the list. */
  lemma GroupsPartition(data: seq<Skill>, i: nat, k: string)
    requires i < |data|
    ensures data[i] in InCategory(data, k) <==> k == data[i].category
    ensures data[i].category in Dedupe(CategoriesOf(data))
    ensures Subseq(InCategory(data, k), data)
  {
    FilterIsSubseq(data, (s: Skill) => s.category == k);
    assert CategoriesOf(data)[i] == data[i].category;
  }
}
