/** The work-experience editor. Every helper hands a fresh list to
    `onChange`, built with spread, `map` and `filter`, so each is a
    function from the old list to the new one. New entries start with one
    empty achievement and removal never leaves none, so an experience made
    here never draws the "add achievements" penalty of the ATS check. */
module ExperienceForm {
  import opened Seqs
  import opened ResumeTypes
  import opened Accordion
  import opened AtsChecker

  /** The list being edited and the one expanded entry. */
  datatype ExperienceState = ExperienceState(data: seq<Experience>, expandedId: Option<string>)

  function Ids(data: seq<Experience>): (r: seq<string>)
    ensures |r| == |data| && forall i :: 0 <= i < |data| ==> r[i] == data[i].id
  {
    Map(data, (e: Experience) => e.id)
  }

  /** The form opens with the first entry expanded. */
  function InitialState(data: seq<Experience>): (st: ExperienceState)
    ensures st.data == data
    ensures st.expandedId.Some? <==> |data| > 0 && data[0].id != ""
    ensures st.expandedId.Some? ==> st.expandedId.value == data[0].id
  {
    ExperienceState(data, FirstExpanded(Ids(data)))
  }

  /** A blank entry: not current, one empty achievement. */
  function BlankExperience(id: string): (e: Experience)
    ensures e.id == id && !e.current && e.achievements == [""]
    ensures e.company == e.position == e.startDate == e.endDate == e.description == ""
  {
    Experience(id, "", "", "", "", false, "", [""])
  }

  /** `addExperience()` with `id` for `Date.now()`: one blank entry is
      appended and becomes the expanded one. */
  function AddExperience(st: ExperienceState, id: string): (r: ExperienceState)
    ensures |r.data| == |st.data| + 1 && r.data[..|st.data|] == st.data
    ensures r.data[|st.data|] == BlankExperience(id)
    ensures r.expandedId == Some(id)
  {
    ExperienceState(st.data + [BlankExperience(id)], Some(id))
  }

  /** A header click opens the entry, or closes it if it was open. */
  function ToggleExperience(st: ExperienceState, id: string): (r: ExperienceState)
    ensures r.data == st.data
    ensures r.expandedId == Some(id) <==> st.expandedId != Some(id)
    ensures r.expandedId == None <==> st.expandedId == Some(id)
  {
    st.(expandedId := ToggleExpanded(st.expandedId, id))
  }

  /** `keyof Experience` with a value of that field's type. */
  datatype ExperienceField =
    | Id(id: string) | Company(company: string) | Position(position: string)
    | StartDate(startDate: string) | EndDate(endDate: string) | Current(current: bool)
    | Description(description: string) | Achievements(achievements: seq<string>)

  /** The position of the edited field in the record. */
  function FieldKey(f: ExperienceField): nat
  {
    match f
    case Id(_) => 0
    case Company(_) => 1
    case Position(_) => 2
    case StartDate(_) => 3
    case EndDate(_) => 4
    case Current(_) => 5
    case Description(_) => 6
    case Achievements(_) => 7
  }

  /** `{ ...exp, [field]: value }`: the named field takes the value and
      every other field keeps its own. */
  function SetField(e: Experience, f: ExperienceField): (r: Experience)
    ensures r.id == if f.Id? then f.id else e.id
    ensures r.company == if f.Company? then f.company else e.company
    ensures r.position == if f.Position? then f.position else e.position
    ensures r.startDate == if f.StartDate? then f.startDate else e.startDate
    ensures r.endDate == if f.EndDate? then f.endDate else e.endDate
    ensures r.current == if f.Current? then f.current else e.current
    ensures r.description == if f.Description? then f.description else e.description
    ensures r.achievements == if f.Achievements? then f.achievements else e.achievements
  {
    match f
    case Id(v) => e.(id := v)
    case Company(v) => e.(company := v)
    case Position(v) => e.(position := v)
    case StartDate(v) => e.(startDate := v)
    case EndDate(v) => e.(endDate := v)
    case Current(v) => e.(current := v)
    case Description(v) => e.(description := v)
    case Achievements(v) => e.(achievements := v)
  }

  /** `updateExperience(id, field, value)`: the field is set on every entry
      with that id; every other entry, and the order, stay. */
  function UpdateExperience(data: seq<Experience>, id: string, f: ExperienceField): (r: seq<Experience>)
    ensures |r| == |data|
    ensures forall i :: 0 <= i < |data| && data[i].id != id ==> r[i] == data[i]
    ensures forall i :: 0 <= i < |data| && data[i].id == id ==> r[i] == SetField(data[i], f)
  {
    UpdateWhere(data, (e: Experience) => e.id == id, (e: Experience) => SetField(e, f))
  }

  /** `updateAchievement(expId, index, value)`: one line of the achievements
      of every entry with that id is replaced, or appended when `index` is
      the length; nothing else changes. */
  function UpdateAchievement(data: seq<Experience>, expId: string, index: nat, value: string): (r: seq<Experience>)
    ensures |r| == |data|
    ensures forall i :: 0 <= i < |data| && data[i].id != expId ==> r[i] == data[i]
    ensures forall i :: 0 <= i < |data| && data[i].id == expId ==>
              r[i] == data[i].(achievements := r[i].achievements)
              && |r[i].achievements| == |data[i].achievements| + (if index == |data[i].achievements| then 1 else 0)
              && (index <= |data[i].achievements| ==> r[i].achievements[index] == value)
              && forall j :: 0 <= j < |data[i].achievements| && j != index ==>
                   r[i].achievements[j] == data[i].achievements[j]
  {
    seq(|data|, i requires 0 <= i < |data| =>
      if data[i].id == expId then data[i].(achievements := SetAt(data[i].achievements, index, value))
      else data[i])
  }

  /** `addAchievement(expId)`: an empty line is appended to the
      achievements of every entry with that id. */
  function AddAchievement(data: seq<Experience>, expId: string): (r: seq<Experience>)
    ensures |r| == |data|
    ensures forall i :: 0 <= i < |data| && data[i].id != expId ==> r[i] == data[i]
    ensures forall i :: 0 <= i < |data| && data[i].id == expId ==>
              r[i] == data[i].(achievements := r[i].achievements)
              && |r[i].achievements| == |data[i].achievements| + 1
              && r[i].achievements[..|data[i].achievements|] == data[i].achievements
              && r[i].achievements[|data[i].achievements|] == ""
  {
    seq(|data|, i requires 0 <= i < |data| =>
      if data[i].id == expId then data[i].(achievements := data[i].achievements + [""]) else data[i])
  }

  /** The achievements after deleting line `index`: `['']` in place of an
      empty list. */
  function WithoutLine(a: seq<string>, index: nat): (r: seq<string>)
    ensures |r| > 0
    ensures index < |a| && |a| > 1 ==> r == RemoveAt(a, index)
    ensures index < |a| && |a| == 1 ==> r == [""]
    ensures index >= |a| && |a| > 0 ==> r == a
    ensures |a| == 0 ==> r == [""]
  {
    var rest := RemoveAt(a, index);
    if |rest| == 0 then [""] else rest
  }

  /** `removeAchievement(expId, index)`: the line is deleted from every
      entry with that id, leaving at least one line. */
  function RemoveAchievement(data: seq<Experience>, expId: string, index: nat): (r: seq<Experience>)
    ensures |r| == |data|
    ensures forall i :: 0 <= i < |data| && data[i].id != expId ==> r[i] == data[i]
    ensures forall i :: 0 <= i < |data| && data[i].id == expId ==>
              r[i] == data[i].(achievements := WithoutLine(data[i].achievements, index))
              && |r[i].achievements| > 0
  {
    seq(|data|, i requires 0 <= i < |data| =>
      if data[i].id == expId then data[i].(achievements := WithoutLine(data[i].achievements, index))
      else data[i])
  }

  /** `removeExperience(id)`: the entries with that id go and the rest keep
      their order. */
  function RemoveExperience(data: seq<Experience>, id: string): (r: seq<Experience>)
    ensures forall i :: 0 <= i < |r| ==> r[i].id != id
    ensures forall i :: 0 <= i < |data| && data[i].id != id ==> data[i] in r
    ensures Interleaving(r, Filter(data, (e: Experience) => e.id == id), data)
  {
    FilterPartition(data, (e: Experience) => e.id != id, (e: Experience) => e.id == id);
    Filter(data, (e: Experience) => e.id != id)
  }

  // ---------------------------------------------------------------------
  // The editor's invariant
  // ---------------------------------------------------------------------

  /** Every experience has at least one achievement line. */
  ghost predicate AchievementsPresent(data: seq<Experience>)
  {
    forall i :: 0 <= i < |data| ==> |data[i].achievements| > 0
  }

  /** A new entry has an achievement line. */
  lemma AddExperienceKeepsAchievements(st: ExperienceState, id: string)
    requires AchievementsPresent(st.data)
    ensures AchievementsPresent(AddExperience(st, id).data)
  {
    var d := AddExperience(st, id).data;
    assert forall i :: 0 <= i < |st.data| ==> d[i] == st.data[i];
  }

  /** Editing a field keeps the lines, unless an empty list is written
      into the achievements field itself. */
  lemma UpdateExperienceKeepsAchievements(data: seq<Experience>, id: string, f: ExperienceField)
    requires AchievementsPresent(data)
    requires f != Achievements([])
    ensures AchievementsPresent(UpdateExperience(data, id, f))
  {
  }

  lemma UpdateAchievementKeepsAchievements(data: seq<Experience>, id: string, index: nat, value: string)
    requires AchievementsPresent(data)
    ensures AchievementsPresent(UpdateAchievement(data, id, index, value))
  {
  }

  lemma AddAchievementKeepsAchievements(data: seq<Experience>, id: string)
    requires AchievementsPresent(data)
    ensures AchievementsPresent(AddAchievement(data, id))
  {
  }

  lemma RemoveExperienceKeepsAchievements(data: seq<Experience>, id: string)
    requires AchievementsPresent(data)
    ensures AchievementsPresent(RemoveExperience(data, id))
  {
    var r := RemoveExperience(data, id);
    assert forall i :: 0 <= i < |r| ==> r[i] in data;
  }

  /** Removing a line keeps the invariant; it holds afterwards for the
      edited entries even when they had no lines before. */
  lemma RemoveAchievementKeepsAchievements(data: seq<Experience>, id: string, index: nat)
    requires AchievementsPresent(data)
    ensures AchievementsPresent(RemoveAchievement(data, id, index))
  {
  }

  /** A resume whose experiences all have achievement lines draws no
      "add achievements" penalty: readability loses only for long
      descriptions and a long summary. */
  lemma NoAchievementPenalty(d: ResumeData)
    requires AchievementsPresent(d.experiences)
    ensures Filter(d.experiences, NoAchievements) == []
    ensures ReadabilityScore(d)
            == 100 - 10 * |Filter(d.experiences, LongDescription)| - (if LongSummary(d) then 10 else 0)
  {
    FilterKeepsNone(d.experiences, NoAchievements);
  }

  /** Ids from the clock are fresh, so an added entry keeps ids unique. */
  lemma AddExperienceFreshId(st: ExperienceState, id: string)
    requires Distinct(Ids(st.data)) && id !in Ids(st.data)
    ensures Distinct(Ids(AddExperience(st, id).data))
  {
    var r := AddExperience(st, id).data;
    assert Ids(r) == Ids(st.data) + [id];
  }

  /** Of two writes to the same field of the same entries only the later
      one is visible. */
  lemma UpdateExperienceTwice(data: seq<Experience>, id: string, f: ExperienceField, g: ExperienceField)
    requires FieldKey(f) == FieldKey(g) && !f.Id?
    ensures UpdateExperience(UpdateExperience(data, id, f), id, g) == UpdateExperience(data, id, g)
  {
    var a := UpdateExperience(UpdateExperience(data, id, f), id, g);
    var b := UpdateExperience(data, id, g);
    assert forall i :: 0 <= i < |a| ==> a[i] == b[i];
  }
}
