/** The education editor: add, edit and remove entries of the education
    list, and one expanded entry at a time. Unlike a new experience, a new
    education entry has no achievement lines. */
module EducationForm {
  import opened Seqs
  import opened ResumeTypes
  import opened Accordion

  /** The list being edited and the one expanded entry. */
  datatype EducationState = EducationState(data: seq<Education>, expandedId: Option<string>)

  function Ids(data: seq<Education>): (r: seq<string>)
    ensures |r| == |data| && forall i :: 0 <= i < |data| ==> r[i] == data[i].id
  {
    Map(data, (e: Education) => e.id)
  }

  /** The form opens with the first entry expanded. */
  function InitialState(data: seq<Education>): (st: EducationState)
    ensures st.data == data
    ensures st.expandedId.Some? <==> |data| > 0 && data[0].id != ""
    ensures st.expandedId.Some? ==> st.expandedId.value == data[0].id
  {
    EducationState(data, FirstExpanded(Ids(data)))
  }

  /** A blank entry: an empty GPA and no achievement lines. */
  function BlankEducation(id: string): (e: Education)
    ensures e.id == id && e.gpa == Some("") && e.achievements == []
    ensures e.institution == e.degree == e.field == e.startDate == e.endDate == ""
  {
    Education(id, "", "", "", "", "", Some(""), [])
  }

  /** `addEducation()` with `id` for `Date.now()`: one blank entry is
      appended and becomes the expanded one. */
  function AddEducation(st: EducationState, id: string): (r: EducationState)
    ensures |r.data| == |st.data| + 1 && r.data[..|st.data|] == st.data
    ensures r.data[|st.data|] == BlankEducation(id)
    ensures r.expandedId == Some(id)
  {
    EducationState(st.data + [BlankEducation(id)], Some(id))
  }

  /** A header click opens the entry, or closes it if it was open. */
  function ToggleEducation(st: EducationState, id: string): (r: EducationState)
    ensures r.data == st.data
    ensures r.expandedId == Some(id) <==> st.expandedId != Some(id)
    ensures r.expandedId == None <==> st.expandedId == Some(id)
  {
    st.(expandedId := ToggleExpanded(st.expandedId, id))
  }

  /** `keyof Education` with a value of that field's type; the GPA input
      writes a string, so the GPA becomes present. */
  datatype EducationField =
    | Id(id: string) | Institution(institution: string) | Degree(degree: string)
    | Field(field: string) | StartDate(startDate: string) | EndDate(endDate: string)
    | Gpa(gpa: string) | Achievements(achievements: seq<string>)

  /** `{ ...edu, [field]: value }`: the named field takes the value and
      every other field keeps its own. */
  function SetField(e: Education, f: EducationField): (r: Education)
    ensures r.id == if f.Id? then f.id else e.id
    ensures r.institution == if f.Institution? then f.institution else e.institution
    ensures r.degree == if f.Degree? then f.degree else e.degree
    ensures r.field == if f.Field? then f.field else e.field
    ensures r.startDate == if f.StartDate? then f.startDate else e.startDate
    ensures r.endDate == if f.EndDate? then f.endDate else e.endDate
    ensures r.gpa == if f.Gpa? then Some(f.gpa) else e.gpa
    ensures r.achievements == if f.Achievements? then f.achievements else e.achievements
  {
    match f
    case Id(v) => e.(id := v)
    case Institution(v) => e.(institution := v)
    case Degree(v) => e.(degree := v)
    case Field(v) => e.(field := v)
    case StartDate(v) => e.(startDate := v)
    case EndDate(v) => e.(endDate := v)
    case Gpa(v) => e.(gpa := Some(v))
    case Achievements(v) => e.(achievements := v)
  }

  /** `updateEducation(id, field, value)`: the field is set on every entry
      with that id; every other entry, and the order, stay. */
  function UpdateEducation(data: seq<Education>, id: string, f: EducationField): (r: seq<Education>)
    ensures |r| == |data|
    ensures forall i :: 0 <= i < |data| && data[i].id != id ==> r[i] == data[i]
    ensures forall i :: 0 <= i < |data| && data[i].id == id ==> r[i] == SetField(data[i], f)
  {
    UpdateWhere(data, (e: Education) => e.id == id, (e: Education) => SetField(e, f))
  }

  /** `removeEducation(id)`: the entries with that id go and the rest keep
      their order. */
  function RemoveEducation(data: seq<Education>, id: string): (r: seq<Education>)
    ensures forall i :: 0 <= i < |r| ==> r[i].id != id
    ensures forall i :: 0 <= i < |data| && data[i].id != id ==> data[i] in r
    ensures Interleaving(r, Filter(data, (e: Education) => e.id == id), data)
  {
    FilterPartition(data, (e: Education) => e.id != id, (e: Education) => e.id == id);
    Filter(data, (e: Education) => e.id != id)
  }

  /** Editing a field on a fresh entry after adding it touches only that
      entry: the earlier entries are as they were. */
  lemma AddThenUpdate(st: EducationState, id: string, f: EducationField)
    requires id !in Ids(st.data)
    ensures var r := UpdateEducation(AddEducation(st, id).data, id, f);
      |r| == |st.data| + 1 && r[..|st.data|] == st.data && r[|st.data|] == SetField(BlankEducation(id), f)
  {
    var a := AddEducation(st, id).data;
    var r := UpdateEducation(a, id, f);
    assert forall i :: 0 <= i < |st.data| ==> a[i] == st.data[i] && a[i].id != id;
    assert r[..|st.data|] == st.data;
  }

  /** Removing the entry just added gives the old list back. */
  lemma AddThenRemove(st: EducationState, id: string)
    requires id !in Ids(st.data)
    ensures RemoveEducation(AddEducation(st, id).data, id) == st.data
  {
    assert forall i :: 0 <= i < |st.data| ==> st.data[i].id != id;
    FilterAppend(st.data, BlankEducation(id), (e: Education) => e.id != id);
    FilterAllPass(st.data, (e: Education) => e.id != id);
  }
}
