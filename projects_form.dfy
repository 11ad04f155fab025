/** The projects editor. Its helpers build new lists with spread, `map` and
    `filter`, so each is a function. The technology and highlight helpers
    first look the project up with `find` and then write the list they
    derived from that first match into every project with the id. Two
    facts the editor keeps: technologies have no duplicates, and a project
    always has at least one highlight line. */
module ProjectsForm {
  import opened Seqs
  import opened Strings
  import opened ResumeTypes
  import opened Accordion

  /** The list being edited, the ids of the open entries and the typed
      technology per project. */
  datatype ProjectsState = ProjectsState(
    data: seq<Project>,
    openItems: seq<string>,
    newTech: map<string, string>)

  function Ids(data: seq<Project>): (r: seq<string>)
    ensures |r| == |data| && forall i :: 0 <= i < |data| ==> r[i] == data[i].id
  {
    Map(data, (p: Project) => p.id)
  }

  /** Every project starts open and nothing is typed. */
  function InitialState(data: seq<Project>): (st: ProjectsState)
    ensures st.data == data && st.newTech == map[]
    ensures forall id :: id in st.openItems <==> exists i :: 0 <= i < |data| && data[i].id == id
  {
    ProjectsState(data, Ids(data), map[])
  }

  /** A blank project: no technologies, an empty link and one empty
      highlight line. */
  function BlankProject(id: string): (p: Project)
    ensures p.id == id && p.name == "" && p.description == ""
    ensures p.technologies == [] && p.link == Some("") && p.highlights == [""]
  {
    Project(id, "", "", [], Some(""), [""])
  }

  /** `addProject()` with `id` for `Date.now()`: a blank project is appended
      and its id is added to the open ones. */
  function AddProject(st: ProjectsState, id: string): (r: ProjectsState)
    ensures |r.data| == |st.data| + 1 && r.data[..|st.data|] == st.data
    ensures r.data[|st.data|] == BlankProject(id)
    ensures r.openItems == st.openItems + [id] && r.newTech == st.newTech
  {
    st.(data := st.data + [BlankProject(id)], openItems := st.openItems + [id])
  }

  /** `removeProject(id)`: the id leaves both the list and the open ids;
      everything else stays, in order. */
  function RemoveProject(st: ProjectsState, id: string): (r: ProjectsState)
    ensures forall i :: 0 <= i < |r.data| ==> r.data[i].id != id
    ensures Interleaving(r.data, Filter(st.data, (p: Project) => p.id == id), st.data)
    ensures id !in r.openItems
    ensures forall x :: x != id ==> (x in r.openItems <==> x in st.openItems)
    ensures Subseq(r.openItems, st.openItems) && r.newTech == st.newTech
  {
    FilterPartition(st.data, (p: Project) => p.id != id, (p: Project) => p.id == id);
    FilterIsSubseq(st.openItems, (x: string) => x != id);
    st.(data := Filter(st.data, (p: Project) => p.id != id),
        openItems := Filter(st.openItems, (x: string) => x != id))
  }

  /** A header click opens or closes exactly that project. */
  function ToggleItem(st: ProjectsState, id: string): (r: ProjectsState)
    ensures r.data == st.data && r.newTech == st.newTech
    ensures id in r.openItems <==> id !in st.openItems
    ensures forall x :: x != id ==> (x in r.openItems <==> x in st.openItems)
  {
    st.(openItems := ToggleOpen(st.openItems, id))
  }

  /** `keyof Project` with a value of that field's type; the link input
      writes a string, so the link becomes present. */
  datatype ProjectField =
    | Id(id: string) | Name(name: string) | Description(description: string)
    | Technologies(technologies: seq<string>) | Link(link: string) | Highlights(highlights: seq<string>)

  /** `{ ...p, [field]: value }`: the named field takes the value and every
      other field keeps its own. */
  function SetField(p: Project, f: ProjectField): (r: Project)
    ensures r.id == if f.Id? then f.id else p.id
    ensures r.name == if f.Name? then f.name else p.name
    ensures r.description == if f.Description? then f.description else p.description
    ensures r.technologies == if f.Technologies? then f.technologies else p.technologies
    ensures r.link == if f.Link? then Some(f.link) else p.link
    ensures r.highlights == if f.Highlights? then f.highlights else p.highlights
  {
    match f
    case Id(v) => p.(id := v)
    case Name(v) => p.(name := v)
    case Description(v) => p.(description := v)
    case Technologies(v) => p.(technologies := v)
    case Link(v) => p.(link := Some(v))
    case Highlights(v) => p.(highlights := v)
  }

  /** `updateProject(id, field, value)`: the field is set on every project
      with that id; every other project, and the order, stay. */
  function UpdateProject(data: seq<Project>, id: string, f: ProjectField): (r: seq<Project>)
    ensures |r| == |data|
    ensures forall i :: 0 <= i < |data| && data[i].id != id ==> r[i] == data[i]
    ensures forall i :: 0 <= i < |data| && data[i].id == id ==> r[i] == SetField(data[i], f)
  {
    UpdateWhere(data, (p: Project) => p.id == id, (p: Project) => SetField(p, f))
  }

  /** The index of the first project with the id, or `|data|` if none. */
  function FirstIndex(data: seq<Project>, id: string): (k: nat)
    ensures k <= |data|
    ensures forall j :: 0 <= j < k ==> data[j].id != id
    ensures k < |data| ==> data[k].id == id
    decreases |data|
  {
    if data == [] || data[0].id == id then 0
    else 1 + FirstIndex(data[1..], id)
  }

  /** `data.find(p => p.id === id)`: the first project with the id. */
  function Find(data: seq<Project>, id: string): (r: Option<Project>)
    ensures r.None? <==> forall i :: 0 <= i < |data| ==> data[i].id != id
    ensures r.Some? ==> FirstIndex(data, id) < |data| && r.value == data[FirstIndex(data, id)]
    ensures r.Some? ==> r.value in data && r.value.id == id
  {
    var k := FirstIndex(data, id);
    if k < |data| then Some(data[k]) else None
  }

  /** When `addTechnology` acts: the trimmed input is non-empty, the
      project exists and its technologies do not hold that exact text. */
  predicate TechAccepted(st: ProjectsState, projectId: string)
  {
    && projectId in st.newTech
    && Trim(st.newTech[projectId]) != ""
    && Find(st.data, projectId).Some?
    && Trim(st.newTech[projectId]) !in Find(st.data, projectId).value.technologies
  }

  /** `addTechnology(projectId)`: when accepted, every project with the id
      gets the first match's technologies plus the trimmed text, and that
      project's input is cleared; otherwise nothing changes. */
  function AddTechnology(st: ProjectsState, projectId: string): (r: ProjectsState)
    ensures r.openItems == st.openItems
    ensures !TechAccepted(st, projectId) ==> r == st
    ensures TechAccepted(st, projectId) ==>
              && r.data == UpdateProject(st.data, projectId,
                             Technologies(Find(st.data, projectId).value.technologies
                                          + [Trim(st.newTech[projectId])]))
              && r.newTech == st.newTech[projectId := ""]
  {
    if projectId !in st.newTech then st
    else
      var tech := Trim(st.newTech[projectId]);
      if tech == "" then st
      else
        match Find(st.data, projectId)
        case None => st
        case Some(first) =>
          if tech in first.technologies then st
          else
            st.(data := UpdateProject(st.data, projectId, Technologies(first.technologies + [tech])),
                newTech := st.newTech[projectId := ""])
  }

  /** `removeTechnology(projectId, tech)`: every copy of `tech` is taken out
      of the first match's technologies and the result is written to every
      project with the id; a missing project changes nothing. */
  function RemoveTechnology(data: seq<Project>, projectId: string, tech: string): (r: seq<Project>)
    ensures Find(data, projectId).None? ==> r == data
    ensures Find(data, projectId).Some? ==>
              r == UpdateProject(data, projectId,
                                 Technologies(Filter(Find(data, projectId).value.technologies,
                                                     (t: string) => t != tech)))
    ensures forall i :: 0 <= i < |r| && data[i].id == projectId ==> tech !in r[i].technologies
  {
    match Find(data, projectId)
    case None => data
    case Some(first) =>
      UpdateProject(data, projectId, Technologies(Filter(first.technologies, (t: string) => t != tech)))
  }

  /** `addHighlight(projectId)`: an empty line after the first match's
      highlights, written to every project with the id. */
  function AddHighlight(data: seq<Project>, projectId: string): (r: seq<Project>)
    ensures Find(data, projectId).None? ==> r == data
    ensures Find(data, projectId).Some? ==>
              r == UpdateProject(data, projectId, Highlights(Find(data, projectId).value.highlights + [""]))
  {
    match Find(data, projectId)
    case None => data
    case Some(first) => UpdateProject(data, projectId, Highlights(first.highlights + [""]))
  }

  /** `updateHighlight(projectId, index, value)`: one line of the first
      match's highlights replaced (or appended when `index` is the length),
      written to every project with the id. */
  function UpdateHighlight(data: seq<Project>, projectId: string, index: nat, value: string): (r: seq<Project>)
    ensures Find(data, projectId).None? ==> r == data
    ensures Find(data, projectId).Some? ==>
              r == UpdateProject(data, projectId,
                                 Highlights(SetAt(Find(data, projectId).value.highlights, index, value)))
  {
    match Find(data, projectId)
    case None => data
    case Some(first) => UpdateProject(data, projectId, Highlights(SetAt(first.highlights, index, value)))
  }

  /** `removeHighlight(projectId, index)`: acts only when the first match
      has more than one line. */
  function RemoveHighlight(data: seq<Project>, projectId: string, index: nat): (r: seq<Project>)
    ensures Find(data, projectId).None? || |Find(data, projectId).value.highlights| <= 1 ==> r == data
    ensures Find(data, projectId).Some? && |Find(data, projectId).value.highlights| > 1 ==>
              r == UpdateProject(data, projectId,
                                 Highlights(RemoveAt(Find(data, projectId).value.highlights, index)))
  {
    match Find(data, projectId)
    case None => data
    case Some(first) =>
      if |first.highlights| > 1 then UpdateProject(data, projectId, Highlights(RemoveAt(first.highlights, index)))
      else data
  }

  // ---------------------------------------------------------------------
  // The editor's invariants
  // ---------------------------------------------------------------------

  /** No project lists a technology twice. */
  ghost predicate TechnologiesDistinct(data: seq<Project>)
  {
    forall i :: 0 <= i < |data| ==> Distinct(data[i].technologies)
  }

  /** Every project has at least one highlight line. */
  ghost predicate HighlightsPresent(data: seq<Project>)
  {
    forall i :: 0 <= i < |data| ==> |data[i].highlights| > 0
  }

  /** An update that writes a list satisfying the invariant keeps it. */
  lemma UpdateKeepsInvariants(data: seq<Project>, id: string, f: ProjectField)
    requires TechnologiesDistinct(data) && HighlightsPresent(data)
    requires f.Technologies? ==> Distinct(f.technologies)
    requires f.Highlights? ==> |f.highlights| > 0
    ensures TechnologiesDistinct(UpdateProject(data, id, f)) && HighlightsPresent(UpdateProject(data, id, f))
  {
    var r := UpdateProject(data, id, f);
    assert forall i :: 0 <= i < |r| ==> r[i] == data[i] || r[i] == SetField(data[i], f);
  }

  /** Adding a technology keeps technologies free of duplicates. */
  lemma AddTechnologyKeepsDistinct(st: ProjectsState, projectId: string)
    requires TechnologiesDistinct(st.data) && HighlightsPresent(st.data)
    ensures TechnologiesDistinct(AddTechnology(st, projectId).data)
    ensures HighlightsPresent(AddTechnology(st, projectId).data)
  {
    if TechAccepted(st, projectId) {
      var tech := Trim(st.newTech[projectId]);
      var first := Find(st.data, projectId).value;
      UpdateKeepsInvariants(st.data, projectId, Technologies(first.technologies + [tech]));
    }
  }

  /** Removing a technology keeps technologies free of duplicates. */
  lemma RemoveTechnologyKeepsDistinct(data: seq<Project>, projectId: string, tech: string)
    requires TechnologiesDistinct(data) && HighlightsPresent(data)
    ensures TechnologiesDistinct(RemoveTechnology(data, projectId, tech))
    ensures HighlightsPresent(RemoveTechnology(data, projectId, tech))
  {
    if Find(data, projectId).Some? {
      var first := Find(data, projectId).value;
      FilterDistinct(first.technologies, (t: string) => t != tech);
      UpdateKeepsInvariants(data, projectId, Technologies(Filter(first.technologies, (t: string) => t != tech)));
    }
  }

  /** The highlight helpers never leave a project without a line. */
  lemma HighlightEditsKeepInvariants(data: seq<Project>, projectId: string, index: nat, value: string)
    requires TechnologiesDistinct(data) && HighlightsPresent(data)
    ensures TechnologiesDistinct(AddHighlight(data, projectId)) && HighlightsPresent(AddHighlight(data, projectId))
    ensures TechnologiesDistinct(UpdateHighlight(data, projectId, index, value))
            && HighlightsPresent(UpdateHighlight(data, projectId, index, value))
    ensures TechnologiesDistinct(RemoveHighlight(data, projectId, index))
            && HighlightsPresent(RemoveHighlight(data, projectId, index))
  {
    if Find(data, projectId).Some? {
      var h := Find(data, projectId).value.highlights;
      UpdateKeepsInvariants(data, projectId, Highlights(h + [""]));
      UpdateKeepsInvariants(data, projectId, Highlights(SetAt(h, index, value)));
      if |h| > 1 {
        UpdateKeepsInvariants(data, projectId, Highlights(RemoveAt(h, index)));
      }
    }
  }

  /** A new project and a removal keep both invariants. */
  lemma AddRemoveKeepInvariants(st: ProjectsState, id: string)
    requires TechnologiesDistinct(st.data) && HighlightsPresent(st.data)
    ensures TechnologiesDistinct(AddProject(st, id).data) && HighlightsPresent(AddProject(st, id).data)
    ensures TechnologiesDistinct(RemoveProject(st, id).data) && HighlightsPresent(RemoveProject(st, id).data)
  {
    var a := AddProject(st, id).data;
    assert forall i :: 0 <= i < |st.data| ==> a[i] == st.data[i];
    var r := RemoveProject(st, id).data;
    assert forall i :: 0 <= i < |r| ==> r[i] in st.data;
  }

  /** With a fresh id the new project is open and was not open before. */
  lemma AddProjectOpensIt(st: ProjectsState, id: string)
    requires id !in Ids(st.data) && id !in st.openItems
    ensures id in AddProject(st, id).openItems
    ensures ToggleItem(AddProject(st, id), id).openItems == st.openItems
  {
    FilterAppend(st.openItems, id, (x: string) => x != id);
    FilterAllPass(st.openItems, (x: string) => x != id);
  }
}
