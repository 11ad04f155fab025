/** The two ways the section editors show and hide their entries. The
    experience and education editors keep one `expandedId` (at most one
    entry open); the projects and certifications editors keep a list
    `openItems` of open ids. */
module Accordion {
  import opened Seqs
  import opened ResumeTypes

  /** `data[0]?.id || null`: the first entry starts expanded, unless there
      is none or its id is the empty string. */
  function FirstExpanded(ids: seq<string>): (r: Option<string>)
    ensures r.Some? <==> |ids| > 0 && ids[0] != ""
    ensures r.Some? ==> r.value == ids[0]
  {
    if |ids| > 0 && ids[0] != "" then Some(ids[0]) else None
  }

  /** A header click: `expandedId === id ? null : id`. */
  function ToggleExpanded(expanded: Option<string>, id: string): (r: Option<string>)
    ensures r == Some(id) <==> expanded != Some(id)
    ensures r == None <==> expanded == Some(id)
  {
    if expanded == Some(id) then None else Some(id)
  }

  /** Two clicks on the same header restore the state when that entry or
      none was expanded; otherwise they close the one that was open. */
  lemma ToggleExpandedTwice(expanded: Option<string>, id: string)
    ensures ToggleExpanded(ToggleExpanded(expanded, id), id)
            == if expanded == Some(id) || expanded == None then expanded else None
  {
  }

  /** `toggleItem(id)`: drop the id from the open list if present, otherwise
      append it. Exactly that id changes membership. */
  function ToggleOpen(open: seq<string>, id: string): (r: seq<string>)
    ensures id in r <==> id !in open
    ensures forall x :: x != id ==> (x in r <==> x in open)
  {
    if id in open then Filter(open, (x: string) => x != id) else open + [id]
  }

  /** Toggling keeps the open list free of duplicates. */
  lemma ToggleOpenDistinct(open: seq<string>, id: string)
    requires Distinct(open)
    ensures Distinct(ToggleOpen(open, id))
  {
    if id in open {
      FilterDistinct(open, (x: string) => x != id);
    }
  }

  /** Opening and closing an entry that was closed gives the old list back. */
  lemma ToggleOpenTwice(open: seq<string>, id: string)
    requires id !in open
    ensures ToggleOpen(ToggleOpen(open, id), id) == open
  {
    FilterAppend(open, id, (x: string) => x != id);
    FilterAllPass(open, (x: string) => x != id);
  }
}
