/**
 * The categories admin page: the combined search-and-toggles filter, the rule
 * that disables deletion of a category that still has courses, and the save
 * request built from the edit form.
 */
module Categorie {
  import opened Wrappers
  import opened Text
  import opened Lists
  import opened Forms

  /** A category row as the list endpoint returns it; `attivo` is 1 or 0. */
  datatype Categoria = Categoria(id: nat, nome: string, attivo: int, nCorsi: int)

  /** The three filter controls. */
  datatype Filters = Filters(searchTerm: string, onlyActive: bool, withoutCourses: bool)

  /** One row against the filter controls: all three conditions must hold. */
  predicate Matches(f: Filters, c: Categoria)
  {
    && ContainsIgnoringCase(c.nome, f.searchTerm)
    && (f.onlyActive ==> c.attivo == 1)
    && (f.withoutCourses ==> c.nCorsi == 0)
  }

  /** `filteredCategorie`. */
  function FilterCategorie(rows: seq<Categoria>, f: Filters): (r: seq<Categoria>)
    ensures forall c :: c in r <==> c in rows && Matches(f, c)
    ensures forall c :: multiset(r)[c] == if Matches(f, c) then multiset(rows)[c] else 0
    ensures IsSubsequence(r, rows)
  {
    Filter(rows, c => Matches(f, c))
  }

  /** With an empty search and both toggles off, every row is shown, in order. */
  lemma NoFiltersKeepsAll(rows: seq<Categoria>)
    ensures FilterCategorie(rows, Filters("", false, false)) == rows
  {
    forall c | c in rows ensures Matches(Filters("", false, false), c) {
      EmptyTermMatchesAll(c.nome);
    }
  }

  /** Switching a toggle on never brings a row back. */
  lemma {:induction false} TogglingOnNarrows(rows: seq<Categoria>, f: Filters, onlyActive: bool, withoutCourses: bool)
    requires f.onlyActive ==> onlyActive
    requires f.withoutCourses ==> withoutCourses
    ensures IsSubsequence(FilterCategorie(rows, Filters(f.searchTerm, onlyActive, withoutCourses)),
                          FilterCategorie(rows, f))
  {
    var g := Filters(f.searchTerm, onlyActive, withoutCourses);
    FilterNarrowing(rows, c => Matches(g, c), c => Matches(f, c));
  }

  /** The delete button is disabled exactly while the category still has courses. */
  function DeleteDisabled(c: Categoria): bool
  {
    c.nCorsi > 0
  }

  /** Every row the "without courses" toggle leaves on screen has its delete button enabled. */
  lemma WithoutCoursesAllDeletable(rows: seq<Categoria>, searchTerm: string, onlyActive: bool)
    ensures forall c :: c in FilterCategorie(rows, Filters(searchTerm, onlyActive, true)) ==> !DeleteDisabled(c)
  {
  }

  /** The JSON body of the save request; `id` is absent when creating. */
  datatype Payload = Payload(id: Option<nat>, nome: Option<string>, attivo: int)

  datatype SaveRequest = SaveRequest(endpoint: string, payload: Payload)

  /** The form's submit handler: the payload literal and the endpoint choice. */
  function BuildSave(editing: Option<Categoria>, form: FormData): (r: SaveRequest)
    ensures r.payload.attivo == 1 <==> IsChecked(form, "attivo")
    ensures r.payload.attivo == 0 <==> !IsChecked(form, "attivo")
    ensures r.endpoint == "update.php" <==> editing.Some?
    ensures r.endpoint == "create.php" <==> editing.None?
    ensures r.payload.id.Some? <==> editing.Some?
    ensures editing.Some? ==> r.payload.id.value == editing.value.id
    ensures r.payload.nome == Get(form, "nome")
  {
    SaveRequest(
      Endpoint(editing.Some?),
      Payload(if editing.Some? then Some(editing.value.id) else None,
              Get(form, "nome"),
              if IsChecked(form, "attivo") then 1 else 0))
  }
}
