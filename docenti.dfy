/**
 * The teachers admin page: the name search, and the save request built from
 * the submitted form by overwriting `attivo` and adding `id` when editing.
 */
module Docenti {
  import opened Wrappers
  import opened Text
  import opened Lists
  import opened Forms

  /** A teacher row as the list endpoint returns it; `attivo` is 1 or 0. */
  datatype Docente = Docente(
    id: nat,
    nome: string,
    cognome: string,
    email: string,
    titoloProfessionale: string,
    specializzazione: string,
    attivo: int,
    nCorsi: int)

  /** The search term in the first name or the surname. */
  predicate Matches(searchTerm: string, d: Docente)
  {
    ContainsIgnoringCase(d.nome, searchTerm) || ContainsIgnoringCase(d.cognome, searchTerm)
  }

  /** `filteredDocenti`. */
  function FilterDocenti(rows: seq<Docente>, searchTerm: string): (r: seq<Docente>)
    ensures forall d :: d in r <==> d in rows && Matches(searchTerm, d)
    ensures forall d :: multiset(r)[d] == if Matches(searchTerm, d) then multiset(rows)[d] else 0
    ensures IsSubsequence(r, rows)
  {
    Filter(rows, d => Matches(searchTerm, d))
  }

  /**
   * The form's submit handler up to the request: the payload starts as every
   * submitted field, `attivo` is overwritten with '1' or '0', and `id` is added
   * as a string when editing.
   */
  method BuildRequest(editing: Option<Docente>, form: FormData) returns (endpoint: string, payload: FormData)
    ensures "attivo" in payload && (payload["attivo"] == "1" <==> IsChecked(form, "attivo"))
    ensures payload["attivo"] == "0" <==> !IsChecked(form, "attivo")
    ensures editing.Some? ==> "id" in payload && payload["id"] == NatToString(editing.value.id)
    ensures editing.None? ==> ("id" in payload <==> "id" in form) && ("id" in form ==> payload["id"] == form["id"])
    ensures forall k :: k in payload && k != "attivo" && k != "id" ==> k in form && payload[k] == form[k]
    ensures forall k :: k in form ==> k in payload
    ensures endpoint == Endpoint(editing.Some?)
  {
    payload := form;
    payload := payload["attivo" := if IsChecked(form, "attivo") then "1" else "0"];
    if editing.Some? {
      payload := payload["id" := NatToString(editing.value.id)];
    }
    endpoint := Endpoint(editing.Some?);
  }
}
