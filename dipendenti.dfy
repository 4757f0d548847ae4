/**
 * The employees admin page: the surname-or-e-mail search, the save request,
 * and the choice between showing the activation link the server returns and
 * closing the form.
 */
module Dipendenti {
  import opened Wrappers
  import opened Text
  import opened Lists
  import opened Forms
  import opened Types

  /** The search term in the surname or the e-mail; the first name is not searched. */
  predicate Matches(searchTerm: string, d: Dipendente)
  {
    ContainsIgnoringCase(d.cognome, searchTerm) || ContainsIgnoringCase(d.email, searchTerm)
  }

  /** `filtered`. */
  function FilterDipendenti(rows: seq<Dipendente>, searchTerm: string): (r: seq<Dipendente>)
    ensures forall d :: d in r <==> d in rows && Matches(searchTerm, d)
    ensures forall d :: multiset(r)[d] == if Matches(searchTerm, d) then multiset(rows)[d] else 0
    ensures IsSubsequence(r, rows)
  {
    Filter(rows, d => Matches(searchTerm, d))
  }

  /** A row whose first name alone contains the term is not found. */
  lemma FirstNameNotSearched(rows: seq<Dipendente>, searchTerm: string, d: Dipendente)
    requires d in rows && ContainsIgnoringCase(d.nome, searchTerm)
    requires !ContainsIgnoringCase(d.cognome, searchTerm) && !ContainsIgnoringCase(d.email, searchTerm)
    ensures d !in FilterDipendenti(rows, searchTerm)
  {
  }

  /** The payload is every submitted field, plus `id` as a string when editing. */
  method BuildRequest(editing: Option<Dipendente>, form: FormData) returns (endpoint: string, payload: FormData)
    ensures editing.Some? ==> payload == form["id" := NatToString(editing.value.id)]
    ensures editing.None? ==> payload == form
    ensures forall k :: k in payload && k != "id" ==> k in form && payload[k] == form[k]
    ensures forall k :: k in form ==> k in payload
    ensures endpoint == Endpoint(editing.Some?)
  {
    payload := form;
    if editing.Some? {
      payload := payload["id" := NatToString(editing.value.id)];
    }
    endpoint := Endpoint(editing.Some?);
  }

  /** What a request to the server yields: a response with its fields, or a failure in transit. */
  datatype Reply = Response(ok: bool, error: Option<string>, debugLink: Option<string>) | Unreachable(message: string)

  class DipendentiPage {
    var isModalOpen: bool
    var editing: Option<Dipendente>
    /** The activation or reset link on display, if any. */
    var magicLink: Option<string>
    /** Alerts shown so far. */
    var alerts: seq<string>

    constructor ()
      ensures !isModalOpen && editing == None && magicLink == None && alerts == []
    {
      isModalOpen, editing, magicLink, alerts := false, None, None, [];
    }

    /** The form is rendered only while no link is on display. */
    predicate ShowsForm()
      reads this
      ensures ShowsForm() ==> !Truthy(magicLink)
    {
      isModalOpen && !Truthy(magicLink)
    }

    /** The activation-link dialog is rendered while a non-empty link is held. */
    predicate ShowsMagicLink()
      reads this
    {
      Truthy(magicLink)
    }

    /** The employee form and the activation-link dialog are never on screen together. */
    lemma OneDialogAtATime()
      ensures !(ShowsForm() && ShowsMagicLink())
    {
    }

    /** "Nuovo Dipendente" or the pencil button of a row. */
    method OpenForm(d: Option<Dipendente>)
      modifies this
      ensures isModalOpen && editing == d
      ensures magicLink == old(magicLink) && alerts == old(alerts)
    {
      editing := d;
      isModalOpen := true;
    }

    /** `handleSubmit`; `reply` is what the create or update endpoint answers. */
    method HandleSubmit(form: FormData, reply: Reply) returns (endpoint: string, payload: FormData)
      modifies this
      ensures editing == old(editing)
      ensures endpoint == Endpoint(editing.Some?)
      ensures editing.Some? ==> payload == form["id" := NatToString(editing.value.id)]
      ensures editing.None? ==> payload == form
      // A link in a successful response is put on display and the form stays open behind it.
      ensures reply.Response? && reply.ok && Truthy(reply.debugLink) ==>
        magicLink == reply.debugLink && isModalOpen == old(isModalOpen) && alerts == old(alerts) &&
        !ShowsForm()
      // Otherwise a successful save closes the form.
      ensures reply.Response? && reply.ok && !Truthy(reply.debugLink) ==>
        !isModalOpen && magicLink == old(magicLink) && alerts == old(alerts) + ["Operazione completata!"]
      ensures reply.Response? && !reply.ok ==>
        isModalOpen == old(isModalOpen) && magicLink == old(magicLink) &&
        alerts == old(alerts) + ["Errore: " + (if Truthy(reply.error) then reply.error.value else "Errore")]
      ensures reply.Unreachable? ==>
        isModalOpen == old(isModalOpen) && magicLink == old(magicLink) &&
        alerts == old(alerts) + ["Errore: " + reply.message]
    {
      endpoint, payload := BuildRequest(editing, form);
      match reply
      case Unreachable(m) =>
        alerts := alerts + ["Errore: " + m];
      case Response(ok, error, debugLink) =>
        if !ok {
          alerts := alerts + ["Errore: " + (if Truthy(error) then error.value else "Errore")];
        } else if Truthy(debugLink) {
          magicLink := debugLink;
        } else {
          alerts := alerts + ["Operazione completata!"];
          isModalOpen := false;
        }
    }

    /** `handleResetPassword`: a link in the answer is displayed, whatever the status code. */
    method ResetPassword(reply: Reply)
      modifies this
      ensures isModalOpen == old(isModalOpen) && editing == old(editing)
      ensures reply.Response? && Truthy(reply.debugLink) ==> magicLink == reply.debugLink && alerts == old(alerts)
      ensures reply.Response? && !Truthy(reply.debugLink) ==> magicLink == old(magicLink) && alerts == old(alerts)
      ensures reply.Unreachable? ==>
        magicLink == old(magicLink) && alerts == old(alerts) + ["Errore generazione link"]
    {
      match reply
      case Unreachable(_) =>
        alerts := alerts + ["Errore generazione link"];
      case Response(_, _, debugLink) =>
        if Truthy(debugLink) {
          magicLink := debugLink;
        }
    }

    /** The "Chiudi" button of the link dialog closes both dialogs. */
    method CloseMagicLink()
      modifies this
      ensures magicLink == None && !isModalOpen
      ensures editing == old(editing) && alerts == old(alerts)
    {
      magicLink := None;
      isModalOpen := false;
    }
  }
}
