/**
 * The enrolments admin page: the search over employee and course names, the
 * status badge colours, and the date cells.
 */
module Iscrizioni {
  import opened Wrappers
  import opened Text
  import opened Lists

  /** An enrolment row as the list endpoint returns it. */
  datatype Iscrizione = Iscrizione(
    id: nat,
    dipendenteNome: string,
    dipendenteCognome: string,
    corsoTitolo: string,
    dataIscrizione: string,
    dataScadenza: string,
    dataCompletamento: Option<string>,
    durataGiorni: int,
    stato: string)

  /** The search term in the surname, the first name or the course title. */
  predicate Matches(searchTerm: string, i: Iscrizione)
  {
    || ContainsIgnoringCase(i.dipendenteCognome, searchTerm)
    || ContainsIgnoringCase(i.dipendenteNome, searchTerm)
    || ContainsIgnoringCase(i.corsoTitolo, searchTerm)
  }

  /** `filtered`. */
  function FilterIscrizioni(rows: seq<Iscrizione>, searchTerm: string): (r: seq<Iscrizione>)
    ensures forall i :: i in r <==> i in rows && Matches(searchTerm, i)
    ensures forall i :: multiset(r)[i] == if Matches(searchTerm, i) then multiset(rows)[i] else 0
    ensures IsSubsequence(r, rows)
  {
    Filter(rows, i => Matches(searchTerm, i))
  }

  lemma EmptySearchKeepsAll(rows: seq<Iscrizione>)
    ensures FilterIscrizioni(rows, "") == rows
  {
    forall i | i in rows ensures Matches("", i) {
      EmptyTermMatchesAll(i.dipendenteCognome);
    }
  }

  /** The badge colour for a status; anything unexpected is neutral. */
  function BadgeVariant(stato: string): (v: string)
    ensures v == "blue" <==> stato == "In corso"
    ensures v == "success" <==> stato == "Completato"
    ensures v == "danger" <==> stato == "Scaduto"
    ensures v == "neutral" <==> stato !in {"In corso", "Completato", "Scaduto"}
  {
    if stato == "In corso" then "blue"
    else if stato == "Completato" then "success"
    else if stato == "Scaduto" then "danger"
    else "neutral"
  }

  /** A date cell: a dash for an empty date, otherwise the date in the locale's format. */
  datatype DateCell = Dash | LocalDate(date: string)

  function FormatDate(date: string): (c: DateCell)
    ensures c == Dash <==> date == ""
    ensures c.LocalDate? ==> c.date == date
  {
    if date == "" then Dash else LocalDate(date)
  }

  /** The completion column: the formatted date and the duration, or a dash. */
  datatype CompletionCell = NotCompleted | CompletedOn(date: DateCell, days: int)

  function CompletionColumn(i: Iscrizione): (c: CompletionCell)
    ensures c.CompletedOn? <==> i.dataCompletamento.Some? && i.dataCompletamento.value != ""
    ensures c.CompletedOn? ==> c.date == LocalDate(i.dataCompletamento.value) && c.days == i.durataGiorni
  {
    match i.dataCompletamento
    case Some(d) => if d != "" then CompletedOn(FormatDate(d), i.durataGiorni) else NotCompleted
    case None => NotCompleted
  }
}
