/**
 * The employee's course catalogue: the enrolment state of each course, the
 * badge and button it shows, and the four counters at the top.
 */
module CorsiDisponibili {
  import opened Wrappers
  import opened Forms

  /** The enrolment state the server reports for a course. */
  datatype StatoIscrizione = Disponibile | InCorso | Completato | Scaduto

  /** The wire name of a state. */
  function StatoName(s: StatoIscrizione): string
  {
    match s
    case Disponibile => "disponibile"
    case InCorso => "in_corso"
    case Completato => "completato"
    case Scaduto => "scaduto"
  }

  /** Reading a state from the wire: exactly the four names are accepted. */
  function ParseStato(name: string): (r: Option<StatoIscrizione>)
    ensures r.Some? ==> StatoName(r.value) == name
  {
    if name == "disponibile" then Some(Disponibile)
    else if name == "in_corso" then Some(InCorso)
    else if name == "completato" then Some(Completato)
    else if name == "scaduto" then Some(Scaduto)
    else None
  }

  /** Every state survives the trip over the wire. */
  lemma ParseStatoName(s: StatoIscrizione)
    ensures ParseStato(StatoName(s)) == Some(s)
  {
  }

  /** A name is accepted only if it is one of the four. */
  lemma ParseStatoOnlyNames(name: string)
    ensures ParseStato(name).Some? <==> name in {"disponibile", "in_corso", "completato", "scaduto"}
  {
  }

  /** The badge text. */
  function Label(s: StatoIscrizione): string
  {
    match s
    case Disponibile => "Nuovo"
    case InCorso => "In Corso"
    case Completato => "Completato"
    case Scaduto => "Scaduto"
  }

  /** The badge colours. */
  function BadgeStyle(s: StatoIscrizione): string
  {
    match s
    case Disponibile => "bg-gray-100 text-gray-700"
    case InCorso => "bg-blue-100 text-blue-700"
    case Completato => "bg-green-100 text-green-700"
    case Scaduto => "bg-red-100 text-red-700"
  }

  /** The badge for each name the server sends. */
  lemma StatusBadgeLabels()
    ensures Label(ParseStato("disponibile").value) == "Nuovo"
    ensures Label(ParseStato("in_corso").value) == "In Corso"
    ensures Label(ParseStato("completato").value) == "Completato"
    ensures Label(ParseStato("scaduto").value) == "Scaduto"
  {
  }

  /** Different states show different badges, in text and in colour. */
  lemma BadgesDistinguishStates(s: StatoIscrizione, t: StatoIscrizione)
    requires s != t
    ensures Label(s) != Label(t) && BadgeStyle(s) != BadgeStyle(t)
  {
  }

  /** The action button's text. */
  function ActionLabel(s: StatoIscrizione): (l: string)
    ensures l == "Iscriviti" <==> s == Disponibile
    ensures l == "Vai al corso" <==> s != Disponibile
  {
    if s == Disponibile then "Iscriviti" else "Vai al corso"
  }

  /** The action button's colours: the primary blue only for a course one can enrol in. */
  function ActionStyle(s: StatoIscrizione): (st: string)
    ensures st == "bg-blue-600 text-white hover:bg-blue-700" <==> s == Disponibile
  {
    if s == Disponibile then "bg-blue-600 text-white hover:bg-blue-700"
    else "bg-gray-100 text-gray-700 hover:bg-gray-200"
  }

  /** The counters; a missing field is `None`. */
  datatype Stats = Stats(completati: Option<int>, inCorso: Option<int>, scaduti: Option<int>, disponibili: Option<int>)

  datatype Counter = CompletatiCounter | InCorsoCounter | ScadutiCounter | DisponibiliCounter

  function Field(stats: Stats, c: Counter): Option<int>
  {
    match c
    case CompletatiCounter => stats.completati
    case InCorsoCounter => stats.inCorso
    case ScadutiCounter => stats.scaduti
    case DisponibiliCounter => stats.disponibili
  }

  /**
   * `data?.stats.<field> || 0`: the shown value of a counter. For a number, `|| 0`
   * replaces only falsy values, and the only falsy integer is 0 itself.
   */
  function CounterValue(data: Option<Stats>, c: Counter): (v: int)
    ensures data.None? ==> v == 0
    ensures data.Some? && Field(data.value, c).None? ==> v == 0
    ensures data.Some? && Field(data.value, c).Some? ==> v == Field(data.value, c).value
  {
    if data.None? then 0
    else match Field(data.value, c)
      case None => 0
      case Some(n) => n
  }

  /** The dashboard is fetched, for this user id, only when the session carries one. */
  function DashboardUserId(sessionUserId: Option<string>): (id: Option<string>)
    ensures id.Some? <==> Truthy(sessionUserId)
    ensures id.Some? ==> id == sessionUserId
  {
    OrNull(sessionUserId)
  }
}
