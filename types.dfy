/** The shared entity types of the portal. */
module Types {
  import opened Wrappers

  /** A user's role: `'admin' | 'dipendente'`. */
  datatype Ruolo = Admin | Dipendente

  /** The role as the string the database and the session token carry. */
  function RuoloName(r: Ruolo): string
  {
    match r
    case Admin => "admin"
    case Dipendente => "dipendente"
  }

  /** An employee row. `password` is the stored hash; it is unset until the account is activated. */
  datatype Dipendente = Dipendente(
    id: nat,
    nome: string,
    cognome: string,
    email: string,
    password: Option<string>,
    ruolo: Ruolo)
}
