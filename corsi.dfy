/**
 * The courses admin page: the title search, and the submit handler that
 * uploads a newly chosen cover image first and then sends the course.
 */
module Corsi {
  import opened Wrappers
  import opened Text
  import opened Lists
  import opened Forms

  /** A course row as the list endpoint returns it; `attivo` is 1 or 0. */
  datatype Corso = Corso(
    id: nat,
    titolo: string,
    descrizione: string,
    docenteId: nat,
    categoriaId: Option<nat>,
    giorniCompletamento: int,
    immaginePath: string,
    videoUrl: string,
    attivo: int)

  /** `filteredCorsi`. */
  function FilterCorsi(rows: seq<Corso>, searchTerm: string): (r: seq<Corso>)
    ensures forall c :: c in r <==> c in rows && ContainsIgnoringCase(c.titolo, searchTerm)
    ensures forall c :: multiset(r)[c] == if ContainsIgnoringCase(c.titolo, searchTerm) then multiset(rows)[c] else 0
    ensures IsSubsequence(r, rows)
  {
    Filter(rows, (c: Corso) => ContainsIgnoringCase(c.titolo, searchTerm))
  }

  lemma EmptySearchKeepsAll(rows: seq<Corso>)
    ensures FilterCorsi(rows, "") == rows
  {
    forall c | c in rows ensures ContainsIgnoringCase(c.titolo, "") {
      EmptyTermMatchesAll(c.titolo);
    }
  }

  /** The upload endpoint's answer: the stored file's path, or a refusal with an optional error text. */
  datatype UploadReply = Uploaded(path: string) | UploadRefused(error: Option<string>)

  /** The JSON body of the save request; form fields are `None` when not submitted. */
  datatype Payload = Payload(
    id: Option<nat>,
    titolo: Option<string>,
    descrizione: Option<string>,
    docenteId: Option<string>,
    categoriaId: Option<string>,
    giorniCompletamento: Option<string>,
    videoUrl: Option<string>,
    attivo: int,
    immaginePath: string)

  /** Either the save request that is sent, or the alert shown when the upload fails first. */
  datatype Submission = Send(endpoint: string, payload: Payload) | UploadAlert(message: string)

  /**
   * `handleSubmit`. `selectedFile` says whether a new cover image was chosen;
   * `upload` is what the upload endpoint answers if it is called.
   */
  method HandleSubmit(editing: Option<Corso>, form: FormData, selectedFile: bool, upload: UploadReply)
    returns (s: Submission)
    // A failed upload stops everything before the course is sent.
    ensures s.UploadAlert? <==> selectedFile && upload.UploadRefused?
    ensures s.UploadAlert? ==>
      s.message == "Errore: " + (if Truthy(upload.error) then upload.error.value else "Errore upload")
    // The image path: the new upload, else the course's current image, else empty.
    ensures s.Send? && selectedFile ==> s.payload.immaginePath == upload.path
    ensures s.Send? && !selectedFile && editing.Some? ==> s.payload.immaginePath == editing.value.immaginePath
    ensures s.Send? && !selectedFile && editing.None? ==> s.payload.immaginePath == ""
    // An empty category selection is sent as null.
    ensures s.Send? ==> s.payload.categoriaId == OrNull(Get(form, "categoria_id"))
    ensures s.Send? ==> (s.payload.attivo == 1 <==> IsChecked(form, "attivo"))
    ensures s.Send? ==> (s.payload.attivo == 0 <==> !IsChecked(form, "attivo"))
    ensures s.Send? ==> s.endpoint == Endpoint(editing.Some?)
    ensures s.Send? ==> (s.payload.id.Some? <==> editing.Some?)
    ensures s.Send? && editing.Some? ==> s.payload.id.value == editing.value.id
    ensures s.Send? ==> s.payload.titolo == Get(form, "titolo") && s.payload.videoUrl == Get(form, "video_url")
    ensures s.Send? ==> s.payload.descrizione == Get(form, "descrizione") && s.payload.docenteId == Get(form, "docente_id")
    ensures s.Send? ==> s.payload.giorniCompletamento == Get(form, "giorni_completamento")
  {
    var imagePath := if editing.Some? && editing.value.immaginePath != "" then editing.value.immaginePath else "";

    if selectedFile {
      match upload
      case UploadRefused(error) =>
        s := UploadAlert("Errore: " + (if Truthy(error) then error.value else "Errore upload"));
        return;
      case Uploaded(path) =>
        imagePath := path;
    }

    var payload := Payload(
      if editing.Some? then Some(editing.value.id) else None,
      Get(form, "titolo"),
      Get(form, "descrizione"),
      Get(form, "docente_id"),
      OrNull(Get(form, "categoria_id")),
      Get(form, "giorni_completamento"),
      Get(form, "video_url"),
      if IsChecked(form, "attivo") then 1 else 0,
      imagePath);
    var endpoint := Endpoint(editing.Some?);
    s := Send(endpoint, payload);
  }
}
