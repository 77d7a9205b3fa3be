/**
  What the executor sees of the mail library's IMAP backend: folder entries,
  envelope headers, and the results one account's backend returns. The
  network calls are not modelled; their outcomes are inputs.
 */
module MailBackend {
  import opened Wrappers

  /** A folder entry; only its name is kept by the client. */
  datatype Folder = Folder(name: string)

  /** A message header as listed on a page of envelopes. */
  datatype Envelope = Envelope(id: string, flags: string, subject: string, from: string, date: string)

  /** Failure of a backend call (network, protocol or missing data). */
  datatype BackendError = BackendError(reason: string)

  /**
    The outcomes of one account's backend calls: `folders` is what
    `list_folders` returns; `envelopes(folder, pageSize, page)` is what
    `list_envelopes` returns for that folder and page.
   */
  datatype Backend = Backend(
    folders: Result<seq<Folder>, BackendError>,
    envelopes: (string, nat, nat) -> Result<seq<Envelope>, BackendError>)

  /** `folders.iter().map(|f| f.name.clone()).collect()`. */
  function FolderNames(fs: seq<Folder>): (names: seq<string>)
    ensures |names| == |fs|
    ensures forall i :: 0 <= i < |fs| ==> names[i] == fs[i].name
  {
    if fs == [] then [] else [fs[0].name] + FolderNames(fs[1..])
  }
}
