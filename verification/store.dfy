/** The `tickets` collection as a map from document id to document, with the
    two write primitives the handlers use: `set` (create or overwrite a whole
    document) and `update` (patch an existing document, failing when there is
    none). */
module DocStore {
  import opened Tickets

  type Store = map<TicketId, Ticket>

  /** Why a store call raised. `NoDocument` is what `update` raises on a
      missing id; `Unavailable` stands for any other backend failure. */
  datatype StoreError = NoDocument(id: TicketId) | Unavailable(message: string)

  /** Text of the exception as `str(e)` would render it. The client library's
      exact wording for a missing document is not part of this model; it is
      stood for by a fixed prefix followed by the id. */
  function ErrorText(e: StoreError): string {
    match e
    case NoDocument(id) => "No document to update: " + id
    case Unavailable(m) => m
  }

  /** The write outcome of `update`: the new store, or the error it raised. */
  datatype WriteResult = Written(store: Store) | Failed(error: StoreError)

  /** `document(id).update(patch)`: applies `patch` to the existing document;
      a missing document raises and nothing is written. */
  function Update(s: Store, id: TicketId, patch: Ticket -> Ticket): WriteResult
  {
    if id in s then Written(s[id := patch(s[id])]) else Failed(NoDocument(id))
  }

  /** Every document other than `id` is the same in `s` and `s'`, and the key
      sets agree. */
  predicate OnlyTouches(s: Store, s': Store, id: TicketId) {
    && s'.Keys == s.Keys
    && forall k :: k in s && k != id ==> s'[k] == s[k]
  }
}
