/**
 * The document store both forms write to, reduced to the one operation they
 * use: appending a document to a named collection.  Whether the append
 * succeeds is decided by the caller of the form controllers (the outcome of
 * the awaited call), so the store only records which documents were sent.
 */
module Store {

  /** Both forms append to this one collection. */
  const Submissions: string := "contactSubmissions"

  /** The two shapes of document the site writes. */
  datatype Doc =
    | ContactDoc(name: string, email: string, phone: string, subject: string,
                 message: string, createdAt: string, emailSent: bool)
    | FeatureDoc(name: string, email: string, feature: string, createdAt: string)

  /**
   * The database handle, seen through the requests made to it: for each
   * collection, every document an `addDoc` call sent there, in order,
   * including those whose call then failed.
   */
  class Database {
    var requests: map<string, seq<Doc>>

    /** The documents requested for collection `name` so far (none if it was never written). */
    function Requested(name: string): seq<Doc>
      reads this
    {
      if name in requests then requests[name] else []
    }

    constructor ()
      ensures forall name :: Requested(name) == []
    {
      requests := map[];
    }

    /** `addDoc(collection(db, name), doc)`: one append request to collection `name`. */
    method AddDoc(name: string, doc: Doc)
      modifies this
      ensures Requested(name) == old(Requested(name)) + [doc]
      ensures forall other :: other != name ==> Requested(other) == old(Requested(other))
    {
      requests := requests[name := Requested(name) + [doc]];
    }
  }
}
