/**
 * The document-store handler the repositories are written against
 * (repository/database.go, `NoSQLHandler`), modelled as an in-memory set of
 * named collections.  Queries, updates and projections are functions on
 * documents; a failure of the backend is an input (`fault`) of each call.
 */
module NoSql {
  import opened Wrappers

  /** The 64-bit integers the documents hold their amounts in. */
  newtype Int64 = x: int | -0x8000_0000_0000_0000 <= x < 0x8000_0000_0000_0000

  predicate InInt64Range(x: int)
  {
    -0x8000_0000_0000_0000 <= x < 0x8000_0000_0000_0000
  }

  /** Two's-complement conversion to 64 bits, as Go's `int64(x)` does. */
  function ToInt64(x: int): (r: Int64)
    ensures (r as int - x) % 0x1_0000_0000_0000_0000 == 0
  {
    var m := x % 0x1_0000_0000_0000_0000;
    if m < 0x8000_0000_0000_0000 then m as Int64 else (m - 0x1_0000_0000_0000_0000) as Int64
  }

  /** Converting to 64 bits and back loses nothing exactly when the value fits in 64 bits. */
  lemma ToInt64RoundTrip(x: int)
    ensures ToInt64(x) as int == x <==> InInt64Range(x)
  {
    if InInt64Range(x) {
      var m := x % 0x1_0000_0000_0000_0000;
      if x >= 0 {
        assert m == x;
      } else {
        assert m == x + 0x1_0000_0000_0000_0000;
      }
    }
  }

  /**
   * The driver errors the repositories distinguish (`ErrNilDocument`,
   * `ErrNoDocuments` of the MongoDB driver), the `ErrNotFound` of the mgo
   * driver the program's handler is built on, and any other failure (`Backend`).
   */
  datatype DbError = ErrNilDocument | ErrNoDocuments | MgoNotFound | Backend(reason: string)

  /** What a repository error reports as its cause: the domain's not-found, or the driver's own error. */
  datatype Cause = NotFound | Driver(error: DbError)

  /** An error wrapped with a context message, as `errors.Wrap(cause, context)`. */
  datatype RepoError = RepoError(context: string, cause: Cause)

  /** The index of the first document the query selects, if any. */
  function FirstMatch<D>(docs: seq<D>, query: D -> bool): (r: Option<nat>)
    ensures r.Some? ==> r.value < |docs| && query(docs[r.value])
    ensures r.Some? ==> forall j :: 0 <= j < r.value ==> !query(docs[j])
    ensures r.None? <==> forall j :: 0 <= j < |docs| ==> !query(docs[j])
  {
    if docs == [] then None
    else if query(docs[0]) then Some(0)
    else match FirstMatch(docs[1..], query)
      case None => None
      case Some(i) => Some(i + 1)
  }

  /** Appending a document the query selects, to documents it does not, makes that document the first match. */
  lemma FirstMatchOfAppended<D>(docs: seq<D>, doc: D, query: D -> bool)
    requires FirstMatch(docs, query).None? && query(doc)
    ensures FirstMatch(docs + [doc], query) == Some(|docs|)
  {
    assert (docs + [doc])[|docs|] == doc;
    assert forall j :: 0 <= j < |docs| ==> (docs + [doc])[j] == docs[j];
  }

  /** Replacing a document by one the query treats alike leaves the first match where it was. */
  lemma FirstMatchAfterReplace<D>(docs: seq<D>, i: nat, x: D, query: D -> bool)
    requires i < |docs| && query(x) == query(docs[i])
    ensures FirstMatch(docs[i := x], query) == FirstMatch(docs, query)
  {
    var docs' := docs[i := x];
    assert forall j :: 0 <= j < |docs| ==> query(docs'[j]) == query(docs[j]);
    var r, r' := FirstMatch(docs, query), FirstMatch(docs', query);
    if r.Some? && r'.Some? {
      assert !(r.value < r'.value) && !(r'.value < r.value);
    }
  }

  /**
   * Named collections of documents of type `D`.  `missing` is the error the
   * backend reports when an update or a lookup selects no document: the
   * program's mgo handler reports `MgoNotFound` for both.
   */
  class Handler<D> {
    var collections: map<string, seq<D>>
    const missing: DbError

    constructor (missing: DbError)
      ensures collections == map[] && this.missing == missing
    {
      collections := map[];
      this.missing := missing;
    }

    /** The documents of a collection; a collection never written is empty. */
    function Docs(name: string): seq<D>
      reads this
    {
      if name in collections then collections[name] else []
    }

    /** Inserts `doc` at the end of the collection, unless the backend fails. */
    method Store(name: string, doc: D, fault: Option<DbError>) returns (err: Option<DbError>)
      modifies this
      ensures err == fault
      ensures fault.Some? ==> collections == old(collections)
      ensures fault.None? ==> collections == old(collections)[name := old(Docs(name)) + [doc]]
    {
      err := fault;
      if fault.None? {
        collections := collections[name := Docs(name) + [doc]];
      }
    }

    /**
     * Applies `update` to the first document `query` selects; with no such
     * document it reports `missing` and changes nothing.
     */
    method Update(name: string, query: D -> bool, update: D -> D, fault: Option<DbError>) returns (err: Option<DbError>)
      modifies this
      ensures fault.Some? ==> err == fault && collections == old(collections)
      ensures fault.None? && FirstMatch(old(Docs(name)), query).None? ==>
        err == Some(missing) && collections == old(collections)
      ensures fault.None? && FirstMatch(old(Docs(name)), query).Some? ==>
        var i := FirstMatch(old(Docs(name)), query).value;
        err.None? && collections == old(collections)[name := old(Docs(name))[i := update(old(Docs(name))[i])]]
    {
      if fault.Some? {
        return fault;
      }
      var docs := Docs(name);
      match FirstMatch(docs, query)
      case None =>
        err := Some(missing);
      case Some(i) =>
        collections := collections[name := docs[i := update(docs[i])]];
        err := None;
    }

    /** All documents of the collection, in stored order. */
    method FindAll(name: string, fault: Option<DbError>) returns (docs: seq<D>, err: Option<DbError>)
      ensures err == fault
      ensures fault.Some? ==> docs == []
      ensures fault.None? ==> docs == Docs(name)
    {
      if fault.Some? {
        return [], fault;
      }
      docs, err := Docs(name), None;
    }

    /**
     * The projection of the first document `query` selects; with no such
     * document it reports `missing`.
     */
    method FindOne(name: string, query: D -> bool, projection: D -> D, fault: Option<DbError>)
      returns (doc: Option<D>, err: Option<DbError>)
      ensures doc.Some? <==> err.None?
      ensures fault.Some? ==> err == fault
      ensures fault.None? && FirstMatch(Docs(name), query).None? ==> err == Some(missing)
      ensures fault.None? && FirstMatch(Docs(name), query).Some? ==>
        doc == Some(projection(Docs(name)[FirstMatch(Docs(name), query).value]))
    {
      if fault.Some? {
        return None, fault;
      }
      var docs := Docs(name);
      match FirstMatch(docs, query)
      case None =>
        doc, err := None, Some(missing);
      case Some(i) =>
        doc, err := Some(projection(docs[i])), None;
    }
  }
}
