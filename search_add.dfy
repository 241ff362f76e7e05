/**
 * The search service's bridge from adventure writes to the search index:
 * adding documents and deleting documents by id, each reduced to "the
 * index confirmed the write" (`true`), "it did not" (`false`) or the
 * index's error, which is passed on unchanged.
 *
 * The index is the `SearchIndex` collaborator below: its replies are fixed
 * functions of the batch sent, and every call it receives is recorded in a
 * ghost log, so the batches sent (or that none was sent) can be stated.
 */
module SearchAdventures {
  import opened Wrappers

  type Int64 = x: int | -0x8000_0000_0000_0000 <= x < 0x8000_0000_0000_0000

  /** An indexed adventure document: its numeric id and its other fields, which the bridge does not read. */
  datatype MyAdventures = MyAdventures(id: Int64, fields: map<string, string>)

  /** The index's task status; of its statuses only `Succeeded` is told apart. */
  datatype MeiliSearchStatus = Succeeded | Other(status: string)

  /** A transport or protocol failure reported by the index client. */
  datatype SearchError = SearchError(reason: string)

  /** A call the bridge makes on the index. */
  datatype IndexCall =
    | DocumentsAdded(docs: seq<MyAdventures>)
    | DocumentsDeleted(uids: seq<Int64>)

  class SearchIndex {
    ghost var calls: seq<IndexCall>
    const addReply: seq<MyAdventures> -> Result<MeiliSearchStatus, SearchError>
    const delReply: seq<Int64> -> Result<MeiliSearchStatus, SearchError>

    constructor (addReply: seq<MyAdventures> -> Result<MeiliSearchStatus, SearchError>,
                 delReply: seq<Int64> -> Result<MeiliSearchStatus, SearchError>)
      ensures this.addReply == addReply && this.delReply == delReply
      ensures calls == []
    {
      this.addReply := addReply;
      this.delReply := delReply;
      calls := [];
    }

    /** `add_documents(docs)`. */
    method AddDocuments(docs: seq<MyAdventures>) returns (r: Result<MeiliSearchStatus, SearchError>)
      modifies this`calls
      ensures calls == old(calls) + [DocumentsAdded(docs)]
      ensures r == addReply(docs)
    {
      calls := calls + [DocumentsAdded(docs)];
      r := addReply(docs);
    }

    /** `del_documents(uids)`. */
    method DelDocuments(uids: seq<Int64>) returns (r: Result<MeiliSearchStatus, SearchError>)
      modifies this`calls
      ensures calls == old(calls) + [DocumentsDeleted(uids)]
      ensures r == delReply(uids)
    {
      calls := calls + [DocumentsDeleted(uids)];
      r := delReply(uids);
    }
  }

  /**
   * The status collapse shared by the four operations: an error is passed
   * on unchanged, `Succeeded` gives `true` and any other status `false`.
   */
  function Confirmed(reply: Result<MeiliSearchStatus, SearchError>): (r: Result<bool, SearchError>)
    ensures r.Failure? <==> reply.Failure?
    ensures reply.Failure? ==> r.error == reply.error
    ensures r == Success(true) <==> reply == Success(Succeeded)
    ensures r == Success(false) <==> reply.Success? && reply.value.Other?
  {
    match reply
    case Failure(e) => Failure(e)
    case Success(status) =>
      match status
      case Succeeded => Success(true)
      case Other(_) => Success(false)
  }

  /** `add_adventures`: sends the batch as given, once, and reports whether the index confirmed it. */
  method AddAdventures(index: SearchIndex, ads: seq<MyAdventures>) returns (r: Result<bool, SearchError>)
    modifies index`calls
    ensures index.calls == old(index.calls) + [DocumentsAdded(ads)]
    ensures r == Confirmed(index.addReply(ads))
  {
    var status := index.AddDocuments(ads);
    if status.Failure? {
      return Failure(status.error);
    }
    match status.value
    case Succeeded => return Success(true);
    case Other(_) => return Success(false);
  }

  /** `add_adventure`: exactly `add_adventures` of the one-document batch. */
  method AddAdventure(index: SearchIndex, ad: MyAdventures) returns (r: Result<bool, SearchError>)
    modifies index`calls
    ensures index.calls == old(index.calls) + [DocumentsAdded([ad])]
    ensures r == Confirmed(index.addReply([ad]))
  {
    r := AddAdventures(index, [ad]);
  }

  /**
   * `delete_adventure`: an id below 1 gives `false` without contacting the
   * index; any other id is sent as the one-id batch and the reply collapsed
   * as for every other operation.
   */
  method DeleteAdventure(index: SearchIndex, uid: Int64) returns (r: Result<bool, SearchError>)
    modifies index`calls
    ensures uid < 1 ==> r == Success(false) && index.calls == old(index.calls)
    ensures uid >= 1 ==> index.calls == old(index.calls) + [DocumentsDeleted([uid])] &&
                         r == Confirmed(index.delReply([uid]))
  {
    if uid < 1 {
      return Success(false);
    }
    var status := index.DelDocuments([uid]);
    if status.Failure? {
      return Failure(status.error);
    }
    match status.value
    case Succeeded => return Success(true);
    case Other(_) => return Success(false);
  }

  /** `delete_adventures`: sends the ids as given, with no filtering, once, and collapses the reply. */
  method DeleteAdventures(index: SearchIndex, uids: seq<Int64>) returns (r: Result<bool, SearchError>)
    modifies index`calls
    ensures index.calls == old(index.calls) + [DocumentsDeleted(uids)]
    ensures r == Confirmed(index.delReply(uids))
  {
    var status := index.DelDocuments(uids);
    if status.Failure? {
      return Failure(status.error);
    }
    match status.value
    case Succeeded => return Success(true);
    case Other(_) => return Success(false);
  }
}
