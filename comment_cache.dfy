/**
 The pending-comment queue: comments written while offline are kept as one
 record file per locally generated id under a cache directory, and the ids
 are listed, in enqueue order, in a persisted index (a string array under the
 key "pendingComments").

 The directory is a map from id to file contents, the index an optional
 sequence (absent until first written). The UUID, the JSON encoding, the file
 write and the file removal are abstract: their outcomes are parameters.
 */
module CommentCache {
  import opened Wrappers
  import Seqs

  /** One queued comment batch: the post and its whole updated comment map. */
  datatype CachedComment = CachedComment(postId: string, updatedComments: map<string, string>)

  /** A record file: a comment that reads back and decodes, or bytes that do not. */
  datatype RecordFile = Encoded(comment: CachedComment) | Unreadable

  /** How the encode-then-write step of enqueueing ends. */
  datatype WriteOutcome = Written | EncodeFailed | WriteFailed

  /** The durable state of the queue. */
  datatype Store = Store(files: map<string, RecordFile>, index: Option<seq<string>>)

  /** The listed ids, an absent index read as empty (`getPendingCommentIds() ?? []`). */
  function IndexIds(index: Option<seq<string>>): seq<string>
  {
    index.GetOr([])
  }

  /** What listing the queue yields: every indexed id whose record file decodes. */
  function Pending(st: Store): (pending: map<string, CachedComment>)
    ensures forall id :: id in pending <==> id in IndexIds(st.index) && id in st.files && st.files[id].Encoded?
    ensures forall id :: id in pending ==> st.files[id] == Encoded(pending[id])
  {
    map id | id in IndexIds(st.index) && id in st.files && st.files[id].Encoded? :: st.files[id].comment
  }

  /** The state after enqueueing `(postId, comments)` under `uuid`. */
  function AfterCache(st: Store, postId: string, comments: map<string, string>, uuid: string, outcome: WriteOutcome): (st': Store)
    ensures outcome != Written ==> st' == st
    ensures outcome == Written ==> st'.index.Some? && IndexIds(st'.index) == IndexIds(st.index) + [uuid]
    ensures outcome == Written ==> st'.files.Keys == st.files.Keys + {uuid} && st'.files[uuid] == Encoded(CachedComment(postId, comments))
    ensures outcome == Written ==> forall id :: id in st.files && id != uuid ==> st'.files[id] == st.files[id]
  {
    if outcome == Written then
      Store(st.files[uuid := Encoded(CachedComment(postId, comments))], Some(IndexIds(st.index) + [uuid]))
    else
      st
  }

  /** The state after removing `id`; `removable` says whether the file system would delete an existing file. */
  function AfterRemove(st: Store, id: string, removable: bool): (st': Store)
    ensures !(id in st.files && removable) ==> st' == st
    ensures id in st.files && removable ==> st'.files == st.files - {id} && id !in IndexIds(st'.index)
    ensures st'.index.None? <==> st.index.None?
    ensures forall k :: k != id ==> (k in IndexIds(st'.index) <==> k in IndexIds(st.index))
  {
    if id in st.files && removable then
      Store(st.files - {id}, if st.index.None? then None else Some(Seqs.RemoveAll(st.index.value, id)))
    else
      st
  }

  class CommentCacheManager {
    /** Record files under the cache directory, by file name. */
    var files: map<string, RecordFile>
    /** The persisted id index; `None` until it is first written. */
    var index: Option<seq<string>>

    function State(): Store
      reads this
    {
      Store(files, index)
    }

    /** The manager over whatever the disk and the index already hold. */
    constructor (files0: map<string, RecordFile>, index0: Option<seq<string>>)
      ensures State() == Store(files0, index0)
    {
      files := files0;
      index := index0;
    }

    /** `cacheComment`: writes the record file, then appends its id to the index.
        Returns the new id, or "" when encoding or writing fails. */
    method CacheComment(postId: string, updatedComments: map<string, string>, uuid: string, outcome: WriteOutcome)
      returns (id: string)
      requires uuid != ""
      modifies this
      ensures id == if outcome == Written then uuid else ""
      ensures State() == AfterCache(old(State()), postId, updatedComments, uuid, outcome)
    {
      var newCommentId := uuid;
      var cached := CachedComment(postId, updatedComments);
      match outcome {
        case EncodeFailed =>
          return "";
        case WriteFailed =>
          return "";
        case Written =>
          files := files[newCommentId := Encoded(cached)];
          SavePendingCommentId(newCommentId);
          return newCommentId;
      }
    }

    /** `getPendingComments`: loads every indexed record, skipping those that are
        missing or do not decode. */
    method GetPendingComments() returns (pending: map<string, CachedComment>)
      ensures pending == Pending(State())
      ensures forall id :: id in pending ==> id in IndexIds(index) && id in files && files[id] == Encoded(pending[id])
      ensures index.None? ==> pending == map[]
    {
      if index.None? {
        return map[];
      }
      var pendingCommentIds := index.value;
      var count := |pendingCommentIds|;
      pending := map[];
      for i := 0 to count
        invariant forall id :: id in pending <==> id in pendingCommentIds[..i] && id in files && files[id].Encoded?
        invariant forall id :: id in pending ==> pending[id] == files[id].comment
      {
        var commentId := pendingCommentIds[i];
        if commentId in files && files[commentId].Encoded? {
          pending := pending[commentId := files[commentId].comment];
        }
      }
      assert pendingCommentIds[..count] == pendingCommentIds;
    }

    /** `removeComment`: deletes the record file and, only if that succeeds, drops
        every occurrence of the id from the index. Errors are swallowed. */
    method RemoveComment(commentId: string, removable: bool)
      modifies this
      ensures State() == AfterRemove(old(State()), commentId, removable)
    {
      if commentId in files && removable {
        files := files - {commentId};
        RemovePendingCommentId(commentId);
      }
    }

    /** `savePendingCommentId`: read-modify-write of the index, appending `commentId`. */
    method SavePendingCommentId(commentId: string)
      modifies this
      ensures files == old(files)
      ensures index == Some(IndexIds(old(index)) + [commentId])
    {
      var pendingCommentIds := IndexIds(index);
      pendingCommentIds := pendingCommentIds + [commentId];
      index := Some(pendingCommentIds);
    }

    /** `removePendingCommentId`: drops every occurrence of `commentId`; no index, no change. */
    method RemovePendingCommentId(commentId: string)
      modifies this
      ensures files == old(files)
      ensures index == if old(index).None? then None else Some(Seqs.RemoveAll(old(index).value, commentId))
    {
      if index.None? {
        return;
      }
      var pendingCommentIds := index.value;
      pendingCommentIds := Seqs.RemoveAll(pendingCommentIds, commentId);
      index := Some(pendingCommentIds);
    }
  }

  /** A successful enqueue appends its id as the last index entry and lists the comment under it;
      with a fresh id every entry listed before is still listed, unchanged. */
  lemma CacheAppendsAndLists(st: Store, postId: string, comments: map<string, string>, uuid: string)
    ensures var st' := AfterCache(st, postId, comments, uuid, Written);
      && IndexIds(st'.index) == IndexIds(st.index) + [uuid]
      && Pending(st') == Pending(st)[uuid := CachedComment(postId, comments)]
    ensures uuid !in st.files ==>
      var p' := Pending(AfterCache(st, postId, comments, uuid, Written));
      forall id :: id in Pending(st) ==> id in p' && p'[id] == Pending(st)[id]
  {
  }

  /** A failed encode or write leaves the record files and the index as they were. */
  lemma CacheFailureUnchanged(st: Store, postId: string, comments: map<string, string>, uuid: string, outcome: WriteOutcome)
    requires outcome != Written
    ensures AfterCache(st, postId, comments, uuid, outcome) == st
  {
  }

  /** Listing never fails: its keys are indexed ids whose files decode, and without an index it is empty. */
  lemma PendingWithinIndex(st: Store)
    ensures forall id :: id in Pending(st) ==> id in IndexIds(st.index) && id in st.files
    ensures forall id :: id in Pending(st) ==> st.files[id] == Encoded(Pending(st)[id])
    ensures st.index.None? ==> Pending(st) == map[]
  {
  }

  /** Removing an existing record deletes its file, drops every occurrence of its id from
      the index, keeps the other ids in order, and unlists only that id. */
  lemma RemoveDeletes(st: Store, id: string)
    requires id in st.files
    ensures var st' := AfterRemove(st, id, true);
      && id !in st'.files
      && IndexIds(st'.index) == Seqs.RemoveAll(IndexIds(st.index), id)
      && Pending(st') == Pending(st) - {id}
  {
  }

  /** When the file is absent (or cannot be removed) the index is untouched, even if it lists the id. */
  lemma RemoveFailureUnchanged(st: Store, id: string, removable: bool)
    requires id !in st.files || !removable
    ensures AfterRemove(st, id, removable) == st
  {
  }

  /** Removing twice under the same file-system conditions leaves the state removing once leaves. */
  lemma RemoveIdempotent(st: Store, id: string, removable: bool)
    ensures AfterRemove(AfterRemove(st, id, removable), id, removable) == AfterRemove(st, id, removable)
  {
  }

  /** Enqueueing under a fresh id and then removing that id restores the listed ids and the listing. */
  lemma CacheThenRemove(st: Store, postId: string, comments: map<string, string>, uuid: string)
    requires uuid !in st.files && uuid !in IndexIds(st.index)
    ensures var st' := AfterRemove(AfterCache(st, postId, comments, uuid, Written), uuid, true);
      && st'.files == st.files
      && IndexIds(st'.index) == IndexIds(st.index)
      && Pending(st') == Pending(st)
  {
    Seqs.RemoveAllAppended(IndexIds(st.index), uuid);
    Seqs.RemoveAllAbsent(IndexIds(st.index), uuid);
  }
}
