/**
 The forum view model: the posts it shows, the tag filter over them, the
 upvote toggle it sends to the store, the bounded offline mirror it writes,
 and the choice between the live feed and that mirror.

 The remote store appears only as the documents a snapshot delivers and as
 the field values an upvote would write. The Core Data mirror is a sequence
 of posts; dates are whole seconds, and "now" is a parameter.
 */
module Forum {
  import opened Wrappers
  import Seqs
  import Strings

  /** A forum post (`struct Post`). */
  datatype Post = Post(
    id: Option<string>,
    asset: Option<string>,
    comments: Option<map<string, string>>,
    tags: Option<seq<string>>,
    text: string,
    timestamp: int,
    title: string,
    upvotedBy: Option<seq<string>>,
    upvotes: int,
    user: string)

  /** A dynamically typed document field, as far as the decoder distinguishes them. */
  datatype FieldValue =
    | StringValue(s: string)
    | StringArray(items: seq<string>)
    | StringMap(entries: map<string, string>)
    | IntValue(n: int)
    | TimestampValue(seconds: int)
    | OtherValue

  /** A document of the "posts" collection: its id and its field map. */
  datatype Document = Document(documentId: string, data: map<string, FieldValue>)

  /** What the snapshot listener receives. */
  datatype Snapshot = ListenError | NoDocuments | Documents(docs: seq<Document>)

  /** `data[key] as? String`. */
  function StringField(data: map<string, FieldValue>, key: string): Option<string>
  {
    if key in data && data[key].StringValue? then Some(data[key].s) else None
  }

  /** `data[key] as? [String]`. */
  function StringArrayField(data: map<string, FieldValue>, key: string): Option<seq<string>>
  {
    if key in data && data[key].StringArray? then Some(data[key].items) else None
  }

  /** `data[key] as? [String: String]`. */
  function StringMapField(data: map<string, FieldValue>, key: string): Option<map<string, string>>
  {
    if key in data && data[key].StringMap? then Some(data[key].entries) else None
  }

  /** `data[key] as? Int`. */
  function IntField(data: map<string, FieldValue>, key: string): Option<int>
  {
    if key in data && data[key].IntValue? then Some(data[key].n) else None
  }

  /** `(data[key] as? Timestamp)?.dateValue()`. */
  function TimestampField(data: map<string, FieldValue>, key: string): Option<int>
  {
    if key in data && data[key].TimestampValue? then Some(data[key].seconds) else None
  }

  /** The snapshot listener's per-document decoding: optional fields stay absent when missing or
      mistyped, the others fall back to "", 0 or the current time. */
  function DecodeDocument(doc: Document, now: int): (p: Post)
    ensures p.id == Some(doc.documentId)
  {
    var data := doc.data;
    Post(
      id := Some(doc.documentId),
      asset := StringField(data, "asset"),
      comments := StringMapField(data, "comments"),
      tags := StringArrayField(data, "tags"),
      text := StringField(data, "text").GetOr(""),
      timestamp := TimestampField(data, "timestamp").GetOr(now),
      title := StringField(data, "title").GetOr(""),
      upvotedBy := StringArrayField(data, "upvotedBy"),
      upvotes := IntField(data, "upvotes").GetOr(0),
      user := StringField(data, "user").GetOr(""))
  }

  /** The snapshot's `compactMap`: one post per document, in document order. */
  function DecodeSnapshot(docs: seq<Document>, now: int): (posts: seq<Post>)
    ensures |posts| == |docs|
    ensures forall i :: 0 <= i < |docs| ==> posts[i] == DecodeDocument(docs[i], now)
  {
    seq(|docs|, i requires 0 <= i < |docs| => DecodeDocument(docs[i], now))
  }

  /** Adds `key := v` to a field map when the optional value is present. */
  function WithOptional(data: map<string, FieldValue>, key: string, present: bool, v: FieldValue): map<string, FieldValue>
  {
    if present then data[key := v] else data
  }

  /** A reference encoder for the decoder: every field of the post that is present, under its key.
      (The app's own create-post writes a narrower shape; see `NewPostDocument`.) */
  function EncodeDocument(p: Post): (doc: Document)
    requires p.id.Some?
  {
    var required := map[
      "text" := StringValue(p.text),
      "timestamp" := TimestampValue(p.timestamp),
      "title" := StringValue(p.title),
      "upvotes" := IntValue(p.upvotes),
      "user" := StringValue(p.user)];
    var d1 := WithOptional(required, "asset", p.asset.Some?, StringValue(p.asset.GetOr("")));
    var d2 := WithOptional(d1, "comments", p.comments.Some?, StringMap(p.comments.GetOr(map[])));
    var d3 := WithOptional(d2, "tags", p.tags.Some?, StringArray(p.tags.GetOr([])));
    var d4 := WithOptional(d3, "upvotedBy", p.upvotedBy.Some?, StringArray(p.upvotedBy.GetOr([])));
    Document(p.id.value, d4)
  }

  /** The decoder loses nothing the reference encoder writes: it gives the post back. */
  lemma DecodeEncode(p: Post, now: int)
    requires p.id.Some?
    ensures DecodeDocument(EncodeDocument(p), now) == p
  {
  }

  /** The document the create-post screen writes (`postData`): text, timestamp, user, an empty
      upvoter list and zero upvotes, the lower-cased category as the only tag when one is
      chosen, and the asset URL when there is one; no title and no comments. */
  function NewPostDocument(documentId: string, text: string, timestamp: int, user: string,
                           category: string, assetUrl: Option<string>): (doc: Document)
    ensures doc.documentId == documentId
    ensures "title" !in doc.data && "comments" !in doc.data
  {
    var postData := map[
      "text" := StringValue(text),
      "timestamp" := TimestampValue(timestamp),
      "user" := StringValue(user),
      "upvotedBy" := StringArray([]),
      "upvotes" := IntValue(0)];
    var withTags := if category != [] then postData["tags" := StringArray([Strings.Lower(category)])] else postData;
    var withAsset := if assetUrl.Some? then withTags["asset" := StringValue(assetUrl.value)] else withTags;
    Document(documentId, withAsset)
  }

  /** A newly created post reads back with an empty title, no comments, an empty (not absent)
      upvoter list, zero upvotes, and at most the one lower-cased tag. */
  lemma DecodeNewPost(documentId: string, text: string, timestamp: int, user: string,
                      category: string, assetUrl: Option<string>, now: int)
    ensures DecodeDocument(NewPostDocument(documentId, text, timestamp, user, category, assetUrl), now)
      == Post(Some(documentId), assetUrl, None,
              if category != [] then Some([Strings.Lower(category)]) else None,
              text, timestamp, "", Some([]), 0, user)
  {
  }

  /** A document without fields decodes to the defaults. */
  lemma DecodeEmptyDocument(documentId: string, now: int)
    ensures DecodeDocument(Document(documentId, map[]), now)
      == Post(Some(documentId), None, None, None, "", now, "", None, 0, "")
  {
  }

  /** A field of a type the decoder does not expect counts as missing. */
  lemma DecodeIgnoresMistypedField(documentId: string, data: map<string, FieldValue>, key: string, now: int)
    ensures DecodeDocument(Document(documentId, data[key := OtherValue]), now)
      == DecodeDocument(Document(documentId, data - {key}), now)
  {
  }

  /** The test `post.tags?.contains(tag) ?? false`. */
  function HasTag(tag: string): Post -> bool
  {
    (p: Post) => p.tags.Some? && tag in p.tags.value
  }

  /** `applyFilter`'s result: all posts when no filter (or an empty one) is selected,
      otherwise the posts tagged with the lower-cased filter, in order. */
  function TagFiltered(posts: seq<Post>, selectedFilter: Option<string>): (r: seq<Post>)
    ensures selectedFilter.None? || selectedFilter.value == [] ==> r == posts
    ensures selectedFilter.Some? && selectedFilter.value != [] ==>
      forall p :: p in r <==> p in posts && p.tags.Some? && Strings.Lower(selectedFilter.value) in p.tags.value
  {
    if selectedFilter.Some? && selectedFilter.value != [] then
      Seqs.Filter(posts, HasTag(Strings.Lower(selectedFilter.value)))
    else
      posts
  }

  /** Tag filtering keeps relative order: the filter of a concatenation is the concatenation of the filters. */
  lemma TagFilteredAppend(a: seq<Post>, b: seq<Post>, selectedFilter: Option<string>)
    ensures TagFiltered(a + b, selectedFilter) == TagFiltered(a, selectedFilter) + TagFiltered(b, selectedFilter)
  {
    if selectedFilter.Some? && selectedFilter.value != [] {
      Seqs.FilterAppend(a, b, HasTag(Strings.Lower(selectedFilter.value)));
    }
  }

  /** A post without tags never passes a non-empty filter. */
  lemma UntaggedExcluded(posts: seq<Post>, p: Post, filter: string)
    requires filter != [] && p.tags.None?
    ensures p !in TagFiltered(posts, Some(filter))
  {
  }

  /** Applying the same filter to its own result changes nothing. */
  lemma TagFilteredIdempotent(posts: seq<Post>, selectedFilter: Option<string>)
    ensures TagFiltered(TagFiltered(posts, selectedFilter), selectedFilter) == TagFiltered(posts, selectedFilter)
  {
    if selectedFilter.Some? && selectedFilter.value != [] {
      Seqs.FilterIdempotent(posts, HasTag(Strings.Lower(selectedFilter.value)));
    }
  }

  /** The user id an upvote is recorded under when nobody is signed in. */
  const AnonymousUser: string := "anonymous"

  /** How many posts the offline mirror keeps. */
  const MirrorCapacity: nat := 10

  /** The fields `upvotePost` writes to the post's document. */
  datatype UpvoteUpdate = UpvoteUpdate(postId: string, upvotedBy: seq<string>, upvotes: int)

  /** The post as the store holds it once an upvote update is written. */
  function ApplyUpvote(p: Post, u: UpvoteUpdate): Post
  {
    p.(upvotedBy := Some(u.upvotedBy), upvotes := u.upvotes)
  }

  /** The posts `savePosts` stores: the first `MirrorCapacity` posts, or all of them when fewer. */
  function SavedPrefix(posts: seq<Post>): (r: seq<Post>)
    ensures r <= posts
    ensures |r| == if |posts| < MirrorCapacity then |posts| else MirrorCapacity
  {
    if |posts| < MirrorCapacity then posts else posts[..MirrorCapacity]
  }

  /** The mirror after `savePosts`: untouched when there are no posts; otherwise the batch delete
      runs (`cleared` says whether it succeeded; a failure is swallowed) and the saved prefix is
      added after whatever the delete left. */
  function MirrorAfterSave(posts: seq<Post>, mirror: seq<Post>, cleared: bool): (r: seq<Post>)
    ensures posts == [] ==> r == mirror
    ensures posts != [] ==> |r| == (if cleared then 0 else |mirror|) + |SavedPrefix(posts)|
    ensures posts != [] && cleared ==> r <= posts
    ensures posts != [] && !cleared ==> mirror <= r && r[|mirror|..] <= posts
    ensures posts != [] ==>
      multiset(r) == (if cleared then multiset{} else multiset(mirror)) + multiset(SavedPrefix(posts))
  {
    if posts == [] then mirror
    else (if cleared then [] else mirror) + SavedPrefix(posts)
  }

  /** When the delete succeeds, nothing of the previous mirror survives a save of a non-empty
      post list: saving twice is saving once, whatever the mirror held. */
  lemma MirrorReplacedWhole(posts: seq<Post>, mirror1: seq<Post>, mirror2: seq<Post>)
    requires posts != []
    ensures MirrorAfterSave(posts, mirror1, true) == MirrorAfterSave(posts, mirror2, true)
    ensures MirrorAfterSave(posts, MirrorAfterSave(posts, mirror1, true), true) == MirrorAfterSave(posts, mirror1, true)
  {
  }

  /** When the delete fails, the stored posts are the old generation together with the new
      one, and the mirror outgrows its capacity as soon as a full batch lands on a non-empty
      mirror. (The fetch sorts by timestamp, so the two generations come back interleaved.) */
  lemma MirrorFailedClearMixes(posts: seq<Post>, mirror: seq<Post>)
    requires |posts| >= MirrorCapacity && mirror != []
    ensures |MirrorAfterSave(posts, mirror, false)| > MirrorCapacity
    ensures multiset(MirrorAfterSave(posts, mirror, false)) == multiset(mirror) + multiset(SavedPrefix(posts))
  {
  }

  /** Where each saved post lands in the mirror's insertion order: at its own position, after the
      old generation when the delete failed. (Positions are insertion order; the fetch re-sorts
      by timestamp, which the model leaves out.) */
  lemma MirrorKeepsPrefix(posts: seq<Post>, mirror: seq<Post>, cleared: bool, k: nat)
    requires posts != [] && k < |posts| && k < MirrorCapacity
    ensures var offset := if cleared then 0 else |mirror|;
      offset + k < |MirrorAfterSave(posts, mirror, cleared)| && MirrorAfterSave(posts, mirror, cleared)[offset + k] == posts[k]
  {
  }

  class ForumViewModel {
    var posts: seq<Post>
    var filteredPosts: seq<Post>
    var selectedFilter: Option<string>
    /** The Core Data mirror of the last posts received online. */
    var mirror: seq<Post>
    /** Whether a snapshot listener on the posts collection is registered. */
    var listening: bool

    /** The shown list is always the current posts under the current filter. */
    ghost predicate Valid()
      reads this
    {
      filteredPosts == TagFiltered(posts, selectedFilter)
    }

    /** `init`: starts empty with no filter, then runs `manageEC` under the current connectivity. */
    constructor (connected: bool, savedPosts: seq<Post>)
      ensures Valid()
      ensures selectedFilter == None && mirror == savedPosts
      ensures connected ==> listening && posts == []
      ensures !connected ==> !listening && posts == savedPosts
    {
      posts := [];
      filteredPosts := [];
      selectedFilter := None;
      mirror := savedPosts;
      listening := false;
      new;
      ManageEC(connected);
    }

    /** `manageEC`: subscribes to the live feed when connected, otherwise loads the mirror. */
    method ManageEC(connected: bool)
      requires Valid()
      modifies this
      ensures Valid()
      ensures selectedFilter == old(selectedFilter) && mirror == old(mirror)
      ensures connected ==> listening && posts == old(posts)
      ensures !connected ==> listening == old(listening) && posts == (if old(mirror) == [] then old(posts) else old(mirror))
    {
      if connected {
        FetchPosts();
      } else {
        LoadPosts();
      }
    }

    /** `loadPosts`: replaces the posts by the mirror, but only when the mirror is non-empty. */
    method LoadPosts()
      requires Valid()
      modifies this`posts, this`filteredPosts
      ensures Valid()
      ensures posts == if mirror == [] then old(posts) else mirror
    {
      var savedPosts := mirror;
      if savedPosts != [] {
        posts := savedPosts;
        ApplyFilter();
      }
    }

    /** `fetchPosts`: (re-)registers the snapshot listener. */
    method FetchPosts()
      modifies this`listening
      ensures listening
    {
      listening := true;
    }

    /** The snapshot listener's body: on documents, decode them into `posts`, refilter and
        save the mirror (`cleared`: whether its batch delete succeeds); on an error or no
        documents, change nothing. */
    method OnSnapshot(snapshot: Snapshot, now: int, cleared: bool)
      requires Valid()
      modifies this`posts, this`filteredPosts, this`mirror
      ensures Valid()
      ensures snapshot.Documents? ==> posts == DecodeSnapshot(snapshot.docs, now)
      ensures snapshot.Documents? ==> mirror == MirrorAfterSave(posts, old(mirror), cleared)
      ensures !snapshot.Documents? ==> posts == old(posts) && mirror == old(mirror)
    {
      match snapshot {
        case ListenError =>
          return;
        case NoDocuments =>
          return;
        case Documents(documents) =>
          posts := DecodeSnapshot(documents, now);
          ApplyFilter();
          SavePosts(cleared);
      }
    }

    /** `applyFilter`. */
    method ApplyFilter()
      modifies this`filteredPosts
      ensures Valid()
    {
      if selectedFilter.Some? && selectedFilter.value != [] {
        var filter := selectedFilter.value;
        filteredPosts := Seqs.Filter(posts, HasTag(Strings.Lower(filter)));
      } else {
        filteredPosts := posts;
      }
    }

    /** `setFilter`: selects `filter` and refilters. */
    method SetFilter(filter: Option<string>)
      modifies this`selectedFilter, this`filteredPosts
      ensures selectedFilter == filter
      ensures Valid()
    {
      selectedFilter := filter;
      ApplyFilter();
    }

    /** `savePosts`: with no posts, nothing; otherwise run the batch delete (`cleared` says
        whether it succeeded) and store the first `MirrorCapacity` posts one by one. */
    method SavePosts(cleared: bool)
      modifies this`mirror
      ensures mirror == MirrorAfterSave(posts, old(mirror), cleared)
      ensures posts != [] && cleared ==> |mirror| <= MirrorCapacity
    {
      if posts == [] {
        return;
      }
      if cleared {
        mirror := [];
      }
      ghost var kept := mirror;
      var postsToSave := if |posts| < MirrorCapacity then posts else posts[..MirrorCapacity];
      for i := 0 to |postsToSave|
        invariant mirror == kept + postsToSave[..i]
      {
        mirror := mirror + [postsToSave[i]];
      }
      assert postsToSave[..|postsToSave|] == postsToSave;
    }

    /** `upvotePost`: the update written for `post` by the signed-in user (or "anonymous"):
        if they had upvoted, every occurrence of their id is removed and the count drops by
        one; otherwise their id is appended and the count rises by one. A post without an
        id yields no update. */
    method UpvotePost(post: Post, currentUser: Option<string>) returns (update: Option<UpvoteUpdate>)
      ensures post.id.None? <==> update.None?
      ensures update.Some? ==> update.value == UpvoteFor(post, currentUser.GetOr(AnonymousUser))
      ensures update.Some? ==>
        var userId := currentUser.GetOr(AnonymousUser);
        var before := post.upvotedBy.GetOr([]);
        && (userId in update.value.upvotedBy <==> userId !in before)
        && (forall u :: u != userId ==> (u in update.value.upvotedBy <==> u in before))
        && update.value.upvotes == if userId in before then post.upvotes - 1 else post.upvotes + 1
    {
      if post.id.None? {
        return None;
      }
      var postId := post.id.value;
      var userId := currentUser.GetOr(AnonymousUser);
      var upvotedBy := post.upvotedBy.GetOr([]);
      if userId in upvotedBy {
        upvotedBy := Seqs.RemoveAll(upvotedBy, userId);
        update := Some(UpvoteUpdate(postId, upvotedBy, post.upvotes - 1));
      } else {
        upvotedBy := upvotedBy + [userId];
        update := Some(UpvoteUpdate(postId, upvotedBy, post.upvotes + 1));
      }
    }
  }

  /** The upvote update for post `p` and user `userId`: the user's id removed (every
      occurrence) with the count one lower if they had upvoted, else appended with the
      count one higher. */
  function UpvoteFor(p: Post, userId: string): (u: UpvoteUpdate)
    requires p.id.Some?
    ensures u.postId == p.id.value
    ensures userId in u.upvotedBy <==> userId !in p.upvotedBy.GetOr([])
    ensures userId !in p.upvotedBy.GetOr([]) ==> u.upvotedBy[..|u.upvotedBy| - 1] == p.upvotedBy.GetOr([])
  {
    var before := p.upvotedBy.GetOr([]);
    if userId in before then UpvoteUpdate(p.id.value, Seqs.RemoveAll(before, userId), p.upvotes - 1)
    else UpvoteUpdate(p.id.value, before + [userId], p.upvotes + 1)
  }

  /** A count that matches a duplicate-free upvoter list keeps matching after a toggle. */
  lemma UpvoteKeepsCount(p: Post, userId: string)
    requires p.id.Some?
    requires Seqs.NoDuplicates(p.upvotedBy.GetOr([])) && p.upvotes == |p.upvotedBy.GetOr([])|
    ensures var u := UpvoteFor(p, userId);
      Seqs.NoDuplicates(u.upvotedBy) && u.upvotes == |u.upvotedBy|
  {
    var before := p.upvotedBy.GetOr([]);
    if userId in before {
      Seqs.RemoveAllNoDuplicates(before, userId);
    }
  }

  /** Upvoting twice restores a post that had an upvoter list without the user. */
  lemma UpvoteTwiceRestores(p: Post, userId: string)
    requires p.id.Some? && p.upvotedBy.Some? && userId !in p.upvotedBy.value
    ensures var p1 := ApplyUpvote(p, UpvoteFor(p, userId));
      ApplyUpvote(p1, UpvoteFor(p1, userId)) == p
  {
    Seqs.RemoveAllAppended(p.upvotedBy.value, userId);
    Seqs.RemoveAllAbsent(p.upvotedBy.value, userId);
  }
}
