# Offline-first forum client: a verified model of its core logic

This project models the stateful and decision-making logic of a SwiftUI forum
client in Dafny and proves properties of it. The client works offline first.
The model covers six parts of the client:

- **Pending-comment queue** (`CommentCache`, `comment_cache.dfy`). Comments
  written offline are stored as one record file per fresh id. An index of
  those ids is persisted in enqueue order. The queue can enqueue, list and
  remove, and it writes the index by read-modify-write. The file system and
  the index are fields of the `CommentCacheManager` class: a map from file
  name to record, and an optional sequence of ids. The UUID, the JSON
  encoding, the file write and the file removal are parameters that say how
  each of those steps ends.
- **Forum view model** (`Forum`, `forum.dfy`). It covers:
  - the `Post` record;
  - decoding a snapshot document into a post, with per-field defaults;
  - the tag filter;
  - the upvote toggle that would be written to the store;
  - the bounded offline mirror (the first 10 posts);
  - the choice between the live feed and that mirror.

  The mirror is a `seq<Post>` field of the `ForumViewModel` class. The
  class invariant `Valid()` says that the shown list is always the posts
  under the current filter.
- **Forum screen** (`ForumView`, `forum_view.dfy`). It covers the search over
  title, text and tags, the topic buttons that toggle the filter, and the
  icon each topic shows.
- **Reachability monitor** (`Connectivity`, `network_monitor.dfy`). It is a
  two-state status that every path update overwrites. It posts a
  `networkStatusChanged` notification on every satisfied update.
- **In-app notifications** (`Notifications`, `notifications.dfy`). It covers:
  - the notification type and its raw values;
  - the sample list the service installs;
  - `markAsRead` and `markAllAsRead`, which update `read` in place;
  - the service's own `isConnected` flag, which reports the reconnect edge.
- **`Color(hex:)`** (`HexColor`, `hex_color.dfy`). It covers the integer
  part of the colour decoder: the trim, the hexadecimal scan, and the split
  into alpha, red, green and blue for 3, 6 or 8 characters.

Shared helpers:

- `Seqs` (`seqs.dfy`) holds order-preserving `filter` and `removeAll(where:)`.
- `Strings` (`strings.dfy`) holds `lowercased()` and case-insensitive
  containment.
- `Wrappers` (`wrappers.dfy`) holds `Option`.

Each operation that changes state is a method. Its `ensures` ties the new
state to a function of the old state (`AfterCache`, `AfterRemove`,
`MirrorAfterSave`, `TagFiltered`, `MarkedRead`, `AllRead`, ...). The
source's promises are proved as lemmas about those functions.

Two connectivity details matter for the model:

- `NetworkMonitor` starts `.disconnected` and posts `networkStatusChanged` on
  every satisfied update, including repeated ones
  (`Connectivity.PostsAtLeastEdges`, `Connectivity.RepeatedSatisfiedPostsMore`).
- Of the modelled files, only `AppNotificationService` detects the reconnect
  edge. Its flag starts `true`, and its "Network reconnected" log line is
  modelled as the flag returned by
  `Notifications.AppNotificationService.HandlePathUpdate`.

## Model

| member | source | states |
|---|---|---|
| CommentCache.CommentCacheManager.constructor | swift_app/swift_app/Post/ViewModel/AddCommentEC/CommentCacheManager.swift:19-36 | the manager starts over whatever record files and index are already on disk |
| CommentCache.CommentCacheManager.CacheComment | swift_app/swift_app/Post/ViewModel/AddCommentEC/CommentCacheManager.swift:39-56 | returns the fresh id when the record is written, and "" when encoding or writing fails; the new state is `AfterCache` of the old one |
| CommentCache.CommentCacheManager.GetPendingComments | swift_app/swift_app/Post/ViewModel/AddCommentEC/CommentCacheManager.swift:58-81 | the loop builds exactly `Pending(State())`: every indexed id whose file exists and decodes, mapped to its record; empty when there is no index |
| CommentCache.CommentCacheManager.RemoveComment | swift_app/swift_app/Post/ViewModel/AddCommentEC/CommentCacheManager.swift:85-94 | the new state is `AfterRemove`: the file is deleted and then the id is unindexed, only when the deletion succeeds |
| CommentCache.CommentCacheManager.SavePendingCommentId | swift_app/swift_app/Post/ViewModel/AddCommentEC/CommentCacheManager.swift:97-101 | the index becomes the old index (absent read as empty) with the id appended; the files are unchanged |
| CommentCache.CommentCacheManager.RemovePendingCommentId | swift_app/swift_app/Post/ViewModel/AddCommentEC/CommentCacheManager.swift:109-114 | every occurrence of the id leaves the index; with no index nothing changes; the files are unchanged |
| CommentCache.Pending | swift_app/swift_app/Post/ViewModel/AddCommentEC/CommentCacheManager.swift:58-81 | the listing holds exactly the indexed ids whose file exists and decodes, each mapped to its decoded record |
| CommentCache.AfterCache | swift_app/swift_app/Post/ViewModel/AddCommentEC/CommentCacheManager.swift:39-56 | a failed encode or write changes nothing; a successful one writes the record under the id, keeps every other file, and appends the id to the index (an absent index read as empty) |
| CommentCache.AfterRemove | swift_app/swift_app/Post/ViewModel/AddCommentEC/CommentCacheManager.swift:85-94 | nothing changes unless the file exists and is removed; then the file is gone, the id is no longer indexed, every other id keeps its membership, and an absent index stays absent |
| CommentCache.CacheAppendsAndLists | swift_app/swift_app/Post/ViewModel/AddCommentEC/CommentCacheManager.swift:47-51 | a successful enqueue appends its id as the last index entry and lists the comment under it; with a fresh id every earlier listed entry stays listed, unchanged |
| CommentCache.CacheFailureUnchanged | swift_app/swift_app/Post/ViewModel/AddCommentEC/CommentCacheManager.swift:47-55 | a failed encode or write leaves the files and the index as they were |
| CommentCache.PendingWithinIndex | swift_app/swift_app/Post/ViewModel/AddCommentEC/CommentCacheManager.swift:58-80 | listing skips missing and undecodable records: its keys are indexed ids whose files decode to the listed record; no index gives the empty map |
| CommentCache.RemoveDeletes | swift_app/swift_app/Post/ViewModel/AddCommentEC/CommentCacheManager.swift:85-90 | removing an existing record deletes the file, removes every occurrence of the id from the index, keeps the others in order, and unlists only that id |
| CommentCache.RemoveFailureUnchanged | swift_app/swift_app/Post/ViewModel/AddCommentEC/CommentCacheManager.swift:88-93 | when the file is absent or cannot be removed, the index is unchanged, even if it lists the id |
| CommentCache.RemoveIdempotent | swift_app/swift_app/Post/ViewModel/AddCommentEC/CommentCacheManager.swift:85-94 | removing twice leaves the same state as removing once |
| CommentCache.CacheThenRemove | swift_app/swift_app/Post/ViewModel/AddCommentEC/CommentCacheManager.swift:39-114 | an enqueue under a fresh id, then its removal, restores the files, the listed ids and the listing |
| Seqs.Filter | swift_app/swift_app/Post/ViewModel/ForumViewModel.swift:114-116 | `Array.filter`: the result holds exactly the accepted elements of the input and is no longer than it |
| Seqs.FilterAppend | swift_app/swift_app/Post/ViewModel/ForumViewModel.swift:114-116 | filtering distributes over concatenation, so relative order is kept |
| Seqs.FilterCount | swift_app/swift_app/Post/ViewModel/ForumViewModel.swift:114-116 | filtering keeps every occurrence of an accepted element and none of a rejected one |
| Seqs.FilterIdempotent | swift_app/swift_app/Post/ViewModel/ForumViewModel.swift:114-116 | filtering twice with the same test is filtering once |
| Seqs.RemoveAll | swift_app/swift_app/Post/ViewModel/AddCommentEC/CommentCacheManager.swift:111 | `removeAll { $0 == x }`: `x` no longer occurs, and every other element occurs exactly when it did before |
| Seqs.RemoveAllAbsent | swift_app/swift_app/Post/ViewModel/AddCommentEC/CommentCacheManager.swift:111 | removing an absent element changes nothing |
| Seqs.RemoveAllIdempotent | swift_app/swift_app/Post/ViewModel/AddCommentEC/CommentCacheManager.swift:111 | removing the same element twice is removing it once |
| Seqs.RemoveAllAppended | swift_app/swift_app/Post/ViewModel/ForumViewModel.swift:138-145 | appending an element and then removing it equals removing it from the original |
| Seqs.RemoveAllNoDuplicates | swift_app/swift_app/Post/ViewModel/ForumViewModel.swift:138 | on a duplicate-free list, removal keeps it duplicate-free and shortens it by one exactly when the element was present |
| Strings.Lower | swift_app/swift_app/Post/ViewModel/ForumViewModel.swift:115 | `lowercased()` keeps the length, folds each character, and leaves no upper-case letter |
| Strings.LowerIdempotent | swift_app/swift_app/Post/View/ForumView.swift:114 | lower-casing twice is lower-casing once |
| Strings.IsSubstringAt | swift_app/swift_app/Post/View/ForumView.swift:86-88 | an occurrence of the needle at any offset makes it a substring |
| Strings.ContainsIgnoringCase | swift_app/swift_app/Post/View/ForumView.swift:86-88 | `localizedCaseInsensitiveContains`: a contained needle is non-empty and no longer than the haystack |
| Strings.ContainsIgnoresCase | swift_app/swift_app/Post/View/ForumView.swift:86-88 | case-insensitive containment does not depend on the case of the haystack or the needle |
| Strings.ContainsItself | swift_app/swift_app/Post/View/ForumView.swift:86 | a non-empty string contains itself, in any case, ignoring case |
| Forum.DecodeDocument | swift_app/swift_app/Post/ViewModel/ForumViewModel.swift:75-101 | the decoded post carries the document's id |
| Forum.DecodeSnapshot | swift_app/swift_app/Post/ViewModel/ForumViewModel.swift:75-103 | one decoded post per document, in document order |
| Forum.DecodeEncode | swift_app/swift_app/Post/ViewModel/ForumViewModel.swift:79-88 | the decoder loses nothing: a reference encoding of any post with an id, every present field under its key, decodes back to that post |
| Forum.DecodeNewPost | swift_app/swift_app/Post/ViewModel/ForumViewModel.swift:79-88 | a post written by the create-post screen (`NewPostDocument`, the `postData` built at lines 92-107 of AddPostViewModel.swift under Add Post) reads back with title "", no comments, an empty upvoter list, 0 upvotes, and the lower-cased category as its only tag when one was chosen |
| Forum.DecodeEmptyDocument | swift_app/swift_app/Post/ViewModel/ForumViewModel.swift:79-88 | a document without fields decodes to the defaults: "" for text, title and user, 0 upvotes, the current time, no optional field |
| Forum.DecodeIgnoresMistypedField | swift_app/swift_app/Post/ViewModel/ForumViewModel.swift:80-88 | a field of an unexpected type decodes as if it were missing |
| Forum.TagFiltered | swift_app/swift_app/Post/ViewModel/ForumViewModel.swift:112-120 | no filter or an empty one shows all posts; otherwise a post is shown exactly when it is in the list and its tags contain the lower-cased filter |
| Forum.TagFilteredAppend | swift_app/swift_app/Post/ViewModel/ForumViewModel.swift:114-116 | the tag filter keeps the posts' relative order |
| Forum.UntaggedExcluded | swift_app/swift_app/Post/ViewModel/ForumViewModel.swift:115 | a post with nil tags never passes a non-empty filter |
| Forum.TagFilteredIdempotent | swift_app/swift_app/Post/ViewModel/ForumViewModel.swift:112-120 | filtering the filtered list again changes nothing |
| Forum.SavedPrefix | swift_app/swift_app/Post/ViewModel/ForumViewModel.swift:164 | `posts.prefix(10)`: a prefix of the posts of length min(10, posts) |
| Forum.MirrorAfterSave | swift_app/swift_app/Post/ViewModel/ForumViewModel.swift:155-175 | no posts leaves the mirror untouched; after a successful batch delete the mirror is the saved prefix alone; after a failed one (swallowed by `clearAllPosts`) the stored posts are the old mirror plus the saved prefix, as a multiset; positions are insertion order, which the fetch re-sorts by timestamp |
| Forum.MirrorReplacedWhole | swift_app/swift_app/Post/ViewModel/ForumViewModel.swift:161-169 | when the delete succeeds, nothing of the previous mirror survives a save of non-empty posts, and saving twice is saving once |
| Forum.MirrorFailedClearMixes | swift_app/swift_app/Post/ViewModel/ForumViewModel.swift:161-169 | when the delete fails, the stored posts are the old generation plus the new one (as a multiset), and a full batch pushes the mirror past 10 posts |
| Forum.MirrorKeepsPrefix | swift_app/swift_app/Post/ViewModel/ForumViewModel.swift:164-169 | in the mirror's insertion order (not the timestamp order the fetch returns), each of the first 10 posts is at its own position, offset by the old generation when the delete failed |
| Forum.ForumViewModel.constructor | swift_app/swift_app/Post/ViewModel/ForumViewModel.swift:13-26 | starts with no filter and runs `manageEC`: listening with no posts when connected, the mirror's posts when offline; the invariant holds |
| Forum.ForumViewModel.ManageEC | swift_app/swift_app/Post/ViewModel/ForumViewModel.swift:28-42 | subscribes when connected; otherwise loads the mirror, keeping the old posts when the mirror is empty |
| Forum.ForumViewModel.LoadPosts | swift_app/swift_app/Post/ViewModel/ForumViewModel.swift:44-52 | replaces the posts by the mirror only when the mirror is non-empty, and keeps the shown list filtered |
| Forum.ForumViewModel.FetchPosts | swift_app/swift_app/Post/ViewModel/ForumViewModel.swift:55-62 | a snapshot listener is registered afterwards |
| Forum.ForumViewModel.OnSnapshot | swift_app/swift_app/Post/ViewModel/ForumViewModel.swift:62-109 | documents replace the posts by their decoding, refilter, and save the mirror under the given delete outcome; an error or no documents changes nothing |
| Forum.ForumViewModel.ApplyFilter | swift_app/swift_app/Post/ViewModel/ForumViewModel.swift:112-120 | the shown list becomes `TagFiltered(posts, selectedFilter)` |
| Forum.ForumViewModel.SetFilter | swift_app/swift_app/Post/ViewModel/ForumViewModel.swift:122-125 | the filter is set and the shown list is refiltered under it |
| Forum.ForumViewModel.SavePosts | swift_app/swift_app/Post/ViewModel/ForumViewModel.swift:155-175 | the clear-and-refill loop leaves exactly `MirrorAfterSave(posts, old mirror, cleared)`, at most 10 posts when the delete succeeds |
| Forum.ForumViewModel.UpvotePost | swift_app/swift_app/Post/ViewModel/ForumViewModel.swift:127-153 | no update for a post without id; otherwise the user ("anonymous" when signed out) toggles membership, every other upvoter is kept, and the count moves by one in the matching direction |
| Forum.UpvoteFor | swift_app/swift_app/Post/ViewModel/ForumViewModel.swift:131-149 | the update targets the post's id; the user is in the new list exactly when they were not in the old one; an added user is appended at the end |
| Forum.UpvoteKeepsCount | swift_app/swift_app/Post/ViewModel/ForumViewModel.swift:136-149 | a count that equals a duplicate-free upvoter list's length keeps equalling it after a toggle |
| Forum.UpvoteTwiceRestores | swift_app/swift_app/Post/ViewModel/ForumViewModel.swift:136-149 | two toggles by a user who had not upvoted restore the post |
| ForumView.SearchResults | swift_app/swift_app/Post/View/ForumView.swift:81-91 | empty search text shows the view model's list unchanged; otherwise a post is shown exactly when its title, text or some tag contains the text, ignoring case |
| ForumView.SearchResultsAppend | swift_app/swift_app/Post/View/ForumView.swift:85-89 | the search keeps the posts' relative order |
| ForumView.UntaggedSearch | swift_app/swift_app/Post/View/ForumView.swift:86-88 | a post with nil tags is found exactly when its title or text matches |
| ForumView.TitleFound | swift_app/swift_app/Post/View/ForumView.swift:86 | searching for a post's non-empty title, in any case, finds that post |
| ForumView.IsSelected | swift_app/swift_app/Post/View/ForumView.swift:46 | a selected topic's filter is present, as long as the topic, and has no upper-case letter |
| ForumView.ToggledFilter | swift_app/swift_app/Post/View/ForumView.swift:46-52 | a tap clears the filter exactly when the topic was selected; the topic shows as selected afterwards exactly when it did not before |
| ForumView.TapTwiceFromNone | swift_app/swift_app/Post/View/ForumView.swift:48-51 | two taps on the same topic from no filter return to no filter |
| ForumView.TapOtherTopic | swift_app/swift_app/Post/View/ForumView.swift:48-51 | tapping a different topic selects its lower-cased name, whatever was selected |
| ForumView.TapTopic | swift_app/swift_app/Post/View/ForumView.swift:47-53 | the button action sets the toggled filter and keeps the shown list filtered |
| ForumView.IconName | swift_app/swift_app/Post/View/ForumView.swift:113-124 | each of recycling, upcycling and transport, in any case, has its own icon; every other topic gets "tag" |
| ForumView.IconNameIgnoresCase | swift_app/swift_app/Post/View/ForumView.swift:114 | the icon does not depend on the topic's case |
| ForumView.TopicIconsDistinct | swift_app/swift_app/Post/View/ForumView.swift:14 | the three topic buttons show the trianglepath, up-circle and car icons |
| Connectivity.StatusFor | swift_app/swift_app/NetworkMonitor.swift:34-39 | a path update sets connected exactly when the path is satisfied |
| Connectivity.NetworkMonitor.IsConnected | swift_app/swift_app/NetworkMonitor.swift:23 | `isConnected` holds exactly when the status is connected |
| Connectivity.NetworkMonitor.constructor | swift_app/swift_app/NetworkMonitor.swift:22-23 | the monitor starts disconnected, with nothing posted |
| Connectivity.NetworkMonitor.HandlePathUpdate | swift_app/swift_app/NetworkMonitor.swift:30-41 | a satisfied update connects and posts one notification; any other update disconnects and posts nothing |
| Connectivity.StatusAfterLast | swift_app/swift_app/NetworkMonitor.swift:34-39 | after a run of updates the status is the one the last update sets |
| Connectivity.PostsAtLeastEdges | swift_app/swift_app/NetworkMonitor.swift:34-36 | notifications are at least the reconnect edges, and strictly more when the run opens with a satisfied update on a connected monitor |
| Connectivity.RepeatedSatisfiedPostsMore | swift_app/swift_app/NetworkMonitor.swift:34-36 | anywhere in a run, two satisfied updates in a row make notifications outnumber reconnect edges, so posting is not edge-triggered |
| Connectivity.HandlePathUpdateExtendsRun | swift_app/swift_app/NetworkMonitor.swift:34-39 | folding one more update into a run changes status, notification count and edge count exactly as one call of the handler does, so the run lemmas describe repeated calls |
| Connectivity.RepeatedSatisfiedPostsTwice | swift_app/swift_app/NetworkMonitor.swift:34-36 | two satisfied updates from the initial state post twice but reconnect once |
| Notifications.AppNotificationType.RawValue | swift_app/swift_app/Notifications/AppNotificationModels.swift:12-16 | every type's raw value is one of "upvote", "newPost", "forumPost" |
| Notifications.FromRawValue | swift_app/swift_app/Notifications/AppNotificationModels.swift:12-16 | `init(rawValue:)` succeeds exactly on the three raw values, and the type it gives has that raw value |
| Notifications.RawValueRoundTrip | swift_app/swift_app/Notifications/AppNotificationModels.swift:12-16 | each type's raw value maps back to it, and exactly the three raw values decode |
| Notifications.NewNotification | swift_app/swift_app/Notifications/AppNotificationModels.swift:18-31 | a newly built notification is unread and keeps its id, type and time |
| Notifications.SampleNotifications | swift_app/swift_app/Notifications/AppNotificationModels.swift:55-91 | three unread notifications of types upvote, forumPost, forumPost, at now, now - 60 and now - 120 |
| Notifications.FirstIndexOf | swift_app/swift_app/Notifications/AppNotificationModels.swift:107 | `firstIndex(where:)`: a found index holds the id and no earlier entry does; none is found exactly when no entry holds the id |
| Notifications.MarkedRead | swift_app/swift_app/Notifications/AppNotificationModels.swift:106-110 | the list after `markAsRead` has the same length; its effect is stated by `MarkedReadEffect` |
| Notifications.AllRead | swift_app/swift_app/Notifications/AppNotificationModels.swift:112-116 | the list after `markAllAsRead` has the same length; its effect is stated by `AllReadEffect` |
| Notifications.MarkedReadEffect | swift_app/swift_app/Notifications/AppNotificationModels.swift:106-110 | only the first entry with the id becomes read; the length, order, ids and all other entries are unchanged; with no match nothing changes |
| Notifications.MarkedReadIdempotent | swift_app/swift_app/Notifications/AppNotificationModels.swift:106-110 | marking the same id read twice is marking it once |
| Notifications.AllReadEffect | swift_app/swift_app/Notifications/AppNotificationModels.swift:112-116 | every notification becomes read, ids and order are kept, and marking all twice is marking once |
| Notifications.Reconnected | swift_app/swift_app/Notifications/AppNotificationModels.swift:96-99 | a reconnect is reported exactly when the flag was false and the update connects |
| Notifications.HandlePathUpdateExtendsRun | swift_app/swift_app/Notifications/AppNotificationModels.swift:96-99 | folding one more update into a run sets the flag to "satisfied" and adds one reconnect exactly when the handler would report one, so the run lemmas describe repeated calls |
| Notifications.ReconnectNeedsDisconnect | swift_app/swift_app/Notifications/AppNotificationModels.swift:94-101 | from the initial connected flag, reported reconnects never outnumber unsatisfied updates |
| Notifications.AppNotificationService.constructor | swift_app/swift_app/Notifications/AppNotificationModels.swift:43-50 | starts connected, with the sample notifications installed |
| Notifications.AppNotificationService.FetchNotifications | swift_app/swift_app/Notifications/AppNotificationModels.swift:55-91 | the list is replaced by the three sample notifications |
| Notifications.AppNotificationService.HandlePathUpdate | swift_app/swift_app/Notifications/AppNotificationModels.swift:94-101 | the flag becomes "path satisfied", and a reconnect is reported exactly on the false-to-true edge |
| Notifications.AppNotificationService.MarkAsRead | swift_app/swift_app/Notifications/AppNotificationModels.swift:106-110 | the list becomes `MarkedRead` of the old list |
| Notifications.AppNotificationService.MarkAllAsRead | swift_app/swift_app/Notifications/AppNotificationModels.swift:112-116 | the index loop leaves `AllRead` of the old list |
| HexColor.LeadingJunk | swift_app/swift_app/Authentication/Views/SignUpView.swift:188 | the count of leading non-alphanumerics, which stops at the first alphanumeric |
| HexColor.TrailingJunk | swift_app/swift_app/Authentication/Views/SignUpView.swift:188 | the count of trailing non-alphanumerics, which stops at the last alphanumeric |
| HexColor.Trimmed | swift_app/swift_app/Authentication/Views/SignUpView.swift:188 | the result is a contiguous slice of the input with only non-alphanumerics cut off before and after it; it starts and ends with an alphanumeric, is empty exactly when there is none, and an all-alphanumeric string is kept whole |
| HexColor.HexPrefixLength | swift_app/swift_app/Authentication/Views/SignUpView.swift:190 | the scanner reads exactly the leading run of hexadecimal digits |
| HexColor.HexValue | swift_app/swift_app/Authentication/Views/SignUpView.swift:190 | n hexadecimal digits denote a value below 16^n |
| HexColor.ScannedDigits | swift_app/swift_app/Authentication/Views/SignUpView.swift:190 | the scanned digits are all hexadecimal and no longer than the input |
| HexColor.ScanHex | swift_app/swift_app/Authentication/Views/SignUpView.swift:189-190 | the scanned value of an n-character string is below 16^n |
| HexColor.Channels | swift_app/swift_app/Authentication/Views/SignUpView.swift:192-201 | counts other than 3, 6 and 8 give (1, 1, 1, 0); 3 and 6 are opaque; 3 gives multiples of 17; 6 and 8 take blue and green from the two low bytes |
| HexColor.ChannelsInRange | swift_app/swift_app/Authentication/Views/SignUpView.swift:192-201 | for a value of at most that many digits, the 3-, 6- and 8-character shifts and masks give channels in 0..255 |
| HexColor.Decode | swift_app/swift_app/Authentication/Views/SignUpView.swift:187-201 | every channel is in 0..255; counts other than 3, 6 and 8 give (1, 1, 1, 0); counts 3 and 6 are opaque (alpha 255) |
| HexColor.DecodeDigitString | swift_app/swift_app/Authentication/Views/SignUpView.swift:188-192 | a string of hexadecimal digits is kept whole by the trim and scanned whole |
| HexColor.DecodeHex8 | swift_app/swift_app/Authentication/Views/SignUpView.swift:197-198 | eight digits decode to the alpha, red, green and blue bytes they spell, high to low |
| HexColor.DecodeHex6 | swift_app/swift_app/Authentication/Views/SignUpView.swift:195-196 | six digits decode to alpha 255 and the red, green and blue bytes, high to low |
| HexColor.DecodeHex3 | swift_app/swift_app/Authentication/Views/SignUpView.swift:193-194 | three digits decode to alpha 255 and each nibble times 17 |
| HexColor.LoginBackground | swift_app/swift_app/Authentication/Views/LogInView.swift:23 | "A8DADC" decodes to (255, 168, 218, 220) |

## Left out

- Firestore: the snapshot listener's registration, removal and threading, and the `updateData` calls themselves. Only the decoded posts and the update values (`UpvoteUpdate`) are modelled, because the store is a foreign SDK.
- Core Data: `clearAllPosts`, `createPostEntity`, `saveContext` and `getAllSavedPosts` are one `seq<Post>` field. The batch delete's outcome is a parameter (`cleared`); the per-entity inserts and the final save are assumed to succeed. The sort on fetch, the `id ?? ""` default and the `Int32` conversion of the count are not modelled, because they belong to the storage layer and not to the view model's logic.
- The post write queue and its drain (`PostSyncManager`, `PostCacheManager`) are not part of this model. Its drain order cannot be stated from the comment queue's code.
- CommentCache.CommentCacheManager.CacheComment: the UUID is a parameter required to be non-empty. Freshness is an assumption of `CacheAppendsAndLists`, not a guarantee of the method, because UUID generation is not modelled.
- CommentCache.CommentCacheManager.RemoveComment: ids are treated as plain file names. An empty id (the failure value `cacheComment` returns) or one containing `/` would name another path under the cache directory, or the directory itself; that case is not modelled, because it rests on URL path semantics.
- The JSON encoding and decoding, the file write and the file removal are outcomes passed as parameters (`WriteOutcome`, `RecordFile`, `removable`), because they are platform I/O.
- The comment queue's `NSCache` field is never used by the code and is not modelled. Its directory creation in `init` is not modelled either, because its failure is only printed.
- Strings.Lower: folds ASCII letters only. Strings.ContainsIgnoringCase likewise compares under ASCII folding, with no locale rules or Unicode case mapping. An empty needle is never contained, as with Foundation.
- HexColor.Trimmed: treats only ASCII letters and digits as alphanumeric, not the full Unicode alphanumeric set.
- HexColor.Decode: counts Unicode scalars, not grapheme clusters. It also does not model the scanner's 64-bit overflow; the value is at most 8 digits for the counts that use it.
- The final `Double(x) / 255` conversion in `Color(hex:)` is floating point and is not modelled. The model stops at the integer channels.
- `AppNotification.timeAgo` (relative date formatting) is not modelled. Dates are whole seconds in an `int`, and "now" is a parameter.
- Forum.DecodeDocument: a number stored as a non-integer never decodes as `upvotes` (`as? Int`). Firestore's numeric bridging is not modelled.
- `NWPathMonitor` start and cancel, `DispatchQueue.main.async` and `NotificationCenter` delivery are not modelled, because they are concurrency and platform plumbing. Path updates are applied one at a time, and the monitor counts its posted notifications.
- The singleton `shared` instances are not modelled. The `print` logging is not modelled either, except "Network reconnected", which is the flag `Notifications.AppNotificationService.HandlePathUpdate` returns.

