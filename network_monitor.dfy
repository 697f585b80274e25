/**
 The process-wide reachability monitor: a two-state status overwritten by
 every path update, which posts a `networkStatusChanged` notification on
 every satisfied update (not only on the disconnected-to-connected edge).
 Path updates arrive one at a time on the main queue; the platform path
 monitor itself is not modelled.
 */
module Connectivity {

  datatype NetworkStatus = Connected | Disconnected

  /** The status a platform path update reports. */
  datatype PathStatus = Satisfied | Unsatisfied | RequiresConnection

  /** The status a path update sets. */
  function StatusFor(path: PathStatus): (s: NetworkStatus)
    ensures s == Connected <==> path == Satisfied
  {
    if path == Satisfied then Connected else Disconnected
  }

  class NetworkMonitor {
    var status: NetworkStatus
    /** How many `networkStatusChanged` notifications have been posted. */
    var posted: nat

    /** `isConnected`. */
    function IsConnected(): (r: bool)
      reads this
      ensures r <==> status == Connected
    {
      status == Connected
    }

    /** The monitor starts disconnected, before any path update. */
    constructor ()
      ensures status == Disconnected && !IsConnected()
      ensures posted == 0
    {
      status := Disconnected;
      posted := 0;
    }

    /** The path-update handler: a satisfied path connects and posts a notification,
        any other disconnects and posts nothing. */
    method HandlePathUpdate(path: PathStatus)
      modifies this
      ensures status == StatusFor(path)
      ensures IsConnected() <==> path == Satisfied
      ensures posted == old(posted) + (if path == Satisfied then 1 else 0)
    {
      if path == Satisfied {
        status := Connected;
        posted := posted + 1;
      } else {
        status := Disconnected;
      }
    }
  }

  /** The status after a run of path updates from `start`. */
  function StatusAfter(start: NetworkStatus, updates: seq<PathStatus>): NetworkStatus
    decreases |updates|
  {
    if updates == [] then start else StatusAfter(StatusFor(updates[0]), updates[1..])
  }

  /** The notifications a run of path updates posts: one per satisfied update. */
  function PostedBy(updates: seq<PathStatus>): nat
  {
    if updates == [] then 0 else (if updates[0] == Satisfied then 1 else 0) + PostedBy(updates[1..])
  }

  /** The reconnect edges (disconnected to connected) in a run of path updates from `start`. */
  function EdgesIn(start: NetworkStatus, updates: seq<PathStatus>): nat
    decreases |updates|
  {
    if updates == [] then 0
    else
      var next := StatusFor(updates[0]);
      (if start == Disconnected && next == Connected then 1 else 0) + EdgesIn(next, updates[1..])
  }

  /** The status after a non-empty run is the one its last update sets; after none, the start. */
  lemma {:induction false} StatusAfterLast(start: NetworkStatus, updates: seq<PathStatus>)
    ensures updates == [] ==> StatusAfter(start, updates) == start
    ensures updates != [] ==> StatusAfter(start, updates) == StatusFor(updates[|updates| - 1])
    decreases |updates|
  {
    if updates != [] {
      StatusAfterLast(StatusFor(updates[0]), updates[1..]);
    }
  }

  /** It posts at least once per reconnect edge, and strictly more when the run opens with a
      satisfied update on a connected monitor. */
  lemma {:induction false} PostsAtLeastEdges(start: NetworkStatus, updates: seq<PathStatus>)
    ensures EdgesIn(start, updates) <= PostedBy(updates)
    ensures start == Connected && updates != [] && updates[0] == Satisfied ==>
      EdgesIn(start, updates) < PostedBy(updates)
    decreases |updates|
  {
    if updates != [] {
      PostsAtLeastEdges(StatusFor(updates[0]), updates[1..]);
    }
  }

  /** The monitor is not edge-triggered: anywhere in a run, two satisfied updates in a row make
      the notifications outnumber the reconnect edges. */
  lemma {:induction false} RepeatedSatisfiedPostsMore(start: NetworkStatus, updates: seq<PathStatus>, i: nat)
    requires 0 < i < |updates| && updates[i - 1] == Satisfied && updates[i] == Satisfied
    ensures EdgesIn(start, updates) < PostedBy(updates)
    decreases i
  {
    PostsAtLeastEdges(start, updates);
    if i == 1 {
      PostsAtLeastEdges(StatusFor(updates[0]), updates[1..]);
    } else {
      RepeatedSatisfiedPostsMore(StatusFor(updates[0]), updates[1..], i - 1);
    }
  }

  /** One more path update extends the folds exactly as `HandlePathUpdate` changes the monitor:
      the status becomes the one the update sets, one more notification is posted when it is
      satisfied, and one more edge is crossed when it connects a disconnected monitor. */
  lemma {:induction false} HandlePathUpdateExtendsRun(start: NetworkStatus, updates: seq<PathStatus>, path: PathStatus)
    ensures StatusAfter(start, updates + [path]) == StatusFor(path)
    ensures PostedBy(updates + [path]) == PostedBy(updates) + (if path == Satisfied then 1 else 0)
    ensures EdgesIn(start, updates + [path]) == EdgesIn(start, updates)
      + (if StatusAfter(start, updates) == Disconnected && StatusFor(path) == Connected then 1 else 0)
    decreases |updates|
  {
    if updates == [] {
      assert [] + [path] == [path];
    } else {
      assert (updates + [path])[1..] == updates[1..] + [path];
      HandlePathUpdateExtendsRun(StatusFor(updates[0]), updates[1..], path);
    }
  }

  /** Two satisfied updates from the initial state post twice but reconnect once. */
  lemma RepeatedSatisfiedPostsTwice()
    ensures PostedBy([Satisfied, Satisfied]) == 2
    ensures EdgesIn(Disconnected, [Satisfied, Satisfied]) == 1
  {
  }
}
