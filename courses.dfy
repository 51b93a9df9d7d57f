/** The courses dashboard: fetching the teacher's course list, asking the
    backend to re-sync it with Canvas, and the single automatic sync run when
    the first fetch reports the list as stale. Backend replies are inputs; the
    requests the page sends and the notifications it shows go to an event log. */
module Courses {
  import opened Common

  datatype Course = Course(id: int, name: string)

  /** The parsed body of the courses endpoint; each field may be missing. */
  datatype CoursesData = CoursesData(courses: Option<seq<Course>>, lastSyncedAt: Option<string>, stale: Option<bool>)

  /** A courses fetch either fails (network error, non-2xx status or an
      unreadable body) or yields the parsed body. */
  datatype FetchReply = FetchFailed | FetchOk(data: CoursesData)

  /** A sync request either fails (network error or non-2xx status) or is accepted. */
  datatype SyncReply = SyncFailed | SyncOk

  datatype Toast =
    | CoursesUpdated    // "Courses updated"
    | FetchCoursesFailed // "Failed to fetch courses."
    | RefreshFailed     // "Couldn't refresh courses right now. Please try again."

  datatype Event =
    | CoursesRequested(teacherId: string)
    | SyncRequested(teacherId: string)
    | Notified(toast: Toast)

  const FetchErrorMessage: string := "Couldn't load courses. Please try Refresh."

  /** `data.stale` is truthy. */
  predicate IsStaleData(d: CoursesData) {
    d.stale == Some(true)
  }

  /** What the page shows of the course list: the courses, the last sync
      time, the staleness flag and the error banner. */
  datatype Listing = Listing(courses: seq<Course>, lastSynced: Option<string>, isStale: bool, error: Option<string>)

  /** The listing after a fetch. A success replaces everything from the body
      (`courses || []`, `lastSyncedAt || null`, `stale || false`) and clears the
      error; a failure only sets the error banner. */
  function Fetched(l: Listing, reply: FetchReply): Listing {
    match reply
    case FetchFailed => l.(error := Some(FetchErrorMessage))
    case FetchOk(d) =>
      Listing(d.courses.GetOr([]), if TruthyString(d.lastSyncedAt) then d.lastSyncedAt else None, IsStaleData(d), None)
  }

  /** The requests and notifications of one fetch. */
  function FetchEvents(teacherId: string, showToast: bool, reply: FetchReply): seq<Event> {
    match reply
    case FetchFailed => [CoursesRequested(teacherId), Notified(FetchCoursesFailed)]
    case FetchOk(d) =>
      [CoursesRequested(teacherId)] + if showToast && !IsStaleData(d) then [Notified(CoursesUpdated)] else []
  }

  /** The listing after a sync: the re-fetch happens only when the sync
      request was accepted. */
  function Synced(l: Listing, syncReply: SyncReply, fetchReply: FetchReply): Listing {
    if syncReply.SyncOk? then Fetched(l, fetchReply) else l
  }

  function SyncEvents(teacherId: string, syncReply: SyncReply, fetchReply: FetchReply): seq<Event> {
    [SyncRequested(teacherId)] + if syncReply.SyncOk? then FetchEvents(teacherId, true, fetchReply) else [Notified(RefreshFailed)]
  }

  /** The first load: a fetch without a toast, then a sync only when that
      fetch succeeded and reported stale data. */
  predicate AutoSyncs(fetchReply: FetchReply) {
    fetchReply.FetchOk? && IsStaleData(fetchReply.data)
  }

  function LoadEvents(teacherId: string, fetchReply: FetchReply, syncReply: SyncReply, refetchReply: FetchReply): seq<Event> {
    FetchEvents(teacherId, false, fetchReply)
    + if AutoSyncs(fetchReply) then SyncEvents(teacherId, syncReply, refetchReply) else []
  }

  function Loaded(l: Listing, fetchReply: FetchReply, syncReply: SyncReply, refetchReply: FetchReply): Listing {
    var afterFetch := Fetched(l, fetchReply);
    if AutoSyncs(fetchReply) then Synced(afterFetch, syncReply, refetchReply) else afterFetch
  }

  /** Number of sync requests in an event log. */
  function SyncCount(es: seq<Event>): (n: nat)
    ensures n <= |es|
  {
    if es == [] then 0 else SyncCount(es[..|es| - 1]) + if es[|es| - 1].SyncRequested? then 1 else 0
  }

  lemma {:induction false} SyncCountAppend(a: seq<Event>, b: seq<Event>)
    ensures SyncCount(a + b) == SyncCount(a) + SyncCount(b)
    decreases |b|
  {
    if b == [] {
      assert a + b == a;
    } else {
      var b' := b[..|b| - 1];
      assert (a + b)[..|a + b| - 1] == a + b';
      SyncCountAppend(a, b');
    }
  }

  /** A fetch never asks for a sync, so the re-fetch at the end of a sync
      cannot start another one. */
  lemma FetchNeverSyncs(teacherId: string, showToast: bool, reply: FetchReply)
    ensures SyncCount(FetchEvents(teacherId, showToast, reply)) == 0
  {
    var es := FetchEvents(teacherId, showToast, reply);
    if |es| == 2 {
      assert es[..1] == [es[0]];
    }
  }

  /** A sync sends exactly one sync request, whatever the replies. */
  lemma SyncSyncsOnce(teacherId: string, syncReply: SyncReply, fetchReply: FetchReply)
    ensures SyncCount(SyncEvents(teacherId, syncReply, fetchReply)) == 1
  {
    var rest := if syncReply.SyncOk? then FetchEvents(teacherId, true, fetchReply) else [Notified(RefreshFailed)];
    SyncCountAppend([SyncRequested(teacherId)], rest);
    FetchNeverSyncs(teacherId, true, fetchReply);
    assert SyncCount([SyncRequested(teacherId)]) == 1 by {
      assert [SyncRequested(teacherId)][..0] == [];
    }
    if syncReply.SyncFailed? {
      assert SyncCount(rest) == 0 by {
        assert rest[..0] == [];
      }
    }
  }

  /** The automatic sync is one-shot: the first load sends one sync request
      when its fetch succeeded with stale data and none otherwise. */
  lemma AutoSyncIsOneShot(teacherId: string, fetchReply: FetchReply, syncReply: SyncReply, refetchReply: FetchReply)
    ensures SyncCount(LoadEvents(teacherId, fetchReply, syncReply, refetchReply)) == if AutoSyncs(fetchReply) then 1 else 0
  {
    var rest := if AutoSyncs(fetchReply) then SyncEvents(teacherId, syncReply, refetchReply) else [];
    SyncCountAppend(FetchEvents(teacherId, false, fetchReply), rest);
    FetchNeverSyncs(teacherId, false, fetchReply);
    if AutoSyncs(fetchReply) {
      SyncSyncsOnce(teacherId, syncReply, refetchReply);
    }
  }

  /** A failed fetch never clears what is shown: only the error banner changes. */
  lemma FailedFetchKeepsData(l: Listing)
    ensures Fetched(l, FetchFailed).courses == l.courses
    ensures Fetched(l, FetchFailed).lastSynced == l.lastSynced
    ensures Fetched(l, FetchFailed).isStale == l.isStale
    ensures Fetched(l, FetchFailed).error == Some(FetchErrorMessage)
  {
  }

  /** A successful fetch shows exactly the body, whatever was shown before,
      and applying the same reply again changes nothing. */
  lemma SuccessfulFetchReplacesData(l1: Listing, l2: Listing, d: CoursesData)
    ensures Fetched(l1, FetchOk(d)) == Fetched(l2, FetchOk(d))
    ensures Fetched(l1, FetchOk(d)).error == None
    ensures Fetched(l1, FetchOk(d)).courses == d.courses.GetOr([])
    ensures Fetched(l1, FetchOk(d)).isStale <==> d.stale == Some(true)
    ensures Fetched(l1, FetchOk(d)).lastSynced == (if TruthyString(d.lastSyncedAt) then d.lastSyncedAt else None)
    ensures Fetched(Fetched(l1, FetchOk(d)), FetchOk(d)) == Fetched(l1, FetchOk(d))
  {
  }

  /** "Courses updated" is shown exactly for a successful, non-stale fetch
      that asked for a toast. */
  lemma UpdatedToastIff(teacherId: string, showToast: bool, reply: FetchReply)
    ensures Notified(CoursesUpdated) in FetchEvents(teacherId, showToast, reply) <==>
      showToast && reply.FetchOk? && !IsStaleData(reply.data)
  {
  }

  /** A rejected sync changes nothing that is shown, the error banner included. */
  lemma FailedSyncKeepsListing(l: Listing, fetchReply: FetchReply)
    ensures Synced(l, SyncFailed, fetchReply) == l
  {
  }

  /** The error banner only ever holds the retry message. */
  lemma ErrorIsRetryMessage(l: Listing, fetchReply: FetchReply, syncReply: SyncReply, refetchReply: FetchReply)
    requires l.error == None || l.error == Some(FetchErrorMessage)
    ensures Loaded(l, fetchReply, syncReply, refetchReply).error == None
      || Loaded(l, fetchReply, syncReply, refetchReply).error == Some(FetchErrorMessage)
  {
  }

  class CoursesPage {
    var teacherId: Option<string>
    var courses: seq<Course>
    var lastSynced: Option<string>
    var isStale: bool
    var isLoading: bool
    var isRefreshing: bool
    var error: Option<string>
    var events: seq<Event>

    constructor ()
      ensures teacherId == None && courses == [] && lastSynced == None && !isStale
      ensures isLoading && !isRefreshing && error == None && events == []
    {
      teacherId := None;
      courses, lastSynced, isStale := [], None, false;
      isLoading, isRefreshing, error := true, false, None;
      events := [];
    }

    function Shown(): Listing
      reads this`courses, this`lastSynced, this`isStale, this`error
    {
      Listing(courses, lastSynced, isStale, error)
    }

    /** `getTeacherId`: the signed-in user's id, when there is one. */
    method ResolveTeacher(userId: Option<string>)
      modifies this`teacherId
      ensures teacherId == if userId.Some? then userId else old(teacherId)
    {
      if userId.Some? {
        teacherId := userId;
      }
    }

    /** `fetchCourses(showToast)`: returns the body on success and nothing on
        failure; without a teacher id it does nothing at all. */
    method FetchCourses(showToast: bool, reply: FetchReply) returns (data: Option<CoursesData>)
      modifies this`courses, this`lastSynced, this`isStale, this`error, this`events
      ensures !TruthyString(teacherId) ==> data == None && unchanged(this)
      ensures TruthyString(teacherId) ==>
        && Shown() == Fetched(old(Shown()), reply)
        && events == old(events) + FetchEvents(teacherId.value, showToast, reply)
        && data == if reply.FetchOk? then Some(reply.data) else None
    {
      data := None;
      if !TruthyString(teacherId) {
        return;
      }
      events := events + [CoursesRequested(teacherId.value)];
      match reply {
        case FetchFailed =>
          error := Some(FetchErrorMessage);
          events := events + [Notified(FetchCoursesFailed)];
        case FetchOk(d) =>
          courses := d.courses.GetOr([]);
          lastSynced := if TruthyString(d.lastSyncedAt) then d.lastSyncedAt else None;
          isStale := IsStaleData(d);
          error := None;
          if showToast && !IsStaleData(d) {
            events := events + [Notified(CoursesUpdated)];
          }
          data := Some(d);
      }
    }

    /** `syncCourses` (also the Refresh button): asks for a sync and, once it
        is accepted, re-fetches with a toast. The refreshing flag is set for
        the duration and cleared on every path. */
    method SyncCourses(syncReply: SyncReply, fetchReply: FetchReply)
      modifies this`courses, this`lastSynced, this`isStale, this`error, this`isRefreshing, this`events
      ensures !TruthyString(teacherId) ==> unchanged(this)
      ensures TruthyString(teacherId) ==>
        && !isRefreshing
        && Shown() == Synced(old(Shown()), syncReply, fetchReply)
        && events == old(events) + SyncEvents(teacherId.value, syncReply, fetchReply)
    {
      if !TruthyString(teacherId) {
        return;
      }
      isRefreshing := true;
      events := events + [SyncRequested(teacherId.value)];
      if syncReply.SyncOk? {
        var _ := FetchCourses(true, fetchReply);
      } else {
        events := events + [Notified(RefreshFailed)];
      }
      isRefreshing := false;
    }

    /** The effect run once a teacher id is known: fetch without a toast,
        stop the loading state whatever the outcome, and start one sync when
        the fetched data is stale. */
    method InitialLoad(fetchReply: FetchReply, syncReply: SyncReply, refetchReply: FetchReply)
      modifies this`courses, this`lastSynced, this`isStale, this`error, this`isRefreshing, this`isLoading, this`events
      ensures !TruthyString(teacherId) ==> unchanged(this)
      ensures TruthyString(teacherId) ==>
        && !isLoading
        && isRefreshing == (old(isRefreshing) && !AutoSyncs(fetchReply))
        && Shown() == Loaded(old(Shown()), fetchReply, syncReply, refetchReply)
        && events == old(events) + LoadEvents(teacherId.value, fetchReply, syncReply, refetchReply)
    {
      if !TruthyString(teacherId) {
        return;
      }
      var data := FetchCourses(false, fetchReply);
      isLoading := false;
      if data.Some? && IsStaleData(data.value) {
        SyncCourses(syncReply, refetchReply);
      }
    }
  }
}
