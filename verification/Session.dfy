/** Loading a session file as a read-only archive (src/session.rs:263-430). */
module Session {
  import opened Wrappers
  import opened Policy
  import opened Domain
  import opened Store
  import opened StateStores
  import opened InboxView
  import opened Protocol
  import opened ModeLog

  const SESSION_FORMAT := "broccoli-devops-agent.session"
  const SESSION_VERSION: nat := 1

  /** SHA-256 of an Artifact's bytes. */
  type Digest = string

  datatype Named<T> = Named(id: Id, content: T)

  /** `body` is the hash of the carried bytes; `None` when they do not decode, or to another size. */
  datatype SessionArtifact = SessionArtifact(id: Id, recorded: Digest, body: Option<Digest>)

  datatype Bundle = Bundle(
    format: string, version: nat, issue: Issue, jobs: seq<Job>, actions: seq<ActionRun>, snapshots: seq<Named<Snapshot>>,
    artifacts: seq<SessionArtifact>, events: seq<Event>)

  /** The Artifacts of the deployment, by the hash each is recorded under. */
  class ArtifactStore {
    var records: map<Id, Digest>

    constructor ()
      ensures records == map[]
    {
      records := map[];
    }
  }

  /** Every Artifact body is what its record says. */
  predicate Intact(b: Bundle) { forall a :: a in b.artifacts ==> a.body == Some(a.recorded) }

  function JobIds(xs: seq<Job>): (ids: seq<Id>)
    ensures |ids| == |xs| && forall k :: 0 <= k < |xs| ==> ids[k] == xs[k].id
  {
    seq(|xs|, k requires 0 <= k < |xs| => xs[k].id)
  }

  function ActionIds(xs: seq<ActionRun>): (ids: seq<Id>)
    ensures |ids| == |xs| && forall k :: 0 <= k < |xs| ==> ids[k] == xs[k].id
  {
    seq(|xs|, k requires 0 <= k < |xs| => xs[k].id)
  }

  predicate Unrepeated(ids: seq<Id>) { forall i, k :: 0 <= i < k < |ids| ==> ids[i] != ids[k] }

  predicate Distinct(b: Bundle) { Unrepeated(JobIds(b.jobs)) && Unrepeated(ActionIds(b.actions)) }

  /** Nothing of the session is here yet, and all of it belongs to its Issue. */
  predicate Acceptable(st: StoreState, b: Bundle) {
    && b.format == SESSION_FORMAT && b.version <= SESSION_VERSION
    && b.issue.id !in st.issues
    && (forall j :: j in b.jobs ==> j.issueId == b.issue.id && j.id !in st.jobs)
    && (forall a :: a in b.actions ==> a.issueId == b.issue.id && a.id !in st.actions)
    && Intact(b)
  }

  method Check(st: StoreState, b: Bundle) returns (refusal: Option<AgentError>)
    ensures refusal.None? <==> Acceptable(st, b)
  {
    if b.format != SESSION_FORMAT { return Some(InvalidInput); }
    if b.version > SESSION_VERSION { return Some(InvalidInput); }
    if b.issue.id in st.issues { return Some(Duplicate); }
    for k := 0 to |b.jobs|
      invariant forall n :: 0 <= n < k ==> b.jobs[n].issueId == b.issue.id && b.jobs[n].id !in st.jobs
    {
      assert b.jobs[k] in b.jobs;
      if b.jobs[k].issueId != b.issue.id { return Some(InvalidInput); }
      if b.jobs[k].id in st.jobs { return Some(Duplicate); }
    }
    for k := 0 to |b.actions|
      invariant forall n :: 0 <= n < k ==> b.actions[n].issueId == b.issue.id && b.actions[n].id !in st.actions
    {
      assert b.actions[k] in b.actions;
      if b.actions[k].issueId != b.issue.id { return Some(InvalidInput); }
      if b.actions[k].id in st.actions { return Some(Duplicate); }
    }
    for k := 0 to |b.artifacts|
      invariant forall n :: 0 <= n < k ==> b.artifacts[n].body == Some(b.artifacts[n].recorded)
    {
      assert b.artifacts[k] in b.artifacts;
      if b.artifacts[k].body != Some(b.artifacts[k].recorded) { return Some(InvalidInput); }
    }
    return None;
  }

  /** No ID stands for two contents, in the file or between the file and what is stored. */
  predicate Fits<T(==)>(stored: map<Id, T>, file: seq<Named<T>>) {
    && (forall n :: 0 <= n < |file| && file[n].id in stored ==> stored[file[n].id] == file[n].content)
    && (forall m, n :: 0 <= m < n < |file| && file[m].id == file[n].id ==> file[m].content == file[n].content)
  }

  /** What is stored is kept, and everything the file brings is there. */
  ghost predicate Joined<T>(was: map<Id, T>, now: map<Id, T>, file: seq<Named<T>>, k: nat)
    requires k <= |file|
  {
    && (forall id :: id in was ==> id in now && now[id] == was[id])
    && (forall id :: id in now ==> id in was || exists n :: 0 <= n < k && file[n].id == id)
    && (forall n :: 0 <= n < k ==> file[n].id in now && now[file[n].id] == file[n].content)
  }

  lemma JoinRefused<T>(was: map<Id, T>, now: map<Id, T>, file: seq<Named<T>>, k: nat)
    requires k < |file| && Joined(was, now, file, k) && file[k].id in now && now[file[k].id] != file[k].content
    ensures !Fits(was, file)
  {
    if file[k].id !in was {
      var n :| 0 <= n < k && file[n].id == file[k].id;
    }
  }

  function Recorded(artifacts: seq<SessionArtifact>): (file: seq<Named<Digest>>)
    ensures |file| == |artifacts|
    ensures forall k :: 0 <= k < |file| ==> file[k] == Named(artifacts[k].id, artifacts[k].recorded)
  {
    seq(|artifacts|, k requires 0 <= k < |artifacts| => Named(artifacts[k].id, artifacts[k].recorded))
  }

  method StoreArtifacts(store: ArtifactStore, artifacts: seq<SessionArtifact>) returns (r: Result<()>)
    modifies store
    ensures r.Ok? <==> Fits(old(store.records), Recorded(artifacts))
    ensures r.Ok? ==> Joined(old(store.records), store.records, Recorded(artifacts), |artifacts|)
    ensures forall id :: id in old(store.records) ==> id in store.records && store.records[id] == old(store.records[id])
  {
    ghost var file := Recorded(artifacts);
    for k := 0 to |artifacts|
      invariant Joined(old(store.records), store.records, file, k)
    {
      var a := artifacts[k];
      if a.id in store.records {
        if store.records[a.id] != a.recorded {
          JoinRefused(old(store.records), store.records, file, k);
          return Err(InvalidInput);
        }
      } else {
        store.records := store.records[a.id := a.recorded];
      }
    }
    return Ok(());
  }

  /** Immutable records first; one that is here already must be the same. */
  method StoreSnapshots(store: StateStore, snapshots: seq<Named<Snapshot>>) returns (r: Result<()>)
    modifies store
    ensures store.inner == old(store.inner).(snapshots := store.inner.snapshots)
    ensures r.Ok? <==> Fits(old(store.inner).snapshots, snapshots)
    ensures r.Ok? ==> Joined(old(store.inner).snapshots, store.inner.snapshots, snapshots, |snapshots|)
    ensures forall id :: id in old(store.inner).snapshots ==>
              id in store.inner.snapshots && store.inner.snapshots[id] == old(store.inner).snapshots[id]
  {
    ghost var was := store.inner.snapshots;
    for k := 0 to |snapshots|
      invariant store.inner == old(store.inner).(snapshots := store.inner.snapshots)
      invariant Joined(was, store.inner.snapshots, snapshots, k)
    {
      var s := snapshots[k];
      if s.id in store.inner.snapshots {
        if store.inner.snapshots[s.id] != s.content {
          JoinRefused(was, store.inner.snapshots, snapshots, k);
          return Err(InvalidInput);
        }
      } else {
        var stored := store.InsertSnapshot(s.id, s.content);
        if stored.Err? { return stored; }
      }
    }
    return Ok(());
  }

  /** A record of the archive's own may be added. */
  ghost predicate MayAdd(was: StoreState, st: StoreState, i: Id) {
    KeyedById(st) && ArchiveOnly(was, st) && i in st.issues && st.issues[i].archived
  }

  predicate Fresh(keys: set<Id>, ids: seq<Id>) { Unrepeated(ids) && forall n :: 0 <= n < |ids| ==> ids[n] !in keys }

  /** How far the inserts have come. */
  ghost predicate Inserted<T>(was: map<Id, T>, now: map<Id, T>, ids: seq<Id>, xs: seq<T>, k: nat)
    requires k <= |ids| == |xs|
  {
    && (forall id :: id in now <==> id in was || id in ids[..k])
    && (forall n :: 0 <= n < k ==> ids[n] in now && now[ids[n]] == xs[n])
    && Fresh(was.Keys, ids[..k])
  }

  lemma InsertedOneMore<T>(was: map<Id, T>, now: map<Id, T>, ids: seq<Id>, xs: seq<T>, k: nat)
    requires k < |ids| == |xs| && Inserted(was, now, ids, xs, k)
    ensures ids[k] in now ==> !Fresh(was.Keys, ids)
    ensures ids[k] !in now ==> Inserted(was, now[ids[k] := xs[k]], ids, xs, k + 1)
  {
    assert ids[..k + 1] == ids[..k] + [ids[k]];
    if ids[k] in now && ids[k] !in was {
      var n :| 0 <= n < k && ids[n] == ids[k];
    }
  }

  lemma AllInserted<T>(was: map<Id, T>, now: map<Id, T>, ids: seq<Id>, xs: seq<T>)
    requires |ids| == |xs| && Inserted(was, now, ids, xs, |ids|)
    ensures Fresh(was.Keys, ids) && forall n :: 0 <= n < |ids| ==> ids[n] in now && now[ids[n]] == xs[n]
  {
    assert ids[..|ids|] == ids;
  }

  lemma JobAdded(was: StoreState, st: StoreState, x: Job, i: Id)
    requires MayAdd(was, st, i) && x.issueId == i && x.id !in st.jobs
    ensures MayAdd(was, st.PutJob(x), i)
  {
  }

  method InsertJobs(store: StateStore, ghost was: StoreState, xs: seq<Job>, i: Id) returns (r: Result<()>)
    requires MayAdd(was, store.inner, i) && forall x :: x in xs ==> x.issueId == i
    modifies store
    ensures MayAdd(was, store.inner, i)
    ensures store.inner == old(store.inner).(jobs := store.inner.jobs)
    ensures r.Ok? <==> Fresh(old(store.inner).jobs.Keys, JobIds(xs))
    ensures r.Ok? ==> forall n :: 0 <= n < |xs| ==> store.inner.HoldsJob(xs[n])
  {
    ghost var before, ids := store.inner.jobs, JobIds(xs);
    for k := 0 to |xs|
      invariant MayAdd(was, store.inner, i)
      invariant store.inner == old(store.inner).(jobs := store.inner.jobs)
      invariant Inserted(before, store.inner.jobs, ids, xs, k)
    {
      assert xs[k] in xs;
      InsertedOneMore(before, store.inner.jobs, ids, xs, k);
      if xs[k].id !in store.inner.jobs { JobAdded(was, store.inner, xs[k], i); }
      var stored := store.InsertJob(xs[k]);
      if stored.Err? { return stored; }
    }
    AllInserted(before, store.inner.jobs, ids, xs);
    return Ok(());
  }

  lemma ActionAdded(was: StoreState, st: StoreState, x: ActionRun, i: Id)
    requires MayAdd(was, st, i) && x.issueId == i && x.id !in st.actions
    ensures MayAdd(was, st.PutAction(x), i)
  {
  }

  method InsertActions(store: StateStore, ghost was: StoreState, xs: seq<ActionRun>, i: Id) returns (r: Result<()>)
    requires MayAdd(was, store.inner, i) && forall x :: x in xs ==> x.issueId == i
    modifies store
    ensures MayAdd(was, store.inner, i)
    ensures store.inner == old(store.inner).(actions := store.inner.actions)
    ensures r.Ok? <==> Fresh(old(store.inner).actions.Keys, ActionIds(xs))
    ensures r.Ok? ==> forall n :: 0 <= n < |xs| ==> store.inner.Holds(xs[n])
  {
    ghost var before, ids := store.inner.actions, ActionIds(xs);
    for k := 0 to |xs|
      invariant MayAdd(was, store.inner, i)
      invariant store.inner == old(store.inner).(actions := store.inner.actions)
      invariant Inserted(before, store.inner.actions, ids, xs, k)
    {
      assert xs[k] in xs;
      InsertedOneMore(before, store.inner.actions, ids, xs, k);
      if xs[k].id !in store.inner.actions { ActionAdded(was, store.inner, xs[k], i); }
      var stored := store.InsertActionRun(xs[k]);
      if stored.Err? { return stored; }
    }
    AllInserted(before, store.inner.actions, ids, xs);
    return Ok(());
  }

  method AppendEvents(store: StateStore, events: seq<Event>)
    modifies store
    ensures store.inner == old(store.inner).(events := old(store.inner).events + events)
  {
    for k := 0 to |events|
      invariant store.inner == old(store.inner).(events := old(store.inner).events + events[..k])
    {
      assert events[..k + 1] == events[..k] + [events[k]];
      var _ := store.AppendEvent(events[k]);
    }
    assert events[..|events|] == events;
  }

  /** Nothing the file carries contradicts an immutable record that is here. */
  predicate ImmutablesFit(records: map<Id, Digest>, snapshots: map<Id, Snapshot>, b: Bundle) {
    Fits(records, Recorded(b.artifacts)) && Fits(snapshots, b.snapshots)
  }

  /** Whether it succeeds or fails at any point, an import leaves everything of ours as it was. It
      succeeds exactly when nothing of the session is here, no Artifact or Snapshot contradicts a stored
      one, and the file repeats no ID; then the whole session is there, under an Issue that is marked as
      an archive. A repeated ID passes the checks, and leaves the Issue behind without its log. */
  method ImportSession(store: StateStore, artifacts: ArtifactStore, b: Bundle) returns (r: Result<()>)
    requires KeyedById(store.inner) && Integrity(store.inner)
    modifies store, artifacts
    ensures KeyedById(store.inner) && ArchiveOnly(old(store.inner), store.inner)
    ensures forall id :: id in old(artifacts.records) ==> id in artifacts.records && artifacts.records[id] == old(artifacts.records[id])
    ensures r.Ok? <==> && Acceptable(old(store.inner), b) && Distinct(b)
                       && ImmutablesFit(old(artifacts.records), old(store.inner).snapshots, b)
    ensures r.Ok? ==> && Joined(old(artifacts.records), artifacts.records, Recorded(b.artifacts), |b.artifacts|)
                      && Joined(old(store.inner).snapshots, store.inner.snapshots, b.snapshots, |b.snapshots|)
                      && b.issue.id in store.inner.issues && store.inner.issues[b.issue.id] == b.issue.(archived := true)
                      && (forall j :: j in b.jobs ==> store.inner.HoldsJob(j))
                      && (forall a :: a in b.actions ==> store.inner.Holds(a))
                      && store.inner.events == old(store.inner).events + (b.events + [Noted])
    ensures r.Err? ==> store.inner.events == old(store.inner).events
    ensures !Acceptable(old(store.inner), b) ==> store.inner == old(store.inner) && artifacts.records == old(artifacts.records)
    ensures r.Err? && (Distinct(b) || !ImmutablesFit(old(artifacts.records), old(store.inner).snapshots, b)) ==>
              store.inner == old(store.inner).(snapshots := store.inner.snapshots)
    ensures Acceptable(old(store.inner), b) && !Distinct(b) && ImmutablesFit(old(artifacts.records), old(store.inner).snapshots, b) ==>
              b.issue.id in store.inner.issues && !Acceptable(store.inner, b)
  {
    var refusal := Check(store.inner, b);
    if refusal.Some? { return Err(refusal.value); }
    r := StoreArtifacts(artifacts, b.artifacts);
    if r.Err? { return; }
    r := StoreSnapshots(store, b.snapshots);
    if r.Err? { return; }
    r := InsertArchive(store, old(store.inner), b);
    if r.Err? { return; }
    AppendEvents(store, b.events);
    var _ := store.AppendEvent(Noted);
    assert old(store.inner).events + b.events + [Noted] == old(store.inner).events + (b.events + [Noted]);
  }

  /** The file's events are appended as they are. While none of them speaks of the mode, what the next
      start reads stays what it was. */
  lemma ImportKeepsMode(log: seq<Event>, b: Bundle, mode: SchedulerMode)
    requires SetTo(log, mode) && forall e :: e in b.events ==> !SpeaksOfMode(e)
    ensures SetTo(log + (b.events + [Noted]), mode)
    ensures ReviewPending(log + (b.events + [Noted])) <==> ReviewPending(log)
  {
    OtherEventsKeepMode(log, b.events + [Noted], mode);
  }

  /** For any file: the next start reads the last mode that the file sets outside a recovery, one that is open
      in the log included, and the mode it would have read without the import only if there is none. */
  lemma ImportedMode(log: seq<Event>, b: Bundle, was: SchedulerMode, mode: SchedulerMode)
    requires SetTo(log, was)
    ensures SetTo(log + (b.events + [Noted]), mode) <==> SetThen(InsideRecovery(log, |log|), b.events, was, mode)
  {
    assert log + (b.events + [Noted]) == (log + b.events) + [Noted];
    ContinuedMode(log, b.events, was, mode);
    NotedKeeps(log + b.events, mode);
  }

  lemma NotedKeeps(log: seq<Event>, mode: SchedulerMode)
    ensures SetTo(log + [Noted], mode) <==> SetTo(log, mode)
  {
    var read := SomeModeThen(false, log, ModeRunning);
    ReadFromScratch(log, read);
    OtherEventsKeepMode(log, [Noted], read);
    if SetTo(log, mode) { SetToOneMode(log, mode, read); }
    if SetTo(log + [Noted], mode) { SetToOneMode(log + [Noted], mode, read); }
  }

  /** Every log names a mode. */
  lemma ReadFromScratch(log: seq<Event>, mode: SchedulerMode)
    requires SetThen(false, log, ModeRunning, mode)
    ensures SetTo(log, mode)
  {
    assert forall k :: 0 <= k < |log| ==> (HumanThen(false, log, k) <==> HumanMode(log, k));
    if k :| 0 <= k < |log| && LastHumanThen(false, log, k) && mode == ModeOf(log[k]) { assert LastHumanMode(log, k); }
  }

  /** So a file whose log is a freeze makes the next start read a freeze, whatever the mode was, unless a
      recovery is open. */
  lemma ImportCanFreeze(log: seq<Event>, b: Bundle, mode: SchedulerMode)
    requires SetTo(log, mode) && b.events == [FullyFroze]
    ensures SetTo(log + (b.events + [Noted]), ModeFullyFrozen) <==> mode.ModeFullyFrozen? || !InsideRecovery(log, |log|)
  {
    ImportedMode(log, b, mode, ModeFullyFrozen);
    var open := InsideRecovery(log, |log|);
    assert HumanThen(open, b.events, 0) <==> !open;
    if !open { assert LastHumanThen(open, b.events, 0); }
  }

  /** The Issue, marked, and then what belongs to it; only a file that repeats an ID can fail here. */
  method InsertArchive(store: StateStore, ghost was: StoreState, b: Bundle) returns (r: Result<()>)
    requires KeyedById(store.inner) && ArchiveOnly(was, store.inner) && Acceptable(store.inner, b)
    modifies store
    ensures KeyedById(store.inner) && ArchiveOnly(was, store.inner)
    ensures store.inner.events == old(store.inner).events && store.inner.snapshots == old(store.inner).snapshots
    ensures b.issue.id in store.inner.issues && store.inner.issues[b.issue.id] == b.issue.(archived := true)
    ensures r.Ok? ==> (forall j :: j in b.jobs ==> store.inner.HoldsJob(j)) && (forall a :: a in b.actions ==> store.inner.Holds(a))
    ensures r.Ok? <==> Distinct(b)
  {
    IssueAdded(was, store.inner, b.issue.(archived := true));
    r := store.InsertIssue(b.issue.(archived := true));
    if r.Err? { return; }
    r := InsertJobs(store, was, b.jobs, b.issue.id);
    if r.Err? { return; }
    r := InsertActions(store, was, b.actions, b.issue.id);
  }

  lemma IssueAdded(was: StoreState, st: StoreState, issue: Issue)
    requires KeyedById(st) && ArchiveOnly(was, st) && issue.id !in st.issues && issue.archived
    ensures MayAdd(was, st.PutIssue(issue), issue.id)
  {
  }
}
