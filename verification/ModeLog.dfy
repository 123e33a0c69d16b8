/** The scheduler's mode as the event log alone records it (src/scheduler.rs:2344-2383, 2604-2651). */
module ModeLog {
  import opened Wrappers
  import opened Domain
  import opened Store
  import opened Protocol

  /** The event `set_mode` writes. */
  function ModeEvent(m: SchedulerMode): Event {
    match m
    case ModeRunning => Resumed
    case ModeDispatchFrozen => DispatchFroze
    case ModeFullyFrozen => FullyFroze
    case ModeRecovering => RecoveryStarted
  }

  function ModeOf(e: Event): SchedulerMode {
    if e.DispatchFroze? then ModeDispatchFrozen else if e.FullyFroze? then ModeFullyFrozen else ModeRunning
  }

  /** A recovery began before position `k` and had not finished. */
  ghost predicate InsideRecovery(log: seq<Event>, k: nat)
    requires k <= |log|
  {
    exists r :: 0 <= r < k && log[r].RecoveryStarted? && forall q :: r < q < k ==> !log[q].Recovered?
  }

  /** A mode change that was a person's and not recovery's own bookkeeping. */
  ghost predicate HumanMode(log: seq<Event>, k: nat)
    requires k < |log|
  {
    (log[k].Resumed? || log[k].DispatchFroze? || log[k].FullyFroze?) && !InsideRecovery(log, k)
  }

  ghost predicate LastHumanMode(log: seq<Event>, k: nat)
    requires k < |log|
  {
    HumanMode(log, k) && forall q :: k < q < |log| ==> !HumanMode(log, q)
  }

  ghost predicate SetTo(log: seq<Event>, mode: SchedulerMode) {
    || (exists k :: 0 <= k < |log| && LastHumanMode(log, k) && mode == ModeOf(log[k]))
    || (mode.ModeRunning? && forall k :: 0 <= k < |log| ==> !HumanMode(log, k))
  }

  /** A recovery reconciled something and nobody resumed since. */
  ghost predicate ReviewPending(log: seq<Event>) {
    exists r :: 0 <= r < |log| && log[r] == Recovered(true)
                && forall q :: r < q < |log| ==> !(HumanMode(log, q) && log[q].Resumed?)
  }

  lemma SetToOneMode(log: seq<Event>, a: SchedulerMode, b: SchedulerMode)
    requires SetTo(log, a) && SetTo(log, b)
    ensures a == b
  {
  }

  /** An earlier position means the same in a longer log. */
  lemma PrefixSame(log: seq<Event>, e: Event, k: nat)
    requires k <= |log|
    ensures InsideRecovery(log + [e], k) <==> InsideRecovery(log, k)
    ensures k < |log| ==> (HumanMode(log + [e], k) <==> HumanMode(log, k))
  {
    assert forall q :: 0 <= q < |log| ==> (log + [e])[q] == log[q];
  }

  lemma InsideAfter(log: seq<Event>, e: Event)
    ensures InsideRecovery(log + [e], |log| + 1) <==> e.RecoveryStarted? || (!e.Recovered? && InsideRecovery(log, |log|))
  {
    var longer := log + [e];
    PrefixSame(log, e, |log|);
    if e.RecoveryStarted? { assert longer[|log|].RecoveryStarted?; }
    if !e.Recovered? && InsideRecovery(log, |log|) {
      var r :| 0 <= r < |log| && log[r].RecoveryStarted? && forall q :: r < q < |log| ==> !log[q].Recovered?;
      assert longer[r].RecoveryStarted?;
    }
    if InsideRecovery(longer, |longer|) && !e.RecoveryStarted? {
      var r :| 0 <= r < |longer| && longer[r].RecoveryStarted? && forall q :: r < q < |longer| ==> !longer[q].Recovered?;
      assert r < |log| && log[r].RecoveryStarted?;
      assert !longer[|log|].Recovered?;
      forall q | r < q < |log| ensures !log[q].Recovered? { assert longer[q] == log[q]; }
    }
  }

  /** One more event changes the persisted mode exactly when a person wrote it. */
  lemma ModeAfter(log: seq<Event>, e: Event, mode: SchedulerMode)
    requires SetTo(log, mode)
    ensures SetTo(log + [e], if HumanMode(log + [e], |log|) then ModeOf(e) else mode)
  {
    var longer := log + [e];
    forall k | 0 <= k < |log| ensures HumanMode(longer, k) <==> HumanMode(log, k) { PrefixSame(log, e, k); }
    if HumanMode(longer, |log|) {
      assert LastHumanMode(longer, |log|);
    } else if k :| 0 <= k < |log| && LastHumanMode(log, k) && mode == ModeOf(log[k]) {
      assert LastHumanMode(longer, k);
    }
  }

  lemma PendingAfter(log: seq<Event>, e: Event)
    ensures ReviewPending(log + [e]) <==>
              e == Recovered(true) || (ReviewPending(log) && !(HumanMode(log + [e], |log|) && e.Resumed?))
  {
    var longer := log + [e];
    forall k | 0 <= k < |log| ensures HumanMode(longer, k) <==> HumanMode(log, k) { PrefixSame(log, e, k); }
    if e == Recovered(true) { assert longer[|log|] == Recovered(true); }
    if ReviewPending(log) && !(HumanMode(longer, |log|) && e.Resumed?) {
      var r :| 0 <= r < |log| && log[r] == Recovered(true)
               && forall q :: r < q < |log| ==> !(HumanMode(log, q) && log[q].Resumed?);
      assert longer[r] == Recovered(true);
    }
  }

  /** What a whole recovery writes leaves the human-set mode where it was, whether it ran to its end
      or was cut off after any of its events. */
  lemma RecoveryKeepsMode(log: seq<Event>, mode: SchedulerMode, final: SchedulerMode, touched: bool)
    requires SetTo(log, mode)
    ensures SetTo(log + [RecoveryStarted], mode)
    ensures SetTo(log + [RecoveryStarted] + [ModeEvent(final)], mode)
    ensures SetTo(log + [RecoveryStarted] + [ModeEvent(final)] + [Recovered(touched)], mode)
    ensures ReviewPending(log + [RecoveryStarted] + [ModeEvent(final)] + [Recovered(touched)]) <==> touched || ReviewPending(log)
  {
    var a := log + [RecoveryStarted];
    var b := a + [ModeEvent(final)];
    ModeAfter(log, RecoveryStarted, mode);
    InsideAfter(log, RecoveryStarted);
    PrefixSame(a, ModeEvent(final), |a|);
    ModeAfter(a, ModeEvent(final), mode);
    ModeAfter(b, Recovered(touched), mode);
    PendingAfter(log, RecoveryStarted);
    PendingAfter(a, ModeEvent(final));
    PendingAfter(b, Recovered(touched));
  }

  /** What a person sets is what the next start reads back, exactly when no recovery is open in the log
      or nothing was to change; while one is open the change is lost. */
  lemma HumanModeIsRead(log: seq<Event>, mode: SchedulerMode, was: SchedulerMode)
    requires SetTo(log, was)
    ensures SetTo(log + [ModeEvent(mode)], mode)
            <==> !mode.ModeRecovering? && (mode == was || !InsideRecovery(log, |log|))
  {
    var longer := log + [ModeEvent(mode)];
    PrefixSame(log, ModeEvent(mode), |log|);
    ModeAfter(log, ModeEvent(mode), was);
    if SetTo(longer, mode) { SetToOneMode(longer, mode, if HumanMode(longer, |log|) then ModeOf(ModeEvent(mode)) else was); }
  }

  /** One turn of the loop of `persisted_mode`. */
  lemma Turn(log: seq<Event>, e: Event, mode: SchedulerMode, inside: bool)
    requires SetTo(log, mode) && (inside <==> InsideRecovery(log, |log|))
    ensures var human := !inside && (e.Resumed? || e.DispatchFroze? || e.FullyFroze?);
            && SetTo(log + [e], if human then ModeOf(e) else mode)
            && (ReviewPending(log + [e]) <==> e == Recovered(true) || (ReviewPending(log) && !(human && e.Resumed?)))
    ensures InsideRecovery(log + [e], |log + [e]|) <==> e.RecoveryStarted? || (!e.Recovered? && inside)
  {
    PrefixSame(log, e, |log|);
    InsideAfter(log, e);
    ModeAfter(log, e, mode);
    PendingAfter(log, e);
  }

  /** The events the mode is read back from. */
  predicate SpeaksOfMode(e: Event) {
    e.Resumed? || e.DispatchFroze? || e.FullyFroze? || e.RecoveryStarted? || e.Recovered?
  }

  /** Whatever else is logged changes nothing about it. */
  lemma {:induction false} OtherEventsKeepMode(log: seq<Event>, more: seq<Event>, mode: SchedulerMode)
    requires SetTo(log, mode) && forall e :: e in more ==> !SpeaksOfMode(e)
    ensures SetTo(log + more, mode) && (ReviewPending(log + more) <==> ReviewPending(log))
    decreases |more|
  {
    if more == [] {
      assert log + more == log;
    } else {
      assert !SpeaksOfMode(more[0]);
      Turn(log, more[0], mode, InsideRecovery(log, |log|));
      OtherEventsKeepMode(log + [more[0]], more[1..], mode);
      assert log + more == log + [more[0]] + more[1..];
    }
  }

  // ---------------------------------------------------------------- a log that is continued

  /** The same, for position `k` of what is appended to a log in which a recovery may be open. */
  ghost predicate InsideThen(open: bool, more: seq<Event>, k: nat)
    requires k <= |more|
  {
    InsideRecovery(more, k) || (open && forall q :: 0 <= q < k ==> !more[q].Recovered?)
  }

  ghost predicate HumanThen(open: bool, more: seq<Event>, k: nat)
    requires k < |more|
  {
    (more[k].Resumed? || more[k].DispatchFroze? || more[k].FullyFroze?) && !InsideThen(open, more, k)
  }

  ghost predicate LastHumanThen(open: bool, more: seq<Event>, k: nat)
    requires k < |more|
  {
    HumanThen(open, more, k) && forall q :: k < q < |more| ==> !HumanThen(open, more, q)
  }

  /** The last mode a person set in what is appended; while there is none, the mode so far. */
  ghost predicate SetThen(open: bool, more: seq<Event>, was: SchedulerMode, mode: SchedulerMode) {
    || (exists k :: 0 <= k < |more| && LastHumanThen(open, more, k) && mode == ModeOf(more[k]))
    || (mode == was && forall k :: 0 <= k < |more| ==> !HumanThen(open, more, k))
  }

  lemma InsideBoth(log: seq<Event>, more: seq<Event>, k: nat)
    requires k <= |more|
    ensures InsideRecovery(log + more, |log| + k) <==> InsideThen(InsideRecovery(log, |log|), more, k)
  {
    var longer := log + more;
    forall q | 0 <= q < |more| ensures longer[|log| + q] == more[q] {}
    if r :| 0 <= r < k && more[r].RecoveryStarted? && forall q :: r < q < k ==> !more[q].Recovered? {
      assert longer[|log| + r].RecoveryStarted?;
      forall q | |log| + r < q < |log| + k ensures !longer[q].Recovered? { assert longer[q] == more[q - |log|]; }
    } else if r :| 0 <= r < |log| && log[r].RecoveryStarted? && forall q :: r < q < |log| ==> !log[q].Recovered? {
      if forall q :: 0 <= q < k ==> !more[q].Recovered? {
        assert longer[r].RecoveryStarted?;
        forall q | r < q < |log| + k ensures !longer[q].Recovered? {
          if q >= |log| { assert longer[q] == more[q - |log|]; }
        }
      }
    }
    if InsideRecovery(longer, |log| + k) { InsideEither(log, more, k); }
  }

  lemma InsideEither(log: seq<Event>, more: seq<Event>, k: nat)
    requires k <= |more| && InsideRecovery(log + more, |log| + k)
    ensures InsideThen(InsideRecovery(log, |log|), more, k)
  {
    var longer := log + more;
    var r :| 0 <= r < |log| + k && longer[r].RecoveryStarted? && forall q :: r < q < |log| + k ==> !longer[q].Recovered?;
    forall q | 0 <= q < k && r < |log| + q ensures !more[q].Recovered? { assert longer[|log| + q] == more[q]; }
    if r >= |log| {
      assert more[r - |log|].RecoveryStarted?;
    } else {
      assert log[r].RecoveryStarted?;
      forall q | r < q < |log| ensures !log[q].Recovered? { assert longer[q] == log[q]; }
    }
  }

  lemma HumanBoth(log: seq<Event>, more: seq<Event>, k: nat)
    requires k < |more|
    ensures HumanMode(log + more, |log| + k) <==> HumanThen(InsideRecovery(log, |log|), more, k)
  {
    InsideBoth(log, more, k);
  }

  lemma HumanBefore(log: seq<Event>, more: seq<Event>, k: nat)
    requires k < |log|
    ensures HumanMode(log + more, k) <==> HumanMode(log, k)
  {
    assert forall q :: 0 <= q < |log| ==> (log + more)[q] == log[q];
  }

  /** The mode a continued log is read as: what the continuation says last, or else what the log said. */
  lemma ContinuedMode(log: seq<Event>, more: seq<Event>, was: SchedulerMode, mode: SchedulerMode)
    requires SetTo(log, was)
    ensures SetTo(log + more, mode) <==> SetThen(InsideRecovery(log, |log|), more, was, mode)
  {
    var open, longer := InsideRecovery(log, |log|), log + more;
    forall k | 0 <= k < |more| ensures HumanMode(longer, |log| + k) <==> HumanThen(open, more, k) { HumanBoth(log, more, k); }
    forall k | 0 <= k < |log| ensures HumanMode(longer, k) <==> HumanMode(log, k) { HumanBefore(log, more, k); }
    if SetThen(open, more, was, mode) { ContinuedTo(log, more, was, mode); }
    if SetTo(longer, mode) { ContinuedFrom(log, more, was, mode); }
  }

  lemma ContinuedTo(log: seq<Event>, more: seq<Event>, was: SchedulerMode, mode: SchedulerMode)
    requires SetTo(log, was) && SetThen(InsideRecovery(log, |log|), more, was, mode)
    requires forall k :: 0 <= k < |more| ==> (HumanMode(log + more, |log| + k) <==> HumanThen(InsideRecovery(log, |log|), more, k))
    requires forall k :: 0 <= k < |log| ==> (HumanMode(log + more, k) <==> HumanMode(log, k))
    ensures SetTo(log + more, mode)
  {
    var open, longer := InsideRecovery(log, |log|), log + more;
    forall q | |log| <= q < |longer| ensures HumanMode(longer, q) <==> HumanThen(open, more, q - |log|) {
      assert HumanMode(longer, |log| + (q - |log|)) <==> HumanThen(open, more, q - |log|);
    }
    if k :| 0 <= k < |more| && LastHumanThen(open, more, k) && mode == ModeOf(more[k]) {
      assert longer[|log| + k] == more[k] && LastHumanMode(longer, |log| + k);
    } else if k :| 0 <= k < |log| && LastHumanMode(log, k) && was == ModeOf(log[k]) {
      assert longer[k] == log[k] && LastHumanMode(longer, k);
    }
  }

  lemma SomeModeThen(open: bool, more: seq<Event>, was: SchedulerMode) returns (mode: SchedulerMode)
    ensures SetThen(open, more, was, mode)
  {
    mode := was;
    var last := LastOf(open, more, |more|);
    if last >= 0 {
      assert LastHumanThen(open, more, last);
      mode := ModeOf(more[last]);
    }
  }

  /** The last such position below `n`, or minus one. */
  ghost function LastOf(open: bool, more: seq<Event>, n: nat): (k: int)
    requires n <= |more|
    ensures -1 <= k < n && (k >= 0 ==> HumanThen(open, more, k))
    ensures forall q :: k < q < n ==> !HumanThen(open, more, q)
  {
    if n == 0 then -1 else if HumanThen(open, more, n - 1) then n - 1 else LastOf(open, more, n - 1)
  }

  lemma ContinuedFrom(log: seq<Event>, more: seq<Event>, was: SchedulerMode, mode: SchedulerMode)
    requires SetTo(log, was) && SetTo(log + more, mode)
    requires forall k :: 0 <= k < |more| ==> (HumanMode(log + more, |log| + k) <==> HumanThen(InsideRecovery(log, |log|), more, k))
    requires forall k :: 0 <= k < |log| ==> (HumanMode(log + more, k) <==> HumanMode(log, k))
    ensures SetThen(InsideRecovery(log, |log|), more, was, mode)
  {
    var read := SomeModeThen(InsideRecovery(log, |log|), more, was);
    ContinuedTo(log, more, was, read);
    SetToOneMode(log + more, mode, read);
  }

  method PersistedMode(log: seq<Event>) returns (mode: SchedulerMode, pending: bool)
    ensures SetTo(log, mode)
    ensures pending <==> ReviewPending(log)
  {
    mode, pending := ModeRunning, false;
    var inside := false;
    ghost var read: seq<Event> := [];
    for k := 0 to |log|
      invariant read == log[..k] && SetTo(read, mode)
      invariant pending <==> ReviewPending(read)
      invariant inside <==> InsideRecovery(read, |read|)
    {
      var e := log[k];
      Turn(read, e, mode, inside);
      read := read + [e];
      match e {
        case RecoveryStarted => inside := true;
        case Recovered(touched) => inside := false; pending := pending || touched;
        case Resumed => if !inside { mode, pending := ModeRunning, false; }
        case DispatchFroze => if !inside { mode := ModeDispatchFrozen; }
        case FullyFroze => if !inside { mode := ModeFullyFrozen; }
        case _ =>
      }
    }
    assert log[..|log|] == log;
  }
}
