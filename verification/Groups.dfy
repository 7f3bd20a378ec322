/**
 The scheduler of parallel and foreach groups: bounded admission from a persisted cursor,
 a persisted stop, and a join in source order. A lifetime may end at any commit.
 */
module Groups {
  import opened Wrappers
  import opened Json
  import opened Protocol

  // ---------------------------------------------------------------- the persisted frame

  predicate IsGroup(frame: ControlFrame) {
    frame.Parallel? || frame.Foreach?
  }

  datatype Saved = Saved(next: nat, stopped: bool, error: Option<ForgeError>)

  function SavedOf(frame: ControlFrame): Saved
    requires IsGroup(frame)
  {
    Saved(frame.nextIndex, frame.stopped, frame.error)
  }

  /** The cursor never goes back; the first stop reason is kept. */
  function Progress(frame: ControlFrame, next: nat, stop: Option<ForgeError>): ControlFrame
    requires IsGroup(frame)
  {
    match frame
    case Parallel(branches, cursor, stopped, error) =>
      ControlFrame.Parallel(branches, if cursor < next then next else cursor, stopped || stop.Some?, if error.None? then stop else error)
    case Foreach(total, cursor, stopped, error) =>
      ControlFrame.Foreach(total, if cursor < next then next else cursor, stopped || stop.Some?, if error.None? then stop else error)
  }

  /** Saved progress: the cursor is the further of the two, and the first reason to stop stands for good. */
  lemma ProgressMeans(frame: ControlFrame, next: nat, stop: Option<ForgeError>)
    requires IsGroup(frame)
    ensures var f := Progress(frame, next, stop);
      && (frame.Parallel? ==> f.Parallel? && f.branches == frame.branches)
      && (frame.Foreach? ==> f.Foreach? && f.total == frame.total)
      && f.nextIndex >= frame.nextIndex && f.nextIndex >= next && (f.nextIndex == frame.nextIndex || f.nextIndex == next)
      && (f.stopped <==> frame.stopped || stop.Some?)
      && (frame.error.Some? ==> f.error == frame.error) && (frame.error.None? ==> f.error == stop)
  {
  }

  function SaturatingSub(a: nat, b: nat): nat { if a < b then 0 else a - b }

  function Min(a: nat, b: nat): nat { if a < b then a else b }

  /** Up to which index children may be started now. */
  function ReadyEnd(next: nat, total: nat, active: nat, concurrency: nat, halted: bool): nat {
    Min(next + (if halted then 0 else SaturatingSub(concurrency, active)), total)
  }

  /** Admission never exceeds the free slots, and a halted group admits nothing. */
  lemma ReadyEndBounded(next: nat, total: nat, active: nat, concurrency: nat, halted: bool)
    requires next <= total && active <= concurrency
    ensures next <= ReadyEnd(next, total, active, concurrency, halted) <= total
    ensures active + (ReadyEnd(next, total, active, concurrency, halted) - next) <= concurrency
    ensures halted ==> ReadyEnd(next, total, active, concurrency, halted) == next
    ensures !halted && active < concurrency && next < total ==> next < ReadyEnd(next, total, active, concurrency, halted)
  {
  }

  // ---------------------------------------------------------------- outcomes

  datatype ChildEnd = Finished(output: Value) | Threw(error: ForgeError) | Suspended | Broken

  datatype Entry = Completed(output: Value) | Collected(error: ForgeError)

  datatype GroupEnd = Joined(entries: seq<(string, Entry)>) | Refused(error: ForgeError) | Paused | Lost | Unsettled

  function UnknownError(): ForgeError { Plain("effect.unknown") }

  function LimitError(): ForgeError { Plain("resource.limit") }

  function CancelError(): ForgeError { Plain("operation.cancelled") }

  /** The persisted frame, the children that may have a record, and the most that were ever live at once. */
  datatype Trail = Trail(frame: ControlFrame, started: set<nat>, peak: nat)

  ghost predicate Fits(t: Trail, size: nat, concurrency: nat) {
    && IsGroup(t.frame) && SavedOf(t.frame).next <= size
    && (SavedOf(t.frame).stopped ==> SavedOf(t.frame).error.Some?)
    && (forall i :: i in t.started ==> i < SavedOf(t.frame).next)
    && t.peak <= concurrency
  }

  /** A stop is for good: the cursor and the reason stay what they were when the group stopped. */
  ghost predicate Extends(a: Trail, b: Trail) {
    && IsGroup(a.frame) && IsGroup(b.frame)
    && SavedOf(a.frame).next <= SavedOf(b.frame).next && a.started <= b.started && a.peak <= b.peak
    && (SavedOf(a.frame).stopped ==> SavedOf(b.frame) == SavedOf(a.frame))
  }

  lemma ExtendsTransitive(a: Trail, b: Trail, c: Trail)
    requires Extends(a, b) && Extends(b, c)
    ensures Extends(a, c)
  {
  }

  lemma ExtendsSelf(a: Trail)
    requires IsGroup(a.frame)
    ensures Extends(a, a)
  {
  }

  lemma FitsSaved(t: Trail, size: nat, concurrency: nat)
    requires Fits(t, size, concurrency)
    ensures IsGroup(t.frame) && SavedOf(t.frame).next <= size
    ensures SavedOf(t.frame).stopped ==> SavedOf(t.frame).error.Some?
  {
  }

  /** A child is started only behind the persisted cursor. */
  function Start(t: Trail, index: nat, live: nat): Trail {
    t.(started := t.started + {index}, peak := if t.peak < live then live else t.peak)
  }

  /** An entry reports how its child ended; failures are reported only where they are collected. */
  ghost predicate EntryOf(ends: map<nat, ChildEnd>, i: nat, failFast: bool, entry: Entry) {
    && i in ends
    && match ends[i]
       case Finished(v) => entry == Completed(v)
       case Threw(e) => !failFast && e.Code() != "effect.unknown" && entry == Collected(e)
       case _ => false
  }

  class Group {
    const labels: seq<string>
    const concurrency: nat
    const failFast: bool
    var trail: Trail
    /** Where each child last ended. */
    ghost var ends: map<nat, ChildEnd>

    ghost predicate Valid()
      reads this
    {
      Fits(trail, |labels|, concurrency)
    }

    /** A group of either kind, from a fresh frame or from one an earlier lifetime saved. */
    constructor (labels: seq<string>, concurrency: nat, failFast: bool, frame: ControlFrame, started: set<nat>)
      requires Fits(Trail(frame, started, 0), |labels|, concurrency)
      ensures Valid() && this.labels == labels && this.concurrency == concurrency && this.failFast == failFast
      ensures trail == Trail(frame, started, 0)
    {
      this.labels, this.concurrency, this.failFast := labels, concurrency, failFast;
      trail, ends := Trail(frame, started, 0), map[];
    }

    /** Persist progress; supervision may fail before or after the commit. */
    method Save(next: nat, stop: Option<ForgeError>) returns (ok: bool)
      requires Valid() && next <= |labels|
      requires SavedOf(trail.frame).stopped ==> next <= SavedOf(trail.frame).next
      modifies this`trail
      ensures Valid() && Extends(old(trail), trail)
      ensures trail == old(trail) || trail == old(trail).(frame := Progress(old(trail).frame, next, stop))
      ensures ok ==> trail == old(trail).(frame := Progress(old(trail).frame, next, stop))
      ensures SavedOf(old(trail).frame).next <= SavedOf(trail.frame).next
    {
      if * {
        return false;
      }
      trail := trail.(frame := Progress(trail.frame, next, stop));
      if * {
        return false;
      }
      return true;
    }

    /** One child: its cursor first, then the child. */
    method AdmitOne(index: nat, live: nat) returns (ok: bool)
      requires Valid() && index < |labels| && live <= concurrency
      requires SavedOf(trail.frame).stopped ==> index < SavedOf(trail.frame).next
      modifies this`trail
      ensures Valid() && Extends(old(trail), trail) && (ok ==> index < SavedOf(trail.frame).next && index in trail.started)
      ensures SavedOf(trail.frame).stopped == SavedOf(old(trail).frame).stopped
      ensures SavedOf(old(trail).frame).next <= SavedOf(trail.frame).next
    {
      ok := Save(index + 1, None);
      if ok {
        trail := Start(trail, index, live);
      }
    }

    /** Admit as many children as there are free slots, each behind its own committed cursor. */
    method Admit(next0: nat, total: nat, active0: set<nat>, failed0: Option<ForgeError>, halted0: bool)
      returns (ended: Option<GroupEnd>, next: nat, active: set<nat>, failed: Option<ForgeError>, halted: bool)
      requires Valid() && next0 <= total <= |labels| && next0 <= SavedOf(trail.frame).next && |active0| <= concurrency
      requires (forall i :: i in active0 ==> i < next0) && (halted0 ==> failed0.Some?)
      requires SavedOf(trail.frame).stopped ==> total <= SavedOf(trail.frame).next || halted0
      modifies this`trail
      ensures IsGroup(trail.frame) && Valid() && Extends(old(trail), trail) && next0 <= next <= total && next <= SavedOf(trail.frame).next
      ensures (forall i: nat :: i in active <==> i in active0 || next0 <= i < next) && |active| <= concurrency
      ensures next == next0 ==> active == active0
      ensures halted0 ==> next == next0
      ensures failed == failed0 || failed == Some(LimitError())
      ensures ended.Some? ==> ended == Some(Lost)
      ensures (failed.None? ==> failed0.None?) && (halted ==> failed.Some?) && (halted0 ==> halted)
      ensures ended.None? && !halted && concurrency > 0 && active == {} ==> next == total
      ensures ended.None? && SavedOf(trail.frame).stopped ==> total <= SavedOf(trail.frame).next || halted
      ensures ended.None? && SavedOf(trail.frame).stopped ==> SavedOf(old(trail).frame).stopped || halted
      ensures SavedOf(old(trail).frame).next <= SavedOf(trail.frame).next
    {
      ExtendsSelf(trail);
      next, active, failed, halted := next0, active0, failed0, halted0;
      var end := ReadyEnd(next0, total, |active0|, concurrency, halted0);
      ReadyEndBounded(next0, total, |active0|, concurrency, halted0);
      hide Progress, ReadyEnd, Fits, Extends;
      while next < end
        invariant Valid() && Extends(old(trail), trail) && next0 <= next <= end && next <= SavedOf(trail.frame).next
        invariant forall i: nat :: i in active <==> i in active0 || next0 <= i < next
        invariant |active| == |active0| + (next - next0) && (next == next0 ==> active == active0)
        invariant SavedOf(trail.frame).stopped == SavedOf(old(trail).frame).stopped
        invariant SavedOf(trail.frame).stopped ==> total <= SavedOf(trail.frame).next || halted0
      {
        ghost var before := trail;
        if * {
          // no slot for another child scope: the group stops here
          var stopped := Save(next, Some(LimitError()));
          ExtendsTransitive(old(trail), before, trail);
          failed, halted := Some(LimitError()), true;
          ended := if stopped then None else Some(Lost);
          return;
        }
        var admitted := AdmitOne(next, |active| + 1);
        ExtendsTransitive(old(trail), before, trail);
        if !admitted {
          ended := Some(Lost);
          return;
        }
        active := active + {next};
        next := next + 1;
      }
      ended := None;
    }

    /** One child ends: collect it, stop because of it, or wait for it. */
    method Settle(index: nat, next: nat, failed0: Option<ForgeError>, halted0: bool, suspended0: bool,
                  results0: seq<Option<Entry>>, cancelling: bool)
      returns (ended: Option<GroupEnd>, failed: Option<ForgeError>, halted: bool, suspended: bool, results: seq<Option<Entry>>)
      requires Valid() && index < |results0| && next <= |labels| && next <= SavedOf(trail.frame).next && (halted0 ==> failed0.Some?)
      modifies this`trail, this`ends
      ensures IsGroup(trail.frame) && Valid() && Extends(old(trail), trail) && |results| == |results0|
      ensures ended.Some? ==> ended == Some(Lost)
      ensures (failed.None? ==> failed0.None?) && (halted ==> failed.Some?) && (halted0 ==> halted) && (suspended0 ==> suspended)
      ensures SavedOf(trail.frame).stopped ==> SavedOf(old(trail).frame).stopped || halted || ended.Some?
      ensures SavedOf(old(trail).frame).next <= SavedOf(trail.frame).next
      ensures index in ends && ends == old(ends)[index := ends[index]]
      ensures forall i :: 0 <= i < |results| && i != index ==> results[i] == results0[i]
      ensures ended.None? && failed.None? && !suspended ==>
        results[index].Some? && EntryOf(ends, index, failFast, results[index].value)
      ensures Judges(ends[index], failed0, failed, suspended0, suspended)
      ensures ended.None? && ends[index].Threw? ==> Stops(ends[index].error, failFast, cancelling, failed, halted)
    {
      ExtendsSelf(trail);
      ended, failed, halted, suspended, results := None, failed0, halted0, suspended0, results0;
      var end: ChildEnd := *;
      ends := ends[index := end];
      var entry;
      match end {
        case Suspended =>
          suspended := true;
          return;
        case Broken =>
          ended := Some(Lost);
          return;
        case Finished(output) => entry := Completed(output);
        case Threw(error) =>
          entry := Collected(error);
          if error.Code() == "effect.unknown" {
            halted := halted || failFast;
            failed := Some(UnknownError());
          } else if failFast || cancelling {
            ghost var before := trail;
            var saved := Save(next, Some(error));
            failed := if failed.None? then Some(error) else failed;
            halted := true;
            if !saved {
              ended := Some(Lost);
              return;
            }
          }
      }
      var over: bool := *;
      if over {
        ghost var middle := trail;
        var saved := Save(next, Some(LimitError()));
        ExtendsTransitive(old(trail), middle, trail);
        failed := if failed.None? then Some(LimitError()) else failed;
        halted := true;
        if !saved {
          ended := Some(Lost);
        }
      } else {
        results := results[index := Some(entry)];
      }
    }

    /** One child ends, and the group's account of its children and entries goes on. */
    method SettleNext(index: nat, next: nat, failed0: Option<ForgeError>, halted0: bool, suspended0: bool,
                      results0: seq<Option<Entry>>, cancelling: bool, ghost done: set<nat>, ghost saved: Option<ForgeError>)
      returns (ended: Option<GroupEnd>, failed: Option<ForgeError>, halted: bool, suspended: bool, results: seq<Option<Entry>>)
      requires Valid() && index < |results0| && next <= |labels| && next <= SavedOf(trail.frame).next && (halted0 ==> failed0.Some?)
      requires index !in done && Accounts(ends, done, saved, failed0, suspended0)
      requires failed0.None? && !suspended0 ==> Entered(ends, failFast, results0, done)
      modifies this`trail, this`ends
      ensures IsGroup(trail.frame) && Valid() && Extends(old(trail), trail) && |results| == |results0|
      ensures ended.Some? ==> ended == Some(Lost)
      ensures (failed.None? ==> failed0.None?) && (halted ==> failed.Some?) && (halted0 ==> halted) && (suspended0 ==> suspended)
      ensures SavedOf(trail.frame).stopped ==> SavedOf(old(trail).frame).stopped || halted || ended.Some?
      ensures SavedOf(old(trail).frame).next <= SavedOf(trail.frame).next
      ensures Accounts(ends, done + {index}, saved, failed, suspended)
      ensures ended.None? && failed.None? && !suspended ==> Entered(ends, failFast, results, done + {index})
    {
      hide Fits, Extends, Progress, EntryOf, Entered, Accounts, Judges, Stops;
      ghost var ends0 := ends;
      ended, failed, halted, suspended, results := Settle(index, next, failed0, halted0, suspended0, results0, cancelling);
      AccountsNext(ends0, ends, done, saved, index, failed0, failed, suspended0, suspended);
      if ended.None? && failed.None? && !suspended {
        EnteredNext(ends0, ends, failFast, results0, results, done, index);
      }
    }

    /**
     One lifetime of the group. A complete join has every child's entry in source order; with
     room for at least one child, an activated child is never left unsettled.
     */
    method Execute(cancelling: bool) returns (r: GroupEnd)
      requires Valid()
      modifies this
      ensures Valid() && Extends(old(trail), trail)
      ensures r.Joined? ==>
        && |r.entries| == |labels| && !SavedOf(trail.frame).stopped
        && forall i :: 0 <= i < |labels| ==> r.entries[i].0 == labels[i] && EntryOf(ends, i, failFast, r.entries[i].1)
      ensures concurrency > 0 ==> !r.Unsettled?
      ensures r.Refused? ==>
        || r.error == UnknownError() || r.error == CancelError() || FailureKnown(ends, SavedOf(old(trail).frame).error, r.error)
      ensures r.Paused? ==> !cancelling && !SavedOf(trail.frame).stopped && SuspendedIn(ends, ends.Keys)
      ensures cancelling ==> !r.Joined?
    {
      hide Progress, EntryOf, Entered, FailureKnown, SuspendedIn, Judges, Accounts, Stops, Fits, Extends, Tracks;
      FitsSaved(trail, |labels|, concurrency);
      var saved := SavedOf(trail.frame);
      ExtendsSelf(trail);
      var total := if saved.stopped then Min(saved.next, |labels|) else |labels|;
      var failed, halted, suspended := saved.error, false, false;
      var results: seq<Option<Entry>> := seq(total, _ => None);
      var active: set<nat> := {};
      var next := 0;
      ghost var done: set<nat> := {};
      EnteredNone(ends, failFast, results);
      TracksNone();
      AccountsNone(ends, failed);
      while true
        invariant IsGroup(trail.frame) && Valid() && Extends(old(trail), trail)
        invariant next <= total <= |labels| && |results| == total && next <= SavedOf(trail.frame).next
        invariant SavedOf(trail.frame).stopped ==> total <= SavedOf(trail.frame).next || halted
        invariant saved.stopped ==> failed.Some?
        invariant !saved.stopped ==> total == |labels|
        invariant |active| <= concurrency && Tracks(active, done, next)
        invariant halted ==> failed.Some?
        invariant failed.None? ==> !SavedOf(trail.frame).stopped
        invariant failed.None? && !suspended ==> Entered(ends, failFast, results, done)
        invariant Accounts(ends, done, saved.error, failed, suspended)
        decreases total - next, |active|
      {
        ghost var before := trail;
        ghost var held, active0, next0 := failed, active, next;
        TracksBelow(active, done, next);
        var ended;
        ended, next, active, failed, halted := Admit(next, total, active, failed, halted);
        AccountsAdmitted(ends, done, saved.error, held, failed, suspended);
        ghost var admitted := trail;
        ExtendsTransitive(old(trail), before, admitted);
        if ended.Some? {
          return ended.value;
        }
        TracksAdmitted(active0, active, done, next0, next);
        if active == {} {
          break;
        }
        var index :| index in active;
        TracksSettled(active, done, next, index);
        active := active - {index};
        ended, failed, halted, suspended, results :=
          SettleNext(index, next, failed, halted, suspended, results, cancelling, done, saved.error);
        done := done + {index};
        ExtendsTransitive(old(trail), admitted, trail);
        if ended.Some? {
          return ended.value;
        }
      }
      TracksDone(done, next);
      r := Leave(total, results, done, saved.error, failed, suspended, cancelling);
    }

    /** After the last child: unresolved effects, the failure, cancellation, suspension, in this order; else the join. */
    method Leave(total: nat, results: seq<Option<Entry>>, ghost done: set<nat>, ghost saved: Option<ForgeError>,
                 failed: Option<ForgeError>, suspended: bool, cancelling: bool) returns (r: GroupEnd)
      requires Accounts(ends, done, saved, failed, suspended)
      requires failed.None? ==> total == |labels|
      requires |results| == total && (failed.None? && !suspended ==> Entered(ends, failFast, results, done))
      requires concurrency > 0 && failed.None? ==> forall i: nat :: i in done <==> i < total
      ensures r.Joined? ==>
        && |r.entries| == |labels| && failed.None?
        && forall i :: 0 <= i < |labels| ==> r.entries[i].0 == labels[i] && EntryOf(ends, i, failFast, r.entries[i].1)
      ensures concurrency > 0 ==> !r.Unsettled?
      ensures r.Refused? ==> r.error == UnknownError() || r.error == CancelError() || FailureKnown(ends, saved, r.error)
      ensures r.Paused? ==> !cancelling && failed.None? && SuspendedIn(ends, ends.Keys)
      ensures cancelling ==> !r.Joined?
      ensures !r.Lost?
    {
      hide Accounts, Entered, EntryOf;
      var unresolved: bool, cancelled: bool := *, *;
      if unresolved {
        return Refused(UnknownError());
      }
      AccountsShown(ends, done, saved, failed, suspended);
      if failed.Some? {
        return Refused(failed.value);
      }
      if cancelling || cancelled {
        return Refused(CancelError());
      }
      if suspended {
        return Paused;
      }
      r := Join(total, results, done);
    }

    /** The entries in source order; the check for a missing one fails only when nothing may run at all. */
    method Join(total: nat, results: seq<Option<Entry>>, ghost done: set<nat>) returns (r: GroupEnd)
      requires |results| == total == |labels| && Entered(ends, failFast, results, done)
      requires concurrency > 0 ==> forall i: nat :: i in done <==> i < total
      ensures r.Joined? || r.Unsettled?
      ensures r.Joined? ==>
        && |r.entries| == |labels|
        && forall i :: 0 <= i < |labels| ==> r.entries[i].0 == labels[i] && EntryOf(ends, i, failFast, r.entries[i].1)
      ensures concurrency > 0 ==> !r.Unsettled?
    {
      if exists i :: 0 <= i < total && results[i].None? {
        return Unsettled;
      }
      return Joined(seq(total, i requires 0 <= i < total => (labels[i], results[i].value)));
    }
  }

  /** What the group is blamed on: an unknown effect as itself, anything else as it was thrown. */
  predicate Blames(error: ForgeError, failed: Option<ForgeError>) {
    failed == if error.Code() == "effect.unknown" then Some(UnknownError()) else Some(error)
  }

  /** Why a group failed: it was stopped before, a limit, an unknown effect, or an error one of its children threw. */
  ghost predicate FailureKnown(ends: map<nat, ChildEnd>, saved: Option<ForgeError>, e: ForgeError) {
    saved == Some(e) || e == LimitError() || exists i :: i in ends && ends[i] == Threw(e)
  }

  ghost predicate FailureIn(ends: map<nat, ChildEnd>, done: set<nat>, saved: Option<ForgeError>, e: ForgeError) {
    saved == Some(e) || e == LimitError() || e == UnknownError() || exists i :: i in done && i in ends && ends[i] == Threw(e)
  }

  ghost predicate SuspendedIn(ends: map<nat, ChildEnd>, done: set<nat>) {
    exists i :: i in done && i in ends && ends[i].Suspended?
  }

  /** What the group holds against its children: why it failed, and whether one of them waits. */
  ghost predicate Accounts(ends: map<nat, ChildEnd>, done: set<nat>, saved: Option<ForgeError>, failed: Option<ForgeError>, suspended: bool) {
    (failed.Some? ==> FailureIn(ends, done, saved, failed.value)) && (suspended ==> SuspendedIn(ends, done))
  }

  /** One child's end: it may be what the group fails for, or what it waits for, and nothing else changes either. */
  predicate Judges(end: ChildEnd, failed0: Option<ForgeError>, failed: Option<ForgeError>, suspended0: bool, suspended: bool) {
    && (failed == failed0 || failed == Some(LimitError()) || (end.Threw? && Blames(end.error, failed)))
    && (suspended <==> suspended0 || end.Suspended?)
  }

  /** When a child's error ends the group, and when it also stops admission. */
  predicate Stops(error: ForgeError, failFast: bool, cancelling: bool, failed: Option<ForgeError>, halted: bool) {
    && (failFast || cancelling || error.Code() == "effect.unknown" ==> failed.Some?)
    && (failFast || (cancelling && error.Code() != "effect.unknown") ==> halted)
  }

  lemma AccountsNext(ends0: map<nat, ChildEnd>, ends: map<nat, ChildEnd>, done: set<nat>, saved: Option<ForgeError>, index: nat,
                     failed0: Option<ForgeError>, failed: Option<ForgeError>, suspended0: bool, suspended: bool)
    requires index in ends && ends == ends0[index := ends[index]] && index !in done
    requires Accounts(ends0, done, saved, failed0, suspended0) && Judges(ends[index], failed0, failed, suspended0, suspended)
    ensures Accounts(ends, done + {index}, saved, failed, suspended)
  {
    assert index in done + {index};
    assert forall i :: i in done && i in ends0 ==> i in done + {index} && ends[i] == ends0[i];
  }

  lemma AccountsAdmitted(ends: map<nat, ChildEnd>, done: set<nat>, saved: Option<ForgeError>, failed0: Option<ForgeError>,
                         failed: Option<ForgeError>, suspended: bool)
    requires Accounts(ends, done, saved, failed0, suspended) && (failed == failed0 || failed == Some(LimitError()))
    ensures Accounts(ends, done, saved, failed, suspended)
  {
  }

  lemma AccountsShown(ends: map<nat, ChildEnd>, done: set<nat>, saved: Option<ForgeError>, failed: Option<ForgeError>, suspended: bool)
    requires Accounts(ends, done, saved, failed, suspended)
    ensures failed.Some? ==> failed.value == UnknownError() || FailureKnown(ends, saved, failed.value)
    ensures suspended ==> SuspendedIn(ends, ends.Keys)
  {
  }

  /** Every child that ended has its entry. */
  ghost predicate Entered(ends: map<nat, ChildEnd>, failFast: bool, results: seq<Option<Entry>>, done: set<nat>) {
    && (forall i: nat :: i in done ==> i < |results| && results[i].Some?)
    && (forall i :: 0 <= i < |results| && results[i].Some? ==> i in done && EntryOf(ends, i, failFast, results[i].value))
  }

  /** The children begun so far are those below the cursor: some still run, the others ended. */
  ghost predicate Tracks(active: set<nat>, done: set<nat>, next: nat) {
    active !! done && forall i: nat :: i in active || i in done <==> i < next
  }

  lemma TracksNone()
    ensures Tracks({}, {}, 0)
  {
  }

  lemma TracksBelow(active: set<nat>, done: set<nat>, next: nat)
    requires Tracks(active, done, next)
    ensures forall i :: i in active ==> i < next
  {
  }

  lemma TracksAdmitted(active0: set<nat>, active: set<nat>, done: set<nat>, next0: nat, next: nat)
    requires Tracks(active0, done, next0) && next0 <= next
    requires forall i: nat :: i in active <==> i in active0 || next0 <= i < next
    ensures Tracks(active, done, next)
  {
  }

  lemma TracksSettled(active: set<nat>, done: set<nat>, next: nat, index: nat)
    requires Tracks(active, done, next) && index in active
    ensures Tracks(active - {index}, done + {index}, next) && index < next && index !in done
  {
  }

  lemma TracksDone(done: set<nat>, next: nat)
    requires Tracks({}, done, next)
    ensures forall i: nat :: i in done <==> i < next
  {
  }

  lemma EnteredNone(ends: map<nat, ChildEnd>, failFast: bool, results: seq<Option<Entry>>)
    requires forall i :: 0 <= i < |results| ==> results[i].None?
    ensures Entered(ends, failFast, results, {})
  {
  }

  lemma AccountsNone(ends: map<nat, ChildEnd>, failed: Option<ForgeError>)
    ensures Accounts(ends, {}, failed, failed, false)
  {
  }

  lemma EnteredNext(ends0: map<nat, ChildEnd>, ends: map<nat, ChildEnd>, failFast: bool, results0: seq<Option<Entry>>,
                    results: seq<Option<Entry>>, done: set<nat>, index: nat)
    requires Entered(ends0, failFast, results0, done) && index !in done && |results| == |results0| && index < |results|
    requires index in ends && ends == ends0[index := ends[index]]
    requires forall i :: 0 <= i < |results| && i != index ==> results[i] == results0[i]
    requires results[index].Some? && EntryOf(ends, index, failFast, results[index].value)
    ensures Entered(ends, failFast, results, done + {index})
  {
  }

  /** After a persisted stop no child at or past the cursor is ever started, in whatever later state. */
  lemma StoppedAdmitsNothingNew(a: Trail, b: Trail, size: nat, concurrency: nat, i: nat)
    requires Fits(a, size, concurrency) && Fits(b, size, concurrency) && Extends(a, b)
    requires SavedOf(a.frame).stopped && i in b.started
    ensures i < SavedOf(a.frame).next && SavedOf(b.frame).stopped && SavedOf(b.frame).error == SavedOf(a.frame).error
  {
  }

  /** Any number of lifetimes: the bound, the cursor and the stop hold across all of them. */
  method Lifetimes(group: Group, lives: nat) returns (ends: seq<GroupEnd>)
    requires group.Valid()
    modifies group
    ensures group.Valid() && Extends(old(group.trail), group.trail)
    ensures group.trail.peak <= group.concurrency
    ensures SavedOf(old(group.trail).frame).stopped ==>
      forall i :: i in group.trail.started ==> i < SavedOf(old(group.trail).frame).next
    ensures SavedOf(old(group.trail).frame).stopped ==> forall i :: 0 <= i < |ends| ==> !ends[i].Joined?
  {
    ends := [];
    ExtendsSelf(group.trail);
    for life := 0 to lives
      invariant group.Valid() && Extends(old(group.trail), group.trail)
      invariant SavedOf(old(group.trail).frame).stopped ==> forall i :: 0 <= i < |ends| ==> !ends[i].Joined?
    {
      ghost var before := group.trail;
      var cancelling: bool := *;
      var end := group.Execute(cancelling);
      ExtendsTransitive(old(group.trail), before, group.trail);
      ends := ends + [end];
    }
  }
}
