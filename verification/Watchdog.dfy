// The file watchdog: starting and stopping a watch, and the debouncing event loop of one watch.
module Watching {
  import opened Common

  const DEBOUNCE: int := 2000

  datatype Op = Write | Create | Rename | Remove | Chmod

  /** What the loop's select receives. FileEvent carries the base name and the operations of the event. */
  datatype Stimulus =
    | FileEvent(name: string, ops: set<Op>)
    | WatchError
    | Stop
    | EventsClosed

  /** A stimulus at a time in milliseconds; when it coincides with the timer, `late` says the timer went first. */
  datatype Input = Input(at: int, what: Stimulus, late: bool)

  /** In order of time; once the timer of an instant has gone off it stays so for later inputs of that instant. */
  ghost predicate Chronological(inputs: seq<Input>) {
    forall i, j :: 0 <= i < j < |inputs| ==>
      inputs[i].at < inputs[j].at || (inputs[i].at == inputs[j].at && (inputs[i].late ==> inputs[j].late))
  }

  predicate Relevant(filename: string, what: Stimulus) {
    what.FileEvent? && what.name == filename && (Write in what.ops || Create in what.ops || Rename in what.ops)
  }

  predicate Ends(what: Stimulus) {
    what.Stop? || what.EventsClosed?
  }

  /** The loop is still receiving when input i arrives. */
  ghost predicate Received(inputs: seq<Input>, i: nat)
    requires i < |inputs|
  {
    forall k :: 0 <= k < i ==> !Ends(inputs[k].what)
  }

  /** Input j, received, takes a pending timer away: a further change re-arms it, a stop cancels it. */
  ghost predicate Disarms(filename: string, inputs: seq<Input>, j: nat)
    requires j < |inputs|
  {
    Received(inputs, j) && (Relevant(filename, inputs[j].what) || inputs[j].what.Stop?)
  }

  /** Input j comes before the timer set at time t goes off. */
  ghost predicate InTime(inputs: seq<Input>, j: nat, t: int)
    requires j < |inputs|
  {
    inputs[j].at < t + DEBOUNCE || (inputs[j].at == t + DEBOUNCE && !inputs[j].late)
  }

  /** Input i is a received change that is followed by the full quiet period. */
  ghost predicate Quiet(filename: string, inputs: seq<Input>, i: nat)
    requires i < |inputs|
  {
    && Received(inputs, i) && Relevant(filename, inputs[i].what)
    && forall j :: i < j < |inputs| && Disarms(filename, inputs, j) ==> !InTime(inputs, j, inputs[i].at)
  }

  /** The positions of the changes answered by the submissions, in order. */
  ghost predicate Answers(filename: string, inputs: seq<Input>, sources: seq<nat>, submits: seq<int>) {
    && |sources| == |submits|
    && (forall n :: 0 <= n < |sources| ==> sources[n] < |inputs| && Quiet(filename, inputs, sources[n])
                                           && submits[n] == inputs[sources[n]].at + DEBOUNCE)
    && (forall m, n :: 0 <= m < n < |sources| ==> sources[m] < sources[n])
    && (forall i :: 0 <= i < |inputs| && Quiet(filename, inputs, i) ==> i in sources)
  }

  /** The timer armed by input i is still pending before input `now`: nothing has disarmed it since. */
  ghost predicate Pending(filename: string, inputs: seq<Input>, i: nat, now: nat)
    requires i < now <= |inputs|
  {
    && Received(inputs, i) && Relevant(filename, inputs[i].what)
    && forall j :: i < j < now ==> !Disarms(filename, inputs, j)
  }

  /** The submissions so far answer quiet changes in order; every quiet change seen is answered or pending. */
  ghost predicate Settled(filename: string, inputs: seq<Input>, now: nat, sources: seq<nat>, submits: seq<int>,
                          debounce: Option<int>, armed: nat)
    requires now <= |inputs|
  {
    && |sources| == |submits|
    && (forall n :: 0 <= n < |sources| ==> sources[n] < now && Quiet(filename, inputs, sources[n])
                                           && submits[n] == inputs[sources[n]].at + DEBOUNCE)
    && (forall m, n :: 0 <= m < n < |sources| ==> sources[m] < sources[n])
    && (debounce.Some? ==> armed < now && Pending(filename, inputs, armed, now)
                           && debounce.value == inputs[armed].at + DEBOUNCE
                           && forall n :: 0 <= n < |sources| ==> sources[n] < armed)
    && (forall i :: 0 <= i < now && Quiet(filename, inputs, i) ==> i in sources || (debounce.Some? && i == armed))
  }

  /** A pending timer that goes off before input `now`, or with no input left, answers a quiet change. */
  lemma FiredIsQuiet(filename: string, inputs: seq<Input>, i: nat, now: nat)
    requires Chronological(inputs) && i < now <= |inputs| && Pending(filename, inputs, i, now)
    requires now < |inputs| && !inputs[now].what.EventsClosed? ==> !InTime(inputs, now, inputs[i].at)
    ensures Quiet(filename, inputs, i)
  {
    forall j | i < j < |inputs| && Disarms(filename, inputs, j)
      ensures !InTime(inputs, j, inputs[i].at)
    {
      if j > now {
        assert !Ends(inputs[now].what);
      }
    }
  }

  /** The timer goes off before input `now`, or with no further input received. */
  lemma Fire(filename: string, inputs: seq<Input>, now: nat, sources: seq<nat>, submits: seq<int>, due: int, armed: nat)
    requires Chronological(inputs) && now <= |inputs|
    requires Settled(filename, inputs, now, sources, submits, Some(due), armed)
    requires now < |inputs| && !inputs[now].what.EventsClosed? ==> !InTime(inputs, now, inputs[armed].at)
    ensures Settled(filename, inputs, now, sources + [armed], submits + [due], None, armed)
  {
    FiredIsQuiet(filename, inputs, armed, now);
    assert forall i :: i in sources ==> i in sources + [armed];
    assert armed in sources + [armed];
  }

  /** An input that neither ends the loop nor concerns the file changes nothing. */
  lemma Ignore(filename: string, inputs: seq<Input>, now: nat, sources: seq<nat>, submits: seq<int>,
               debounce: Option<int>, armed: nat)
    requires now < |inputs| && Settled(filename, inputs, now, sources, submits, debounce, armed)
    requires !Ends(inputs[now].what) && !Relevant(filename, inputs[now].what)
    ensures Settled(filename, inputs, now + 1, sources, submits, debounce, armed)
  {
  }

  /** A change re-arms the timer: the change that was pending is not quiet. */
  lemma Arm(filename: string, inputs: seq<Input>, now: nat, sources: seq<nat>, submits: seq<int>,
            debounce: Option<int>, armed: nat)
    requires now < |inputs| && Received(inputs, now)
    requires Settled(filename, inputs, now, sources, submits, debounce, armed)
    requires Relevant(filename, inputs[now].what)
    requires debounce.Some? ==> InTime(inputs, now, inputs[armed].at)
    ensures Settled(filename, inputs, now + 1, sources, submits, Some(inputs[now].at + DEBOUNCE), now)
  {
    assert Disarms(filename, inputs, now);
  }

  lemma EndedIsNotQuiet(filename: string, inputs: seq<Input>, last: nat)
    requires last < |inputs| && Ends(inputs[last].what)
    ensures forall i :: last <= i < |inputs| ==> !Quiet(filename, inputs, i)
  {
  }

  /** A stop cancels the pending timer, and nothing is received after it. */
  lemma Cancelled(filename: string, inputs: seq<Input>, now: nat, sources: seq<nat>, submits: seq<int>,
                  debounce: Option<int>, armed: nat)
    requires now < |inputs| && Received(inputs, now)
    requires Settled(filename, inputs, now, sources, submits, debounce, armed)
    requires inputs[now].what.Stop? && (debounce.Some? ==> InTime(inputs, now, inputs[armed].at))
    ensures Answers(filename, inputs, sources, submits)
  {
    assert Disarms(filename, inputs, now);
    EndedIsNotQuiet(filename, inputs, now);
  }

  /** With the loop over and no timer pending, every quiet change has been answered. */
  lemma Finished(filename: string, inputs: seq<Input>, now: nat, sources: seq<nat>, submits: seq<int>, armed: nat)
    requires now <= |inputs| && Settled(filename, inputs, now, sources, submits, None, armed)
    requires now < |inputs| ==> Ends(inputs[now].what)
    ensures Answers(filename, inputs, sources, submits)
  {
    if now < |inputs| {
      EndedIsNotQuiet(filename, inputs, now);
    }
  }

  /** The event loop. Each submission comes exactly two seconds after a change that nothing followed in time,
      each such change is answered once, and nothing else submits. A closed event channel ends the loop but
      leaves a pending timer running. */
  method Run(filename: string, inputs: seq<Input>) returns (submits: seq<int>)
    requires Chronological(inputs)
    ensures exists sources :: Answers(filename, inputs, sources, submits)
  {
    submits := [];
    ghost var sources: seq<nat> := [];
    var debounce: Option<int> := None;
    ghost var armed := 0;
    var i := 0;
    while i < |inputs|
      invariant 0 <= i <= |inputs| && (i < |inputs| ==> Received(inputs, i))
      invariant Settled(filename, inputs, i, sources, submits, debounce, armed)
    {
      var input := inputs[i];
      if debounce.Some? && (debounce.value < input.at || (debounce.value == input.at && input.late)) {
        Fire(filename, inputs, i, sources, submits, debounce.value, armed);
        submits, sources := submits + [debounce.value], sources + [armed];
        debounce := None;
      }
      match input.what {
        case Stop =>
          Cancelled(filename, inputs, i, sources, submits, debounce, armed);
          return;
        case EventsClosed =>
          break;
        case WatchError =>
          Ignore(filename, inputs, i, sources, submits, debounce, armed);
        case FileEvent(name, ops) =>
          if name == filename && (Write in ops || Create in ops || Rename in ops) {
            Arm(filename, inputs, i, sources, submits, debounce, armed);
            debounce, armed := Some(input.at + DEBOUNCE), i;
          } else {
            Ignore(filename, inputs, i, sources, submits, debounce, armed);
          }
      }
      i := i + 1;
    }
    if debounce.Some? {
      Fire(filename, inputs, i, sources, submits, debounce.value, armed);
      submits, sources := submits + [debounce.value], sources + [armed];
    }
    Finished(filename, inputs, i, sources, submits, armed);
  }

  /** A single event submits exactly when it writes, creates or renames the watched file, two seconds later. */
  lemma LoneEvent(filename: string, at: int, name: string, ops: set<Op>, late: bool,
                  sources: seq<nat>, submits: seq<int>)
    requires Answers(filename, [Input(at, FileEvent(name, ops), late)], sources, submits)
    ensures submits ==
      if name == filename && (Write in ops || Create in ops || Rename in ops) then [at + 2000] else []
  {
    var inputs := [Input(at, FileEvent(name, ops), late)];
    assert |sources| > 0 ==> sources[0] == 0 && Quiet(filename, inputs, 0);
    if name == filename && (Write in ops || Create in ops || Rename in ops) {
      assert Quiet(filename, inputs, 0);
      AnswersAreUnique(filename, inputs, sources, submits, [0], [at + DEBOUNCE]);
    }
  }

  /** A stop within two seconds of a change cancels its submission; a later stop and a closed channel do not. */
  lemma EndAfterChange(filename: string, at: int, end: Input, sources: seq<nat>, submits: seq<int>)
    requires Ends(end.what) && at <= end.at
    requires Answers(filename, [Input(at, FileEvent(filename, {Write}), false), end], sources, submits)
    ensures submits ==
      if end.what.Stop? && (end.at < at + 2000 || (end.at == at + 2000 && !end.late)) then [] else [at + 2000]
  {
    var inputs := [Input(at, FileEvent(filename, {Write}), false), end];
    assert !Relevant(filename, inputs[1].what) && Received(inputs, 0) && Received(inputs, 1);
    assert |sources| > 0 ==> sources[0] == 0 && Quiet(filename, inputs, 0);
    if end.what.Stop? && InTime(inputs, 1, at) {
      assert Disarms(filename, inputs, 1) && !Quiet(filename, inputs, 0);
      assert sources == [];
    } else {
      assert Quiet(filename, inputs, 0);
      AnswersAreUnique(filename, inputs, sources, submits, [0], [at + DEBOUNCE]);
    }
  }

  /** Any two submissions are at least two seconds apart. */
  lemma SubmitsAreSpaced(filename: string, inputs: seq<Input>, sources: seq<nat>, submits: seq<int>, m: nat, n: nat)
    requires Answers(filename, inputs, sources, submits) && m < n < |submits|
    ensures submits[n] - submits[m] >= 2000
  {
    assert Disarms(filename, inputs, sources[n]);
  }

  /** A burst, in which each change but the last is followed by another in time, and whose last change is
      followed by quiet, is answered by exactly one submission, two seconds after its last change. */
  lemma BurstSubmitsOnce(filename: string, inputs: seq<Input>, sources: seq<nat>, submits: seq<int>, lo: nat, hi: nat)
    requires Answers(filename, inputs, sources, submits) && lo <= hi < |inputs| && Quiet(filename, inputs, hi)
    requires forall p :: lo <= p < hi && Relevant(filename, inputs[p].what) ==>
      exists q :: p < q <= hi && Disarms(filename, inputs, q) && InTime(inputs, q, inputs[p].at)
    ensures exists n :: 0 <= n < |sources| && sources[n] == hi && submits[n] == inputs[hi].at + DEBOUNCE
    ensures forall n :: 0 <= n < |sources| && lo <= sources[n] <= hi ==> sources[n] == hi
  {
    assert hi in sources;
  }

  /** The submissions are determined by the inputs. */
  lemma {:induction false} AnswersAreUnique(filename: string, inputs: seq<Input>, sources: seq<nat>, submits: seq<int>,
                                            others: seq<nat>, otherSubmits: seq<int>)
    requires Answers(filename, inputs, sources, submits) && Answers(filename, inputs, others, otherSubmits)
    ensures submits == otherSubmits
  {
    IncreasingUnique(sources, others);
  }

  lemma {:induction false} IncreasingUnique(s: seq<nat>, t: seq<nat>)
    requires forall m, n :: 0 <= m < n < |s| ==> s[m] < s[n]
    requires forall m, n :: 0 <= m < n < |t| ==> t[m] < t[n]
    requires forall x :: x in s <==> x in t
    ensures s == t
  {
    assert ToSet(s) == ToSet(t);
    DistinctSize(s);
    DistinctSize(t);
    if s != [] {
      assert s[0] in t && t[0] in s;
      assert s[0] == t[0];
      forall x
        ensures x in s[1..] <==> x in t[1..]
      {
        assert x in s <==> x == s[0] || x in s[1..];
        assert x in t <==> x == t[0] || x in t[1..];
      }
      IncreasingUnique(s[1..], t[1..]);
      assert s == [s[0]] + s[1..] && t == [t[0]] + t[1..];
    }
  }

  // ---------- starting and stopping ----------

  /** `live` are the loops running and `open` the file watchers not closed; handles are numbered. */
  class Watchdog {
    var path: string
    var stop: Option<nat>
    var watcher: Option<nat>
    var nextHandle: nat
    ghost var live: set<nat>
    ghost var open: set<nat>

    /** One loop per watch: its stop channel and its watcher are the recorded ones, and nothing else is left. */
    ghost predicate Valid()
      reads this
    {
      && (stop.Some? <==> watcher.Some?) && (stop.Some? <==> path != "")
      && live == (if stop.Some? then {stop.value} else {})
      && open == (if watcher.Some? then {watcher.value} else {})
    }

    constructor ()
      ensures Valid() && live == {} && open == {}
    {
      path, stop, watcher, nextHandle, live, open := "", None, None, 0, {}, {};
    }

    /** Closes the stop channel, waits for the loop to end and closes its watcher. */
    method StopWatch()
      requires Valid()
      modifies this
      ensures Valid() && live == {} && open == {} && path == ""
    {
      var stopping, closing := stop, watcher;
      stop, watcher, path := None, None, "";
      if stopping.Some? {
        live := live - {stopping.value};
      }
      if closing.Some? {
        open := open - {closing.value};
      }
    }

    /** Replaces the watch. `created` and `added` say whether the system grants a watcher and the directory.
        A failed start leaves no watch at all, not even the previous one. */
    method StartWatch(newPath: string, created: bool, added: bool) returns (ok: bool)
      requires Valid()
      modifies this
      ensures Valid() && |live| <= 1
      ensures ok <==> newPath == "" || (created && added)
      ensures path == if ok then newPath else ""
      ensures ok && newPath != "" ==> stop.Some? && live == {stop.value}
    {
      StopWatch();
      if newPath == "" {
        return true;
      }
      if !created {
        return false;
      }
      var w := nextHandle;
      open := open + {w};
      if !added {
        open := open - {w};
        return false;
      }
      path, watcher, stop := newPath, Some(w), Some(w);
      nextHandle := nextHandle + 1;
      live := live + {w};
      return true;
    }

    method IsRunning() returns (running: bool)
      requires Valid()
      ensures running <==> live != {}
    {
      running := stop.Some?;
    }
  }
}
