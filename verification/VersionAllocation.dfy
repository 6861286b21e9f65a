/** Saving a table as its next version, by any number of writers at once, over a store that
    accepts a version only if it is not there yet. Version tracking is on and no version was
    asked for. */
module VersionAllocation {

  import opened Common

  const TEMPORARY: nat := INVALID - 10000
  const MAX_RETRIES := 3

  predicate IsInvalid(v: nat) { v == INVALID || SCRATCH < v < TEMPORARY }

  predicate IsTemporary(v: nat) { TEMPORARY <= v && v != INVALID }

  /** The version after v, in 32-bit arithmetic; INVALID when there is none. */
  function NextVersion(v: nat): nat {
    var n := if v >= INVALID then 0 else v + 1;
    if IsInvalid(n) || IsTemporary(n) then INVALID else n
  }

  /** With tracking on and no version asked for, a call never lacks a version. */
  lemma NeverWithoutVersion(store: map<nat, string>)
    requires NoneBeyond(store)
    ensures !IsInvalid(Wanted(true, INVALID, FirstTry(store.Keys))) && Wanted(true, INVALID, FirstTry(store.Keys)) <= SCRATCH
  {
    FirstTryFits(store);
  }

  /** The version after k collisions. */
  function Later(v: nat, k: nat): nat {
    if k == 0 then v else NextVersion(Later(v, k - 1))
  }

  /** The largest element, and the largest below it. */
  ghost predicate IsMax(s: set<nat>, m: nat) { m in s && forall v :: v in s ==> v <= m }

  lemma {:induction false} MaxExists(s: set<nat>)
    requires s != {}
    ensures exists m :: IsMax(s, m)
    decreases |s|
  {
    var v :| v in s;
    if s != {v} {
      MaxExists(s - {v});
      var m :| IsMax(s - {v}, m);
      assert forall u :: u in s ==> u == v || u in s - {v};
      assert IsMax(s, if m > v then m else v);
    } else {
      assert IsMax(s, v);
    }
  }

  ghost function Max(s: set<nat>): nat
    requires s != {}
    ensures IsMax(s, Max(s))
  {
    MaxExists(s);
    var m :| IsMax(s, m);
    m
  }

  /** The first version a call tries, from the versions it found. */
  ghost function FirstTry(versions: set<nat>): nat {
    if versions != {} && Max(versions) != SCRATCH then NextVersion(Max(versions))
    else if versions - {SCRATCH} != {} then NextVersion(Max(versions - {SCRATCH}))
    else 0
  }

  // ---------------------------------------------------------------------------
  // The writers and the store
  // ---------------------------------------------------------------------------

  datatype Writer =
    | Waiting(content: string)
    | Trying(content: string, version: nat, retries: nat, seen: nat, first: nat)   // seen: saves landed before its snapshot
    | Saved(content: string, version: nat)
    | GaveUp(seen: nat, first: nat, attempts: nat)
    | Failed                                            // no version left, or another error

  datatype Landed = Landed(writer: nat, version: nat)

  datatype State = State(store: map<nat, string>, log: seq<Landed>, writers: seq<Writer>)

  datatype Event =
    | Arrive(content: string)          // a new call
    | Advance(writer: nat)             // a call takes its next step
    | Break(writer: nat)               // its save raises something that is not a collision

  /** Snapshot of the versions, and the choice of the first one to try. */
  ghost function Snapshot(s: State, i: nat): State
    requires i < |s.writers| && s.writers[i].Waiting?
  {
    var v := FirstTry(s.store.Keys);
    s.(writers := s.writers[i := if IsInvalid(v) then Failed else Trying(s.writers[i].content, v, 0, |s.log|, v)])
  }

  /** One pass of the retry loop: insert if absent, else the next version, at most three times. */
  function Attempt(s: State, i: nat): State
    requires i < |s.writers| && s.writers[i].Trying?
  {
    var w := s.writers[i];
    if w.version !in s.store then
      State(s.store[w.version := w.content], s.log + [Landed(i, w.version)], s.writers[i := Saved(w.content, w.version)])
    else if w.retries + 1 > MAX_RETRIES then
      s.(writers := s.writers[i := GaveUp(w.seen, w.first, w.retries + 1)])
    else
      s.(writers := s.writers[i := w.(version := NextVersion(w.version), retries := w.retries + 1)])
  }

  ghost function Step(s: State, e: Event): State {
    match e
    case Arrive(content) => s.(writers := s.writers + [Waiting(content)])
    case Advance(i) =>
      if i >= |s.writers| then s
      else if s.writers[i].Waiting? then Snapshot(s, i)
      else if s.writers[i].Trying? then Attempt(s, i)
      else s
    case Break(i) =>
      if i < |s.writers| && s.writers[i].Trying? then s.(writers := s.writers[i := Failed]) else s
  }

  ghost function Run(s: State, history: seq<Event>): State {
    if history == [] then s else Step(Run(s, history[..|history| - 1]), history[|history| - 1])
  }

  // ---------------------------------------------------------------------------
  // Invariants
  // ---------------------------------------------------------------------------

  /** Ordinary versions are those below SCRATCH; they have no gap. */
  ghost predicate GapFree(store: map<nat, string>) {
    forall v, u :: v in store && v < SCRATCH && 0 <= u < v ==> u in store
  }

  /** Every ordinary version below the one a writer tries is taken. */
  ghost predicate TriesOk(s: State) {
    forall i :: 0 <= i < |s.writers| && s.writers[i].Trying? && s.writers[i].version < SCRATCH ==>
      forall u :: 0 <= u < s.writers[i].version ==> u in s.store
  }

  /** The log and the results: a writer has landed exactly when it is Saved, once, under its
      version and with its content. */
  ghost predicate LogOk(s: State) {
    && (forall k :: 0 <= k < |s.log| ==> LogEntryOk(s, s.log[k]))
    && (forall i :: 0 <= i < |s.writers| && s.writers[i].Saved? ==> Landed(i, s.writers[i].version) in s.log)
    && (forall k, m :: 0 <= k < m < |s.log| ==> s.log[k].version != s.log[m].version)
  }

  ghost predicate LogEntryOk(s: State, l: Landed) {
    && l.writer < |s.writers| && s.writers[l.writer].Saved? && s.writers[l.writer].version == l.version
    && l.version in s.store && s.store[l.version] == s.writers[l.writer].content
  }

  /** Version v was saved after the first `seen` saves. */
  ghost predicate LandedSince(log: seq<Landed>, seen: nat, v: nat) {
    exists k :: seen <= k < |log| && log[k].version == v
  }

  /** Whatever is stored from `first` on was saved after the snapshot. */
  ghost predicate NewSince(s: State, seen: nat, first: nat) {
    seen <= |s.log| && forall v :: first <= v < SCRATCH && v in s.store ==> LandedSince(s.log, seen, v)
  }

  ghost predicate RetriesOk(s: State) {
    forall i :: 0 <= i < |s.writers| ==> WriterOk(s, s.writers[i])
  }

  /** All versions a call tried before its k-th are taken. */
  ghost predicate Taken(first: nat, k: nat, store: map<nat, string>) {
    forall h :: 0 <= h < k ==> Later(first, h) in store
  }

  ghost predicate WriterOk(s: State, w: Writer) {
    match w
    case Trying(_, version, retries, seen, first) =>
      && retries <= MAX_RETRIES && version == Later(first, retries)
      && NewSince(s, seen, first) && Taken(first, retries, s.store)
    case GaveUp(seen, first, attempts) =>
      attempts == MAX_RETRIES + 1 && NewSince(s, seen, first) && Taken(first, MAX_RETRIES + 1, s.store)
    case _ => true
  }

  ghost predicate NoneBeyond(store: map<nat, string>) { forall v :: v in store ==> v <= SCRATCH }

  // ---------------------------------------------------------------------------
  // Every step keeps them
  // ---------------------------------------------------------------------------

  /** The first version tried leaves no gap below it, and nothing ordinary is stored from it on: it is the one
      after the largest ordinary version, or zero if there is none. */
  lemma FirstTryFits(store: map<nat, string>)
    ensures var v := FirstTry(store.Keys);
      && (GapFree(store) && v < SCRATCH ==> forall u :: 0 <= u < v ==> u in store)
      && (NoneBeyond(store) && v < SCRATCH ==> forall u :: v <= u < SCRATCH ==> u !in store)
    ensures var v := FirstTry(store.Keys);
      NoneBeyond(store) ==>
        v <= SCRATCH && (v > 0 ==> v - 1 in store) && forall u :: u in store && u < SCRATCH ==> u < v
  {
    var keys := store.Keys;
    if keys != {} && Max(keys) != SCRATCH {
      var m := Max(keys);
      assert m in store;
    } else if keys - {SCRATCH} != {} {
      var m := Max(keys - {SCRATCH});
      assert m in store;
      assert forall u :: u in store && u != SCRATCH ==> u in keys - {SCRATCH};
    } else {
      assert forall u :: u in keys ==> u == SCRATCH || u in keys - {SCRATCH};
    }
  }

  lemma StepExtends(s: State, e: Event)
    ensures Extends(s.store, Step(s, e).store)
    ensures s.log <= Step(s, e).log
  {
  }

  lemma StepKeepsGaps(s: State, e: Event)
    requires GapFree(s.store) && TriesOk(s)
    ensures GapFree(Step(s, e).store) && TriesOk(Step(s, e))
  {
    FirstTryFits(s.store);
    StepExtends(s, e);
  }

  lemma StepKeepsLog(s: State, e: Event)
    requires LogOk(s)
    ensures LogOk(Step(s, e))
  {
    var t := Step(s, e);
    StepExtends(s, e);
    forall k | 0 <= k < |t.log| ensures LogEntryOk(t, t.log[k]) {
      if k < |s.log| { assert LogEntryOk(s, s.log[k]) && t.log[k] == s.log[k]; }
    }
    forall i | 0 <= i < |t.writers| && t.writers[i].Saved? ensures Landed(i, t.writers[i].version) in t.log {
      if i < |s.writers| && s.writers[i].Saved? {
        assert Landed(i, s.writers[i].version) in s.log;
      } else {
        assert t.log[|s.log|] == Landed(i, t.writers[i].version);
      }
    }
    forall k, m | 0 <= k < m < |t.log| ensures t.log[k].version != t.log[m].version {
      if m == |s.log| { assert LogEntryOk(s, s.log[k]); }
    }
  }

  lemma StillNew(s: State, t: State, seen: nat, first: nat)
    requires NewSince(s, seen, first) && s.log <= t.log
    requires forall v :: v in t.store && v !in s.store ==> LandedSince(t.log, |s.log|, v)
    ensures NewSince(t, seen, first)
  {
    forall v | first <= v < SCRATCH && v in t.store ensures LandedSince(t.log, seen, v) {
      if v in s.store {
        var k :| seen <= k < |s.log| && s.log[k].version == v;
        assert t.log[k].version == v;
      } else {
        var k :| |s.log| <= k < |t.log| && t.log[k].version == v;
      }
    }
  }

  lemma StepLogsWhatItStores(s: State, e: Event)
    ensures forall v :: v in Step(s, e).store && v !in s.store ==> LandedSince(Step(s, e).log, |s.log|, v)
  {
    var t := Step(s, e);
    forall v | v in t.store && v !in s.store ensures LandedSince(t.log, |s.log|, v) {
      assert t.log[|s.log|].version == v;
    }
  }

  lemma WriterStaysOk(s: State, t: State, w: Writer)
    requires WriterOk(s, w) && s.log <= t.log && Extends(s.store, t.store)
    requires forall v :: v in t.store && v !in s.store ==> LandedSince(t.log, |s.log|, v)
    ensures WriterOk(t, w)
  {
    if w.Trying? || w.GaveUp? { StillNew(s, t, w.seen, w.first); }
  }

  lemma StepKeepsRetries(s: State, e: Event)
    requires NoneBeyond(s.store) && RetriesOk(s)
    ensures RetriesOk(Step(s, e))
  {
    var t := Step(s, e);
    StepExtends(s, e);
    StepLogsWhatItStores(s, e);
    forall i | 0 <= i < |t.writers| ensures WriterOk(t, t.writers[i]) {
      if i < |s.writers| {
        assert WriterOk(s, s.writers[i]);
        if e == Advance(i) && !s.writers[i].Saved? {
          OwnStep(s, i);
        } else {
          WriterStaysOk(s, t, s.writers[i]);
        }
      }
    }
  }

  /** A writer's own step. */
  lemma OwnStep(s: State, i: nat)
    requires NoneBeyond(s.store) && i < |s.writers| && WriterOk(s, s.writers[i])
    ensures WriterOk(Step(s, Advance(i)), Step(s, Advance(i)).writers[i])
  {
    FirstTryFits(s.store);
  }

  // ---------------------------------------------------------------------------
  // What every history guarantees
  // ---------------------------------------------------------------------------

  /** No call has started yet. */
  ghost predicate Fresh(s: State) { s.log == [] && s.writers == [] }

  /** For every history of any number of calls: content once stored never changes, every call
      that returned has its content under its version, returned versions are distinct, and
      ordinary versions are without gap if they started so. */
  lemma {:induction false} AllocationSafety(s: State, history: seq<Event>)
    requires Fresh(s)
    ensures var t := Run(s, history);
      && Extends(s.store, t.store) && LogOk(t)
      && (forall i :: 0 <= i < |t.writers| && t.writers[i].Saved? ==>
            t.writers[i].version in t.store && t.store[t.writers[i].version] == t.writers[i].content)
      && (forall i, k :: 0 <= i < k < |t.writers| && t.writers[i].Saved? && t.writers[k].Saved? ==>
            t.writers[i].version != t.writers[k].version)
      && (GapFree(s.store) ==> GapFree(t.store) && TriesOk(t))
  {
    if history != [] {
      var before := history[..|history| - 1];
      AllocationSafety(s, before);
      var r := Run(s, before);
      var e := history[|history| - 1];
      StepExtends(r, e);
      StepKeepsLog(r, e);
      if GapFree(s.store) { StepKeepsGaps(r, e); }
    }
    SavedAreDistinct(Run(s, history));
  }

  lemma SavedAreDistinct(t: State)
    requires LogOk(t)
    ensures forall i :: 0 <= i < |t.writers| && t.writers[i].Saved? ==>
      t.writers[i].version in t.store && t.store[t.writers[i].version] == t.writers[i].content
    ensures forall i, k :: 0 <= i < k < |t.writers| && t.writers[i].Saved? && t.writers[k].Saved? ==>
      t.writers[i].version != t.writers[k].version
  {
    forall i | 0 <= i < |t.writers| && t.writers[i].Saved?
      ensures t.writers[i].version in t.store && t.store[t.writers[i].version] == t.writers[i].content
    {
      var l := Landed(i, t.writers[i].version);
      var k :| 0 <= k < |t.log| && t.log[k] == l;
      assert LogEntryOk(t, t.log[k]);
    }
    forall i, k | 0 <= i < k < |t.writers| && t.writers[i].Saved? && t.writers[k].Saved?
      ensures t.writers[i].version != t.writers[k].version
    {
      var a :| 0 <= a < |t.log| && t.log[a] == Landed(i, t.writers[i].version);
      var b :| 0 <= b < |t.log| && t.log[b] == Landed(k, t.writers[k].version);
      assert a != b;
    }
  }

  lemma {:induction false} RetriesInvariant(s: State, history: seq<Event>)
    requires Fresh(s) && NoneBeyond(Run(s, history).store)
    ensures RetriesOk(Run(s, history))
  {
    if history != [] {
      var before := history[..|history| - 1];
      var e := history[|history| - 1];
      StepExtends(Run(s, before), e);
      RetriesInvariant(s, before);
      StepKeepsRetries(Run(s, before), e);
    }
  }

  /** What is stored was there at the start or has landed since. */
  lemma {:induction false} StoredOrLanded(s: State, history: seq<Event>, v: nat)
    requires v in Run(s, history).store && v !in s.store
    ensures LandedSince(Run(s, history).log, |s.log|, v)
    ensures s.log <= Run(s, history).log
  {
    var before, e := history[..|history| - 1], history[|history| - 1];
    var r := Run(s, before);
    LogGrows(s, before);
    StepExtends(r, e);
    if v in r.store {
      StoredOrLanded(s, before, v);
      var k :| |s.log| <= k < |r.log| && r.log[k].version == v;
      assert Step(r, e).log[k].version == v;
    } else {
      StepLogsWhatItStores(r, e);
      var k :| |r.log| <= k < |Step(r, e).log| && Step(r, e).log[k].version == v;
    }
  }

  lemma {:induction false} LogGrows(s: State, history: seq<Event>)
    ensures s.log <= Run(s, history).log
  {
    if history != [] {
      LogGrows(s, history[..|history| - 1]);
      StepExtends(Run(s, history[..|history| - 1]), history[|history| - 1]);
    }
  }

  /** Versions that are all taken, none beyond SCRATCH, are consecutive. */
  lemma {:induction false} Consecutive(first: nat, k: nat, store: map<nat, string>)
    requires Taken(first, k, store) && NoneBeyond(store) && k > 0
    ensures Later(first, k - 1) == first + k - 1 <= SCRATCH
  {
    assert Later(first, k - 1) in store;
    if k > 1 { Consecutive(first, k - 1, store); }
  }

  /** Version v was saved before the snapshot. */
  ghost predicate ThereBefore(s: State, log: seq<Landed>, seen: nat, v: nat) {
    v in s.store || exists k :: 0 <= k < seen && k < |log| && log[k].version == v
  }

  /** A call makes at most four tries. It gives up only when the four consecutive versions it tried are
      taken by others, each landed since its snapshot, except that the last may be a scratch version
      that was there before. */
  lemma GivingUpIsDeserved(s: State, history: seq<Event>, i: nat)
    requires Fresh(s) && NoneBeyond(Run(s, history).store)
    requires i < |Run(s, history).writers|
    ensures var t := Run(s, history); var w := t.writers[i];
      && (w.Trying? ==> w.retries + 1 <= 4)
      && (w.GaveUp? ==>
            && w.attempts == 4 && w.first + 3 <= SCRATCH
            && (forall k :: 0 <= k < |t.log| ==> t.log[k].writer != i)
            && (forall v :: w.first <= v <= w.first + 3 ==>
                  LandedSince(t.log, w.seen, v) || (v == w.first + 3 == SCRATCH && ThereBefore(s, t.log, w.seen, v))))
  {
    RetriesInvariant(s, history);
    var t := Run(s, history);
    var w := t.writers[i];
    assert WriterOk(t, w);
    LogAlwaysOk(s, history);
    assert forall k :: 0 <= k < |t.log| ==> LogEntryOk(t, t.log[k]);
    if w.GaveUp? {
      GaveUpVersions(t.store, w.first);
      forall v | w.first <= v <= w.first + 3
        ensures LandedSince(t.log, w.seen, v) || (v == w.first + 3 == SCRATCH && ThereBefore(s, t.log, w.seen, v))
      {
        if v == SCRATCH && v !in s.store {
          StoredOrLanded(s, history, v);
          var k :| 0 <= k < |t.log| && t.log[k].version == v;
        }
      }
    }
  }

  /** What landed was not there at the start. */
  lemma {:induction false} LandedIsNew(s: State, history: seq<Event>, k: nat)
    requires Fresh(s) && k < |Run(s, history).log|
    ensures Run(s, history).log[k].version !in s.store
  {
    var before, e := history[..|history| - 1], history[|history| - 1];
    var r := Run(s, before);
    StepExtends(r, e);
    if k < |r.log| {
      LandedIsNew(s, before, k);
    } else {
      StoreGrows(s, before);
    }
  }

  lemma {:induction false} StoreGrows(s: State, history: seq<Event>)
    ensures Extends(s.store, Run(s, history).store)
  {
    if history != [] {
      StoreGrows(s, history[..|history| - 1]);
      StepExtends(Run(s, history[..|history| - 1]), history[|history| - 1]);
    }
  }

  /** For a call that gave up: all four versions it tried landed since its snapshot if and only if the last
      of them is not a scratch version that was there before. */
  lemma FourLandedExactly(s: State, history: seq<Event>, i: nat)
    requires Fresh(s) && NoneBeyond(Run(s, history).store)
    requires i < |Run(s, history).writers| && Run(s, history).writers[i].GaveUp?
    ensures var t := Run(s, history); var w := t.writers[i];
      (forall v :: w.first <= v <= w.first + 3 ==> LandedSince(t.log, w.seen, v)) <==>
      !(w.first + 3 == SCRATCH && ThereBefore(s, t.log, w.seen, SCRATCH))
  {
    var t := Run(s, history);
    var w := t.writers[i];
    GivingUpIsDeserved(s, history, i);
    if w.first + 3 == SCRATCH && ThereBefore(s, t.log, w.seen, SCRATCH) {
      NotLandedAgain(s, history, w.seen, SCRATCH);
    }
  }

  /** A version that was there before the snapshot does not land after it. */
  lemma NotLandedAgain(s: State, history: seq<Event>, seen: nat, v: nat)
    requires Fresh(s) && ThereBefore(s, Run(s, history).log, seen, v)
    ensures !LandedSince(Run(s, history).log, seen, v)
  {
    LogAlwaysOk(s, history);
    var log := Run(s, history).log;
    forall k | seen <= k < |log| ensures log[k].version != v { LandedIsNew(s, history, k); }
  }

  lemma GaveUpVersions(store: map<nat, string>, first: nat)
    requires Taken(first, 4, store) && NoneBeyond(store)
    ensures first + 3 <= SCRATCH && forall v :: first <= v <= first + 3 ==> v in store
  {
    forall v | first <= v <= first + 3 ensures v in store {
      assert Taken(first, v - first + 1, store);
      Consecutive(first, v - first + 1, store);
    }
    Consecutive(first, 4, store);
  }

  lemma {:induction false} LogAlwaysOk(s: State, history: seq<Event>)
    requires Fresh(s)
    ensures LogOk(Run(s, history))
  {
    if history != [] {
      LogAlwaysOk(s, history[..|history| - 1]);
      StepKeepsLog(Run(s, history[..|history| - 1]), history[|history| - 1]);
    }
  }

  // ---------------------------------------------------------------------------
  // The exception is real: next to a stored scratch version, three saves are enough
  // ---------------------------------------------------------------------------

  /** The largest ordinary version is m. */
  ghost predicate TopIs(store: map<nat, string>, m: nat) {
    m < SCRATCH && m in store && SCRATCH in store && forall v :: v in store ==> v <= m || v == SCRATCH
  }

  lemma FirstTryAbove(store: map<nat, string>, m: nat)
    requires TopIs(store, m)
    ensures FirstTry(store.Keys) == m + 1
  {
    assert SCRATCH in store.Keys && m in store.Keys - {SCRATCH};
    assert Max(store.Keys) == SCRATCH;
    assert Max(store.Keys - {SCRATCH}) == m;
  }

  /** A call that arrives, takes its snapshot and saves, with nobody in between. */
  ghost function Undisturbed(s: State): State {
    Alone(s, "")
  }

  ghost function Alone(s: State, content: string): State {
    Step(Step(Step(s, Arrive(content)), Advance(|s.writers|)), Advance(|s.writers|))
  }

  /** Such a call saves its content under the version after the largest ordinary one, unless that is a
      stored scratch version; it is never refused. */
  lemma AloneSaves(s: State, content: string)
    requires NoneBeyond(s.store)
    ensures var v := FirstTry(s.store.Keys); var t := Alone(s, content);
      if v in s.store then v == SCRATCH && t.store == s.store && t.writers[|s.writers|].Trying?
      else t == State(s.store[v := content], s.log + [Landed(|s.writers|, v)], s.writers + [Saved(content, v)])
  {
    FirstTryFits(s.store);
    var n, v := |s.writers|, FirstTry(s.store.Keys);
    var a := Step(s, Arrive(content));
    var b := Step(a, Advance(n));
    assert b.writers == s.writers + [Trying(content, v, 0, |s.log|, v)];
    if v !in s.store { assert s.writers + [Saved(content, v)] == b.writers[n := Saved(content, v)]; }
  }

  lemma UndisturbedSaves(s: State, m: nat)
    requires TopIs(s.store, m) && m + 1 < SCRATCH
    ensures var t := Undisturbed(s);
      && TopIs(t.store, m + 1) && t.log == s.log + [Landed(|s.writers|, m + 1)]
      && t.writers == s.writers + [Saved("", m + 1)] && t.store == s.store[m + 1 := ""]
  {
    FirstTryAbove(s.store, m);
    var n := |s.writers|;
    var a := Step(s, Arrive(""));
    var b := Step(a, Advance(n));
    assert b.writers == s.writers + [Trying("", m + 1, 0, |s.log|, m + 1)];
  }

  /** The steps of a call all of whose versions are taken. */
  lemma FourCollisions(s: State, i: nat, first: nat, seen: nat)
    requires i < |s.writers| && s.writers[i] == Trying("", first, 0, seen, first)
    requires Taken(first, 4, s.store)
    ensures var t := Step(Step(Step(Step(s, Advance(i)), Advance(i)), Advance(i)), Advance(i));
      t.store == s.store && t.log == s.log && t.writers == s.writers[i := GaveUp(seen, first, 4)]
  {
    var a := Step(s, Advance(i));
    assert Later(first, 0) in s.store && Later(first, 1) in s.store && Later(first, 2) in s.store && Later(first, 3) in s.store;
    assert Later(first, 1) == NextVersion(first);
    assert a.writers[i] == Trying("", Later(first, 1), 1, seen, first);
    var b := Step(a, Advance(i));
    assert b.writers[i] == Trying("", Later(first, 2), 2, seen, first);
    var c := Step(b, Advance(i));
    assert c.writers[i] == Trying("", Later(first, 3), 3, seen, first);
  }

  /** With a scratch version stored and three versions left below it, a call gives up after three saves by
      others. */
  lemma ThreeAreEnough(store: map<nat, string>) returns (saved: State)
    requires TopIs(store, SCRATCH - 4)
    ensures saved == Undisturbed(Undisturbed(Undisturbed(Begun(store)))) && |saved.log| == 3
    ensures |FourSteps(saved).writers| > 0 && FourSteps(saved).writers[0] == GaveUp(0, SCRATCH - 3, 4)
    ensures FourSteps(saved).log == saved.log && !LandedSince(saved.log, 0, SCRATCH)
  {
    BegunWith(store);
    saved := ThreeSaves(Begun(store));
    AllTaken(saved.store);
    FourCollisions(saved, 0, SCRATCH - 3, 0);
  }

  lemma BegunWith(store: map<nat, string>)
    requires TopIs(store, SCRATCH - 4)
    ensures Begun(store) == State(store, [], [Trying("", SCRATCH - 3, 0, 0, SCRATCH - 3)])
  {
    FirstTryAbove(store, SCRATCH - 4);
  }

  lemma ThreeSaves(s: State) returns (c: State)
    requires TopIs(s.store, SCRATCH - 4) && s.log == [] && |s.writers| == 1
    ensures c == Undisturbed(Undisturbed(Undisturbed(s))) && |c.log| == 3 && |c.writers| > 0 && c.writers[0] == s.writers[0]
    ensures SCRATCH - 3 in c.store && SCRATCH - 2 in c.store && SCRATCH - 1 in c.store && SCRATCH in c.store
    ensures !LandedSince(c.log, 0, SCRATCH)
  {
    UndisturbedSaves(s, SCRATCH - 4);
    var a := Undisturbed(s);
    UndisturbedSaves(a, SCRATCH - 3);
    var b := Undisturbed(a);
    UndisturbedSaves(b, SCRATCH - 2);
    c := Undisturbed(b);
  }

  /** One call has arrived and taken its snapshot. */
  ghost function Begun(store: map<nat, string>): State {
    Step(Step(State(store, [], []), Arrive("")), Advance(0))
  }

  ghost function FourSteps(s: State): State {
    Step(Step(Step(Step(s, Advance(0)), Advance(0)), Advance(0)), Advance(0))
  }

  lemma AllTaken(store: map<nat, string>)
    requires SCRATCH - 3 in store && SCRATCH - 2 in store && SCRATCH - 1 in store && SCRATCH in store
    ensures Taken(SCRATCH - 3, 4, store)
  {
    assert Later(SCRATCH - 3, 0) == SCRATCH - 3;
    assert Later(SCRATCH - 3, 1) == SCRATCH - 2;
    assert Later(SCRATCH - 3, 2) == SCRATCH - 1;
    assert Later(SCRATCH - 3, 3) == SCRATCH;
  }

  // ---------------------------------------------------------------------------
  // One call, with all its branches
  // ---------------------------------------------------------------------------

  datatype Result =
    | Version(version: nat)
    | NotTemporary          // the version to save is not a stored temporary one
    | AlreadyExists         // the requested version is taken
    | NoVersionLeft
    | Collisions            // four tries collided

  /** The version a call tries first. */
  function Wanted(tracking: bool, requested: nat, found: nat): nat {
    if !tracking then SCRATCH else if requested == INVALID then found else requested
  }

  /** What is stored and was not before comes from other writers, by the time of one of the first n tries. */
  ghost predicate ByOthers(others: seq<map<nat, string>>, n: nat, before: map<nat, string>, store: map<nat, string>)
    requires n <= |others|
  {
    forall v :: v in store && v !in before ==> SavedByOthers(others, n, v)
  }

  ghost predicate SavedByOthers(others: seq<map<nat, string>>, n: nat, v: nat)
    requires n <= |others|
  {
    exists k :: 0 <= k < n && v in others[k]
  }

  /** After n tries that collided. */
  ghost predicate AllCollided(others: seq<map<nat, string>>, n: nat, first: nat, before: map<nat, string>, store: map<nat, string>) {
    n <= |others| && Extends(before, store) && Taken(first, n, store) && ByOthers(others, n, before, store)
  }

  /** After n tries of which the last one landed, or none did. */
  ghost predicate Tried(others: seq<map<nat, string>>, n: nat, first: nat, before: map<nat, string>, store: map<nat, string>,
                        content: string, overwrite: bool, r: Result) {
    && 1 <= n <= |others|
    && (r.Version? || (r.Collisions? && n == 4 && !overwrite && Taken(first, 4, store)))
    && (r.Version? ==>
          r.version == Later(first, n - 1) && Taken(first, n - 1, store) && r.version in store && store[r.version] == content)
    && (overwrite ==> n == 1 && Extends(before - {first}, store))
    && (!overwrite ==> Extends(before, store) && (r.Version? ==> r.version !in before))
    && ByOthers(others, n, before, if r.Version? then store - {r.version} else store)
  }

  lemma OthersSave(others: seq<map<nat, string>>, n: nat, first: nat, before: map<nat, string>, store: map<nat, string>)
    requires n < |others| && AllCollided(others, n, first, before, store)
    ensures ByOthers(others, n + 1, before, others[n] + store) && Extends(before, others[n] + store)
    ensures Taken(first, n, others[n] + store)
    ensures Later(first, n) in others[n] + store ==> AllCollided(others, n + 1, first, before, others[n] + store)
  {
    forall v | v in others[n] + store && v !in before ensures SavedByOthers(others, n + 1, v) {
      if v !in store {
        assert v in others[n];
      } else {
        assert SavedByOthers(others, n, v);
      }
    }
  }

  lemma Landing(others: seq<map<nat, string>>, n: nat, first: nat, before: map<nat, string>, store: map<nat, string>,
                content: string, overwrite: bool)
    requires n < |others| && ByOthers(others, n + 1, before, store) && Extends(before, store) && Taken(first, n, store)
    requires if overwrite then n == 0 else Later(first, n) !in store
    ensures Tried(others, n + 1, first, before, store[Later(first, n) := content], content, overwrite, Version(Later(first, n)))
  {
  }

  datatype Outcome = Outcome(result: Result, store: map<nat, string>, attempts: nat)

  /** The tries from the k-th on. */
  function Tries(store: map<nat, string>, others: seq<map<nat, string>>, version: nat, k: nat, content: string): Outcome
    requires |others| == 4 && k < 4
    decreases 4 - k
  {
    var s := others[k] + store;
    if version !in s then Outcome(Version(version), s[version := content], k + 1)
    else if k + 1 > MAX_RETRIES then Outcome(Collisions, s, k + 1)
    else Tries(s, others, NextVersion(version), k + 1, content)
  }

  lemma {:induction false} TriesEnd(store: map<nat, string>, others: seq<map<nat, string>>, first: nat, k: nat, content: string,
                                    before: map<nat, string>)
    requires |others| == 4 && k < 4 && AllCollided(others, k, first, before, store)
    ensures var o := Tries(store, others, Later(first, k), k, content);
      Tried(others, o.attempts, first, before, o.store, content, false, o.result)
    decreases 4 - k
  {
    OthersSave(others, k, first, before, store);
    var s := others[k] + store;
    if Later(first, k) !in s {
      Landing(others, k, first, before, s, content, false);
    } else if k < 3 {
      TriesEnd(s, others, first, k + 1, content, before);
    }
  }

  function Attempted(store: map<nat, string>, others: seq<map<nat, string>>, first: nat, overwrite: bool, content: string): Outcome
    requires |others| == 4
  {
    if overwrite then Outcome(Version(first), (others[0] + store)[first := content], 1)
    else Tries(store, others, first, 0, content)
  }

  /** What the retry loop comes to, for all interference by other writers. */
  lemma AttemptedEnd(store: map<nat, string>, others: seq<map<nat, string>>, first: nat, overwrite: bool, content: string)
    requires |others| == 4
    ensures var o := Attempted(store, others, first, overwrite, content);
      Tried(others, o.attempts, first, store, o.store, content, overwrite, o.result)
  {
    assert AllCollided(others, 0, first, store, store);
    if overwrite {
      OthersSave(others, 0, first, store, store);
      Landing(others, 0, first, store, others[0] + store, content, true);
    } else {
      TriesEnd(store, others, first, 0, content, store);
    }
  }

  /** How a call that got to try ends: with its content at a new version, the k-th after k collisions, or with
      four versions taken; nothing stored before changes but a scratch version with tracking off, and
      whatever else is new comes from others. */
  ghost predicate Ends(before: map<nat, string>, others: seq<map<nat, string>>, tracking: bool, wanted: nat, content: string, o: Outcome) {
    && 1 <= o.attempts <= 4 <= |others| && (o.result.Version? || o.result.Collisions?)
    && (o.result.Version? ==>
          && o.result.version == Later(wanted, o.attempts - 1) && Taken(wanted, o.attempts - 1, o.store)
          && o.result.version in o.store && o.store[o.result.version] == content
          && (tracking ==> o.result.version !in before)
          && (!tracking && SCRATCH in before ==> o.result.version == SCRATCH && o.attempts == 1))
    && (o.result.Collisions? ==> o.attempts == 4 && Taken(wanted, 4, o.store))
    && (tracking || SCRATCH !in before ==> Extends(before, o.store))
    && Extends(before - {SCRATCH}, o.store)
    && ByOthers(others, o.attempts, before, if o.result.Version? then o.store - {o.result.version} else o.store)
  }

  lemma Concluded(before: map<nat, string>, others: seq<map<nat, string>>, tracking: bool, wanted: nat, overwrite: bool, content: string)
    requires |others| == 4 && (overwrite <==> !tracking && SCRATCH in before) && (!tracking ==> wanted == SCRATCH)
    ensures Ends(before, others, tracking, wanted, content, Attempted(before, others, wanted, overwrite, content))
  {
    AttemptedEnd(before, others, wanted, overwrite, content);
  }

  class VersionStore {
    var store: map<nat, string>
    var attempts: nat

    constructor (store: map<nat, string>)
      ensures this.store == store
    {
      this.store, attempts := store, 0;
    }

    /** The retry loop: collide, move on to the next version, and give up after the fourth collision.
        `others[k]` are the versions that other writers have saved by the time of the k-th try. */
    method TrySave(content: string, first: nat, overwrite: bool, others: seq<map<nat, string>>) returns (r: Result)
      requires |others| == 4
      modifies this
      ensures Outcome(r, store, attempts) == Attempted(old(store), others, first, overwrite, content)
    {
      attempts := 0;
      var version := first;
      var retries := if overwrite then 4 else 0;
      while true
        invariant if overwrite then retries == 4 && attempts == 0 && version == first && store == old(store)
                  else retries == attempts <= MAX_RETRIES
        invariant !overwrite ==> Tries(store, others, version, attempts, content) == Tries(old(store), others, first, 0, content)
        decreases 5 - retries
      {
        store := others[attempts] + store;
        attempts := attempts + 1;
        if overwrite || version !in store {
          store := store[version := content];
          return Version(version);
        }
        retries := retries + 1;
        if retries > MAX_RETRIES { return Collisions; }
        version := NextVersion(version);
      }
    }

    /** The call as the program makes it; `found` is the first free version it computes. */
    method SaveNewVersion(content: string, isTemporary: bool, tracking: bool, requested: nat, found: nat,
                          others: seq<map<nat, string>>) returns (r: Result)
      requires found == FirstTry(store.Keys) && |others| == 4
      modifies this
      ensures !isTemporary <==> r.NotTemporary?
      ensures r.AlreadyExists? <==> isTemporary && tracking && requested != INVALID && requested in old(store)
      ensures r.NoVersionLeft? <==> isTemporary && !r.AlreadyExists? && IsInvalid(Wanted(tracking, requested, found))
      ensures if r.NotTemporary? || r.AlreadyExists? || r.NoVersionLeft? then store == old(store) && attempts == 0
        else Ends(old(store), others, tracking, Wanted(tracking, requested, found), content, Outcome(r, store, attempts))
    {
      attempts := 0;
      var refused, version, overwrite := Choose(isTemporary, tracking, requested, found);
      if refused.Some? { return refused.value; }
      Concluded(store, others, tracking, version, overwrite, content);
      r := TrySave(content, version, overwrite, others);
    }

    /** What is checked before the first try: why there is none, or the version and whether it may be overwritten. */
    method Choose(isTemporary: bool, tracking: bool, requested: nat, found: nat)
      returns (refused: Option<Result>, version: nat, overwrite: bool)
      ensures refused == Some(NotTemporary) <==> !isTemporary
      ensures refused == Some(AlreadyExists) <==> isTemporary && tracking && requested != INVALID && requested in store
      ensures refused == Some(NoVersionLeft) <==>
        isTemporary && refused != Some(AlreadyExists) && IsInvalid(Wanted(tracking, requested, found))
      ensures refused.Some? ==> refused.value in {NotTemporary, AlreadyExists, NoVersionLeft}
      ensures refused.None? ==> version == Wanted(tracking, requested, found)
      ensures refused.None? ==> version == if !tracking then 0x7FFF_FFFF else if requested == 0xFFFF_FFFF then found else requested
      ensures refused.None? && tracking && requested != INVALID ==> version !in store
      ensures refused.None? ==> (overwrite <==> !tracking && SCRATCH in store)
    {
      version, overwrite := 0, false;
      if !isTemporary { return Some(NotTemporary), 0, false; }
      version := if tracking then requested else SCRATCH;
      var rewriteable := false;
      if version == INVALID {
        version := found;
      } else if version in store {
        rewriteable := version == SCRATCH;
        if !rewriteable || tracking { return Some(AlreadyExists), version, false; }
      }
      if IsInvalid(version) { return Some(NoVersionLeft), version, false; }
      return None, version, !tracking && rewriteable;
    }
  }
}
