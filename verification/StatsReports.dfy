/** What the reports say, in terms of the events alone: when a request was made, when it was
    finished, and which report the two fall into. */
module StatsReports {
  import opened Options
  import opened StatsMonitor

  // ----- reading times off the events -----

  /** Event p, one of the first n, is the request that got this id: the ids of a kind are
      handed out in order. */
  ghost predicate Requested(events: seq<Event>, n: nat, k: Kind, p: int, id: nat) {
    && 0 <= p < n <= |events| && events[p].Request? && events[p].kind == k
    && Tally(events[..p], Requests(k)) == id
  }

  predicate FinishOf(e: Event, k: Kind, id: nat) {
    e.Finish? && e.kind == k && e.id == id
  }

  /** No finish of the id between p and n. */
  predicate Unfinished(events: seq<Event>, p: int, n: int, k: Kind, id: nat)
    requires 0 <= n <= |events|
  {
    forall q :: 0 <= p < q < n ==> !FinishOf(events[q], k, id)
  }

  /** Event q is the first finish after the request at p. */
  predicate FirstFinish(events: seq<Event>, n: nat, k: Kind, p: int, id: nat, q: int) {
    0 <= p < q < n <= |events| && FinishOf(events[q], k, id) && Unfinished(events, p, q, k, id)
  }

  predicate LastFinish(events: seq<Event>, n: nat, k: Kind, p: int, id: nat, q: int) {
    0 <= p < q < n <= |events| && FinishOf(events[q], k, id) && Unfinished(events, q, n, k, id)
  }

  /** No report between q and n. */
  predicate Unreported(events: seq<Event>, q: int, n: int)
    requires 0 <= n <= |events|
  {
    forall g :: 0 <= q < g < n ==> !events[g].GetStats?
  }

  /** The finish whose time counts: the first one, of a transfer the last one. */
  predicate CountedFinish(events: seq<Event>, n: nat, k: Kind, p: int, id: nat, q: int) {
    if k.P2P? then LastFinish(events, n, k, p, id, q) else FirstFinish(events, n, k, p, id, q)
  }

  // ----- the dictionaries hold these times -----

  /** The entry of the request made at p, after n events: still open, finished and not yet
      reported, or gone with the report that followed its first finish. */
  ghost predicate EntryRight(events: seq<Event>, n: nat, k: Kind, p: int, id: nat, live: map<nat, Record>)
    requires 0 <= p < n <= |events| && events[p].Request?
  {
    && (Unfinished(events, p, n, k, id) ==>
          && id in live && live[id].start == events[p].now && live[id].end == 0.0)
    && (forall f, q :: FirstFinish(events, n, k, p, id, f) && Unreported(events, f, n)
                       && CountedFinish(events, n, k, p, id, q) ==>
          && id in live && live[id].start == events[p].now && live[id].end == events[q].now)
    && (forall f :: FirstFinish(events, n, k, p, id, f) && !Unreported(events, f, n) ==> id !in live)
    && (k.P2P? && id in live ==> live[id].numTokens == events[p].tokens)
  }

  ghost predicate TableRight(events: seq<Event>, n: nat, k: Kind, t: Table)
    requires n <= |events|
  {
    && t.next == Tally(events[..n], Requests(k))
    && (forall id :: id in t.live ==> id < t.next)
    && (forall p, id :: Requested(events, n, k, p, id) ==> EntryRight(events, n, k, p, id, t.live))
  }

  lemma {:induction false} FindFirst(events: seq<Event>, n: nat, k: Kind, p: int, id: nat) returns (f: int)
    requires 0 <= p < n <= |events| && !Unfinished(events, p, n, k, id)
    ensures FirstFinish(events, n, k, p, id, f)
    decreases n
  {
    if Unfinished(events, p, n - 1, k, id) { f := n - 1; } else { f := FindFirst(events, n - 1, k, p, id); }
  }

  lemma {:induction false} FindLast(events: seq<Event>, n: nat, k: Kind, p: int, id: nat) returns (q: int)
    requires 0 <= p < n <= |events| && !Unfinished(events, p, n, k, id)
    ensures LastFinish(events, n, k, p, id, q)
    decreases n
  {
    if FinishOf(events[n - 1], k, id) && p < n - 1 { q := n - 1; } else { q := FindLast(events, n - 1, k, p, id); }
  }

  lemma {:induction false} TallyGrows(events: seq<Event>, m: nat, n: nat, what: Measure)
    requires m <= n <= |events| && what.Requests?
    ensures 0 <= Tally(events[..m], what) <= Tally(events[..n], what)
    decreases n
  {
    if m < n {
      TallyGrows(events, m, n - 1, what);
      assert events[..n][..n - 1] == events[..n - 1];
    } else if n > 0 {
      TallyGrows(events, 0, n - 1, what);
      assert events[..n][..n - 1] == events[..n - 1];
    }
  }

  lemma TallyNext(events: seq<Event>, n: nat, what: Measure)
    requires n < |events|
    ensures Tally(events[..n + 1], what) == Tally(events[..n], what) + Worth(what, events[n])
  {
    assert events[..n + 1][..n] == events[..n];
  }

  /** An id belongs to one request, made when as many of its kind had been. */
  lemma IdsInUse(events: seq<Event>, n: nat, k: Kind, p: int, id: nat)
    requires Requested(events, n, k, p, id)
    ensures id < Tally(events[..n], Requests(k))
  {
    TallyNext(events, p, Requests(k));
    TallyGrows(events, p + 1, n, Requests(k));
  }

  lemma {:induction false} FindRequest(events: seq<Event>, n: nat, k: Kind, id: nat) returns (p: int)
    requires n <= |events| && id < Tally(events[..n], Requests(k))
    ensures Requested(events, n, k, p, id)
    decreases n
  {
    TallyNext(events, n - 1, Requests(k));
    if id < Tally(events[..n - 1], Requests(k)) {
      p := FindRequest(events, n - 1, k, id);
    } else {
      p := n - 1;
    }
  }

  // ----- the clock -----

  lemma {:induction false} ClockedPrefix(events: seq<Event>, n: nat, k: Kind)
    requires n <= |events| && Clocked(k, events)
    ensures Clocked(k, events[..n])
    decreases |events|
  {
    if n < |events| {
      var front := events[..|events| - 1];
      ClockedPrefix(front, n, k);
      assert front[..n] == events[..n];
    } else {
      assert events[..n] == events;
    }
  }

  lemma {:induction false} ClockedAt(events: seq<Event>, n: nat, k: Kind, m: int)
    requires n <= |events| && Clocked(k, events[..n]) && 0 <= m < n && Timed(events[m], k)
    ensures 0.0 < events[m].now <= LastTime(k, events[..n])
    decreases n
  {
    var front := events[..n];
    assert front[..n - 1] == events[..n - 1] && front[n - 1] == events[n - 1];
    NeverNegative(events[..n - 1], k);
    if m < n - 1 { ClockedAt(events, n - 1, k, m); }
  }

  lemma {:induction false} NeverNegative(events: seq<Event>, k: Kind)
    requires Clocked(k, events)
    ensures LastTime(k, events) >= 0.0
    decreases |events|
  {
    if events != [] { NeverNegative(events[..|events| - 1], k); }
  }

  lemma ClockAscends(events: seq<Event>, n: nat, k: Kind, m: int, l: int)
    requires n <= |events| && Clocked(k, events[..n]) && 0 <= m < l < n && Timed(events[m], k) && Timed(events[l], k)
    ensures events[m].now < events[l].now
  {
    ClockedPrefix(events[..n], l + 1, k);
    assert events[..n][..l + 1] == events[..l + 1];
    assert events[..l + 1][..l] == events[..l];
    ClockedAt(events, l, k, m);
  }

  // ----- one event -----

  lemma NewEntry(events: seq<Event>, n: nat, k: Kind, t: Table)
    requires n < |events| && events[n].Request? && events[n].kind == k
    ensures EntryRight(events, n + 1, k, n, t.next, TableStep(k, t, events[n]).live)
  {
  }

  lemma OneFirst(events: seq<Event>, m: nat, n: nat, k: Kind, p: int, id: nat, f: int, x: int)
    requires FirstFinish(events, m, k, p, id, f) && FirstFinish(events, n, k, p, id, x)
    ensures x == f
  {
  }

  lemma OneLast(events: seq<Event>, n: nat, k: Kind, p: int, id: nat, f: int, x: int)
    requires LastFinish(events, n, k, p, id, f) && LastFinish(events, n, k, p, id, x)
    ensures x == f
  {
  }

  lemma SameFinishes(events: seq<Event>, n: nat, k: Kind, p: int, id: nat, x: int)
    requires n < |events| && !FinishOf(events[n], k, id)
    ensures FirstFinish(events, n + 1, k, p, id, x) <==> FirstFinish(events, n, k, p, id, x)
    ensures LastFinish(events, n + 1, k, p, id, x) <==> LastFinish(events, n, k, p, id, x)
  {
  }

  lemma SameSpans(events: seq<Event>, n: nat, k: Kind, p: int, id: nat)
    requires n < |events|
    ensures !FinishOf(events[n], k, id) ==> (Unfinished(events, p, n + 1, k, id) <==> Unfinished(events, p, n, k, id))
    ensures !events[n].GetStats? ==> (Unreported(events, p, n + 1) <==> Unreported(events, p, n))
    ensures events[n].GetStats? && 0 <= p < n ==> !Unreported(events, p, n + 1)
    ensures Unreported(events, n, n + 1)
  {
  }

  lemma ReportStep(events: seq<Event>, n: nat, k: Kind, t: Table, p: int, id: nat)
    requires n < |events| && events[n].GetStats? && Clocked(k, events[..n]) && Sound(t, k, LastTime(k, events[..n]))
    requires 0 <= p < n && events[p].Request? && EntryRight(events, n, k, p, id, t.live)
    ensures EntryRight(events, n + 1, k, p, id, Kept(k, t).live)
  {
    hide Done, Clocked;
    var m := n + 1;
    if Unfinished(events, p, n, k, id) {
      assert SoundRecord(t.live[id], k, LastTime(k, events[..n]));
      assert Unfinished(events, p, m, k, id);
    } else {
      var f := FindFirst(events, n, k, p, id);
      var q := FindLast(events, n, k, p, id);
      assert CountedFinish(events, n, k, p, id, if k.P2P? then q else f);
      ClockedAt(events, n, k, if k.P2P? then q else f);
      assert id in t.live ==> SoundRecord(t.live[id], k, LastTime(k, events[..n]));
      forall x | FirstFinish(events, m, k, p, id, x) ensures x == f && !Unreported(events, x, m) {
        OneFirst(events, n, m, k, p, id, f, x);
      }
    }
  }

  lemma FinishStep(events: seq<Event>, n: nat, k: Kind, t: Table, p: int, id: nat)
    requires n < |events| && FinishOf(events[n], k, id) && Clocked(k, events[..n])
    requires 0 <= p < n && events[p].Request? && EntryRight(events, n, k, p, id, t.live)
    ensures EntryRight(events, n + 1, k, p, id, TableStep(k, t, events[n]).live)
  {
    hide Clocked, Unreported;
    var m := n + 1;
    SameSpans(events, n, k, p, id);
    assert LastFinish(events, m, k, p, id, n);
    forall x | LastFinish(events, m, k, p, id, x) ensures x == n {
      OneLast(events, m, k, p, id, n, x);
    }
    if Unfinished(events, p, n, k, id) {
      assert FirstFinish(events, m, k, p, id, n);
      forall x | FirstFinish(events, m, k, p, id, x) ensures x == n && Unreported(events, x, m) {
        OneFirst(events, m, m, k, p, id, n, x);
      }
    } else {
      var f := FindFirst(events, n, k, p, id);
      var q := FindLast(events, n, k, p, id);
      assert CountedFinish(events, n, k, p, id, if k.P2P? then q else f);
      ClockedAt(events, n, k, if k.P2P? then q else f);
      forall x | FirstFinish(events, m, k, p, id, x)
        ensures x == f && (Unreported(events, x, m) <==> Unreported(events, x, n))
      {
        OneFirst(events, n, m, k, p, id, f, x);
        SameSpans(events, n, k, x, id);
      }
    }
  }

  /** Nothing else touches the entry. */
  lemma OtherStep(events: seq<Event>, n: nat, k: Kind, p: int, id: nat, live: map<nat, Record>, next: map<nat, Record>)
    requires n < |events| && !events[n].GetStats? && !FinishOf(events[n], k, id)
    requires 0 <= p < n && events[p].Request? && EntryRight(events, n, k, p, id, live)
    requires (id in next <==> id in live) && (id in live ==> next[id] == live[id])
    ensures EntryRight(events, n + 1, k, p, id, next)
  {
    hide Unfinished, Unreported;
    var m := n + 1;
    SameSpans(events, n, k, p, id);
    forall x | FirstFinish(events, m, k, p, id, x)
      ensures FirstFinish(events, n, k, p, id, x) && (Unreported(events, x, m) <==> Unreported(events, x, n))
    {
      SameFinishes(events, n, k, p, id, x);
      SameSpans(events, n, k, x, id);
    }
    forall x | LastFinish(events, m, k, p, id, x) ensures LastFinish(events, n, k, p, id, x) {
      SameFinishes(events, n, k, p, id, x);
    }
  }

  lemma TableStepRight(events: seq<Event>, n: nat, k: Kind, t: Table)
    requires n < |events| && TableRight(events, n, k, t)
    requires Clocked(k, events[..n]) && Sound(t, k, LastTime(k, events[..n]))
    ensures TableRight(events, n + 1, k, TableStep(k, t, events[n]))
  {
    hide Clocked, Sound, EntryRight, Finished, Done, Tally;
    var m, e := n + 1, events[n];
    var t' := TableStep(k, t, e);
    TallyNext(events, n, Requests(k));
    forall p, id | Requested(events, m, k, p, id) ensures EntryRight(events, m, k, p, id, t'.live) {
      if p == n {
        NewEntry(events, n, k, t);
      } else {
        assert Requested(events, n, k, p, id);
        IdsInUse(events, n, k, p, id);
        if e.GetStats? {
          ReportStep(events, n, k, t, p, id);
        } else if FinishOf(e, k, id) {
          FinishStep(events, n, k, t, p, id);
        } else {
          OtherStep(events, n, k, p, id, t.live, t'.live);
        }
      }
    }
  }

  /** Along every run the dictionary of each kind is right. */
  lemma {:induction false} LedgerRight(events: seq<Event>, n: nat, k: Kind)
    requires n <= |events| && Clocked(k, events[..n])
    ensures TableRight(events, n, k, LedgerOf(k, events[..n]).now)
    decreases n
  {
    hide TableStep, Sound, EntryRight, Requested;
    if n == 0 {
      NoRequests(events, k);
    } else {
      var front := events[..n - 1];
      assert events[..n][..n - 1] == front;
      LedgerRight(events, n - 1, k);
      RunSound(front, k);
      TableStepRight(events, n - 1, k, LedgerOf(k, front).now);
    }
  }

  lemma NoRequests(events: seq<Event>, k: Kind)
    ensures TableRight(events, 0, k, Table(0, map[]))
  {
  }

  // ----- what a report lists -----

  /** The request at p finished first at f, and no report has been made since. */
  ghost predicate DueSince(events: seq<Event>, g: nat, k: Kind, id: nat, p: int, f: int) {
    Requested(events, g, k, p, id) && FirstFinish(events, g, k, p, id, f) && Unreported(events, f, g)
  }

  ghost predicate Due(events: seq<Event>, g: nat, k: Kind, id: nat) {
    exists p, f :: DueSince(events, g, k, id, p, f)
  }

  /** From the request at p to its counted finish at q. */
  ghost predicate TookFrom(events: seq<Event>, g: nat, k: Kind, id: nat, x: real, p: int, q: int) {
    Requested(events, g, k, p, id) && CountedFinish(events, g, k, p, id, q) && x == events[q].now - events[p].now
  }

  ghost predicate Took(events: seq<Event>, g: nat, k: Kind, id: nat, x: real) {
    exists p, q :: TookFrom(events, g, k, id, x, p, q)
  }

  /** These are the requests due at g, in the order they were made, each with the time it took. */
  ghost predicate TimesOf(events: seq<Event>, g: nat, k: Kind, times: seq<real>, ids: seq<nat>) {
    && |ids| == |times|
    && (forall i, j :: 0 <= i < j < |ids| ==> ids[i] < ids[j])
    && (forall id: nat :: id in ids <==> Due(events, g, k, id))
    && (forall i :: 0 <= i < |ids| ==> Took(events, g, k, ids[i], times[i]))
  }

  ghost predicate TimesReported(events: seq<Event>, g: nat, k: Kind, times: seq<real>) {
    exists ids :: TimesOf(events, g, k, times, ids)
  }

  lemma RequestedAt(events: seq<Event>, g: nat, k: Kind, p: int, id: nat)
    requires Requested(events, g, k, p, id)
    ensures 0 <= p < g <= |events| && events[p].Request? && events[p].kind == k
  {
  }

  lemma DueIsLive(events: seq<Event>, g: nat, k: Kind, t: Table, id: nat)
    requires g <= |events| && Clocked(k, events[..g]) && TableRight(events, g, k, t) && Due(events, g, k, id)
    ensures id in t.live && id < t.next && Duration(t.live[id]) != 0.0
  {
    hide Clocked, Tally, Requested;
    var p, f :| DueSince(events, g, k, id, p, f);
    RequestedAt(events, g, k, p, id);
    assert EntryRight(events, g, k, p, id, t.live);
    var q := FindLast(events, g, k, p, id);
    var c := if k.P2P? then q else f;
    assert CountedFinish(events, g, k, p, id, c);
    ClockedAt(events, g, k, c);
    ClockAscends(events, g, k, p, c);
  }

  lemma LiveIsDue(events: seq<Event>, g: nat, k: Kind, t: Table, id: nat)
    requires g <= |events| && TableRight(events, g, k, t)
    requires id in t.live && Duration(t.live[id]) != 0.0
    ensures Due(events, g, k, id) && Took(events, g, k, id, Duration(t.live[id]))
  {
    hide Tally, Requested;
    var p := FindRequest(events, g, k, id);
    RequestedAt(events, g, k, p, id);
    assert EntryRight(events, g, k, p, id, t.live);
    assert !Unfinished(events, p, g, k, id);
    var f := FindFirst(events, g, k, p, id);
    var q := FindLast(events, g, k, p, id);
    var c := if k.P2P? then q else f;
    assert CountedFinish(events, g, k, p, id, c);
    assert DueSince(events, g, k, id, p, f);
    assert TookFrom(events, g, k, id, Duration(t.live[id]), p, c);
  }

  /** Under a strictly increasing clock a report at g lists, in id order, exactly the requests
      first finished since the report before, each with the time from its request to its first
      finish, a transfer's to its last. */
  lemma TimesAreReported(events: seq<Event>, g: nat, k: Kind)
    requires g <= |events| && Clocked(k, events[..g])
    ensures var t := LedgerOf(k, events[..g]).now; TimesReported(events, g, k, Durations(t.live, t.next))
  {
    hide Clocked, Durations, Listed, Due, Took, LedgerOf;
    var t := LedgerOf(k, events[..g]).now;
    LedgerRight(events, g, k);
    DurationsOfListed(t.live, t.next);
    var ids := Listed(t.live, t.next);
    forall id: nat ensures id in ids <==> Due(events, g, k, id) {
      if id in ids { LiveIsDue(events, g, k, t, id); }
      if Due(events, g, k, id) { DueIsLive(events, g, k, t, id); }
    }
    forall i | 0 <= i < |ids| ensures Took(events, g, k, ids[i], Durations(t.live, t.next)[i]) {
      LiveIsDue(events, g, k, t, ids[i]);
    }
    assert TimesOf(events, g, k, Durations(t.live, t.next), ids);
  }

  // ----- what the finishes count for -----

  /** Event n finishes the request made at p, whose first finish is the one at q, and no report
      has been made in between. */
  ghost predicate Finishes(events: seq<Event>, n: nat, k: Kind, p: int, q: int) {
    && n < |events| && events[n].Finish? && events[n].kind == k && Requested(events, n, k, p, events[n].id)
    && FirstFinish(events, n + 1, k, p, events[n].id, q) && Unreported(events, q, n)
  }

  /** Retrievals are slow by the time from the request to its first finish, and by the tokens
      of this finish over that time. */
  function GainFrom(events: seq<Event>, n: nat, what: Gain, p: nat, q: nat): int
    requires p < q <= n < |events| && events[p].Request? && events[q].Finish? && events[n].Finish?
  {
    var took := events[q].now - events[p].now;
    match what
    case Amount => events[n].amount
    case ZeroAmount => if events[n].amount == 0 then 1 else 0
    case SlowTime(above) => if took > above then 1 else 0
    case SlowSpeed(below) => if took != 0.0 && 0.0 < events[n].amount as real / took < below then 1 else 0
    case Transferred => events[p].tokens
  }

  ghost function GainAt(events: seq<Event>, n: nat, k: Kind, what: Gain): int {
    if exists p, q :: Finishes(events, n, k, p, q) then
      var p, q :| Finishes(events, n, k, p, q);
      GainFrom(events, n, what, p, q)
    else 0
  }

  /** Summed over the finishes that come before the report of their request. */
  ghost function Gained(events: seq<Event>, n: nat, k: Kind, what: Gain): int {
    if n == 0 then 0 else Gained(events, n - 1, k, what) + GainAt(events, n - 1, k, what)
  }

  /** What is counted, and for which kind of request. */
  predicate Counts(k: Kind, what: Gain) {
    (what.SlowTime? || what.SlowSpeed? ==> k.Retrieve?) && (what.Transferred? ==> k.P2P?)
  }

  lemma FinishesLive(events: seq<Event>, n: nat, k: Kind, t: Table, p: int, q: int)
    requires Finishes(events, n, k, p, q) && Clocked(k, events[..n + 1]) && TableRight(events, n, k, t)
    ensures events[n].id in t.live && events[p].now < events[q].now
    ensures var r := Finished(k, t.live[events[n].id], events[n].amount, events[n].now);
            !k.P2P? ==> Duration(r) == events[q].now - events[p].now
    ensures k.P2P? ==> t.live[events[n].id].numTokens == events[p].tokens
  {
    hide Clocked, Tally;
    var id, m := events[n].id, n + 1;
    assert events[..m][..n] == events[..n];
    ClockAscends(events, m, k, p, q);
    ClockedAt(events, m, k, p);
    assert EntryRight(events, n, k, p, id, t.live);
    if q < n {
      assert FirstFinish(events, n, k, p, id, q);
      var l := FindLast(events, n, k, p, id);
      assert CountedFinish(events, n, k, p, id, if k.P2P? then l else q);
    }
  }

  lemma LiveFinishes(events: seq<Event>, n: nat, k: Kind, t: Table) returns (p: int, q: int)
    requires n < |events| && events[n].Finish? && events[n].kind == k
    requires TableRight(events, n, k, t) && events[n].id in t.live
    ensures Finishes(events, n, k, p, q)
  {
    hide Tally;
    var id := events[n].id;
    p := FindRequest(events, n, k, id);
    assert EntryRight(events, n, k, p, id, t.live);
    if Unfinished(events, p, n, k, id) {
      q := n;
    } else {
      q := FindFirst(events, n, k, p, id);
    }
  }

  lemma GainRight(events: seq<Event>, n: nat, k: Kind, what: Gain, t: Table, p: nat, q: nat)
    requires Finishes(events, n, k, p, q) && Clocked(k, events[..n + 1]) && TableRight(events, n, k, t)
    requires Counts(k, what)
    ensures events[n].id in t.live
    ensures GainOf(what, k, t.live[events[n].id], events[n]) == GainFrom(events, n, what, p, q)
  {
    hide Clocked, TableRight, Duration, Tally, Unfinished, Unreported;
    FinishesLive(events, n, k, t, p, q);
  }

  lemma GainStep(events: seq<Event>, n: nat, k: Kind, what: Gain)
    requires n < |events| && Clocked(k, events[..n + 1]) && Counts(k, what)
    ensures var open, e := LedgerOf(k, events[..n]).now.live, events[n];
            var gain := if e.Finish? && e.kind == k && e.id in open then GainOf(what, k, open[e.id], e) else 0;
            GainAt(events, n, k, what) == gain
  {
    hide Clocked, TableRight, LedgerOf, GainOf, GainFrom, Tally, Unfinished, Unreported;
    var t, e := LedgerOf(k, events[..n]).now, events[n];
    ClockedPrefix(events[..n + 1], n, k);
    assert events[..n + 1][..n] == events[..n];
    LedgerRight(events, n, k);
    if e.Finish? && e.kind == k && e.id in t.live {
      var p0, q0 := LiveFinishes(events, n, k, t);
    }
    if exists p, q :: Finishes(events, n, k, p, q) {
      var p, q :| Finishes(events, n, k, p, q) && GainAt(events, n, k, what) == GainFrom(events, n, what, p, q);
      GainRight(events, n, k, what, t, p, q);
    }
  }

  lemma {:induction false} FinishesCounted(events: seq<Event>, n: nat, k: Kind, what: Gain)
    requires n <= |events| && Clocked(k, events[..n]) && Counts(k, what)
    ensures FinishTally(k, events[..n], what) == Gained(events, n, k, what)
    decreases n
  {
    hide LedgerOf, GainOf, GainAt;
    if n > 0 {
      assert events[..n][..n - 1] == events[..n - 1];
      FinishesCounted(events, n - 1, k, what);
      GainStep(events, n - 1, k, what);
    }
  }

  /** All reports and the live interval together count the finishes by the times and tokens of
      the events themselves. */
  lemma GainsConserved(events: seq<Event>, timeThreshold: real, speedThreshold: real)
    requires Clocked(Retrieve, events) && Clocked(Lookup, events) && Clocked(P2P, events)
    ensures var w, n := Run(Start(timeThreshold, speedThreshold), events), |events|;
      var total := Plus(Sum(w.gets), w.state.interval);
      && total.slowByTime == Gained(events, n, Retrieve, SlowTime(timeThreshold))
      && total.slowBySpeed == Gained(events, n, Retrieve, SlowSpeed(speedThreshold))
      && total.hitTokens == Gained(events, n, Retrieve, Amount)
      && total.lookupHits == Gained(events, n, Lookup, Amount)
      && total.zeroHitLookups == Gained(events, n, Lookup, ZeroAmount)
      && total.p2pTokens == Gained(events, n, P2P, Transferred)
  {
    hide Run, Plus, Tally, FinishTally, Gained;
    var n := |events|;
    assert events[..n] == events;
    CountersConserved(events, timeThreshold, speedThreshold);
    FinishesCounted(events, n, Retrieve, SlowTime(timeThreshold));
    FinishesCounted(events, n, Retrieve, SlowSpeed(speedThreshold));
    FinishesCounted(events, n, Retrieve, Amount);
    FinishesCounted(events, n, Lookup, Amount);
    FinishesCounted(events, n, Lookup, ZeroAmount);
    FinishesCounted(events, n, P2P, Transferred);
  }

  // ----- report by report -----

  function Reports(events: seq<Event>): nat {
    if events == [] then 0
    else Reports(events[..|events| - 1]) + if events[|events| - 1].GetStats? then 1 else 0
  }

  /** The report made at g is number i. */
  ghost predicate ReportAt(events: seq<Event>, i: nat, g: int) {
    0 <= g < |events| && events[g].GetStats? && Reports(events[..g]) == i
  }

  /** The events since the report before g begin at h. */
  ghost predicate SinceReport(events: seq<Event>, h: int, g: int) {
    0 <= h <= g <= |events| && (h == 0 || events[h - 1].GetStats?) && forall x :: h <= x < g ==> !events[x].GetStats?
  }

  lemma {:induction false} StatesAtReports(events: seq<Event>, i: nat, g: int, timeThreshold: real,
                                           speedThreshold: real)
    requires ReportAt(events, i, g)
    ensures var w0 := Start(timeThreshold, speedThreshold);
            i < |Run(w0, events).gets| && Run(w0, events).gets[i] == Run(w0, events[..g]).state
  {
    hide Step;
    var front := events[..|events| - 1];
    ReportsCounted(front, timeThreshold, speedThreshold);
    if g < |front| {
      assert front[..g] == events[..g];
      StatesAtReports(front, i, g, timeThreshold, speedThreshold);
    }
  }

  lemma {:induction false} ReportsCounted(events: seq<Event>, timeThreshold: real, speedThreshold: real)
    ensures |Run(Start(timeThreshold, speedThreshold), events).gets| == Reports(events)
  {
    hide Step;
    if events != [] { ReportsCounted(events[..|events| - 1], timeThreshold, speedThreshold); }
  }

  lemma QuietStep(w: World, e: Event, series: Series)
    requires !e.GetStats?
    ensures WorldStep(w, e).gets == w.gets
    ensures WorldStep(w, e).state.lists.Get(series) == w.state.lists.Get(series)
            + if e.Append? && e.series == series then [if series.Lifespan? then e.value / 60.0 else e.value] else []
  {
    hide Delta, Plus, TablesStep;
  }

  lemma ReportClears(w: World, series: Series)
    ensures WorldStep(w, GetStats).state.interval == ZERO && WorldStep(w, GetStats).state.lists.Get(series) == []
  {
    hide Delta, Plus, TablesStep;
  }

  /** Between two reports no counter or list is cleared and no report is added. */
  lemma {:induction false} SinceTheReport(events: seq<Event>, h: nat, g: nat, series: Series,
                                          timeThreshold: real, speedThreshold: real)
    requires SinceReport(events, h, g)
    ensures var w0 := Start(timeThreshold, speedThreshold);
      && Run(w0, events[..h]).state.interval == ZERO && Run(w0, events[..g]).gets == Run(w0, events[..h]).gets
      && Run(w0, events[..g]).state.lists.Get(series) == Appended(events[h..g], series)
    decreases g
  {
    hide WorldStep, Lists.Get;
    var w0 := Start(timeThreshold, speedThreshold);
    if h < g {
      SinceTheReport(events, h, g - 1, series, timeThreshold, speedThreshold);
      assert events[..g][..g - 1] == events[..g - 1] && events[h..g][..g - 1 - h] == events[h..g - 1];
      QuietStep(Run(w0, events[..g - 1]), events[g - 1], series);
    } else if h > 0 {
      assert events[..h][..h - 1] == events[..h - 1];
      ReportClears(Run(w0, events[..h - 1]), series);
    } else {
      NothingAppended(series, timeThreshold, speedThreshold);
      assert Reported(w0.gets, series) == [];
    }
  }

  // ----- whole runs -----

  /** What the report made at g says, read off the events: the counters of the interval, the
      time each request took, and the measurements since the report before. */
  ghost predicate Tells(r: Report, events: seq<Event>, g: nat, timeThreshold: real, speedThreshold: real)
    requires g <= |events|
    reads r.Objects()
  {
    && (Clocked(Retrieve, events[..g]) ==> TimesReported(events, g, Retrieve, r.timeToRetrieve))
    && (Clocked(Store, events[..g]) ==> TimesReported(events, g, Store, r.timeToStore))
    && (Clocked(Lookup, events[..g]) ==> TimesReported(events, g, Lookup, r.timeToLookup))
    && (Clocked(P2P, events[..g]) ==> TimesReported(events, g, P2P, r.timeToTransfer))
    && forall h :: SinceReport(events, h, g) ==>
         && Plus(Truth(events[..h], timeThreshold, speedThreshold), r.interval)
            == Truth(events[..g], timeThreshold, speedThreshold)
         && r.toGet.items == Appended(events[h..g], ToGet) && r.toPut.items == Appended(events[h..g], ToPut)
         && r.toGetSync.items == Appended(events[h..g], ToGetSync)
         && r.lifespans.items == Appended(events[h..g], Lifespan)
  }

  lemma SinceWithin(events: seq<Event>, h: int, g: int)
    requires SinceReport(events, h, g)
    ensures 0 <= h <= g <= |events|
  {
  }

  lemma IntervalSinceReport(events: seq<Event>, h: nat, g: nat, timeThreshold: real, speedThreshold: real)
    requires SinceReport(events, h, g)
    ensures Plus(Truth(events[..h], timeThreshold, speedThreshold),
                 Run(Start(timeThreshold, speedThreshold), events[..g]).state.interval)
         == Truth(events[..g], timeThreshold, speedThreshold)
  {
    hide Truth, Plus, Run, SinceReport;
    SinceWithin(events, h, g);
    var w := Run(Start(timeThreshold, speedThreshold), events[..h]);
    CountersConserved(events[..h], timeThreshold, speedThreshold);
    CountersConserved(events[..g], timeThreshold, speedThreshold);
    SinceTheReport(events, h, g, ToGet, timeThreshold, speedThreshold);
    PlusLaws(Sum(w.gets), ZERO, ZERO);
  }

  lemma TimesOfRun(events: seq<Event>, g: nat, k: Kind, timeThreshold: real, speedThreshold: real)
    requires g <= |events| && Clocked(k, events[..g])
    ensures var t := Run(Start(timeThreshold, speedThreshold), events[..g]).state.tables.Get(k);
            TimesReported(events, g, k, Durations(t.live, t.next))
  {
    hide TimesReported, Clocked, Run, LedgerOf;
    LedgerTracksRun(k, events[..g], timeThreshold, speedThreshold);
    TimesAreReported(events, g, k);
  }

  /** A report that shows the state at g tells all this. */
  lemma ShownIsTold(r: Report, events: seq<Event>, g: nat, timeThreshold: real, speedThreshold: real)
    requires g <= |events| && r.Shows(Run(Start(timeThreshold, speedThreshold), events[..g]).state)
    ensures Tells(r, events, g, timeThreshold, speedThreshold)
  {
    hide TimesReported, Clocked, Run, Truth, Plus, Durations, SinceReport, Appended;
    if Clocked(Retrieve, events[..g]) { TimesOfRun(events, g, Retrieve, timeThreshold, speedThreshold); }
    if Clocked(Store, events[..g]) { TimesOfRun(events, g, Store, timeThreshold, speedThreshold); }
    if Clocked(Lookup, events[..g]) { TimesOfRun(events, g, Lookup, timeThreshold, speedThreshold); }
    if Clocked(P2P, events[..g]) { TimesOfRun(events, g, P2P, timeThreshold, speedThreshold); }
    forall h | SinceReport(events, h, g)
      ensures 0 <= h <= g && Plus(Truth(events[..h], timeThreshold, speedThreshold), r.interval)
           == Truth(events[..g], timeThreshold, speedThreshold)
      ensures r.toGet.items == Appended(events[h..g], ToGet) && r.toPut.items == Appended(events[h..g], ToPut)
      ensures r.toGetSync.items == Appended(events[h..g], ToGetSync)
      ensures r.lifespans.items == Appended(events[h..g], Lifespan)
    {
      SinceWithin(events, h, g);
      IntervalSinceReport(events, h, g, timeThreshold, speedThreshold);
      SinceTheReport(events, h, g, ToGet, timeThreshold, speedThreshold);
      SinceTheReport(events, h, g, ToPut, timeThreshold, speedThreshold);
      SinceTheReport(events, h, g, ToGetSync, timeThreshold, speedThreshold);
      SinceTheReport(events, h, g, Lifespan, timeThreshold, speedThreshold);
    }
  }

  /** A whole run on the object is the run of the model, and at its end every report still
      shows what it showed when it was made: no list of a report is a live one. */
  method Drive(timeThreshold: real, speedThreshold: real, events: seq<Event>) returns (m: Monitor, reports: seq<Report>)
    ensures m.View() == Run(Start(timeThreshold, speedThreshold), events).state
    ensures |reports| == |Run(Start(timeThreshold, speedThreshold), events).gets|
    ensures forall i :: 0 <= i < |reports| ==>
            reports[i].Shows(Run(Start(timeThreshold, speedThreshold), events).gets[i])
    ensures |reports| == Reports(events)
    ensures forall i: nat, g :: ReportAt(events, i, g) ==>
            i < |reports| && Tells(reports[i], events, g, timeThreshold, speedThreshold)
  {
    hide Step, Report.Shows, Tells, Reports;
    m := new Monitor(timeThreshold, speedThreshold);
    reports := [];
    ghost var w := Start(timeThreshold, speedThreshold);
    for n := 0 to |events|
      invariant m.Valid() && w == Run(Start(timeThreshold, speedThreshold), events[..n]) && m.View() == w.state
      invariant fresh(m) && fresh(m.ListObjects()) && |reports| == |w.gets|
      invariant forall i :: 0 <= i < |reports| ==>
              reports[i].Objects() !! m.ListObjects() && reports[i].Shows(w.gets[i])
    {
      assert events[..n + 1][..n] == events[..n];
      var report := Handle(m, events[n]);
      w := WorldStep(w, events[n]);
      if report.Some? {
        reports := reports + [report.value];
      }
    }
    assert events[..|events|] == events;
    ReportsCounted(events, timeThreshold, speedThreshold);
    forall i: nat, g | ReportAt(events, i, g)
      ensures i < |reports| && Tells(reports[i], events, g, timeThreshold, speedThreshold)
    {
      StatesAtReports(events, i, g, timeThreshold, speedThreshold);
      ShownIsTold(reports[i], events, g, timeThreshold, speedThreshold);
    }
  }
}
