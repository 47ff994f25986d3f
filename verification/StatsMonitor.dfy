/** The statistics monitor: interval counters, per-request records and measurement lists,
    reported and cleared by `get_stats_and_clear` at arbitrary moments. Every method of the
    source holds one lock, so a concurrent run is a sequence of these events. */
module StatsMonitor {
  import opened Options

  // ----- the monitor as a value -----

  /** The counters that every report carries and every clear resets. */
  datatype Counters = Counters(
    retrieveRequests: int, storeRequests: int, lookupRequests: int,
    requestedTokens: int, hitTokens: int, storedTokens: int, lookupTokens: int, lookupHits: int,
    vllmHitTokens: int, promptTokens: int, slowByTime: int, slowBySpeed: int,
    remoteReads: int, remoteReadBytes: int, remoteWrites: int, remoteWriteBytes: int,
    pingErrors: int, pingSuccesses: int,
    evictions: int, evictedKeys: int, evictFailures: int, forcedUnpins: int,
    p2pRequests: int, p2pTokens: int, zeroHitLookups: int)

  const ZERO := Counters(0, 0, 0, 0, 0, 0, 0, 0, 0, 0, 0, 0, 0, 0, 0, 0, 0, 0, 0, 0, 0, 0, 0, 0, 0)

  function Plus(a: Counters, b: Counters): Counters {
    Counters(
      a.retrieveRequests + b.retrieveRequests, a.storeRequests + b.storeRequests, a.lookupRequests + b.lookupRequests,
      a.requestedTokens + b.requestedTokens, a.hitTokens + b.hitTokens, a.storedTokens + b.storedTokens,
      a.lookupTokens + b.lookupTokens, a.lookupHits + b.lookupHits,
      a.vllmHitTokens + b.vllmHitTokens, a.promptTokens + b.promptTokens,
      a.slowByTime + b.slowByTime, a.slowBySpeed + b.slowBySpeed,
      a.remoteReads + b.remoteReads, a.remoteReadBytes + b.remoteReadBytes,
      a.remoteWrites + b.remoteWrites, a.remoteWriteBytes + b.remoteWriteBytes,
      a.pingErrors + b.pingErrors, a.pingSuccesses + b.pingSuccesses,
      a.evictions + b.evictions, a.evictedKeys + b.evictedKeys, a.evictFailures + b.evictFailures,
      a.forcedUnpins + b.forcedUnpins, a.p2pRequests + b.p2pRequests, a.p2pTokens + b.p2pTokens,
      a.zeroHitLookups + b.zeroHitLookups)
  }

  datatype Kind = Retrieve | Store | Lookup | P2P

  /** One request's statistics; an end of zero means none was recorded. */
  datatype Record = Record(numTokens: int, hitTokens: int, isFinished: bool, start: real, end: real)

  function Duration(r: Record): real {
    if r.end == 0.0 then 0.0 else r.end - r.start
  }

  function RetrieveSpeed(r: Record): real {
    if Duration(r) == 0.0 then 0.0 else r.hitTokens as real / Duration(r)
  }

  /** What `_clear` takes for finished: the flag of a lookup, the end time of the others. */
  predicate Done(k: Kind, r: Record) {
    if k.Lookup? then r.isFinished else r.end != 0.0
  }

  /** A dictionary of requests under consecutive ids; iteration order is ascending id. */
  datatype Table = Table(next: nat, live: map<nat, Record>)

  datatype Tables = Tables(retrieve: Table, store: Table, lookup: Table, p2p: Table) {
    function Get(k: Kind): Table {
      match k case Retrieve => retrieve case Store => store case Lookup => lookup case P2P => p2p
    }
  }

  datatype Series = ToGet | ToPut | ToGetSync | Lifespan

  datatype Lists = Lists(toGet: seq<real>, toPut: seq<real>, toGetSync: seq<real>, lifespans: seq<real>) {
    function Get(w: Series): seq<real> {
      match w case ToGet => toGet case ToPut => toPut case ToGetSync => toGetSync case Lifespan => lifespans
    }

    function Add(w: Series, x: real): Lists {
      match w
      case ToGet => this.(toGet := toGet + [x])
      case ToPut => this.(toPut := toPut + [x])
      case ToGetSync => this.(toGetSync := toGetSync + [x])
      case Lifespan => this.(lifespans := lifespans + [x / 60.0])
    }
  }

  datatype State = State(interval: Counters, tables: Tables, lists: Lists, timeThreshold: real, speedThreshold: real)

  function Initial(timeThreshold: real, speedThreshold: real): State {
    var empty := Table(0, map[]);
    State(ZERO, Tables(empty, empty, empty, empty), Lists([], [], [], []), timeThreshold, speedThreshold)
  }

  // ----- events -----

  datatype Event =
    | Request(kind: Kind, tokens: int, now: real)
    | Finish(kind: Kind, id: nat, amount: int, now: real)
    | Append(series: Series, value: real)
    | RemoteRead(bytes: int)
    | RemoteWrite(bytes: int)
    | PingCode(code: int)
    | Evict(keys: int)
    | EvictFailed(count: int)
    | ForcedUnpin(delta: int)
    | VllmHit(delta: int)
    | Prompt(delta: int)
    | GetStats

  /** A finish is refused by an assertion when the request is not in the dictionary. */
  predicate Accepted(s: State, e: Event) {
    e.Finish? ==> e.id in s.tables.Get(e.kind).live
  }

  /** A finish leaves an end already recorded alone, except that a transfer always moves it. */
  function Finished(k: Kind, r: Record, amount: int, now: real): Record {
    var end := if k.P2P? || r.end == 0.0 then now else r.end;
    match k
    case Retrieve => r.(hitTokens := amount, end := end)
    case Store => r.(numTokens := if amount >= 0 then amount else r.numTokens, end := end)
    case Lookup => r.(hitTokens := amount, isFinished := true, end := end)
    case P2P => r.(end := end)
  }

  /** What an event other than a finish adds to the counters. */
  function Direct(e: Event): Counters {
    match e
    case Request(Retrieve, n, _) => ZERO.(retrieveRequests := 1, requestedTokens := n)
    case Request(Store, n, _) => ZERO.(storeRequests := 1, storedTokens := n)
    case Request(Lookup, n, _) => ZERO.(lookupRequests := 1, lookupTokens := n)
    case Request(P2P, _, _) => ZERO.(p2pRequests := 1)
    case RemoteRead(n) => ZERO.(remoteReads := 1, remoteReadBytes := n)
    case RemoteWrite(n) => ZERO.(remoteWrites := 1, remoteWriteBytes := n)
    case PingCode(code) => if code != 0 then ZERO.(pingErrors := 1) else ZERO.(pingSuccesses := 1)
    case Evict(n) => ZERO.(evictions := 1, evictedKeys := n)
    case EvictFailed(n) => ZERO.(evictFailures := n)
    case ForcedUnpin(n) => ZERO.(forcedUnpins := n)
    case VllmHit(n) => ZERO.(vllmHitTokens := n)
    case Prompt(n) => ZERO.(promptTokens := n)
    case _ => ZERO
  }

  /** What a finish adds, given the record it meets. */
  function Earned(k: Kind, r: Record, n: int, now: real, timeThreshold: real, speedThreshold: real): Counters {
    match k
    case Retrieve => Retrieved(Finished(Retrieve, r, n, now), n, timeThreshold, speedThreshold)
    case Store => ZERO
    case Lookup => ZERO.(lookupHits := n, zeroHitLookups := if n == 0 then 1 else 0)
    case P2P => ZERO.(p2pTokens := r.numTokens)
  }

  function Retrieved(r: Record, n: int, timeThreshold: real, speedThreshold: real): Counters {
    ZERO.(hitTokens := n,
          slowByTime := if Duration(r) > timeThreshold then 1 else 0,
          slowBySpeed := if 0.0 < RetrieveSpeed(r) < speedThreshold then 1 else 0)
  }

  function Delta(s: State, e: Event): Counters {
    if !e.Finish? then Direct(e)
    else if Accepted(s, e) then
      Earned(e.kind, s.tables.Get(e.kind).live[e.id], e.amount, e.now, s.timeThreshold, s.speedThreshold)
    else ZERO
  }

  function Opened(t: Table, tokens: int, now: real): Table {
    Table(t.next + 1, t.live[t.next := Record(tokens, 0, false, now, 0.0)])
  }

  function Kept(k: Kind, t: Table): Table {
    Table(t.next, map id | id in t.live && !Done(k, t.live[id]) :: t.live[id])
  }

  function Closed(k: Kind, t: Table, id: nat, amount: int, now: real): Table
    requires id in t.live
  {
    Table(t.next, t.live[id := Finished(k, t.live[id], amount, now)])
  }

  /** What an event does to the dictionary of one kind of request. */
  function TableStep(k: Kind, t: Table, e: Event): Table {
    match e
    case GetStats => Kept(k, t)
    case Request(kind, n, now) => if kind == k then Opened(t, n, now) else t
    case Finish(kind, id, n, now) => if kind == k && id in t.live then Closed(k, t, id, n, now) else t
    case _ => t
  }

  function TablesStep(t: Tables, e: Event): (r: Tables)
    ensures forall k :: r.Get(k) == TableStep(k, t.Get(k), e)
  {
    Tables(TableStep(Retrieve, t.retrieve, e), TableStep(Store, t.store, e),
           TableStep(Lookup, t.lookup, e), TableStep(P2P, t.p2p, e))
  }

  function ListsStep(l: Lists, e: Event): Lists {
    if e.GetStats? then Lists([], [], [], []) else if e.Append? then l.Add(e.series, e.value) else l
  }

  function Step(s: State, e: Event): State {
    State(if e.GetStats? then ZERO else Plus(s.interval, Delta(s, e)),
          TablesStep(s.tables, e), ListsStep(s.lists, e), s.timeThreshold, s.speedThreshold)
  }

  // ----- reports -----

  /** The durations a report lists: in id order, zeros filtered out. */
  function Durations(live: map<nat, Record>, next: nat): seq<real> {
    if next == 0 then []
    else
      Durations(live, next - 1)
      + if next - 1 in live && Duration(live[next - 1]) != 0.0 then [Duration(live[next - 1])] else []
  }

  /** The requests behind those durations. */
  function Listed(live: map<nat, Record>, next: nat): seq<nat> {
    if next == 0 then []
    else
      Listed(live, next - 1) + if next - 1 in live && Duration(live[next - 1]) != 0.0 then [next - 1] else []
  }

  lemma {:induction false} DurationsOfListed(live: map<nat, Record>, next: nat)
    ensures |Durations(live, next)| == |Listed(live, next)|
    ensures forall i :: 0 <= i < |Listed(live, next)| ==>
              Listed(live, next)[i] in live && Durations(live, next)[i] == Duration(live[Listed(live, next)[i]]) != 0.0
    ensures forall i, j :: 0 <= i < j < |Listed(live, next)| ==> Listed(live, next)[i] < Listed(live, next)[j] < next
    ensures forall i :: 0 <= i < |Listed(live, next)| ==> Listed(live, next)[i] < next
    ensures forall id :: id in live && id < next && Duration(live[id]) != 0.0 ==> id in Listed(live, next)
  {
    if next > 0 {
      DurationsOfListed(live, next - 1);
    }
  }

  // ----- runs -----

  /** A run so far: the state now, and at each report. */
  datatype World = World(state: State, gets: seq<State>)

  function Start(timeThreshold: real, speedThreshold: real): World {
    World(Initial(timeThreshold, speedThreshold), [])
  }

  function WorldStep(w: World, e: Event): World {
    World(Step(w.state, e), if e.GetStats? then w.gets + [w.state] else w.gets)
  }

  function Run(w: World, events: seq<Event>): World {
    if events == [] then w
    else WorldStep(Run(w, events[..|events| - 1]), events[|events| - 1])
  }

  function Sum(gets: seq<State>): Counters {
    if gets == [] then ZERO else Plus(Sum(gets[..|gets| - 1]), gets[|gets| - 1].interval)
  }

  /** The measurements an event sequence appends to a series: no state, no clearing. */
  function Appended(events: seq<Event>, series: Series): seq<real> {
    if events == [] then []
    else
      var e := events[|events| - 1];
      Appended(events[..|events| - 1], series)
      + if e.Append? && e.series == series then [if series.Lifespan? then e.value / 60.0 else e.value] else []
  }

  function Reported(gets: seq<State>, series: Series): seq<real> {
    if gets == [] then []
    else Reported(gets[..|gets| - 1], series) + gets[|gets| - 1].lists.Get(series)
  }

  /** The reports' lists and the live one, in order, are the measurements: none lost, none twice. */
  lemma {:induction false} ListsConserved(events: seq<Event>, series: Series, timeThreshold: real, speedThreshold: real)
    ensures var w := Run(Start(timeThreshold, speedThreshold), events);
            Reported(w.gets, series) + w.state.lists.Get(series) == Appended(events, series)
  {
    hide WorldStep, Reported, Lists.Get;
    if events == [] {
      NothingAppended(series, timeThreshold, speedThreshold);
    } else {
      var front, e := events[..|events| - 1], events[|events| - 1];
      ListsConserved(front, series, timeThreshold, speedThreshold);
      AppendStep(Run(Start(timeThreshold, speedThreshold), front), e, series);
    }
  }

  lemma NothingAppended(series: Series, timeThreshold: real, speedThreshold: real)
    ensures var w := Start(timeThreshold, speedThreshold); Reported(w.gets, series) + w.state.lists.Get(series) == []
  {
  }

  lemma AppendStep(w: World, e: Event, series: Series)
    ensures var w' := WorldStep(w, e);
         Reported(w'.gets, series) + w'.state.lists.Get(series)
         == Reported(w.gets, series) + w.state.lists.Get(series)
            + if e.Append? && e.series == series then [if series.Lifespan? then e.value / 60.0 else e.value] else []
  {
    hide Plus, Delta, TablesStep;
    if e.GetStats? {
      assert (w.gets + [w.state])[..|w.gets|] == w.gets;
    }
  }

  // ----- every finished request is reported exactly once -----

  /** One kind's dictionary along a run: now, at each report, and never cleared. */
  datatype Ledger = Ledger(now: Table, gets: seq<Table>, ever: Table)

  function LedgerStep(k: Kind, l: Ledger, e: Event): Ledger {
    Ledger(TableStep(k, l.now, e),
           if e.GetStats? then l.gets + [l.now] else l.gets,
           if e.GetStats? || (e.Finish? && e.id !in l.now.live) then l.ever else TableStep(k, l.ever, e))
  }

  function LedgerOf(k: Kind, events: seq<Event>): Ledger {
    if events == [] then Ledger(Table(0, map[]), [], Table(0, map[]))
    else LedgerStep(k, LedgerOf(k, events[..|events| - 1]), events[|events| - 1])
  }

  /** The ledger is what the monitor's run does to that dictionary. */
  lemma {:induction false} LedgerTracksRun(k: Kind, events: seq<Event>, timeThreshold: real, speedThreshold: real)
    ensures var w, l := Run(Start(timeThreshold, speedThreshold), events), LedgerOf(k, events);
            && w.state.tables.Get(k) == l.now && |w.gets| == |l.gets|
            && forall i :: 0 <= i < |w.gets| ==> w.gets[i].tables.Get(k) == l.gets[i]
  {
    hide TableStep, Plus, Delta;
    if events != [] {
      LedgerTracksRun(k, events[..|events| - 1], timeThreshold, speedThreshold);
    }
  }

  // ----- the true totals, from the events alone -----

  /** What can be read off an event by itself. */
  datatype Measure =
    | Requests(kind: Kind) | RequestTokens(kind: Kind)
    | Reads | ReadBytes | Writes | WriteBytes | PingErrors | PingSuccesses
    | Evictions | EvictedKeys | EvictFailures | Unpins | VllmTokens | PromptTokens

  function Worth(what: Measure, e: Event): int {
    match what
    case Requests(k) => if e.Request? && e.kind == k then 1 else 0
    case RequestTokens(k) => if e.Request? && e.kind == k then e.tokens else 0
    case Reads => if e.RemoteRead? then 1 else 0
    case ReadBytes => if e.RemoteRead? then e.bytes else 0
    case Writes => if e.RemoteWrite? then 1 else 0
    case WriteBytes => if e.RemoteWrite? then e.bytes else 0
    case PingErrors => if e.PingCode? && e.code != 0 then 1 else 0
    case PingSuccesses => if e.PingCode? && e.code == 0 then 1 else 0
    case Evictions => if e.Evict? then 1 else 0
    case EvictedKeys => if e.Evict? then e.keys else 0
    case EvictFailures => if e.EvictFailed? then e.count else 0
    case Unpins => if e.ForcedUnpin? then e.delta else 0
    case VllmTokens => if e.VllmHit? then e.delta else 0
    case PromptTokens => if e.Prompt? then e.delta else 0
  }

  function Tally(events: seq<Event>, what: Measure): int {
    if events == [] then 0 else Tally(events[..|events| - 1], what) + Worth(what, events[|events| - 1])
  }

  /** What a finish of a request that is still open counts for. */
  datatype Gain = Amount | ZeroAmount | SlowTime(above: real) | SlowSpeed(below: real) | Transferred

  function GainOf(what: Gain, k: Kind, r: Record, e: Event): int
    requires e.Finish?
  {
    match what
    case Amount => e.amount
    case ZeroAmount => if e.amount == 0 then 1 else 0
    case SlowTime(above) => if Duration(Finished(k, r, e.amount, e.now)) > above then 1 else 0
    case SlowSpeed(below) => if 0.0 < RetrieveSpeed(Finished(k, r, e.amount, e.now)) < below then 1 else 0
    case Transferred => r.numTokens
  }

  /** Summed over the finishes of one kind that find their request in the ledger. */
  function FinishTally(k: Kind, events: seq<Event>, what: Gain): int {
    if events == [] then 0
    else
      var front, e := events[..|events| - 1], events[|events| - 1];
      var open := LedgerOf(k, front).now.live;
      FinishTally(k, front, what)
      + if e.Finish? && e.kind == k && e.id in open then GainOf(what, k, open[e.id], e) else 0
  }

  /** What every counter should add up to. */
  function Truth(events: seq<Event>, timeThreshold: real, speedThreshold: real): Counters {
    Counters(
      Tally(events, Requests(Retrieve)), Tally(events, Requests(Store)), Tally(events, Requests(Lookup)),
      Tally(events, RequestTokens(Retrieve)), FinishTally(Retrieve, events, Amount),
      Tally(events, RequestTokens(Store)), Tally(events, RequestTokens(Lookup)), FinishTally(Lookup, events, Amount),
      Tally(events, VllmTokens), Tally(events, PromptTokens),
      FinishTally(Retrieve, events, SlowTime(timeThreshold)), FinishTally(Retrieve, events, SlowSpeed(speedThreshold)),
      Tally(events, Reads), Tally(events, ReadBytes), Tally(events, Writes), Tally(events, WriteBytes),
      Tally(events, PingErrors), Tally(events, PingSuccesses),
      Tally(events, Evictions), Tally(events, EvictedKeys), Tally(events, EvictFailures), Tally(events, Unpins),
      Tally(events, Requests(P2P)), FinishTally(P2P, events, Transferred), FinishTally(Lookup, events, ZeroAmount))
  }

  /** All reports together with the live interval hold the true totals of all counters. */
  lemma {:induction false} CountersConserved(events: seq<Event>, timeThreshold: real, speedThreshold: real)
    ensures var w := Run(Start(timeThreshold, speedThreshold), events);
            Plus(Sum(w.gets), w.state.interval) == Truth(events, timeThreshold, speedThreshold)
  {
    hide Delta, Plus, Sum, WorldStep, Truth, LedgerOf;
    if events == [] {
      NothingYet(timeThreshold, speedThreshold);
    } else {
      var front, e := events[..|events| - 1], events[|events| - 1];
      var w := Run(Start(timeThreshold, speedThreshold), front);
      CountersConserved(front, timeThreshold, speedThreshold);
      forall k: Kind ensures w.state.tables.Get(k) == LedgerOf(k, front).now {
        LedgerTracksRun(k, front, timeThreshold, speedThreshold);
      }
      ThresholdsStay(front, timeThreshold, speedThreshold);
      TruthStep(events, w.state);
      StepConserves(w, e, Truth(front, timeThreshold, speedThreshold));
    }
  }

  lemma NothingYet(timeThreshold: real, speedThreshold: real)
    ensures var w := Start(timeThreshold, speedThreshold);
            Plus(Sum(w.gets), w.state.interval) == Truth([], timeThreshold, speedThreshold)
  {
  }

  lemma {:induction false} ThresholdsStay(events: seq<Event>, timeThreshold: real, speedThreshold: real)
    ensures var s := Run(Start(timeThreshold, speedThreshold), events).state;
            s.timeThreshold == timeThreshold && s.speedThreshold == speedThreshold
  {
    hide Plus, Delta, TablesStep, ListsStep;
    if events != [] { ThresholdsStay(events[..|events| - 1], timeThreshold, speedThreshold); }
  }

  lemma PlusLaws(a: Counters, b: Counters, c: Counters)
    ensures Plus(Plus(a, b), c) == Plus(a, Plus(b, c))
    ensures Plus(a, ZERO) == a
  {
  }

  lemma StepConserves(w: World, e: Event, total: Counters)
    requires Plus(Sum(w.gets), w.state.interval) == total
    ensures var w' := WorldStep(w, e); Plus(Sum(w'.gets), w'.state.interval) == Plus(total, Delta(w.state, e))
  {
    hide Plus;
    PlusLaws(Sum(w.gets), w.state.interval, Delta(w.state, e));
    if e.GetStats? {
      assert (w.gets + [w.state])[..|w.gets|] == w.gets;
      PlusLaws(Plus(Sum(w.gets), w.state.interval), ZERO, ZERO);
      PlusLaws(total, ZERO, ZERO);
    }
  }

  function FinishGain(s: State, k: Kind, e: Event, what: Gain): int {
    var open := s.tables.Get(k).live;
    if e.Finish? && e.kind == k && e.id in open then GainOf(what, k, open[e.id], e) else 0
  }

  /** By how much the totals grow with an event. */
  function Growth(s: State, e: Event): Counters {
    Counters(
      Worth(Requests(Retrieve), e), Worth(Requests(Store), e), Worth(Requests(Lookup), e),
      Worth(RequestTokens(Retrieve), e), FinishGain(s, Retrieve, e, Amount),
      Worth(RequestTokens(Store), e), Worth(RequestTokens(Lookup), e), FinishGain(s, Lookup, e, Amount),
      Worth(VllmTokens, e), Worth(PromptTokens, e),
      FinishGain(s, Retrieve, e, SlowTime(s.timeThreshold)), FinishGain(s, Retrieve, e, SlowSpeed(s.speedThreshold)),
      Worth(Reads, e), Worth(ReadBytes, e), Worth(Writes, e), Worth(WriteBytes, e),
      Worth(PingErrors, e), Worth(PingSuccesses, e),
      Worth(Evictions, e), Worth(EvictedKeys, e), Worth(EvictFailures, e), Worth(Unpins, e),
      Worth(Requests(P2P), e), FinishGain(s, P2P, e, Transferred), FinishGain(s, Lookup, e, ZeroAmount))
  }

  lemma TruthGrows(events: seq<Event>, s: State)
    requires events != [] && forall k: Kind :: s.tables.Get(k) == LedgerOf(k, events[..|events| - 1]).now
    ensures Truth(events, s.timeThreshold, s.speedThreshold)
         == Plus(Truth(events[..|events| - 1], s.timeThreshold, s.speedThreshold), Growth(s, events[|events| - 1]))
  {
    hide LedgerOf, Worth, GainOf;
  }

  /** The increments of the code are those of the definition. */
  lemma GrowthIsDelta(s: State, e: Event)
    ensures Growth(s, e) == Delta(s, e)
  {
    hide Growth, Delta;
    if e.Finish? { FinishGrowth(s, e); } else { OtherGrowth(s, e); }
  }

  lemma FinishGrowth(s: State, e: Event)
    requires e.Finish?
    ensures Growth(s, e) == Delta(s, e)
  {
    hide Duration, RetrieveSpeed, Finished;
  }

  lemma OtherGrowth(s: State, e: Event)
    requires !e.Finish?
    ensures Growth(s, e) == Delta(s, e)
  {
  }

  /** What the last event adds is what the totals grow by. */
  lemma TruthStep(events: seq<Event>, s: State)
    requires events != [] && forall k: Kind :: s.tables.Get(k) == LedgerOf(k, events[..|events| - 1]).now
    ensures Truth(events, s.timeThreshold, s.speedThreshold)
         == Plus(Truth(events[..|events| - 1], s.timeThreshold, s.speedThreshold), Delta(s, events[|events| - 1]))
  {
    hide Truth, Plus, Growth, Delta, LedgerOf;
    TruthGrows(events, s);
    GrowthIsDelta(s, events[|events| - 1]);
  }

  /** Report i lists the finished request. */
  ghost predicate Covers(l: Ledger, k: Kind, id: nat, i: nat) {
    i < |l.gets| && id in l.gets[i].live && Done(k, l.gets[i].live[id])
  }

  ghost predicate Covered(l: Ledger, k: Kind, id: nat) {
    exists i: nat :: Covers(l, k, id, i)
  }

  ghost predicate Accounted(l: Ledger, k: Kind) {
    && l.now.next == l.ever.next
    && (forall id: nat :: id in l.ever.live <==> id < l.now.next)
    && (forall id: nat :: id in l.now.live ==> id in l.ever.live && l.now.live[id] == l.ever.live[id])
    && (forall id: nat :: id in l.ever.live ==> (id in l.now.live <==> !Covered(l, k, id)))
    && (forall id: nat, i: nat :: Covers(l, k, id, i) ==> id in l.ever.live && l.gets[i].live[id] == l.ever.live[id])
    && (forall id: nat, i: nat, j: nat :: Covers(l, k, id, i) && Covers(l, k, id, j) ==> i == j)
  }

  lemma SameGets(l: Ledger, l': Ledger, k: Kind)
    requires l.gets == l'.gets
    ensures forall id: nat, i: nat :: Covers(l, k, id, i) <==> Covers(l', k, id, i)
    ensures forall id: nat :: Covered(l, k, id) <==> Covered(l', k, id)
    ensures forall id: nat, i: nat :: Covers(l, k, id, i) ==> Covered(l, k, id)
  {
    forall id: nat ensures Covered(l, k, id) <==> Covered(l', k, id) {
      if i: nat :| Covers(l, k, id, i) { assert Covers(l', k, id, i); }
      if i: nat :| Covers(l', k, id, i) { assert Covers(l, k, id, i); }
    }
  }

  lemma StepAccounts(l: Ledger, e: Event, k: Kind)
    requires Accounted(l, k)
    ensures Accounted(LedgerStep(k, l, e), k)
  {
    hide Done, Finished, Covers, Covered;
    if e.GetStats? {
      GetAccounts(l, k);
    } else {
      SameGets(l, LedgerStep(k, l, e), k);
      NotYet(l, k);
    }
  }

  /** A fresh id is in no earlier report. */
  lemma NotYet(l: Ledger, k: Kind)
    requires Accounted(l, k)
    ensures !Covered(l, k, l.now.next)
  {
  }

  lemma GetAccounts(l: Ledger, k: Kind)
    requires Accounted(l, k)
    ensures Accounted(LedgerStep(k, l, GetStats), k)
  {
    hide Done;
    var l' := LedgerStep(k, l, GetStats);
    var n := |l.gets|;
    forall id: nat, i: nat
      ensures Covers(l', k, id, i) <==> Covers(l, k, id, i) || (i == n && id in l.now.live && Done(k, l.now.live[id]))
    {
    }
    forall id: nat ensures Covered(l', k, id) <==> Covered(l, k, id) || (id in l.now.live && Done(k, l.now.live[id])) {
      if i: nat :| Covers(l, k, id, i) { assert Covers(l', k, id, i); }
      if id in l.now.live && Done(k, l.now.live[id]) { assert Covers(l', k, id, n); }
    }
  }

  lemma {:induction false} RunAccounts(events: seq<Event>, k: Kind)
    ensures Accounted(LedgerOf(k, events), k)
  {
    hide Accounted, LedgerStep;
    if events == [] {
      EmptyAccounts(k);
    } else {
      RunAccounts(events[..|events| - 1], k);
      StepAccounts(LedgerOf(k, events[..|events| - 1]), events[|events| - 1], k);
    }
  }

  lemma EmptyAccounts(k: Kind)
    ensures Accounted(LedgerOf(k, []), k)
  {
  }

  /** A request is in the dictionary until one report covers it, and no other ever does; what
      that report sees is the request's final record; unfinished requests stay. */
  lemma CoveredExactlyOnce(events: seq<Event>, k: Kind, id: nat)
    ensures var l := LedgerOf(k, events);
      && (id in l.ever.live <==> id < l.now.next)
      && (id in l.now.live <==> id in l.ever.live && !Covered(l, k, id))
      && (id in l.now.live ==> l.now.live[id] == l.ever.live[id])
      && (id in l.ever.live && !Done(k, l.ever.live[id]) ==> id in l.now.live)
      && (forall i: nat :: Covers(l, k, id, i) ==> id in l.ever.live && l.gets[i].live[id] == l.ever.live[id])
      && (forall i: nat, j: nat :: Covers(l, k, id, i) && Covers(l, k, id, j) ==> i == j)
  {
    RunAccounts(events, k);
  }

  /** A report leaves no finished request behind: the next one is not needed to cover it. */
  lemma ReportCoversAllFinished(events: seq<Event>, k: Kind)
    ensures var t := LedgerOf(k, events + [GetStats]).now; forall id :: id in t.live ==> !Done(k, t.live[id])
  {
    assert (events + [GetStats])[..|events|] == events;
  }

  // ----- with a strictly increasing clock, covered requests are the listed durations -----

  predicate Timed(e: Event, k: Kind) {
    (e.Request? || e.Finish?) && e.kind == k
  }

  function LastTime(k: Kind, events: seq<Event>): real {
    if events == [] then 0.0
    else if Timed(events[|events| - 1], k) then events[|events| - 1].now
    else LastTime(k, events[..|events| - 1])
  }

  /** The clock readings of one kind of request are positive and strictly increasing. */
  predicate Clocked(k: Kind, events: seq<Event>) {
    events == []
    || var front, e := events[..|events| - 1], events[|events| - 1];
       Clocked(k, front) && (Timed(e, k) ==> e.now > LastTime(k, front))
  }

  ghost predicate Sound(t: Table, k: Kind, last: real) {
    forall id: nat :: id in t.live ==> SoundRecord(t.live[id], k, last)
  }

  predicate SoundRecord(r: Record, k: Kind, last: real) {
    && 0.0 < r.start <= last && (r.end == 0.0 || r.start < r.end <= last)
    && (Done(k, r) <==> r.end != 0.0)
  }

  lemma StepSound(t: Table, k: Kind, last: real, e: Event)
    requires Sound(t, k, last) && last >= 0.0 && (Timed(e, k) ==> e.now > last)
    ensures Sound(TableStep(k, t, e), k, if Timed(e, k) then e.now else last)
  {
  }

  lemma {:induction false} RunSound(events: seq<Event>, k: Kind)
    requires Clocked(k, events)
    ensures var l := LedgerOf(k, events);
      && LastTime(k, events) >= 0.0 && Sound(l.now, k, LastTime(k, events)) && Sound(l.ever, k, LastTime(k, events))
      && forall i :: 0 <= i < |l.gets| ==> Sound(l.gets[i], k, LastTime(k, events))
  {
    hide TableStep, Sound;
    if events == [] {
      EmptySound(k);
    } else {
      var front, e := events[..|events| - 1], events[|events| - 1];
      RunSound(front, k);
      var l, last, last' := LedgerOf(k, front), LastTime(k, front), LastTime(k, events);
      StepSound(l.now, k, last, e);
      StepSound(l.ever, k, last, e);
      SoundLater(l.ever, k, last, last');
      SoundLater(l.now, k, last, last');
      forall i | 0 <= i < |l.gets| ensures Sound(l.gets[i], k, last') {
        SoundLater(l.gets[i], k, last, last');
      }
    }
  }

  lemma EmptySound(k: Kind)
    ensures Sound(Table(0, map[]), k, 0.0)
  {
  }

  lemma SoundLater(t: Table, k: Kind, last: real, later: real)
    requires Sound(t, k, last) && last <= later
    ensures Sound(t, k, later)
  {
  }

  /** Report i's durations are those of exactly the requests it covers, each once. */
  lemma ListedIffCovered(events: seq<Event>, k: Kind, id: nat, i: nat)
    requires Clocked(k, events) && i < |LedgerOf(k, events).gets|
    ensures var l := LedgerOf(k, events);
      && (id in Listed(l.gets[i].live, l.gets[i].next) <==> Covers(l, k, id, i))
      && (Covers(l, k, id, i) ==> id in l.ever.live && Duration(l.gets[i].live[id]) == Duration(l.ever.live[id]) > 0.0)
  {
    hide LedgerOf;
    var l := LedgerOf(k, events);
    RunSound(events, k);
    RunAccounts(events, k);
    GetsBounded(events, k, i);
    assert Sound(l.gets[i], k, LastTime(k, events));
    DurationsOfListed(l.gets[i].live, l.gets[i].next);
    assert id in l.gets[i].live ==> SoundRecord(l.gets[i].live[id], k, LastTime(k, events));
  }

  lemma {:induction false} GetsBounded(events: seq<Event>, k: Kind, i: nat)
    requires i < |LedgerOf(k, events).gets|
    ensures forall id: nat :: id in LedgerOf(k, events).gets[i].live ==> id < LedgerOf(k, events).gets[i].next
  {
    hide TableStep;
    var front := events[..|events| - 1];
    RunAccounts(front, k);
    if i < |LedgerOf(k, front).gets| {
      GetsBounded(front, k, i);
    }
  }

  // ----- the recorded time is that of the first finish -----

  /** The dictionary if no report were ever made. */
  function Reference(k: Kind, events: seq<Event>): Table {
    if events == [] then Table(0, map[])
    else
      var t, e := Reference(k, events[..|events| - 1]), events[|events| - 1];
      if e.GetStats? then t else TableStep(k, t, e)
  }

  ghost predicate SameTimes(t: Table, u: Table) {
    && t.next == u.next && t.live.Keys == u.live.Keys
    && forall id: nat :: id in t.live ==> t.live[id].start == u.live[id].start && t.live[id].end == u.live[id].end
  }

  /** Reporting changes no time: every retrieve, store or lookup is recorded, whenever the
      reports fall, with the start and the first finish it would have had without any. */
  lemma {:induction false} TimesUnaffectedByReports(events: seq<Event>, k: Kind)
    requires Clocked(k, events) && !k.P2P?
    ensures SameTimes(LedgerOf(k, events).ever, Reference(k, events))
  {
    if events != [] {
      var front, e := events[..|events| - 1], events[|events| - 1];
      TimesUnaffectedByReports(front, k);
      RunAccounts(front, k);
      RunSound(front, k);
      SameTimesStep(LedgerOf(k, front), Reference(k, front), k, e, LastTime(k, front));
    }
  }

  lemma SameTimesStep(l: Ledger, u: Table, k: Kind, e: Event, last: real)
    requires Accounted(l, k) && SameTimes(l.ever, u) && !k.P2P?
    requires Sound(l.ever, k, last)
    ensures SameTimes(LedgerStep(k, l, e).ever, if e.GetStats? then u else TableStep(k, u, e))
  {
    hide Done, Finished, SoundRecord, Covered;
    if e.Finish? && e.kind == k && e.id in l.ever.live {
      if e.id !in l.now.live {
        EndRecorded(l, k, e.id, last);
        EndKept(k, u.live[e.id], e.amount, e.now);
      } else {
        SameEnd(k, l.ever.live[e.id], u.live[e.id], e.amount, e.now);
      }
    }
  }

  lemma EndRecorded(l: Ledger, k: Kind, id: nat, last: real)
    requires Accounted(l, k) && Sound(l.ever, k, last) && id in l.ever.live && id !in l.now.live
    ensures l.ever.live[id].end != 0.0
  {
    assert Covered(l, k, id);
    assert SoundRecord(l.ever.live[id], k, last);
  }

  lemma EndKept(k: Kind, r: Record, amount: int, now: real)
    requires r.end != 0.0 && !k.P2P?
    ensures Finished(k, r, amount, now).end == r.end && Finished(k, r, amount, now).start == r.start
  {
  }

  lemma SameEnd(k: Kind, r: Record, q: Record, amount: int, now: real)
    requires r.start == q.start && r.end == q.end
    ensures Finished(k, r, amount, now).end == Finished(k, q, amount, now).end
    ensures Finished(k, r, amount, now).start == Finished(k, q, amount, now).start
  {
  }

  // ----- the monitor as an object -----

  /** A Python list of floats. */
  class Measurements {
    var items: seq<real>

    constructor (items: seq<real>)
      ensures this.items == items
    {
      this.items := items;
    }

    method Append(x: real)
      modifies this
      ensures items == old(items) + [x]
    {
      items := items + [x];
    }

    method Clear()
      modifies this
      ensures items == []
    {
      items := [];
    }

    method Copy() returns (c: Measurements)
      ensures fresh(c) && c.items == items
    {
      c := new Measurements(items);
    }
  }

  /** What `get_stats_and_clear` returns: the request times are new lists, the measurement
      series are list objects. */
  datatype Report = Report(
    interval: Counters,
    timeToRetrieve: seq<real>, timeToStore: seq<real>, timeToLookup: seq<real>, timeToTransfer: seq<real>,
    toGet: Measurements, toPut: Measurements, toGetSync: Measurements, lifespans: Measurements)
  {
    ghost function Objects(): set<object> {
      {toGet, toPut, toGetSync, lifespans}
    }

    ghost predicate Distinct() {
      && toGet != toPut && toGet != toGetSync && toGet != lifespans
      && toPut != toGetSync && toPut != lifespans && toGetSync != lifespans
    }

    /** The report shows the state as it was. */
    ghost predicate Shows(s: State)
      reads Objects()
    {
      && interval == s.interval
      && timeToRetrieve == Durations(s.tables.retrieve.live, s.tables.retrieve.next)
      && timeToStore == Durations(s.tables.store.live, s.tables.store.next)
      && timeToLookup == Durations(s.tables.lookup.live, s.tables.lookup.next)
      && timeToTransfer == Durations(s.tables.p2p.live, s.tables.p2p.next)
      && s.lists == Lists(toGet.items, toPut.items, toGetSync.items, lifespans.items)
    }
  }

  /** An end that is recorded stays. */
  function FirstEnd(r: Record, now: real): real {
    if r.end != 0.0 then r.end else now
  }

  class Monitor {
    var interval: Counters
    var retrieves: Table
    var stores: Table
    var lookups: Table
    var transfers: Table
    const toGet: Measurements
    const toPut: Measurements
    const toGetSync: Measurements
    const lifespans: Measurements
    const timeThreshold: real
    const speedThreshold: real

    ghost predicate Valid()
      reads this
    {
      && InUse(retrieves) && InUse(stores) && InUse(lookups) && InUse(transfers)
      && toGet != toPut && toGet != toGetSync && toGet != lifespans
      && toPut != toGetSync && toPut != lifespans && toGetSync != lifespans
    }

    ghost function ListObjects(): set<object> {
      {toGet, toPut, toGetSync, lifespans}
    }

    ghost function View(): State
      reads this, ListObjects()
    {
      State(interval, Tables(retrieves, stores, lookups, transfers),
            Lists(toGet.items, toPut.items, toGetSync.items, lifespans.items),
            timeThreshold, speedThreshold)
    }

    constructor (timeThreshold: real, speedThreshold: real)
      ensures Valid() && fresh(ListObjects()) && View() == Initial(timeThreshold, speedThreshold)
    {
      this.interval := ZERO;
      this.retrieves, this.stores, this.lookups, this.transfers :=
        Table(0, map[]), Table(0, map[]), Table(0, map[]), Table(0, map[]);
      this.toGet := new Measurements([]);
      this.toPut := new Measurements([]);
      this.toGetSync := new Measurements([]);
      this.lifespans := new Measurements([]);
      this.timeThreshold, this.speedThreshold := timeThreshold, speedThreshold;
    }

    method OnRetrieveRequest(tokens: int, now: real) returns (id: nat)
      requires Valid()
      modifies `interval, `retrieves
      ensures Valid() && id == old(retrieves).next && View() == Step(old(View()), Request(Retrieve, tokens, now))
      ensures retrieves == Table(id + 1, old(retrieves).live[id := Record(tokens, 0, false, now, 0.0)])
    {
      interval := interval.(requestedTokens := interval.requestedTokens + tokens);
      interval := interval.(retrieveRequests := interval.retrieveRequests + 1);
      id := retrieves.next;
      retrieves := Table(id + 1, retrieves.live[id := Record(tokens, 0, false, now, 0.0)]);
    }

    /** False is the failed assertion: the request is no longer in the dictionary. */
    method OnRetrieveFinished(id: nat, tokens: int, now: real) returns (ok: bool)
      requires Valid()
      modifies `interval, `retrieves
      ensures Valid() && ok == (id in old(retrieves).live)
      ensures !ok ==> retrieves == old(retrieves) && interval == old(interval)
      ensures View() == Step(old(View()), Finish(Retrieve, id, tokens, now))
      ensures ok ==>
                var r := old(retrieves).live[id];
                && retrieves.next == old(retrieves).next
                && retrieves.live == old(retrieves).live[id := r.(hitTokens := tokens, end := FirstEnd(r, now))]
    {
      hide RetrieveSpeed, Duration;
      if id !in retrieves.live {
        return false;
      }
      var r := retrieves.live[id];
      r := r.(hitTokens := tokens);
      if r.end == 0.0 {
        r := r.(end := now);
      }
      interval := interval.(hitTokens := interval.hitTokens + tokens);
      var time, speed := Duration(r), RetrieveSpeed(r);
      if time > timeThreshold {
        interval := interval.(slowByTime := interval.slowByTime + 1);
      }
      if 0.0 < speed < speedThreshold {
        interval := interval.(slowBySpeed := interval.slowBySpeed + 1);
      }
      retrieves := retrieves.(live := retrieves.live[id := r]);
      ok := true;
    }

    method OnStoreRequest(tokens: int, now: real) returns (id: nat)
      requires Valid()
      modifies `interval, `stores
      ensures Valid() && id == old(stores).next && View() == Step(old(View()), Request(Store, tokens, now))
      ensures stores == Table(id + 1, old(stores).live[id := Record(tokens, 0, false, now, 0.0)])
    {
      interval := interval.(storeRequests := interval.storeRequests + 1);
      interval := interval.(storedTokens := interval.storedTokens + tokens);
      id := stores.next;
      stores := Table(id + 1, stores.live[id := Record(tokens, 0, false, now, 0.0)]);
    }

    method OnStoreFinished(id: nat, tokens: int, now: real) returns (ok: bool)
      requires Valid()
      modifies `stores
      ensures Valid() && ok == (id in old(stores).live)
      ensures !ok ==> stores == old(stores)
      ensures View() == Step(old(View()), Finish(Store, id, tokens, now))
      ensures ok ==>
                var r := old(stores).live[id];
                && stores.next == old(stores).next
                && stores.live == old(stores).live[id :=
                     r.(numTokens := if tokens >= 0 then tokens else r.numTokens, end := FirstEnd(r, now))]
    {
      hide RetrieveSpeed, Duration;
      if id !in stores.live {
        return false;
      }
      var r := stores.live[id];
      if r.end == 0.0 {
        r := r.(end := now);
      }
      if tokens >= 0 {
        r := r.(numTokens := tokens);
      }
      stores := stores.(live := stores.live[id := r]);
      ok := true;
    }

    method OnLookupRequest(tokens: int, now: real) returns (id: nat)
      requires Valid()
      modifies `interval, `lookups
      ensures Valid() && id == old(lookups).next && View() == Step(old(View()), Request(Lookup, tokens, now))
      ensures lookups == Table(id + 1, old(lookups).live[id := Record(tokens, 0, false, now, 0.0)])
    {
      interval := interval.(lookupRequests := interval.lookupRequests + 1);
      interval := interval.(lookupTokens := interval.lookupTokens + tokens);
      id := lookups.next;
      lookups := Table(id + 1, lookups.live[id := Record(tokens, 0, false, now, 0.0)]);
    }

    method OnLookupFinished(id: nat, tokens: int, now: real) returns (ok: bool)
      requires Valid()
      modifies `interval, `lookups
      ensures Valid() && ok == (id in old(lookups).live)
      ensures !ok ==> lookups == old(lookups) && interval == old(interval)
      ensures View() == Step(old(View()), Finish(Lookup, id, tokens, now))
      ensures ok ==>
                var r := old(lookups).live[id];
                && lookups.next == old(lookups).next
                && lookups.live
                   == old(lookups).live[id := r.(hitTokens := tokens, isFinished := true, end := FirstEnd(r, now))]
    {
      hide RetrieveSpeed, Duration;
      if id !in lookups.live {
        return false;
      }
      var r := lookups.live[id];
      r := r.(hitTokens := tokens, isFinished := true);
      if r.end == 0.0 {
        r := r.(end := now);
      }
      interval := interval.(lookupHits := interval.lookupHits + tokens);
      if tokens == 0 {
        interval := interval.(zeroHitLookups := interval.zeroHitLookups + 1);
      }
      lookups := lookups.(live := lookups.live[id := r]);
      ok := true;
    }

    method OnTransferRequest(tokens: int, now: real) returns (id: nat)
      requires Valid()
      modifies `interval, `transfers
      ensures Valid() && id == old(transfers).next && View() == Step(old(View()), Request(P2P, tokens, now))
      ensures transfers == Table(id + 1, old(transfers).live[id := Record(tokens, 0, false, now, 0.0)])
    {
      interval := interval.(p2pRequests := interval.p2pRequests + 1);
      id := transfers.next;
      transfers := Table(id + 1, transfers.live[id := Record(tokens, 0, false, now, 0.0)]);
    }

    method OnTransferFinished(id: nat, now: real) returns (ok: bool)
      requires Valid()
      modifies `interval, `transfers
      ensures Valid() && ok == (id in old(transfers).live)
      ensures !ok ==> transfers == old(transfers) && interval == old(interval)
      ensures View() == Step(old(View()), Finish(P2P, id, 0, now))
      ensures ok ==>
                var r := old(transfers).live[id];
                && transfers.next == old(transfers).next
                && transfers.live == old(transfers).live[id := r.(end := now)]
    {
      hide RetrieveSpeed, Duration;
      if id !in transfers.live {
        return false;
      }
      var r := transfers.live[id];
      interval := interval.(p2pTokens := interval.p2pTokens + r.numTokens);
      r := r.(end := now);
      transfers := transfers.(live := transfers.live[id := r]);
      ok := true;
    }

    method UpdateRemoteRead(bytes: int)
      modifies `interval
      ensures View() == Step(old(View()), RemoteRead(bytes))
    {
      interval := interval.(remoteReads := interval.remoteReads + 1);
      interval := interval.(remoteReadBytes := interval.remoteReadBytes + bytes);
    }

    method UpdateRemoteWrite(bytes: int)
      modifies `interval
      ensures View() == Step(old(View()), RemoteWrite(bytes))
    {
      interval := interval.(remoteWrites := interval.remoteWrites + 1);
      interval := interval.(remoteWriteBytes := interval.remoteWriteBytes + bytes);
    }

    method UpdatePingCode(code: int)
      modifies `interval
      ensures View() == Step(old(View()), PingCode(code))
    {
      if code != 0 {
        interval := interval.(pingErrors := interval.pingErrors + 1);
      } else {
        interval := interval.(pingSuccesses := interval.pingSuccesses + 1);
      }
    }

    method UpdateEvictions(keys: int)
      modifies `interval
      ensures View() == Step(old(View()), Evict(keys))
    {
      interval := interval.(evictions := interval.evictions + 1);
      interval := interval.(evictedKeys := interval.evictedKeys + keys);
    }

    method UpdateEvictFailures(count: int)
      modifies `interval
      ensures View() == Step(old(View()), EvictFailed(count))
    {
      interval := interval.(evictFailures := interval.evictFailures + count);
    }

    method UpdateForcedUnpins(delta: int)
      modifies `interval
      ensures View() == Step(old(View()), ForcedUnpin(delta))
    {
      interval := interval.(forcedUnpins := interval.forcedUnpins + delta);
    }

    method UpdateVllmHitTokens(delta: int)
      modifies `interval
      ensures View() == Step(old(View()), VllmHit(delta))
    {
      interval := interval.(vllmHitTokens := interval.vllmHitTokens + delta);
    }

    method UpdatePromptTokens(delta: int)
      modifies `interval
      ensures View() == Step(old(View()), Prompt(delta))
    {
      interval := interval.(promptTokens := interval.promptTokens + delta);
    }

    /** The three `update_interval_remote_time_to_...` and `on_chunk_reuse`. */
    method AppendTo(series: Series, value: real)
      requires Valid()
      modifies ListObjects()
      ensures View() == Step(old(View()), Append(series, value))
    {
      match series
      case ToGet => toGet.Append(value);
      case ToPut => toPut.Append(value);
      case ToGetSync => toGetSync.Append(value);
      case Lifespan => lifespans.Append(value / 60.0);
    }

    /** The report of everything since the last one; its lists are new objects, so that the
        clearing that follows does not reach them. */
    method GetStatsAndClear() returns (report: Report)
      requires Valid()
      modifies `interval, `retrieves, `stores, `lookups, `transfers, ListObjects()
      ensures report.Shows(old(View())) && report.Distinct() && fresh(report.Objects())
      ensures Valid() && View() == Step(old(View()), GetStats)
    {
      hide Step, Durations;
      var timeToRetrieve := DurationsOf(retrieves);
      var timeToStore := DurationsOf(stores);
      var timeToLookup := DurationsOf(lookups);
      var timeToTransfer := DurationsOf(transfers);
      var getCopy := toGet.Copy();
      var putCopy := toPut.Copy();
      var getSyncCopy := toGetSync.Copy();
      var lifespanCopy := lifespans.Copy();
      report := Report(interval, timeToRetrieve, timeToStore, timeToLookup, timeToTransfer,
                       getCopy, putCopy, getSyncCopy, lifespanCopy);
      Clear();
    }

    /** `_clear` */
    method Clear()
      requires Valid()
      modifies `interval, `retrieves, `stores, `lookups, `transfers, ListObjects()
      ensures Valid() && View() == Step(old(View()), GetStats)
    {
      interval := Counters(0, 0, 0, 0, 0, 0, 0, 0, 0, 0, 0, 0, 0, 0, 0, 0, 0, 0, 0, 0, 0, 0, 0, 0, 0);
      toGet.Clear();
      toPut.Clear();
      toGetSync.Clear();
      retrieves := KeepUnfinished(Retrieve, retrieves);
      stores := KeepUnfinished(Store, stores);
      transfers := KeepUnfinished(P2P, transfers);
      lookups := KeepUnfinished(Lookup, lookups);
      lifespans.Clear();
    }
  }

  /** Ids in the dictionary were handed out. */
  ghost predicate InUse(t: Table) {
    forall id :: id in t.live ==> id < t.next
  }

  /** `filter_out_zeros` of a dictionary's durations. */
  method DurationsOf(t: Table) returns (r: seq<real>)
    ensures r == Durations(t.live, t.next)
  {
    r := [];
    for id := 0 to t.next
      invariant r == Durations(t.live, id)
    {
      if id in t.live && Duration(t.live[id]) != 0.0 {
        r := r + [Duration(t.live[id])];
      }
    }
  }

  /** The part of `_clear` that rebuilds one dictionary. */
  method KeepUnfinished(k: Kind, t: Table) returns (r: Table)
    requires InUse(t)
    ensures r == Kept(k, t)
  {
    var kept: map<nat, Record> := map[];
    for id := 0 to t.next
      invariant forall i :: i in kept <==> i < id && i in t.live && !Done(k, t.live[i])
      invariant forall i :: i in kept ==> kept[i] == t.live[i]
    {
      if id in t.live && !Done(k, t.live[id]) {
        kept := kept[id := t.live[id]];
      }
    }
    r := Table(t.next, kept);
  }

  /** A transfer's finish carries no amount. */
  lemma TransferAmountIrrelevant(s: State, id: nat, n: int, now: real)
    ensures Step(s, Finish(P2P, id, n, now)) == Step(s, Finish(P2P, id, 0, now))
  {
  }

  /** One event of a run. */
  method Handle(m: Monitor, e: Event) returns (report: Option<Report>)
    requires m.Valid()
    modifies m, m.ListObjects()
    ensures m.Valid() && m.View() == Step(old(m.View()), e)
    ensures report.Some? <==> e.GetStats?
    ensures report.Some? ==>
            report.value.Shows(old(m.View())) && report.value.Distinct() && fresh(report.value.Objects())
  {
    hide Step;
    report := None;
    match e {
      case Request(Retrieve, n, now) => var _ := m.OnRetrieveRequest(n, now);
      case Request(Store, n, now) => var _ := m.OnStoreRequest(n, now);
      case Request(Lookup, n, now) => var _ := m.OnLookupRequest(n, now);
      case Request(P2P, n, now) => var _ := m.OnTransferRequest(n, now);
      case Finish(Retrieve, id, n, now) => var _ := m.OnRetrieveFinished(id, n, now);
      case Finish(Store, id, n, now) => var _ := m.OnStoreFinished(id, n, now);
      case Finish(Lookup, id, n, now) => var _ := m.OnLookupFinished(id, n, now);
      case Finish(P2P, id, n, now) =>
        TransferAmountIrrelevant(m.View(), id, n, now);
        var _ := m.OnTransferFinished(id, now);
      case Append(series, x) => m.AppendTo(series, x);
      case RemoteRead(n) => m.UpdateRemoteRead(n);
      case RemoteWrite(n) => m.UpdateRemoteWrite(n);
      case PingCode(code) => m.UpdatePingCode(code);
      case Evict(n) => m.UpdateEvictions(n);
      case EvictFailed(n) => m.UpdateEvictFailures(n);
      case ForcedUnpin(n) => m.UpdateForcedUnpins(n);
      case VllmHit(n) => m.UpdateVllmHitTokens(n);
      case Prompt(n) => m.UpdatePromptTokens(n);
      case GetStats =>
        var r := m.GetStatsAndClear();
        report := Some(r);
    }
  }
}
