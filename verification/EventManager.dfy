/** The event manager: futures filed under their status, one dictionary per status. */
module EventManager {
  import opened Options

  datatype Status = Ongoing | Done | NotFound

  datatype Op<F> = Add(id: string, future: F) | Update(id: string, status: Status) | Pop(id: string)

  datatype Outcome<F> = Accepted | Popped(future: F) | KeyError | AssertionFailed

  /** The three dictionaries of one event type. */
  datatype Files<F> = Files(ongoing: map<string, F>, done: map<string, F>, notFound: map<string, F>) {

    function In(s: Status): map<string, F> {
      match s case Ongoing => ongoing case Done => done case NotFound => notFound
    }

    function With(s: Status, d: map<string, F>): Files<F> {
      match s
      case Ongoing => this.(ongoing := d)
      case Done => this.(done := d)
      case NotFound => this.(notFound := d)
    }

    /** The first dictionary, in the order of the enumeration, that has the id. */
    function Where(id: string): Status {
      if id in ongoing then Ongoing else if id in done then Done else NotFound
    }

    predicate Present(id: string) {
      id in ongoing || id in done || id in notFound
    }

    /** No id is filed twice. */
    predicate Disjoint() {
      ongoing.Keys !! done.Keys && ongoing.Keys !! notFound.Keys && done.Keys !! notFound.Keys
    }
  }

  function Step<F>(s: Files<F>, op: Op<F>): (Files<F>, Outcome<F>) {
    match op
    case Add(id, future) => (s.(ongoing := s.ongoing[id := future]), Accepted)
    case Update(id, status) =>
      if !s.Present(id) then (s, KeyError)
      else
        var from := s.Where(id);
        var event := s.In(from)[id];
        var taken := s.With(from, s.In(from) - {id});
        (taken.With(status, taken.In(status)[id := event]), Accepted)
    case Pop(id) =>
      if id !in s.done then (s, AssertionFailed)
      else (s.(done := s.done - {id}), Popped(s.done[id]))
  }

  function Run<F>(s: Files<F>, ops: seq<Op<F>>): Files<F>
    decreases |ops|
  {
    if ops == [] then s else Run(Step(s, ops[0]).0, ops[1..])
  }

  /** An id is only added while it is absent. */
  ghost predicate Disciplined<F>(s: Files<F>, ops: seq<Op<F>>)
    decreases |ops|
  {
    ops != [] ==>
      && (ops[0].Add? ==> !s.Present(ops[0].id))
      && Disciplined(Step(s, ops[0]).0, ops[1..])
  }

  /** How often the run files `future` under `id`, and how often it hands it out. */
  function Adds<F(==)>(ops: seq<Op<F>>, id: string, future: F): nat {
    if ops == [] then 0 else (if ops[0] == Add(id, future) then 1 else 0) + Adds(ops[1..], id, future)
  }

  function Pops<F(==)>(s: Files<F>, ops: seq<Op<F>>, id: string, future: F): nat
    decreases |ops|
  {
    if ops == [] then 0
    else
      var (next, out) := Step(s, ops[0]);
      (if ops[0] == Pop(id) && out == Popped(future) then 1 else 0) + Pops(next, ops[1..], id, future)
  }

  function Filed<F(==)>(d: map<string, F>, id: string, future: F): nat {
    if id in d && d[id] == future then 1 else 0
  }

  /** How many dictionaries have `future` under `id`. */
  function Held<F(==)>(s: Files<F>, id: string, future: F): nat {
    Filed(s.ongoing, id, future) + Filed(s.done, id, future) + Filed(s.notFound, id, future)
  }

  /** The future an operation writes over, which nobody can ever pop: an add finds the id
      ongoing, or an update finds it already filed where it moves it to. */
  function Overwritten<F>(s: Files<F>, op: Op<F>): Option<F> {
    match op
    case Add(id, _) => if id in s.ongoing then Some(s.ongoing[id]) else None
    case Update(id, status) =>
      if s.Present(id) && status != s.Where(id) && id in s.In(status) then Some(s.In(status)[id]) else None
    case Pop(_) => None
  }

  /** How often the run writes over `future` filed under `id`. */
  function Lost<F(==)>(s: Files<F>, ops: seq<Op<F>>, id: string, future: F): nat
    decreases |ops|
  {
    if ops == [] then 0
    else
      (if ops[0].id == id && Overwritten(s, ops[0]) == Some(future) then 1 else 0)
      + Lost(Step(s, ops[0]).0, ops[1..], id, future)
  }

  predicate NeverOverwrites<F(==)>(s: Files<F>, ops: seq<Op<F>>)
    decreases |ops|
  {
    ops == [] || (Overwritten(s, ops[0]).None? && NeverOverwrites(Step(s, ops[0]).0, ops[1..]))
  }

  /** Taking an event out of one dictionary and putting it into another. */
  lemma MoveAccounts<F>(s: Files<F>, moved: string, to: Status, id: string, future: F)
    requires s.Present(moved)
    ensures Held(s, id, future)
         == Held(Step(s, Update(moved, to)).0, id, future)
            + if moved == id && Overwritten(s, Update(moved, to)) == Some(future) then 1 else 0
  {
    hide Held;
    var from := s.Where(moved);
    var taken := s.With(from, s.In(from) - {moved});
    TakenOut(s, moved, from, id, future);
    PutIn(taken, moved, s.In(from)[moved], to, id, future);
    assert taken.In(to) == if to == from then s.In(from) - {moved} else s.In(to);
  }

  lemma TakenOut<F>(s: Files<F>, moved: string, from: Status, id: string, future: F)
    requires moved in s.In(from)
    ensures Held(s, id, future)
         == Held(s.With(from, s.In(from) - {moved}), id, future)
            + if id == moved && s.In(from)[moved] == future then 1 else 0
  {
  }

  lemma PutIn<F>(s: Files<F>, moved: string, event: F, to: Status, id: string, future: F)
    ensures Held(s, id, future) + (if id == moved && event == future then 1 else 0)
         == Held(s.With(to, s.In(to)[moved := event]), id, future)
            + if id == moved && moved in s.In(to) && s.In(to)[moved] == future then 1 else 0
  {
  }

  lemma StepAccounts<F>(s: Files<F>, op: Op<F>, id: string, future: F)
    ensures Held(s, id, future) + (if op == Add(id, future) then 1 else 0)
         == Held(Step(s, op).0, id, future)
            + (if op == Pop(id) && Step(s, op).1 == Popped(future) then 1 else 0)
            + (if op.id == id && Overwritten(s, op) == Some(future) then 1 else 0)
  {
    if op.Update? && s.Present(op.id) {
      MoveAccounts(s, op.id, op.status, id, future);
    }
  }

  /** Over any run, every filing of a future is still there, was handed out, or was written over. */
  lemma {:induction false} FuturesAccounted<F>(s: Files<F>, ops: seq<Op<F>>, id: string, future: F)
    ensures Held(s, id, future) + Adds(ops, id, future)
         == Held(Run(s, ops), id, future) + Pops(s, ops, id, future) + Lost(s, ops, id, future)
    decreases |ops|
  {
    hide Held, Step, Overwritten;
    if ops != [] {
      StepAccounts(s, ops[0], id, future);
      FuturesAccounted(Step(s, ops[0]).0, ops[1..], id, future);
    }
  }

  lemma {:induction false} NothingLost<F>(s: Files<F>, ops: seq<Op<F>>, id: string, future: F)
    requires NeverOverwrites(s, ops)
    ensures Lost(s, ops, id, future) == 0
    decreases |ops|
  {
    if ops != [] { NothingLost(Step(s, ops[0]).0, ops[1..], id, future); }
  }

  lemma {:induction false} SomethingLost<F>(s: Files<F>, ops: seq<Op<F>>) returns (id: string, future: F)
    requires !NeverOverwrites(s, ops)
    ensures Lost(s, ops, id, future) > 0
    decreases |ops|
  {
    if Overwritten(s, ops[0]).Some? {
      id, future := ops[0].id, Overwritten(s, ops[0]).value;
    } else {
      id, future := SomethingLost(Step(s, ops[0]).0, ops[1..]);
    }
  }

  ghost predicate Conserved<F>(s: Files<F>, ops: seq<Op<F>>, id: string, future: F) {
    Held(s, id, future) + Adds(ops, id, future) == Held(Run(s, ops), id, future) + Pops(s, ops, id, future)
  }

  /** No future is lost or duplicated over a run if and only if no operation of it writes
      over a filed future. */
  lemma ConservedIffNeverOverwritten<F>(s: Files<F>, ops: seq<Op<F>>)
    ensures (forall id: string, future: F :: Conserved(s, ops, id, future)) <==> NeverOverwrites(s, ops)
  {
    if NeverOverwrites(s, ops) {
      forall id: string, future: F ensures Conserved(s, ops, id, future) {
        FuturesAccounted(s, ops, id, future);
        NothingLost(s, ops, id, future);
      }
    } else {
      var id, future := SomethingLost(s, ops);
      FuturesAccounted(s, ops, id, future);
      assert !Conserved(s, ops, id, future);
    }
  }

  /** A disciplined run keeps every id in one dictionary, so it never overwrites. */
  lemma {:induction false} DisciplineSuffices<F>(s: Files<F>, ops: seq<Op<F>>)
    requires s.Disjoint() && Disciplined(s, ops)
    ensures NeverOverwrites(s, ops) && Run(s, ops).Disjoint()
    decreases |ops|
  {
    if ops != [] { DisciplineSuffices(Step(s, ops[0]).0, ops[1..]); }
  }

  /** Over any disciplined run, what was filed is either still filed or was handed out
      once: no future is consumed twice and none is lost. */
  lemma FuturesConserved<F>(s: Files<F>, ops: seq<Op<F>>, id: string, future: F)
    requires s.Disjoint() && Disciplined(s, ops)
    ensures Run(s, ops).Disjoint()
    ensures Held(s, id, future) + Adds(ops, id, future) == Held(Run(s, ops), id, future) + Pops(s, ops, id, future)
  {
    DisciplineSuffices(s, ops);
    ConservedIffNeverOverwritten(s, ops);
    assert Conserved(s, ops, id, future);
  }

  // ----- what an operation does, dictionary by dictionary -----

  /** One dictionary after the id was moved `from` one status `to` another: it has the moved event
      if this is where it went, no longer has it if this is where it came from, and is otherwise
      as it was, other ids included. */
  ghost predicate MovedIn<F>(was: map<string, F>, now: map<string, F>, here: Status, from: Status, to: Status,
                             id: string, event: F) {
    && (here == to ==> id in now && now[id] == event)
    && (here != to && here == from ==> id !in now)
    && (here != to && here != from ==> (id in now <==> id in was) && (id in was ==> now[id] == was[id]))
    && (forall k :: k != id ==> (k in now <==> k in was))
    && (forall k :: k != id && k in was ==> k in now && now[k] == was[k])
  }

  ghost predicate Moves<F>(s: Files<F>, t: Files<F>, id: string, from: Status, to: Status, event: F) {
    && MovedIn(s.ongoing, t.ongoing, Ongoing, from, to, id, event)
    && MovedIn(s.done, t.done, Done, from, to, id, event)
    && MovedIn(s.notFound, t.notFound, NotFound, from, to, id, event)
  }

  /** An update moves exactly the future found first, looking through the dictionaries in the
      order of the enumeration; an absent id is an error and changes nothing. */
  ghost predicate UpdateRight<F>(s: Files<F>, t: Files<F>, out: Outcome<F>, id: string, to: Status) {
    if id in s.ongoing then out == Accepted && Moves(s, t, id, Ongoing, to, s.ongoing[id])
    else if id in s.done then out == Accepted && Moves(s, t, id, Done, to, s.done[id])
    else if id in s.notFound then out == Accepted && Moves(s, t, id, NotFound, to, s.notFound[id])
    else out == KeyError && t == s
  }

  lemma UpdateMoves<F>(s: Files<F>, id: string, to: Status)
    ensures UpdateRight(s, Step(s, Update(id, to)).0, Step(s, Update(id, to)).1, id, to)
  {
  }

  /** An add files the future as ongoing, a pop hands out what is filed as done and takes it
      away; neither touches anything else. */
  lemma AddAndPop<F>(s: Files<F>, id: string, future: F)
    ensures Step(s, Add(id, future)) == (Files(s.ongoing[id := future], s.done, s.notFound), Accepted)
    ensures id in s.done ==> Step(s, Pop(id)) == (Files(s.ongoing, s.done - {id}, s.notFound), Popped(s.done[id]))
    ensures id !in s.done ==> Step(s, Pop(id)) == (s, AssertionFailed)
  {
  }

  /** The id is filed as ongoing, or as done, with this future, and nowhere else. */
  ghost predicate OnlyAs<F>(s: Files<F>, id: string, at: Status, future: F) {
    && (id in s.ongoing <==> at.Ongoing?) && (id in s.done <==> at.Done?) && id !in s.notFound
    && (at.Ongoing? ==> s.ongoing[id] == future) && (at.Done? ==> s.done[id] == future)
  }

  lemma {:induction false} OthersLeaveIt<F>(s: Files<F>, ops: seq<Op<F>>, id: string, at: Status, future: F)
    requires OnlyAs(s, id, at, future) && !at.NotFound? && forall op <- ops :: op.id != id
    ensures OnlyAs(Run(s, ops), id, at, future)
    decreases |ops|
  {
    if ops != [] {
      assert ops[0] in ops;
      OthersLeaveIt(Step(s, ops[0]).0, ops[1..], id, at, future);
    }
  }

  /** A future that is added under a fresh id and updated to done is what a pop hands out,
      whatever happens to other ids in between. */
  lemma PopReturnsAdded<F>(s: Files<F>, id: string, future: F, a: seq<Op<F>>, b: seq<Op<F>>)
    requires id !in s.ongoing && id !in s.done && id !in s.notFound
    requires forall op <- a + b :: op.id != id
    ensures var added := Run(Step(s, Add(id, future)).0, a);
            var updated := Run(Step(added, Update(id, Done)).0, b);
            && Step(added, Update(id, Done)).1 == Accepted
            && Step(updated, Pop(id)).1 == Popped(future)
  {
    var first := Step(s, Add(id, future)).0;
    forall op <- a ensures op.id != id { assert op in a + b; }
    forall op <- b ensures op.id != id { assert op in a + b; }
    assert OnlyAs(first, id, Ongoing, future);
    OthersLeaveIt(first, a, id, Ongoing, future);
    var added := Run(first, a);
    var moved := Step(added, Update(id, Done)).0;
    assert OnlyAs(moved, id, Done, future);
    OthersLeaveIt(moved, b, id, Done, future);
  }

  class Manager<F> {
    var files: Files<F>

    constructor ()
      ensures files == Files(map[], map[], map[]) && files.Disjoint()
    {
      files := Files(map[], map[], map[]);
    }

    method AddEvent(id: string, future: F)
      modifies this
      ensures files == Step(old(files), Add(id, future)).0
      ensures files == Files(old(files).ongoing[id := future], old(files).done, old(files).notFound)
    {
      files := files.(ongoing := files.ongoing[id := future]);
    }

    method UpdateEventStatus(id: string, status: Status) returns (out: Outcome<F>)
      modifies this
      ensures (files, out) == Step(old(files), Update(id, status))
      ensures UpdateRight(old(files), files, out, id, status)
    {
      hide UpdateRight;
      UpdateMoves(files, id, status);
      var event: F;
      if id in files.ongoing {
        event := files.ongoing[id];
        files := files.(ongoing := files.ongoing - {id});
      } else if id in files.done {
        event := files.done[id];
        files := files.(done := files.done - {id});
      } else if id in files.notFound {
        event := files.notFound[id];
        files := files.(notFound := files.notFound - {id});
      } else {
        return KeyError;
      }
      files := files.With(status, files.In(status)[id := event]);
      out := Accepted;
    }

    method PopEvent(id: string) returns (out: Outcome<F>)
      modifies this
      ensures (files, out) == Step(old(files), Pop(id))
      ensures id in old(files).done ==>
                out == Popped(old(files).done[id]) && files == old(files).(done := old(files).done - {id})
      ensures id !in old(files).done ==> out == AssertionFailed && files == old(files)
    {
      if id !in files.done {
        return AssertionFailed;
      }
      out := Popped(files.done[id]);
      files := files.(done := files.done - {id});
    }

    /** The status an id is filed under, `NotFound` when it is filed nowhere. */
    method GetEventStatus(id: string) returns (s: Status)
      ensures files.Present(id) ==> id in files.In(s)
      ensures !files.Present(id) ==> s == NotFound
      ensures s == files.Where(id)
    {
      if id in files.ongoing {
        s := Ongoing;
      } else if id in files.done {
        s := Done;
      } else {
        s := NotFound;
      }
    }
  }
}
