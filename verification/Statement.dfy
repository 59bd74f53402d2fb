/** Prepared statements shared by statement and column objects through a counter on the heap. */
module Statement {
  import opened Basics

  type StatementId = nat
  type HandleId = nat

  /** The counter is an `unsigned int`. */
  const COUNTER_RANGE := 0x1_0000_0000

  /** A live statement or column object; a moved-from statement holds nothing. */
  datatype Handle =
    | StatementObject(holds: Option<StatementId>, columns: nat, hasRow: bool, done: bool)
    | ColumnObject(holds: Option<StatementId>)

  /** `counters` are the counter cells on the heap; `prepared` and `created` number what was made so far. */
  datatype State = State(
    handles: map<HandleId, Handle>,
    counters: map<StatementId, nat>,
    finalized: seq<StatementId>,
    prepared: nat,
    created: nat)

  const INITIAL := State(map[], map[], [], 0, 0)

  datatype StepResult = Row | Done | Failed

  /** `Prepare` without columns to offer is one that SQLite refused. */
  datatype Event =
    | Prepare(columns: Option<nat>)
    | GetColumn(from: HandleId, index: int)
    | CopyColumn(from: HandleId)
    | Move(from: HandleId)
    | Destroy(from: HandleId)
    | ExecuteStep(from: HandleId, result: StepResult)
    | Reset(from: HandleId)

  function Counter(s: State, id: StatementId): nat {
    if id in s.counters then s.counters[id] else 0
  }

  function Add(s: State, h: Handle): State {
    s.(handles := s.handles[s.created := h], created := s.created + 1)
  }

  /** The copy constructor. */
  function Share(s: State, id: StatementId): State {
    Add(s.(counters := s.counters[id := (Counter(s, id) + 1) % COUNTER_RANGE]), ColumnObject(Some(id)))
  }

  /** The destructor: the last one finalizes the statement and deletes the counter. */
  function Release(s: State, id: StatementId): State {
    var n := (Counter(s, id) - 1) % COUNTER_RANGE;
    if n == 0 then s.(counters := s.counters - {id}, finalized := s.finalized + [id])
    else s.(counters := s.counters[id := n])
  }

  /** `getColumn` checks for a row and the index; only then is the statement shared. */
  function ColumnOf(s: State, h: Handle, index: int): State
    requires h.StatementObject?
  {
    if h.hasRow && 0 <= index < h.columns && h.holds.Some? then Share(s, h.holds.value) else s
  }

  /** A finished statement must be reset before it steps again; a moved-from one can only fail. */
  function Execute(h: Handle, result: StepResult): Handle
    requires h.StatementObject?
  {
    if h.done then h
    else if h.holds.None? then h.(hasRow := false, done := false)
    else h.(hasRow := result == Row, done := result == Done)
  }

  function Step(s: State, e: Event): State {
    if e.Prepare? then
      if e.columns.None? then s
      else
        Add(s.(counters := s.counters[s.prepared := 1], prepared := s.prepared + 1),
            StatementObject(Some(s.prepared), e.columns.value, false, false))
    else if e.from !in s.handles then s
    else
      var h := s.handles[e.from];
      if e.Destroy? then
        var t := s.(handles := s.handles - {e.from});
        if h.holds.None? then t else Release(t, h.holds.value)
      else if h.ColumnObject? then
        if e.CopyColumn? && h.holds.Some? then Share(s, h.holds.value) else s
      else
        match e
        case GetColumn(_, index) => ColumnOf(s, h, index)
        case Move(_) => Add(s.(handles := s.handles[e.from := StatementObject(None, 0, false, false)]), h)
        case ExecuteStep(_, result) => s.(handles := s.handles[e.from := Execute(h, result)])
        case Reset(_) => s.(handles := s.handles[e.from := h.(hasRow := false, done := false)])
        case _ => s
  }

  function After(events: seq<Event>): State {
    if events == [] then INITIAL else Step(After(events[..|events| - 1]), events[|events| - 1])
  }

  // ------------------------------------------------------------ the promise

  /** The live objects that hold a statement. */
  function Holders(s: State, id: StatementId): set<HandleId> {
    set h | h in s.handles && s.handles[h].holds == Some(id)
  }

  function Finalizations(s: State, id: StatementId): nat {
    multiset(s.finalized)[id]
  }

  /** The counter tells the number of holders, it exists while there is one, and the statement is finalized once
      when there is none left. */
  ghost predicate Shared(s: State, id: StatementId) {
    && Counter(s, id) == |Holders(s, id)|
    && (id in s.counters <==> Holders(s, id) != {})
    && Finalizations(s, id) == if id < s.prepared && Holders(s, id) == {} then 1 else 0
  }

  /** Handles are numbered as they are made, only made statements are held, and a row is there only to a statement
      object that holds its statement: so `getColumn` never shares a moved-from pointer. */
  predicate Handled(s: State) {
    forall h <- s.handles :: h < s.created && HandledOne(s.handles[h], s.prepared)
  }

  predicate HandledOne(h: Handle, prepared: nat) {
    && (h.holds.Some? ==> h.holds.value < prepared)
    && (h.ColumnObject? ==> h.holds.Some?)
    && (h.StatementObject? && h.hasRow ==> h.holds.Some?)
  }

  lemma HandledStep(s: State, e: Event)
    requires Handled(s)
    ensures Handled(Step(s, e))
  {
  }

  lemma {:induction false} AlwaysHandled(events: seq<Event>)
    ensures Handled(After(events))
  {
    if events != [] {
      AlwaysHandled(events[..|events| - 1]);
      HandledStep(After(events[..|events| - 1]), events[|events| - 1]);
      hide Step, Handled;
    }
  }

  /** Nobody holds statements that are not made yet. */
  lemma NoEarlyHolders(s: State, id: StatementId)
    requires Handled(s) && id >= s.prepared
    ensures Holders(s, id) == {}
  {
  }

  lemma AddHolders(s: State, h: Handle, id: StatementId)
    requires Handled(s)
    ensures Holders(Add(s, h), id) == Holders(s, id) + if h.holds == Some(id) then {s.created} else {}
    ensures s.created !in Holders(s, id)
  {
  }

  lemma ShareKeeps(s: State, id: StatementId, at: StatementId)
    requires Handled(s) && Shared(s, at) && Holders(s, id) != {}
    requires |Holders(Share(s, id), at)| < COUNTER_RANGE
    ensures Shared(Share(s, id), at)
  {
    AddHolders(s.(counters := s.counters[id := (Counter(s, id) + 1) % COUNTER_RANGE]), ColumnObject(Some(id)), at);
    assert Holders(s.(counters := s.counters[id := (Counter(s, id) + 1) % COUNTER_RANGE]), at) == Holders(s, at);
  }

  lemma PrepareKeeps(s: State, columns: nat, at: StatementId)
    requires Handled(s) && Shared(s, at)
    ensures Shared(Step(s, Prepare(Some(columns))), at)
  {
    var t := s.(counters := s.counters[s.prepared := 1], prepared := s.prepared + 1);
    NoEarlyHolders(s, s.prepared);
    assert Holders(t, at) == Holders(s, at);
    assert Handled(t);
    AddHolders(t, StatementObject(Some(s.prepared), columns, false, false), at);
  }

  lemma WithoutHolder(s: State, h: HandleId, at: StatementId)
    requires h in s.handles
    ensures var t := s.(handles := s.handles - {h});
            if s.handles[h].holds == Some(at)
            then h in Holders(s, at) && Holders(t, at) == Holders(s, at) - {h}
            else Holders(t, at) == Holders(s, at)
  {
  }

  lemma OneLess(a: set<HandleId>, h: HandleId)
    requires h in a
    ensures |a - {h}| == |a| - 1 && (a - {h} == {} <==> |a| == 1)
  {
    assert a == (a - {h}) + {h};
  }

  lemma DestroyKeeps(s: State, h: HandleId, at: StatementId)
    requires Handled(s) && Shared(s, at) && h in s.handles && |Holders(s, at)| < COUNTER_RANGE
    ensures Shared(Step(s, Destroy(h)), at)
  {
    hide Release, Holders;
    var t := s.(handles := s.handles - {h});
    WithoutHolder(s, h, at);
    if s.handles[h].holds == Some(at) {
      OneLess(Holders(s, at), h);
    }
    if s.handles[h].holds.Some? {
      ReleaseParts(t, s.handles[h].holds.value, at);
    }
  }

  lemma ReleaseParts(s: State, id: StatementId, at: StatementId)
    ensures var t := Release(s, id);
            && Holders(t, at) == Holders(s, at) && t.prepared == s.prepared
            && (id != at ==>
                  && Counter(t, at) == Counter(s, at) && (at in t.counters <==> at in s.counters)
                  && Finalizations(t, at) == Finalizations(s, at))
            && (0 < Counter(s, id) < COUNTER_RANGE ==>
                  && Counter(t, id) == Counter(s, id) - 1 && (id in t.counters <==> Counter(s, id) > 1)
                  && Finalizations(t, id) == Finalizations(s, id) + if Counter(s, id) == 1 then 1 else 0)
  {
    assert Holders(Release(s, id), at) == Holders(s, at);
  }

  lemma MovedFrom(s: State, h: HandleId, at: StatementId)
    requires h in s.handles
    ensures var t := s.(handles := s.handles[h := StatementObject(None, 0, false, false)]);
            if s.handles[h].holds == Some(at)
            then h in Holders(s, at) && Holders(t, at) == Holders(s, at) - {h}
            else Holders(t, at) == Holders(s, at)
  {
  }

  lemma MoveKeeps(s: State, h: HandleId, at: StatementId)
    requires Handled(s) && Shared(s, at) && h in s.handles && s.handles[h].StatementObject?
    ensures Shared(Step(s, Move(h)), at)
  {
    var t := s.(handles := s.handles[h := StatementObject(None, 0, false, false)]);
    MovedFrom(s, h, at);
    assert Handled(t);
    AddHolders(t, s.handles[h], at);
    assert |Holders(Add(t, s.handles[h]), at)| == |Holders(s, at)|;
  }

  lemma SameHoldersKeep(s: State, h: HandleId, now: Handle, at: StatementId)
    requires Shared(s, at) && h in s.handles && now.holds == s.handles[h].holds
    ensures Shared(s.(handles := s.handles[h := now]), at)
  {
    assert Holders(s.(handles := s.handles[h := now]), at) == Holders(s, at);
  }

  lemma StepKeeps(s: State, e: Event, at: StatementId)
    requires Handled(s) && Shared(s, at)
    requires |Holders(s, at)| < COUNTER_RANGE && |Holders(Step(s, e), at)| < COUNTER_RANGE
    ensures Shared(Step(s, e), at)
  {
    hide Shared, Holders, Share, Release, Counter;
    if e.Prepare? {
      if e.columns.Some? {
        PrepareKeeps(s, e.columns.value, at);
      }
    } else if e.from in s.handles {
      var h := s.handles[e.from];
      if h.holds.Some? {
        HeldBy(s, e.from, h.holds.value);
      }
      match e
      case Destroy(_) => DestroyKeeps(s, e.from, at);
      case GetColumn(_, _) => if Step(s, e) != s { ShareKeeps(s, h.holds.value, at); }
      case CopyColumn(_) => if Step(s, e) != s { ShareKeeps(s, h.holds.value, at); }
      case Move(_) => if h.StatementObject? { MoveKeeps(s, e.from, at); }
      case ExecuteStep(_, result) => if h.StatementObject? { SameHoldersKeep(s, e.from, Execute(h, result), at); }
      case Reset(_) => if h.StatementObject? { SameHoldersKeep(s, e.from, h.(hasRow := false, done := false), at); }
    }
  }

  lemma HeldBy(s: State, h: HandleId, id: StatementId)
    requires h in s.handles && s.handles[h].holds == Some(id)
    ensures Holders(s, id) != {}
  {
    assert h in Holders(s, id);
  }

  /** At no moment of the run do more objects hold the statement than the counter can tell. */
  ghost predicate NeverTooMany(events: seq<Event>, id: StatementId) {
    |Holders(After(events), id)| < COUNTER_RANGE && (events != [] ==> NeverTooMany(events[..|events| - 1], id))
  }

  /** At every moment of the run the counter is right, and the statement is finalized once its last holder is gone,
      and not before. */
  ghost predicate AlwaysShared(events: seq<Event>, id: StatementId) {
    Shared(After(events), id) && (events != [] ==> AlwaysShared(events[..|events| - 1], id))
  }

  lemma NothingShared(id: StatementId)
    ensures Shared(INITIAL, id)
  {
  }

  lemma {:induction false} CountersAreSmall(events: seq<Event>, id: StatementId)
    ensures Counter(After(events), id) < COUNTER_RANGE
  {
    if events != [] {
      CountersAreSmall(events[..|events| - 1], id);
      SmallStep(After(events[..|events| - 1]), events[|events| - 1], id);
      hide Step;
    }
  }

  lemma SmallStep(s: State, e: Event, id: StatementId)
    requires Counter(s, id) < COUNTER_RANGE
    ensures Counter(Step(s, e), id) < COUNTER_RANGE
  {
  }

  /** Sharing is right in a run if and only if the number of objects that hold the statement stays in the range of
      the counter. */
  lemma {:induction false} AlwaysSharedIff(events: seq<Event>, id: StatementId)
    ensures AlwaysShared(events, id) <==> NeverTooMany(events, id)
  {
    hide Step, Shared, Handled, Holders;
    if events == [] {
      NothingShared(id);
    } else {
      var before := After(events[..|events| - 1]);
      AlwaysSharedIff(events[..|events| - 1], id);
      AlwaysHandled(events[..|events| - 1]);
      if NeverTooMany(events, id) {
        StepKeeps(before, events[|events| - 1], id);
      }
    }
    CountersAreSmall(events, id);
    CountedHolders(After(events), id);
  }

  lemma CountedHolders(s: State, id: StatementId)
    ensures Shared(s, id) ==> Counter(s, id) == |Holders(s, id)|
  {
  }

  /** No live object ever holds a finalized statement. */
  lemma NoUseAfterFinalize(events: seq<Event>, h: HandleId)
    requires h in After(events).handles && After(events).handles[h].holds.Some?
    requires NeverTooMany(events, After(events).handles[h].holds.value)
    ensures After(events).handles[h].holds.value !in After(events).finalized
  {
    var s, id := After(events), After(events).handles[h].holds.value;
    AlwaysSharedIff(events, id);
    assert Shared(s, id);
    HeldBy(s, h, id);
    assert multiset(s.finalized)[id] == 0;
  }

  // ------------------------------------------------------------- the rows

  /** `getColumn` shares the statement exactly when a row is there and the index is one of its columns; otherwise it
      throws and changes nothing. */
  lemma ColumnIsSharedIff(s: State, h: HandleId, index: int)
    requires Handled(s) && h in s.handles && s.handles[h].StatementObject?
    ensures var t, o := Step(s, GetColumn(h, index)), s.handles[h];
            if o.hasRow && 0 <= index < o.columns
            then t.handles == s.handles[s.created := ColumnObject(o.holds)] && t.created == s.created + 1
            else t == s
  {
  }

  /** Stepping tells whether a row came and whether it was the last; a finished statement answers no further step until
      it is reset, and neither step, reset nor a move touches who holds the statement. */
  lemma SteppingTellsRow(s: State, h: HandleId, result: StepResult)
    requires h in s.handles && s.handles[h].StatementObject? && s.handles[h].holds.Some?
    ensures var t, o := Step(s, ExecuteStep(h, result)), s.handles[h];
            && t.handles.Keys == s.handles.Keys && t.handles[h].holds == o.holds && t.handles[h].columns == o.columns
            && (o.done ==> t.handles[h] == o)
            && (!o.done ==> (t.handles[h].hasRow <==> result == Row) && (t.handles[h].done <==> result == Done))
    ensures var t := Step(s, Reset(h));
            t.handles == s.handles[h := s.handles[h].(hasRow := false, done := false)] && t.finalized == s.finalized
    ensures var t, o := Step(s, Move(h)), s.handles[h];
            t.handles == s.handles[h := StatementObject(None, 0, false, false)][s.created := o] &&
            t.counters == s.counters
  {
  }

  // -------------------------------------------------------------- the objects

  /** The counter cell; its holders and finalizations are kept for the proof. */
  class RefCount {
    var count: nat
    ghost var holders: set<Ptr>
    ghost var finalizations: nat

    constructor (first: Ptr)
      ensures count == 1 && holders == {first} && finalizations == 0
    {
      count, holders, finalizations := 1, {first}, 0;
    }

    ghost predicate Valid()
      reads this, holders
    {
      && count == |holders| < COUNTER_RANGE
      && (forall p <- holders :: p.refCount == this)
      && finalizations == if holders == {} then 1 else 0
    }
  }

  class Ptr {
    var refCount: RefCount?

    ghost predicate Valid()
      reads this, refCount, if refCount == null then {} else refCount.holders
    {
      refCount != null ==> this in refCount.holders && refCount.Valid()
    }

    constructor Prepare()
      ensures refCount != null && fresh(refCount) && Valid() && refCount.holders == {this}
    {
      new;
      refCount := new RefCount(this);
    }

    constructor Copy(other: Ptr)
      requires other.refCount != null && other.Valid() && |other.refCount.holders| < COUNTER_RANGE - 1
      modifies other.refCount
      ensures refCount == other.refCount == old(other.refCount) && Valid() && other.Valid()
      ensures refCount.holders == old(other.refCount.holders) + {this}
    {
      refCount := other.refCount;
      new;
      refCount.count := refCount.count + 1;
      refCount.holders := refCount.holders + {this};
    }

    /** The moved-from pointer holds nothing any more; the counter does not change. */
    constructor Move(other: Ptr)
      requires other.Valid()
      modifies other, other.refCount
      ensures refCount == old(other.refCount) && other.refCount == null && Valid()
      ensures refCount != null ==>
                refCount.holders == old(other.refCount.holders) - {other} + {this} &&
                refCount.count == old(other.refCount.count)
    {
      refCount := other.refCount;
      new;
      other.refCount := null;
      if refCount != null {
        refCount.holders := refCount.holders - {other} + {this};
      }
    }

    /** The end of the object's life: the last holder finalizes the statement. */
    method Destroy()
      requires Valid()
      modifies this, refCount
      ensures refCount == null
      ensures old(refCount) != null ==>
                var cell := old(refCount);
                cell.Valid() && cell.holders == old(cell.holders) - {this} &&
                cell.finalizations == old(cell.finalizations) + if old(cell.holders) == {this} then 1 else 0
    {
      if refCount != null {
        var cell := refCount;
        assert cell.holders - {this} == {} <==> cell.holders == {this};
        cell.count := cell.count - 1;
        cell.holders := cell.holders - {this};
        if cell.count == 0 {
          cell.finalizations := cell.finalizations + 1;
        }
        refCount := null;
      }
    }
  }
}
