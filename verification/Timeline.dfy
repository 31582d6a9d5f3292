/** The business timeline: five histories, each in time order, are concatenated and then sorted by
    time with the language's stable sort. */
module Timeline {

  import opened Common

  type Time = int

  datatype Source = ServiceOrder | Measurement | Billing | BillingDocument | SecurityAudit

  datatype Row = Row(eventType: string, actorIdentityId: Option<string>, occurredAt: Time, payload: Option<string>)

  datatype Event = Event(source: Source, row: Row) {
    function At(): Time { row.occurredAt }
  }

  predicate Sorted(events: seq<Event>) {
    forall i, j :: 0 <= i < j < |events| ==> events[i].At() <= events[j].At()
  }

  function Tagged(source: Source, rows: seq<Row>): (events: seq<Event>)
    ensures |events| == |rows|
  {
    seq(|rows|, i requires 0 <= i < |rows| => Event(source, rows[i]))
  }

  // ----- The stable sort ------------------------------------------------------------------------

  /** The events at one moment, in order. */
  function AtTime(events: seq<Event>, t: Time): seq<Event> {
    if events == [] then []
    else
      var before, last := AtTime(events[..|events| - 1], t), events[|events| - 1];
      if last.At() == t then before + [last] else before
  }

  /** What is promised of a stable sort: the result is sorted and keeps the order of equal keys. */
  ghost predicate IsStableSort(input: seq<Event>, output: seq<Event>) {
    Sorted(output) && forall t :: AtTime(output, t) == AtTime(input, t)
  }

  /** Insert behind every event that is not later. */
  function Insert(events: seq<Event>, e: Event): seq<Event> {
    if events == [] || events[|events| - 1].At() <= e.At() then events + [e]
    else Insert(events[..|events| - 1], e) + [events[|events| - 1]]
  }

  function StableSort(events: seq<Event>): seq<Event> {
    if events == [] then [] else Insert(StableSort(events[..|events| - 1]), events[|events| - 1])
  }

  lemma {:induction false} AtTimeAppend(a: seq<Event>, b: seq<Event>, t: Time)
    ensures AtTime(a + b, t) == AtTime(a, t) + AtTime(b, t)
  {
    if b == [] {
      assert a + b == a;
    } else {
      assert (a + b)[..|a + b| - 1] == a + b[..|b| - 1];
      AtTimeAppend(a, b[..|b| - 1], t);
    }
  }

  lemma {:induction false} AtTimeMember(events: seq<Event>, i: nat)
    requires i < |events|
    ensures AtTime(events, events[i].At()) != []
  {
    if i < |events| - 1 {
      AtTimeMember(events[..|events| - 1], i);
    }
  }

  lemma {:induction false} NothingAt(events: seq<Event>, t: Time)
    requires forall i :: 0 <= i < |events| ==> events[i].At() != t
    ensures AtTime(events, t) == []
  {
    if events != [] {
      NothingAt(events[..|events| - 1], t);
    }
  }

  lemma SomethingAt(events: seq<Event>, t: Time)
    requires AtTime(events, t) != []
    ensures exists i :: 0 <= i < |events| && events[i].At() == t
  {
    if forall i :: 0 <= i < |events| ==> events[i].At() != t {
      NothingAt(events, t);
    }
  }

  lemma {:induction false} InsertMembers(events: seq<Event>, e: Event)
    ensures multiset(Insert(events, e)) == multiset(events) + multiset{e}
  {
    if events != [] && events[|events| - 1].At() > e.At() {
      InsertMembers(events[..|events| - 1], e);
      assert events == events[..|events| - 1] + [events[|events| - 1]];
    }
  }

  lemma {:induction false} InsertSorts(events: seq<Event>, e: Event)
    requires Sorted(events)
    ensures Sorted(Insert(events, e))
  {
    if events != [] && events[|events| - 1].At() > e.At() {
      var init, last := events[..|events| - 1], events[|events| - 1];
      InsertSorts(init, e);
      InsertedNotLater(init, e, last.At());
    }
  }

  /** At each moment the inserted event comes last. */
  lemma {:induction false} InsertAtTime(events: seq<Event>, e: Event, t: Time)
    ensures AtTime(Insert(events, e), t) == if e.At() == t then AtTime(events, t) + [e] else AtTime(events, t)
  {
    if events == [] || events[|events| - 1].At() <= e.At() {
      assert (events + [e])[..|events|] == events;
    } else {
      var init, last := events[..|events| - 1], events[|events| - 1];
      InsertAtTime(init, e, t);
      assert (Insert(init, e) + [last])[..|Insert(init, e)|] == Insert(init, e);
    }
  }

  lemma InsertedNotLater(events: seq<Event>, e: Event, bound: Time)
    requires (forall i :: 0 <= i < |events| ==> events[i].At() <= bound) && e.At() <= bound
    ensures forall i :: 0 <= i < |Insert(events, e)| ==> Insert(events, e)[i].At() <= bound
  {
    InsertMembers(events, e);
    forall i | 0 <= i < |Insert(events, e)|
      ensures Insert(events, e)[i].At() <= bound
    {
      var x := Insert(events, e)[i];
      assert x in multiset(Insert(events, e));
      assert x in events || x == e;
    }
  }

  lemma {:induction false} SortIsStable(events: seq<Event>)
    ensures IsStableSort(events, StableSort(events)) && multiset(StableSort(events)) == multiset(events)
  {
    if events != [] {
      var init, last := events[..|events| - 1], events[|events| - 1];
      SortIsStable(init);
      assert events == init + [last];
      InsertMembers(StableSort(init), last);
      InsertSorts(StableSort(init), last);
      forall t
        ensures AtTime(StableSort(events), t) == AtTime(events, t)
      {
        InsertAtTime(StableSort(init), last, t);
      }
    }
  }

  /** A stable sort has only one possible result, so it does not matter which algorithm is used. */
  lemma {:induction false} StableSortUnique(input: seq<Event>, a: seq<Event>, b: seq<Event>)
    requires IsStableSort(input, a) && IsStableSort(input, b)
    ensures a == b
  {
    forall t
      ensures AtTime(a, t) == AtTime(b, t)
    {
      assert AtTime(a, t) == AtTime(input, t);
    }
    SameMomentsSameList(a, b);
  }

  lemma LastHasMoment(events: seq<Event>)
    ensures events != [] ==> AtTime(events, events[|events| - 1].At()) != []
  {
    if events != [] {
      AtTimeMember(events, |events| - 1);
    }
  }

  lemma {:induction false} SameMomentsSameList(a: seq<Event>, b: seq<Event>)
    requires Sorted(a) && Sorted(b) && forall t :: AtTime(a, t) == AtTime(b, t)
    ensures a == b
    decreases |a|
  {
    LastHasMoment(b);
    if a == [] {
      assert forall t :: AtTime(b, t) == AtTime(a, t) == [];
    } else {
      LastMomentIn(a, b);
      LastMomentIn(b, a);
      var m := a[|a| - 1].At();
      var a', b' := a[..|a| - 1], b[..|b| - 1];
      assert AtTime(a, m) == AtTime(b, m);
      LastOf(AtTime(a', m), a[|a| - 1], AtTime(b', m), b[|b| - 1]);
      forall t
        ensures AtTime(a', t) == AtTime(b', t)
      {
        assert AtTime(a, t) == AtTime(b, t);
      }
      SameMomentsSameList(a', b');
      assert a == a' + [a[|a| - 1]] && b == b' + [b[|b| - 1]];
    }
  }

  lemma LastOf<T>(a: seq<T>, x: T, b: seq<T>, y: T)
    requires a + [x] == b + [y]
    ensures a == b && x == y
  {
    assert (a + [x])[|a|] == x && (b + [y])[|b|] == y && |a| == |b|;
    assert (a + [x])[..|a|] == a && (b + [y])[..|b|] == b;
  }

  lemma NoneAfterLast(events: seq<Event>, t: Time)
    requires Sorted(events) && AtTime(events, t) != []
    ensures events != [] && t <= events[|events| - 1].At()
  {
    SomethingAt(events, t);
    var i :| 0 <= i < |events| && events[i].At() == t;
    if i < |events| - 1 {
      assert events[i].At() <= events[|events| - 1].At();
    }
  }

  /** Two lists with the same moments end at the same one. */
  lemma LastMomentIn(a: seq<Event>, b: seq<Event>)
    requires a != [] && Sorted(b) && forall t :: AtTime(a, t) == AtTime(b, t)
    ensures b != [] && a[|a| - 1].At() <= b[|b| - 1].At()
  {
    var m := a[|a| - 1].At();
    AtTimeMember(a, |a| - 1);
    assert AtTime(b, m) == AtTime(a, m);
    NoneAfterLast(b, m);
  }

  // ----- The timeline ---------------------------------------------------------------------------

  datatype Histories = Histories(
    serviceOrder: seq<Row>, measurement: seq<Row>, billing: seq<Row>, billingDocument: seq<Row>,
    securityAudit: seq<Row>)

  function RowsOf(h: Histories, source: Source): seq<Row> {
    match source
    case ServiceOrder => h.serviceOrder
    case Measurement => h.measurement
    case Billing => h.billing
    case BillingDocument => h.billingDocument
    case SecurityAudit => h.securityAudit
  }

  function EventsOf(h: Histories, source: Source): seq<Event> {
    Tagged(source, RowsOf(h, source))
  }

  function Concatenated(h: Histories): seq<Event> {
    EventsOf(h, ServiceOrder) + EventsOf(h, Measurement) + EventsOf(h, Billing) + EventsOf(h, BillingDocument)
    + EventsOf(h, SecurityAudit)
  }

  function BusinessTimeline(h: Histories): seq<Event> {
    StableSort(Concatenated(h))
  }

  /** One of the loops that push the rows of a query. */
  method Push(events: seq<Event>, source: Source, rows: seq<Row>) returns (more: seq<Event>)
    ensures more == events + Tagged(source, rows)
  {
    more := events;
    var i := 0;
    while i < |rows|
      invariant i <= |rows| && more == events + Tagged(source, rows)[..i]
    {
      more := more + [Event(source, rows[i])];
      i := i + 1;
    }
  }

  method ReconstructBusinessTimeline(h: Histories) returns (events: seq<Event>)
    ensures events == BusinessTimeline(h)
  {
    events := Push([], ServiceOrder, h.serviceOrder);
    events := Push(events, Measurement, h.measurement);
    events := Push(events, Billing, h.billing);
    events := Push(events, BillingDocument, h.billingDocument);
    events := Push(events, SecurityAudit, h.securityAudit);
    assert events == Concatenated(h);
    events := StableSort(events);
  }

  /** The queries return every history in time order. */
  ghost predicate HistoriesSorted(h: Histories) {
    forall source :: Sorted(EventsOf(h, source))
  }

  // ----- Refinement: the sort is a five-way merge -----------------------------------------------

  /** Merge two lists; at equal times the first list goes first. */
  function Merge(a: seq<Event>, b: seq<Event>): seq<Event>
    decreases |a| + |b|
  {
    if a == [] then b
    else if b == [] then a
    else if a[|a| - 1].At() <= b[|b| - 1].At() then Merge(a, b[..|b| - 1]) + [b[|b| - 1]]
    else Merge(a[..|a| - 1], b) + [a[|a| - 1]]
  }

  lemma {:induction false} MergeAtTime(a: seq<Event>, b: seq<Event>, t: Time)
    requires Sorted(a) && Sorted(b)
    ensures AtTime(Merge(a, b), t) == AtTime(a, t) + AtTime(b, t)
    decreases |a| + |b|
  {
    if a != [] && b != [] {
      if a[|a| - 1].At() <= b[|b| - 1].At() {
        var b', last := b[..|b| - 1], b[|b| - 1];
        MergeAtTime(a, b', t);
        assert (Merge(a, b') + [last])[..|Merge(a, b')|] == Merge(a, b');
      } else {
        var a', last := a[..|a| - 1], a[|a| - 1];
        MergeAtTime(a', b, t);
        assert (Merge(a', b) + [last])[..|Merge(a', b)|] == Merge(a', b);
        if last.At() == t {
          NothingAt(b, t);
        }
      }
    }
  }

  lemma {:induction false} MergeBounded(a: seq<Event>, b: seq<Event>, bound: Time)
    requires forall i :: 0 <= i < |a| ==> a[i].At() <= bound
    requires forall i :: 0 <= i < |b| ==> b[i].At() <= bound
    ensures forall i :: 0 <= i < |Merge(a, b)| ==> Merge(a, b)[i].At() <= bound
    decreases |a| + |b|
  {
    if a != [] && b != [] {
      if a[|a| - 1].At() <= b[|b| - 1].At() {
        MergeBounded(a, b[..|b| - 1], bound);
      } else {
        MergeBounded(a[..|a| - 1], b, bound);
      }
    }
  }

  lemma {:induction false} MergeSorted(a: seq<Event>, b: seq<Event>)
    requires Sorted(a) && Sorted(b)
    ensures Sorted(Merge(a, b))
    decreases |a| + |b|
  {
    if a != [] && b != [] {
      if a[|a| - 1].At() <= b[|b| - 1].At() {
        MergeSorted(a, b[..|b| - 1]);
        MergeBounded(a, b[..|b| - 1], b[|b| - 1].At());
      } else {
        MergeSorted(a[..|a| - 1], b);
        MergeBounded(a[..|a| - 1], b, a[|a| - 1].At());
      }
    }
  }

  function MergedHistories(h: Histories): seq<Event> {
    Merge(Merge(Merge(Merge(EventsOf(h, ServiceOrder), EventsOf(h, Measurement)), EventsOf(h, Billing)),
                EventsOf(h, BillingDocument)),
          EventsOf(h, SecurityAudit))
  }

  /** Sorting the concatenation is merging the five histories in their fixed order of precedence. */
  lemma TimelineIsMerge(h: Histories)
    requires HistoriesSorted(h)
    ensures BusinessTimeline(h) == MergedHistories(h)
  {
    var (a, b, c, d, e) := (EventsOf(h, ServiceOrder), EventsOf(h, Measurement), EventsOf(h, Billing),
                            EventsOf(h, BillingDocument), EventsOf(h, SecurityAudit));
    var ab := Merge(a, b);
    var abc := Merge(ab, c);
    var abcd := Merge(abc, d);
    MergeSorted(a, b);
    MergeSorted(ab, c);
    MergeSorted(abc, d);
    MergeSorted(abcd, e);
    forall t
      ensures AtTime(Merge(abcd, e), t) == AtTime(Concatenated(h), t)
    {
      MergeAtTime(a, b, t);
      MergeAtTime(ab, c, t);
      MergeAtTime(abc, d, t);
      MergeAtTime(abcd, e, t);
      AtTimeAppend(a, b, t);
      AtTimeAppend(a + b, c, t);
      AtTimeAppend(a + b + c, d, t);
      AtTimeAppend(a + b + c + d, e, t);
    }
    SortIsStable(Concatenated(h));
    StableSortUnique(Concatenated(h), BusinessTimeline(h), Merge(abcd, e));
  }

  // ----- Each history keeps its order, and ties follow the order of the histories ---------------

  function FromSource(events: seq<Event>, source: Source): seq<Event> {
    if events == [] then []
    else
      var before, last := FromSource(events[..|events| - 1], source), events[|events| - 1];
      if last.source == source then before + [last] else before
  }

  lemma {:induction false} FromSourceAppend(a: seq<Event>, b: seq<Event>, source: Source)
    ensures FromSource(a + b, source) == FromSource(a, source) + FromSource(b, source)
  {
    if b == [] {
      assert a + b == a;
    } else {
      assert (a + b)[..|a + b| - 1] == a + b[..|b| - 1];
      FromSourceAppend(a, b[..|b| - 1], source);
    }
  }

  lemma {:induction false} FromSourceTagged(tag: Source, rows: seq<Row>, source: Source)
    ensures FromSource(Tagged(tag, rows), source) == if source == tag then Tagged(tag, rows) else []
  {
    if rows != [] {
      FromSourceTagged(tag, rows[..|rows| - 1], source);
      assert Tagged(tag, rows)[..|rows| - 1] == Tagged(tag, rows[..|rows| - 1]);
    }
  }

  /** Selecting a source and selecting a moment commute. */
  lemma {:induction false} SelectionsCommute(events: seq<Event>, source: Source, t: Time)
    ensures AtTime(FromSource(events, source), t) == FromSource(AtTime(events, t), source)
  {
    if events != [] {
      var init, last := events[..|events| - 1], events[|events| - 1];
      SelectionsCommute(init, source, t);
      assert (FromSource(init, source) + [last])[..|FromSource(init, source)|] == FromSource(init, source);
      assert (AtTime(init, t) + [last])[..|AtTime(init, t)|] == AtTime(init, t);
    }
  }

  lemma {:induction false} FromSourceMembers(events: seq<Event>, source: Source)
    ensures forall x :: x in FromSource(events, source) ==> x in events
  {
    if events != [] {
      FromSourceMembers(events[..|events| - 1], source);
    }
  }

  lemma {:induction false} FromSourceSorted(events: seq<Event>, source: Source)
    requires Sorted(events)
    ensures Sorted(FromSource(events, source))
  {
    if events != [] {
      var init := events[..|events| - 1];
      FromSourceSorted(init, source);
      FromSourceMembers(init, source);
      assert forall x :: x in FromSource(init, source) ==> x in init && x.At() <= events[|events| - 1].At();
    }
  }

  /** The timeline holds exactly the events of the five histories, in time order, and each history
      appears in it in its own order. */
  lemma TimelineKeepsHistories(h: Histories, source: Source)
    requires HistoriesSorted(h)
    ensures Sorted(BusinessTimeline(h)) && multiset(BusinessTimeline(h)) == multiset(Concatenated(h))
    ensures FromSource(BusinessTimeline(h), source) == EventsOf(h, source)
  {
    var all, out := Concatenated(h), BusinessTimeline(h);
    SortIsStable(all);
    ConcatenatedFrom(h, source);
    FromSourceSorted(out, source);
    forall t
      ensures AtTime(FromSource(out, source), t) == AtTime(EventsOf(h, source), t)
    {
      SelectionsCommute(out, source, t);
      SelectionsCommute(all, source, t);
    }
    SameMomentsSameList(FromSource(out, source), EventsOf(h, source));
  }

  predicate Chronological(rows: seq<Row>) {
    forall i, j :: 0 <= i < j < |rows| ==> rows[i].occurredAt <= rows[j].occurredAt
  }

  /** The events of one source show the rows of one history, one by one. */
  predicate Shows(events: seq<Event>, source: Source, rows: seq<Row>) {
    |events| == |rows| && forall i :: 0 <= i < |rows| ==> events[i] == Event(source, rows[i])
  }

  predicate AllChronological(h: Histories) {
    && Chronological(h.serviceOrder) && Chronological(h.measurement) && Chronological(h.billing)
    && Chronological(h.billingDocument) && Chronological(h.securityAudit)
  }

  lemma ChronologicalIsSorted(h: Histories)
    requires AllChronological(h)
    ensures HistoriesSorted(h)
  {
    forall source
      ensures Sorted(EventsOf(h, source))
    {
      assert Chronological(RowsOf(h, source));
    }
  }

  lemma OneHistory(h: Histories, source: Source)
    requires HistoriesSorted(h)
    ensures Shows(FromSource(BusinessTimeline(h), source), source, RowsOf(h, source))
  {
    TimelineKeepsHistories(h, source);
  }

  lemma TimelineLength(h: Histories)
    ensures |BusinessTimeline(h)|
         == |h.serviceOrder| + |h.measurement| + |h.billing| + |h.billingDocument| + |h.securityAudit|
  {
    SortIsStable(Concatenated(h));
    assert |BusinessTimeline(h)| == |multiset(BusinessTimeline(h))| == |multiset(Concatenated(h))|;
  }

  /** Each of the five histories appears under its own source, row by row, and nothing else appears. */
  lemma FiveHistories(h: Histories)
    requires AllChronological(h)
    ensures var t := BusinessTimeline(h);
      && Shows(FromSource(t, ServiceOrder), ServiceOrder, h.serviceOrder)
      && Shows(FromSource(t, Measurement), Measurement, h.measurement)
      && Shows(FromSource(t, Billing), Billing, h.billing)
      && Shows(FromSource(t, BillingDocument), BillingDocument, h.billingDocument)
      && Shows(FromSource(t, SecurityAudit), SecurityAudit, h.securityAudit)
      && |t| == |h.serviceOrder| + |h.measurement| + |h.billing| + |h.billingDocument| + |h.securityAudit|
  {
    ChronologicalIsSorted(h);
    OneHistory(h, ServiceOrder);
    OneHistory(h, Measurement);
    OneHistory(h, Billing);
    OneHistory(h, BillingDocument);
    OneHistory(h, SecurityAudit);
    TimelineLength(h);
  }

  lemma FromSourceFive(a: seq<Event>, b: seq<Event>, c: seq<Event>, d: seq<Event>, e: seq<Event>, source: Source)
    ensures FromSource(a + b + c + d + e, source)
            == FromSource(a, source) + FromSource(b, source) + FromSource(c, source) + FromSource(d, source)
               + FromSource(e, source)
  {
    FromSourceAppend(a, b, source);
    FromSourceAppend(a + b, c, source);
    FromSourceAppend(a + b + c, d, source);
    FromSourceAppend(a + b + c + d, e, source);
  }

  lemma FromHistory(h: Histories, tag: Source, source: Source)
    ensures FromSource(EventsOf(h, tag), source) == if source == tag then EventsOf(h, source) else []
  {
    FromSourceTagged(tag, RowsOf(h, tag), source);
  }

  lemma OnlyOneOfFive<T>(a: seq<T>, b: seq<T>, c: seq<T>, d: seq<T>, e: seq<T>, s: seq<T>, k: nat)
    requires k < 5
    requires a == (if k == 0 then s else []) && b == (if k == 1 then s else []) && c == (if k == 2 then s else [])
    requires d == (if k == 3 then s else []) && e == (if k == 4 then s else [])
    ensures a + b + c + d + e == s
  {
  }

  lemma ConcatenatedFrom(h: Histories, source: Source)
    ensures FromSource(Concatenated(h), source) == EventsOf(h, source)
  {
    var (a, b, c, d, e) := (EventsOf(h, ServiceOrder), EventsOf(h, Measurement), EventsOf(h, Billing),
                            EventsOf(h, BillingDocument), EventsOf(h, SecurityAudit));
    FromSourceFive(a, b, c, d, e, source);
    FromHistory(h, ServiceOrder, source);
    FromHistory(h, Measurement, source);
    FromHistory(h, Billing, source);
    FromHistory(h, BillingDocument, source);
    FromHistory(h, SecurityAudit, source);
    OnlyOneOfFive(FromSource(a, source), FromSource(b, source), FromSource(c, source), FromSource(d, source),
                  FromSource(e, source), EventsOf(h, source), Rank(source));
  }

  function Rank(source: Source): nat {
    match source
    case ServiceOrder => 0
    case Measurement => 1
    case Billing => 2
    case BillingDocument => 3
    case SecurityAudit => 4
  }

  ghost predicate RanksAscend(events: seq<Event>) {
    forall i, j :: 0 <= i < j < |events| ==> Rank(events[i].source) <= Rank(events[j].source)
  }

  lemma {:induction false} MomentMembers(events: seq<Event>, t: Time)
    ensures forall x :: x in AtTime(events, t) <==> x in events && x.At() == t
  {
    if events != [] {
      MomentMembers(events[..|events| - 1], t);
      assert events == events[..|events| - 1] + [events[|events| - 1]];
    }
  }

  lemma {:induction false} MomentsAscend(events: seq<Event>, t: Time)
    requires RanksAscend(events)
    ensures RanksAscend(AtTime(events, t))
  {
    if events != [] {
      var init := events[..|events| - 1];
      MomentsAscend(init, t);
      MomentMembers(init, t);
      assert forall x :: x in AtTime(init, t) ==> x in init && Rank(x.source) <= Rank(events[|events| - 1].source);
    }
  }

  lemma {:induction false} TiesFromMoments(events: seq<Event>, i: nat, j: nat)
    requires i < j < |events| && events[i].At() == events[j].At()
    requires RanksAscend(AtTime(events, events[i].At()))
    ensures Rank(events[i].source) <= Rank(events[j].source)
  {
    var init, last, t := events[..|events| - 1], events[|events| - 1], events[i].At();
    var moment := AtTime(init, t);
    if j < |init| {
      assert RanksAscend(moment) by {
        if last.At() == t {
          assert forall k :: 0 <= k < |moment| ==> moment[k] == AtTime(events, t)[k];
        }
      }
      TiesFromMoments(init, i, j);
    } else {
      MomentMembers(init, t);
      assert init[i] in moment;
      var k :| 0 <= k < |moment| && moment[k] == events[i];
      assert AtTime(events, t)[k] == events[i] && AtTime(events, t)[|moment|] == last;
    }
  }

  lemma ConcatenatedAscends(h: Histories)
    ensures RanksAscend(Concatenated(h))
  {
  }

  /** Events at the same moment stand in the order of their histories. */
  lemma TiesFollowHistories(h: Histories, i: nat, j: nat)
    requires i < j < |BusinessTimeline(h)| && BusinessTimeline(h)[i].At() == BusinessTimeline(h)[j].At()
    ensures Rank(BusinessTimeline(h)[i].source) <= Rank(BusinessTimeline(h)[j].source)
  {
    var t := BusinessTimeline(h)[i].At();
    SortIsStable(Concatenated(h));
    ConcatenatedAscends(h);
    MomentsAscend(Concatenated(h), t);
    TiesFromMoments(BusinessTimeline(h), i, j);
  }
}
