/** The scheduling-conflict detector of the calendar manager, as functions of the
    candidate event and the stored events: the rules applied to one stored event, the
    scan that accumulates conflicts with a last-write-wins type and severity, and the
    suggestion text. The loop that performs the scan is `CalendarStore.DetectConflicts`. */
module Conflicts {
  import opened Common
  import opened Clock
  import opened Calendar

  datatype ConflictType = Overlap | BackToBack | TravelTime | PreparationTime
  datatype Severity = Warning | Error

  /** The fields of the `Partial<CalendarEvent>` that the detector reads. */
  datatype Candidate = Candidate(
    title: Option<string>,
    start: Option<int>,
    end: Option<int>,
    location: Option<string>,
    preparationTime: Option<int>)

  datatype ConflictDetection = ConflictDetection(
    hasConflict: bool,
    conflicts: seq<CalendarEvent>,
    kind: ConflictType,
    severity: Severity,
    suggestion: Option<string>)

  /** `eventsOverlap`: two intervals overlap when each starts before the other ends. */
  predicate Overlaps(start1: int, end1: int, start2: int, end2: int) {
    start1 < end2 && start2 < end1
  }

  lemma OverlapSymmetric(s1: int, e1: int, s2: int, e2: int)
    ensures Overlaps(s1, e1, s2, e2) <==> Overlaps(s2, e2, s1, e1)
  {
  }

  /** Overlap is strict: an interval that ends exactly when the other starts does not
      overlap it. */
  lemma TouchingDoNotOverlap(s1: int, e1: int, e2: int)
    ensures !Overlaps(s1, e1, e1, e2)
    ensures !Overlaps(e1, e2, s1, e1)
  {
  }

  /** Minutes of preparation the candidate needs: its own non-zero figure, or the default
      its title calls for. */
  function PrepMinutes(c: Candidate): (m: int)
    ensures c.preparationTime.Some? && c.preparationTime.value != 0 ==> m == c.preparationTime.value
    ensures c.preparationTime.None? || c.preparationTime.value == 0 ==> m == DefaultPrepTime(c.title.GetOr(""))
  {
    if c.preparationTime.Some? && c.preparationTime.value != 0 then c.preparationTime.value
    else DefaultPrepTime(c.title.GetOr(""))
  }

  /** Whether the travel rule applies: both locations truthy and different, and the
      gap shorter than the travel estimate between them. */
  predicate TravelShort(c: Candidate, e: CalendarEvent, gap: int) {
    Truthy(e.location) && Truthy(c.location) && e.location.value != c.location.value
    && gap < Minutes(Calendar.TravelTime(e.location.value, c.location.value))
  }

  datatype Hit = Hit(kind: ConflictType, severity: Severity)

  /** The position of each rule in the order the detector checks them. */
  function Rank(t: ConflictType): nat {
    match t
    case Overlap => 0
    case BackToBack => 1
    case TravelTime => 2
    case PreparationTime => 3
  }

  /** The conflicts one stored event raises against a candidate that runs from `start`
      to `end`, in the order the rules push them. */
  function Hits(c: Candidate, start: int, end: int, e: CalendarEvent): (r: seq<Hit>)
    ensures |r| <= 3
    ensures forall i, j :: 0 <= i < j < |r| ==> Rank(r[i].kind) < Rank(r[j].kind)
    ensures e.status == Cancelled ==> r == []
    ensures e.status != Cancelled && Overlaps(start, end, e.start, e.end) ==> r == [Hit(Overlap, Error)]
    ensures forall i :: 0 <= i < |r| && r[i].kind == TravelTime ==>
              Truthy(e.location) && Truthy(c.location) && e.location != c.location
    ensures forall i :: 0 <= i < |r| ==> r[i].severity == (if r[i].kind in {Overlap, TravelTime} then Error else Warning)
    ensures e.status != Cancelled && !Overlaps(start, end, e.start, e.end) ==>
              var gap := Abs(start - e.end);
              && Hit(Overlap, Error) !in r
              && (Hit(BackToBack, Warning) in r <==> gap < Minutes(5))
              && (Hit(TravelTime, Error) in r <==> TravelShort(c, e, gap))
              && (Hit(PreparationTime, Warning) in r <==> PrepMinutes(c) > 0 && gap < Minutes(PrepMinutes(c)))
  {
    if e.status == Cancelled then []
    else if Overlaps(start, end, e.start, e.end) then [Hit(Overlap, Error)]
    else
      var gap := Abs(start - e.end);
      var prep := PrepMinutes(c);
      (if gap < Minutes(5) then [Hit(BackToBack, Warning)] else [])
      + (if TravelShort(c, e, gap) then [Hit(TravelTime, Error)] else [])
      + (if prep > 0 && gap < Minutes(prep) then [Hit(PreparationTime, Warning)] else [])
  }

  /** The accumulators of the scan. */
  datatype ScanState = ScanState(conflicts: seq<CalendarEvent>, kind: ConflictType, severity: Severity)

  /** `n` copies of `e`: a stored event is pushed once per rule it breaks. */
  function Copies(e: CalendarEvent, n: nat): (r: seq<CalendarEvent>)
    ensures |r| == n && forall i :: 0 <= i < n ==> r[i] == e
  {
    seq(n, _ => e)
  }

  /** Folding one stored event's hits into the accumulators. */
  function Step(st: ScanState, e: CalendarEvent, hits: seq<Hit>): ScanState {
    if hits == [] then st
    else ScanState(st.conflicts + Copies(e, |hits|), hits[|hits| - 1].kind, hits[|hits| - 1].severity)
  }

  /** The accumulators after scanning `events` in order, from `overlap`/`warning`. */
  function Scan(c: Candidate, start: int, end: int, events: seq<CalendarEvent>): ScanState
    decreases |events|
  {
    if events == [] then ScanState([], Overlap, Warning)
    else
      var last := events[|events| - 1];
      Step(Scan(c, start, end, events[..|events| - 1]), last, Hits(c, start, end, last))
  }

  /** Every hit of the scan, in the order they are pushed. */
  function AllHits(c: Candidate, start: int, end: int, events: seq<CalendarEvent>): seq<Hit>
    decreases |events|
  {
    if events == [] then []
    else AllHits(c, start, end, events[..|events| - 1]) + Hits(c, start, end, events[|events| - 1])
  }

  /** Every stored event once per hit it raises, in scan order. */
  function Reported(c: Candidate, start: int, end: int, events: seq<CalendarEvent>): seq<CalendarEvent>
    decreases |events|
  {
    if events == [] then []
    else
      var last := events[|events| - 1];
      Reported(c, start, end, events[..|events| - 1]) + Copies(last, |Hits(c, start, end, last)|)
  }

  /** One step of the scan keeps the last-write-wins relation between the accumulators,
      the hits pushed so far and the events reported so far. */
  lemma StepLastWriteWins(st: ScanState, e: CalendarEvent, hits: seq<Hit>, all: seq<Hit>, reported: seq<CalendarEvent>)
    requires st.conflicts == reported && |reported| == |all|
    requires all == [] ==> st.kind == Overlap && st.severity == Warning
    requires all != [] ==> st.kind == all[|all| - 1].kind && st.severity == all[|all| - 1].severity
    ensures var next := Step(st, e, hits);
            var all' := all + hits;
            && next.conflicts == reported + Copies(e, |hits|)
            && |next.conflicts| == |all'|
            && (all' == [] ==> next.kind == Overlap && next.severity == Warning)
            && (all' != [] ==> next.kind == all'[|all'| - 1].kind && next.severity == all'[|all'| - 1].severity)
  {
    if hits == [] {
      assert all + hits == all;
      assert reported + Copies(e, 0) == reported;
    } else {
      assert (all + hits)[|all + hits| - 1] == hits[|hits| - 1];
    }
  }

  /** Last write wins: the type and severity the scan returns are those of the last hit
      pushed, not the most severe one, and the initial `overlap`/`warning` when nothing
      was pushed; the conflicts are each event repeated once per hit. */
  lemma {:induction false} ScanLastWriteWins(c: Candidate, start: int, end: int, events: seq<CalendarEvent>)
    ensures var st := Scan(c, start, end, events);
            var all := AllHits(c, start, end, events);
            && st.conflicts == Reported(c, start, end, events)
            && |st.conflicts| == |all|
            && (all == [] ==> st.kind == Overlap && st.severity == Warning)
            && (all != [] ==> st.kind == all[|all| - 1].kind && st.severity == all[|all| - 1].severity)
    decreases |events|
  {
    if events != [] {
      var init := events[..|events| - 1];
      var last := events[|events| - 1];
      ScanLastWriteWins(c, start, end, init);
      var hits := Hits(c, start, end, last);
      assert Scan(c, start, end, events) == Step(Scan(c, start, end, init), last, hits);
      assert AllHits(c, start, end, events) == AllHits(c, start, end, init) + hits;
      assert Reported(c, start, end, events) == Reported(c, start, end, init) + Copies(last, |hits|);
      StepLastWriteWins(Scan(c, start, end, init), last, hits, AllHits(c, start, end, init), Reported(c, start, end, init));
    }
  }

  /** Only stored, non-cancelled events are ever reported. */
  lemma {:induction false} ReportedFromStore(c: Candidate, start: int, end: int, events: seq<CalendarEvent>)
    ensures forall i :: 0 <= i < |Reported(c, start, end, events)| ==>
              Reported(c, start, end, events)[i] in events
              && Reported(c, start, end, events)[i].status != Cancelled
    decreases |events|
  {
    if events != [] {
      var init := events[..|events| - 1];
      var last := events[|events| - 1];
      ReportedFromStore(c, start, end, init);
      var r := Reported(c, start, end, init);
      var n := |Hits(c, start, end, last)|;
      forall i | 0 <= i < |Reported(c, start, end, events)|
        ensures Reported(c, start, end, events)[i] in events
        ensures Reported(c, start, end, events)[i].status != Cancelled
      {
        if i < |r| {
          assert Reported(c, start, end, events)[i] == r[i];
          assert r[i] in init;
        } else {
          assert Reported(c, start, end, events)[i] == last;
        }
      }
    }
  }

  lemma {:induction false} CopiesCount(e: CalendarEvent, n: nat, x: CalendarEvent)
    ensures multiset(Copies(e, n))[x] == if x == e then n else 0
    decreases n
  {
    if n > 0 {
      CopiesCount(e, n - 1, x);
      assert Copies(e, n) == Copies(e, n - 1) + [e];
    }
  }

  /** Every event of `events` repeated `count` times, in order. */
  function Pushed(events: seq<CalendarEvent>, count: CalendarEvent -> nat): seq<CalendarEvent>
    decreases |events|
  {
    if events == [] then []
    else Pushed(events[..|events| - 1], count) + Copies(events[|events| - 1], count(events[|events| - 1]))
  }

  function HitCount(c: Candidate, start: int, end: int): CalendarEvent -> nat {
    e => |Hits(c, start, end, e)|
  }

  lemma {:induction false} ReportedIsPushed(c: Candidate, start: int, end: int, events: seq<CalendarEvent>)
    ensures Reported(c, start, end, events) == Pushed(events, HitCount(c, start, end))
    decreases |events|
  {
    if events != [] {
      ReportedIsPushed(c, start, end, events[..|events| - 1]);
    }
  }

  lemma CountStep(m: nat, h: nat, here: bool)
    ensures (m + if here then 1 else 0) * h == m * h + if here then h else 0
  {
  }

  lemma {:induction false} PushedMultiplicity(events: seq<CalendarEvent>, count: CalendarEvent -> nat, x: CalendarEvent)
    ensures multiset(Pushed(events, count))[x] == multiset(events)[x] * count(x)
    decreases |events|
  {
    if events != [] {
      var init := events[..|events| - 1];
      var last := events[|events| - 1];
      var front := Pushed(init, count);
      var copies := Copies(last, count(last));
      PushedMultiplicity(init, count, x);
      CopiesCount(last, count(last), x);
      assert Pushed(events, count) == front + copies;
      assert multiset(front + copies)[x] == multiset(front)[x] + multiset(copies)[x];
      MultisetSnoc(events, x);
      CountStep(multiset(init)[x], count(x), x == last);
    }
  }

  /** Each stored event is reported once per rule it breaks: an event that occurs `m`
      times in the store and raises `h` hits appears `m * h` times among the conflicts. */
  lemma ReportedMultiplicity(c: Candidate, start: int, end: int, events: seq<CalendarEvent>, x: CalendarEvent)
    ensures multiset(Reported(c, start, end, events))[x] == multiset(events)[x] * |Hits(c, start, end, x)|
  {
    ReportedIsPushed(c, start, end, events);
    PushedMultiplicity(events, HitCount(c, start, end), x);
  }

  /** Every stored, non-cancelled event that overlaps the candidate is reported. */
  lemma {:induction false} OverlappingReported(c: Candidate, start: int, end: int, events: seq<CalendarEvent>, k: nat)
    requires k < |events| && events[k].status != Cancelled
    requires Overlaps(start, end, events[k].start, events[k].end)
    ensures events[k] in Reported(c, start, end, events)
    decreases |events|
  {
    var init := events[..|events| - 1];
    var last := events[|events| - 1];
    var r := Reported(c, start, end, init);
    if k == |events| - 1 {
      assert Reported(c, start, end, events)[|r|] == last;
    } else {
      assert events[k] == init[k];
      OverlappingReported(c, start, end, init, k);
      var j :| 0 <= j < |r| && r[j] == events[k];
      assert Reported(c, start, end, events)[j] == r[j];
    }
  }

  /** A message that quotes `name` between a fixed opening and a fixed ending. */
  function Quoting(opening: string, name: string, ending: string): (r: string)
    ensures |r| == |opening| + |name| + |ending|
  {
    opening + name + ending
  }

  const OverlapOpening: string := "This meeting overlaps with \""
  const OverlapEnding: string := "\". Consider rescheduling to avoid conflicts."
  const BackToBackOpening: string := "This meeting is scheduled immediately after \""
  const BackToBackEnding: string := "\". Consider adding a 5-10 minute buffer."
  const TravelOpening: string := "Insufficient travel time from \""
  const TravelEnding: string := "\" to the new meeting location. Consider adjusting the start time."
  const PreparationOpening: string := "Limited preparation time after \""
  const PreparationEnding: string := "\". Consider scheduling earlier or blocking prep time."

  /** `generateConflictSuggestion`. A travel suggestion names the location of the first
      conflict, which is rendered as `undefined` when that event has none. */
  function ConflictSuggestion(conflicts: seq<CalendarEvent>, kind: ConflictType): (r: string)
    ensures r == "" <==> conflicts == []
    ensures conflicts != [] && kind != TravelTime ==> Contains(r, conflicts[0].title)
    ensures conflicts != [] && kind == TravelTime ==>
              Contains(r, match conflicts[0].location case Some(l) => l case None => "undefined")
  {
    if conflicts == [] then ""
    else
      var name := match kind
        case TravelTime => (match conflicts[0].location case Some(l) => l case None => "undefined")
        case _ => conflicts[0].title;
      var opening := match kind
        case Overlap => OverlapOpening
        case BackToBack => BackToBackOpening
        case TravelTime => TravelOpening
        case PreparationTime => PreparationOpening;
      var ending := match kind
        case Overlap => OverlapEnding
        case BackToBack => BackToBackEnding
        case TravelTime => TravelEnding
        case PreparationTime => PreparationEnding;
      assert |opening| > 0;
      QuotingContains(opening, name, ending);
      Quoting(opening, name, ending)
  }

  lemma QuotingContains(opening: string, name: string, ending: string)
    ensures Contains(Quoting(opening, name, ending), name)
  {
    StartsWithConcat(name, ending);
    ContainsInConcat(opening, name + ending, name);
    assert Quoting(opening, name, ending) == opening + (name + ending);
  }

  /** `detectConflicts` as a function of the candidate and the stored events. */
  function Detect(c: Candidate, events: seq<CalendarEvent>): (r: ConflictDetection)
    ensures (c.start.None? || c.end.None?) ==> r == ConflictDetection(false, [], Overlap, Warning, None)
    ensures r.hasConflict <==> r.conflicts != []
    ensures c.start.Some? && c.end.Some? ==> r.suggestion == Some(ConflictSuggestion(r.conflicts, r.kind))
  {
    if c.start.None? || c.end.None? then ConflictDetection(false, [], Overlap, Warning, None)
    else
      var st := Scan(c, c.start.value, c.end.value, events);
      ConflictDetection(st.conflicts != [], st.conflicts, st.kind, st.severity,
                        Some(ConflictSuggestion(st.conflicts, st.kind)))
  }

  /** Each reported conflict is a stored event that is not cancelled. */
  lemma DetectFromStore(c: Candidate, events: seq<CalendarEvent>)
    ensures forall i :: 0 <= i < |Detect(c, events).conflicts| ==>
              Detect(c, events).conflicts[i] in events && Detect(c, events).conflicts[i].status != Cancelled
  {
    if c.start.Some? && c.end.Some? {
      ScanLastWriteWins(c, c.start.value, c.end.value, events);
      ReportedFromStore(c, c.start.value, c.end.value, events);
    }
  }

  /** An overlap is not the last word: an event that overlaps the candidate, followed by
      one that ends within five minutes of the candidate's start and within its
      preparation time, with no travel rule in play, yields `overlap`, then `back_to_back`
      and `preparation_time`, so the result is `preparation_time`/`warning` with the
      second event reported twice. */
  lemma OverlapThenPreparation(c: Candidate, first: CalendarEvent, second: CalendarEvent)
    requires c.start.Some? && c.end.Some?
    requires first.status != Cancelled && Overlaps(c.start.value, c.end.value, first.start, first.end)
    requires second.status != Cancelled && !Overlaps(c.start.value, c.end.value, second.start, second.end)
    requires Abs(c.start.value - second.end) < Minutes(5)
    requires Abs(c.start.value - second.end) < Minutes(PrepMinutes(c))
    requires !Truthy(c.location)
    ensures var r := Detect(c, [first, second]);
            r.hasConflict && r.kind == PreparationTime && r.severity == Warning
            && r.conflicts == [first, second, second]
  {
    var s, e := c.start.value, c.end.value;
    assert [first, second][..1] == [first];
    assert [first][..0] == [];
    var h1 := Hits(c, s, e, first);
    var h2 := Hits(c, s, e, second);
    assert h1 == [Hit(Overlap, Error)];
    assert h2 == [Hit(BackToBack, Warning), Hit(PreparationTime, Warning)];
    assert Copies(first, 1) == [first];
    assert Copies(second, 2) == [second, second];
    var one := [first];
    assert one[..|one| - 1] == [] && one[|one| - 1] == first;
    assert Scan(c, s, e, []) == ScanState([], Overlap, Warning);
    var st1 := Scan(c, s, e, one);
    assert st1 == Step(ScanState([], Overlap, Warning), first, h1);
    assert st1 == ScanState([first], Overlap, Error);
    var st2 := Scan(c, s, e, [first, second]);
    assert st2 == Step(st1, second, h2);
    assert st2 == ScanState([first, second, second], PreparationTime, Warning);
    assert Detect(c, [first, second]).conflicts == st2.conflicts;
  }

  /** One stored event can be reported three times: right before the candidate, at a
      different place too far away, and inside its preparation time. The travel error
      is then overwritten by the preparation warning. */
  lemma ThreePushes(c: Candidate, e: CalendarEvent)
    requires c.start.Some? && c.end.Some?
    requires e.status != Cancelled && !Overlaps(c.start.value, c.end.value, e.start, e.end)
    requires Abs(c.start.value - e.end) < Minutes(5)
    requires TravelShort(c, e, Abs(c.start.value - e.end))
    requires Abs(c.start.value - e.end) < Minutes(PrepMinutes(c))
    ensures var r := Detect(c, [e]);
            r.conflicts == [e, e, e] && r.kind == PreparationTime && r.severity == Warning
  {
    var s, t := c.start.value, c.end.value;
    assert [e][..0] == [];
    var h := Hits(c, s, t, e);
    assert h == [Hit(BackToBack, Warning), Hit(TravelTime, Error), Hit(PreparationTime, Warning)];
    assert Copies(e, 3) == [e, e, e];
    var one := [e];
    assert one[..|one| - 1] == [] && one[|one| - 1] == e;
    assert Scan(c, s, t, []) == ScanState([], Overlap, Warning);
    var st := Scan(c, s, t, one);
    assert st == Step(ScanState([], Overlap, Warning), e, h);
    assert st == ScanState([e, e, e], PreparationTime, Warning);
    assert Detect(c, [e]).conflicts == st.conflicts;
  }
}
