/** `CalendarManager`: the list of events merged from the connected providers, the set
    of connected providers, the conflict scan over the stored events and the two
    queries. The HTTP requests are not modelled: a provider connection receives the
    outcome of its request as a parameter. */
module CalendarStore {
  import opened Common
  import opened Clock
  import opened Sorting
  import opened Calendar
  import opened Conflicts
  import opened OrderedMaps

  /** The outcome of a provider request: a failure (a network error or a response that is
      not `ok`), or the decoded body whose event list may be absent. */
  datatype Fetch<T> = Failed | Fetched(items: Option<seq<T>>)

  /** The sort key of `mergeEvents`: the start time. */
  function StartKey(e: CalendarEvent): real {
    e.start as real
  }

  /** Whether an event did not come from `source` (its id lacks the `source_` prefix). */
  function NotFrom(source: string): CalendarEvent -> bool {
    (e: CalendarEvent) => !StartsWith(e.id, source + "_")
  }

  /** The event list after `mergeEvents(newEvents, source)`. */
  function Merged(events: seq<CalendarEvent>, newEvents: seq<CalendarEvent>, source: string): seq<CalendarEvent> {
    SortBy(Filter(events, NotFrom(source)) + newEvents, StartKey)
  }

  /** After a merge the list is sorted by start time and holds the kept events and the
      new ones, each as often as before. */
  lemma MergedSortedPermutation(events: seq<CalendarEvent>, newEvents: seq<CalendarEvent>, source: string)
    ensures Sorted(Merged(events, newEvents, source), StartKey)
    ensures multiset(Merged(events, newEvents, source)) == multiset(Filter(events, NotFrom(source))) + multiset(newEvents)
  {
    SortBySorted(Filter(events, NotFrom(source)) + newEvents, StartKey);
  }

  /** After a merge the events of `source` are the new ones: no earlier event of that
      source survives. Every new event and every event of another source is present. */
  lemma MergedMembers(events: seq<CalendarEvent>, newEvents: seq<CalendarEvent>, source: string, x: CalendarEvent)
    ensures x in Merged(events, newEvents, source) && StartsWith(x.id, source + "_") ==> x in newEvents
    ensures x in newEvents ==> x in Merged(events, newEvents, source)
    ensures x in events && !StartsWith(x.id, source + "_") ==> x in Merged(events, newEvents, source)
  {
    var kept := Filter(events, NotFrom(source));
    var m := Merged(events, newEvents, source);
    MergedSortedPermutation(events, newEvents, source);
    assert x in m <==> x in multiset(m);
    FilterMultiset(events, NotFrom(source));
    assert multiset(kept)[x] == if NotFrom(source)(x) then multiset(events)[x] else 0;
  }

  /** `data.items?.map(convertGoogleEvent) || []`. */
  function ConvertGoogleEvents(items: Option<seq<GoogleEvent>>): (r: seq<CalendarEvent>)
    ensures forall i :: 0 <= i < |r| ==> StartsWith(r[i].id, "google_")
    ensures items.None? ==> r == []
    ensures items.Some? ==> |r| == |items.value| && forall i :: 0 <= i < |r| ==> r[i] == ConvertGoogleEvent(items.value[i])
  {
    var s := items.GetOr([]);
    seq(|s|, i requires 0 <= i < |s| => ConvertGoogleEvent(s[i]))
  }

  /** `data.value?.map(convertOutlookEvent) || []`. */
  function ConvertOutlookEvents(items: Option<seq<OutlookEvent>>): (r: seq<CalendarEvent>)
    ensures forall i :: 0 <= i < |r| ==> StartsWith(r[i].id, "outlook_")
    ensures items.None? ==> r == []
    ensures items.Some? ==> |r| == |items.value| && forall i :: 0 <= i < |r| ==> r[i] == ConvertOutlookEvent(items.value[i])
  {
    var s := items.GetOr([]);
    seq(|s|, i requires 0 <= i < |s| => ConvertOutlookEvent(s[i]))
  }

  /** `set.add(x)` on a set kept in insertion order. */
  function AddOnce(s: seq<string>, x: string): (r: seq<string>)
    ensures forall y :: y in r <==> y in s || y == x
    ensures |s| <= |r| <= |s| + 1 && r[..|s|] == s
    ensures x in s ==> r == s
    ensures Distinct(s) ==> Distinct(r)
  {
    if x in s then s else s + [x]
  }

  /** `getEvents`' filter: not cancelled, and starting within the bounds that are given. */
  predicate InWindow(e: CalendarEvent, lo: Option<int>, hi: Option<int>) {
    e.status != Cancelled && (lo.None? || e.start >= lo.value) && (hi.None? || e.start <= hi.value)
  }

  /** `getUpcomingEvents`' filter. */
  predicate IsUpcoming(e: CalendarEvent, now: int, cutoff: int) {
    now <= e.start <= cutoff && e.status != Cancelled
  }

  function UpcomingAt(now: int, cutoff: int): CalendarEvent -> bool {
    (e: CalendarEvent) => IsUpcoming(e, now, cutoff)
  }

  function NotCancelled(): CalendarEvent -> bool {
    (e: CalendarEvent) => e.status != Cancelled
  }

  function StartsFrom(t: int): CalendarEvent -> bool {
    (e: CalendarEvent) => e.start >= t
  }

  function StartsBy(t: int): CalendarEvent -> bool {
    (e: CalendarEvent) => e.start <= t
  }

  class CalendarManager {
    var events: seq<CalendarEvent>
    var connectedApis: seq<string>

    ghost predicate Valid()
      reads this
    {
      Distinct(connectedApis)
    }

    constructor()
      ensures Valid()
      ensures events == [] && connectedApis == []
    {
      events := [];
      connectedApis := [];
    }

    /** `mergeEvents`: drop the stored events of `source`, append the new ones, and sort
        the list by start time. */
    method MergeEvents(newEvents: seq<CalendarEvent>, source: string)
      requires Valid()
      modifies this
      ensures Valid()
      ensures events == Merged(old(events), newEvents, source)
      ensures connectedApis == old(connectedApis)
    {
      events := Filter(events, NotFrom(source));
      events := events + newEvents;
      events := SortBy(events, StartKey);
    }

    /** `connectGoogleCalendar`, given the outcome of its request. */
    method ConnectGoogleCalendar(response: Fetch<GoogleEvent>) returns (ok: bool)
      requires Valid()
      modifies this
      ensures Valid()
      ensures ok <==> response.Fetched?
      ensures !ok ==> events == old(events) && connectedApis == old(connectedApis)
      ensures ok ==> events == Merged(old(events), ConvertGoogleEvents(response.items), "google")
      ensures ok ==> connectedApis == AddOnce(old(connectedApis), "google")
    {
      if response.Failed? {
        return false;
      }
      MergeEvents(ConvertGoogleEvents(response.items), "google");
      connectedApis := AddOnce(connectedApis, "google");
      return true;
    }

    /** `connectOutlookCalendar`, given the outcome of its request. */
    method ConnectOutlookCalendar(response: Fetch<OutlookEvent>) returns (ok: bool)
      requires Valid()
      modifies this
      ensures Valid()
      ensures ok <==> response.Fetched?
      ensures !ok ==> events == old(events) && connectedApis == old(connectedApis)
      ensures ok ==> events == Merged(old(events), ConvertOutlookEvents(response.items), "outlook")
      ensures ok ==> connectedApis == AddOnce(old(connectedApis), "outlook")
    {
      if response.Failed? {
        return false;
      }
      MergeEvents(ConvertOutlookEvents(response.items), "outlook");
      connectedApis := AddOnce(connectedApis, "outlook");
      return true;
    }

    /** `detectConflicts`: one pass over the stored events, pushing each stored event once
        per rule it breaks and overwriting the type and severity each time. */
    method DetectConflicts(c: Candidate) returns (r: ConflictDetection)
      ensures r == Detect(c, events)
    {
      if c.start.None? || c.end.None? {
        return ConflictDetection(false, [], Overlap, Warning, None);
      }
      var start, end := c.start.value, c.end.value;
      var conflicts: seq<CalendarEvent> := [];
      var kind := Overlap;
      var severity := Warning;
      var i := 0;
      while i < |events|
        invariant 0 <= i <= |events|
        invariant ScanState(conflicts, kind, severity) == Scan(c, start, end, events[..i])
      {
        var e := events[i];
        ScanSnoc(c, start, end, events, i);
        if e.status == Cancelled {
          i := i + 1;
          continue;
        }
        conflicts, kind, severity := CheckEvent(c, start, end, e, conflicts, kind, severity);
        i := i + 1;
      }
      assert events[..|events|] == events;
      var suggestion := ConflictSuggestion(conflicts, kind);
      r := ConflictDetection(|conflicts| > 0, conflicts, kind, severity, Some(suggestion));
    }

    /** `getEvents(startDate?, endDate?)`: the stored events that are not cancelled and
        start within the given inclusive bounds, in stored order. */
    function GetEvents(lo: Option<int>, hi: Option<int>): (r: seq<CalendarEvent>)
      reads this
      ensures IsSubsequence(r, events)
      ensures forall x :: multiset(r)[x] == if InWindow(x, lo, hi) then multiset(events)[x] else 0
      ensures forall i :: 0 <= i < |r| ==> InWindow(r[i], lo, hi)
      ensures forall i :: 0 <= i < |events| && InWindow(events[i], lo, hi) ==> events[i] in r
    {
      WindowChain(events, lo, hi);
      FilterWindow(events, lo, hi)
    }

    /** `getUpcomingEvents(hoursAhead)`, given the current time: the stored events that are
        not cancelled and start between now and `hoursAhead` hours later, in stored order. */
    function GetUpcomingEvents(hoursAhead: int, now: int): (r: seq<CalendarEvent>)
      reads this
      ensures IsSubsequence(r, events)
      ensures forall i :: 0 <= i < |r| ==> IsUpcoming(r[i], now, now + hoursAhead * MsPerHour)
      ensures forall i :: 0 <= i < |events| && IsUpcoming(events[i], now, now + hoursAhead * MsPerHour) ==>
                events[i] in r
      ensures forall x :: multiset(r)[x] ==
                if IsUpcoming(x, now, now + hoursAhead * MsPerHour) then multiset(events)[x] else 0
    {
      var cutoff := now + hoursAhead * MsPerHour;
      FilterIsSubsequence(events, UpcomingAt(now, cutoff));
      FilterMultiset(events, UpcomingAt(now, cutoff));
      Filter(events, UpcomingAt(now, cutoff))
    }

    /** `getConnectedCalendars`: each provider once, in the order first connected. */
    function GetConnectedCalendars(): (r: seq<string>)
      requires Valid()
      reads this
      ensures Distinct(r)
      ensures forall p :: p in r <==> p in connectedApis
    {
      connectedApis
    }
  }

  /** The body of `detectConflicts`' loop for one stored event that is not cancelled:
      an overlap is recorded alone; otherwise the back-to-back, travel and preparation
      rules are tried in turn, each pushing the event and overwriting the type and
      severity when it fires. */
  method CheckEvent(c: Candidate, start: int, end: int, e: CalendarEvent,
                    conflicts0: seq<CalendarEvent>, kind0: ConflictType, severity0: Severity)
    returns (conflicts: seq<CalendarEvent>, kind: ConflictType, severity: Severity)
    requires e.status != Cancelled
    ensures ScanState(conflicts, kind, severity) ==
            Step(ScanState(conflicts0, kind0, severity0), e, Hits(c, start, end, e))
  {
    conflicts, kind, severity := conflicts0, kind0, severity0;
    ghost var before := ScanState(conflicts0, kind0, severity0);
    if Overlaps(start, end, e.start, e.end) {
      conflicts := conflicts + [e];
      kind, severity := Overlap, Error;
      assert Copies(e, 1) == [e];
      return;
    }
    ghost var pushed: seq<Hit> := [];
    var gap := Abs(start - e.end);
    if gap < Minutes(5) {
      conflicts := conflicts + [e];
      kind, severity := BackToBack, Warning;
      pushed := pushed + [Hit(BackToBack, Warning)];
      assert Copies(e, 1) == [e];
    }
    assert ScanState(conflicts, kind, severity) == Step(before, e, pushed);
    if Truthy(e.location) && Truthy(c.location) && e.location.value != c.location.value {
      var travel := Calendar.TravelTime(e.location.value, c.location.value);
      if gap < Minutes(travel) {
        StepPush(before, e, pushed, Hit(TravelTime, Error));
        conflicts := conflicts + [e];
        kind, severity := TravelTime, Error;
        pushed := pushed + [Hit(TravelTime, Error)];
      }
    }
    assert pushed == (if gap < Minutes(5) then [Hit(BackToBack, Warning)] else [])
                     + (if TravelShort(c, e, gap) then [Hit(TravelTime, Error)] else []);
    assert ScanState(conflicts, kind, severity) == Step(before, e, pushed);
    var prep := PrepMinutes(c);
    if prep > 0 && gap < Minutes(prep) {
      StepPush(before, e, pushed, Hit(PreparationTime, Warning));
      conflicts := conflicts + [e];
      kind, severity := PreparationTime, Warning;
      pushed := pushed + [Hit(PreparationTime, Warning)];
    }
    assert pushed == Hits(c, start, end, e);
  }

  lemma ScanSnoc(c: Candidate, start: int, end: int, events: seq<CalendarEvent>, i: nat)
    requires i < |events|
    ensures Scan(c, start, end, events[..i + 1]) ==
            Step(Scan(c, start, end, events[..i]), events[i], Hits(c, start, end, events[i]))
  {
    assert events[..i + 1][..i] == events[..i];
  }

  /** Pushing one more hit onto an event that already has some appends one more copy of it
      and records the hit's type and severity. */
  lemma StepPush(st: ScanState, e: CalendarEvent, pushed: seq<Hit>, h: Hit)
    ensures Step(st, e, pushed + [h]) ==
            ScanState(Step(st, e, pushed).conflicts + [e], h.kind, h.severity)
  {
    assert Copies(e, |pushed| + 1) == Copies(e, |pushed|) + [e];
  }

  /** The three filters of `getEvents`, the bound filters applied only when the bound is
      given. */
  function FilterWindow(events: seq<CalendarEvent>, lo: Option<int>, hi: Option<int>): seq<CalendarEvent> {
    var b := OpenFrom(events, lo);
    if hi.Some? then Filter(b, StartsBy(hi.value)) else b
  }

  /** The first two stages of the window filter: not cancelled, and from `lo` on. */
  function OpenFrom(events: seq<CalendarEvent>, lo: Option<int>): seq<CalendarEvent> {
    var a := Filter(events, NotCancelled());
    if lo.Some? then Filter(a, StartsFrom(lo.value)) else a
  }

  lemma WindowChain(events: seq<CalendarEvent>, lo: Option<int>, hi: Option<int>)
    ensures IsSubsequence(FilterWindow(events, lo, hi), events)
    ensures forall x :: multiset(FilterWindow(events, lo, hi))[x] == if InWindow(x, lo, hi) then multiset(events)[x] else 0
    ensures forall i :: 0 <= i < |FilterWindow(events, lo, hi)| ==> InWindow(FilterWindow(events, lo, hi)[i], lo, hi)
    ensures forall i :: 0 <= i < |events| && InWindow(events[i], lo, hi) ==> events[i] in FilterWindow(events, lo, hi)
  {
    WindowSubsequence(events, lo, hi);
    WindowMultiset(events, lo, hi);
    WindowMembers(events, FilterWindow(events, lo, hi), lo, hi);
  }

  lemma WindowSubsequence(events: seq<CalendarEvent>, lo: Option<int>, hi: Option<int>)
    ensures IsSubsequence(FilterWindow(events, lo, hi), events)
  {
    var a := Filter(events, NotCancelled());
    var b := if lo.Some? then Filter(a, StartsFrom(lo.value)) else a;
    var r := FilterWindow(events, lo, hi);
    FilterIsSubsequence(events, NotCancelled());
    if lo.Some? {
      FilterIsSubsequence(a, StartsFrom(lo.value));
      SubsequenceTransitive(b, a, events);
    }
    if hi.Some? {
      FilterIsSubsequence(b, StartsBy(hi.value));
      SubsequenceTransitive(r, b, events);
    }
  }

  lemma WindowMultiset(events: seq<CalendarEvent>, lo: Option<int>, hi: Option<int>)
    ensures forall x :: multiset(FilterWindow(events, lo, hi))[x] == if InWindow(x, lo, hi) then multiset(events)[x] else 0
  {
    var b := OpenFrom(events, lo);
    OpenFromMultiset(events, lo);
    if hi.Some? {
      FilterMultiset(b, StartsBy(hi.value));
    }
  }

  lemma OpenFromMultiset(events: seq<CalendarEvent>, lo: Option<int>)
    ensures forall x :: multiset(OpenFrom(events, lo))[x] ==
              if x.status != Cancelled && (lo.None? || x.start >= lo.value) then multiset(events)[x] else 0
  {
    var a := Filter(events, NotCancelled());
    FilterMultiset(events, NotCancelled());
    assert forall x: CalendarEvent :: multiset(a)[x] == if x.status != Cancelled then multiset(events)[x] else 0;
    if lo.Some? {
      FilterMultiset(a, StartsFrom(lo.value));
    }
  }

  /** Membership in a sequence whose multiplicities are those of the window filter. */
  lemma WindowMembers(events: seq<CalendarEvent>, r: seq<CalendarEvent>, lo: Option<int>, hi: Option<int>)
    requires forall x :: multiset(r)[x] == if InWindow(x, lo, hi) then multiset(events)[x] else 0
    ensures forall i :: 0 <= i < |r| ==> InWindow(r[i], lo, hi)
    ensures forall i :: 0 <= i < |events| && InWindow(events[i], lo, hi) ==> events[i] in r
  {
    forall i | 0 <= i < |r| ensures InWindow(r[i], lo, hi) {
      assert r[i] in multiset(r);
    }
    forall i | 0 <= i < |events| && InWindow(events[i], lo, hi) ensures events[i] in r {
      assert events[i] in multiset(events);
      assert multiset(r)[events[i]] > 0;
    }
  }
}
