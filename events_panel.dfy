/**
 * The per-turn grouping of the events panel: events are grouped by turn id,
 * turns are ordered by their latest event (newest first), each turn is
 * summarised by its event types, earliest time and size, and its events are
 * shown oldest first.
 */
module EventsPanel {
  import opened ChatTypes

  // ---------------------------------------------------------------- grouping

  /** The events of one turn, in input order. */
  function OfTurn(events: seq<AgentEvent>, turnId: string): (group: seq<AgentEvent>)
    ensures |group| <= |events|
  {
    if events == [] then []
    else
      var prior := OfTurn(events[..|events| - 1], turnId);
      var last := events[|events| - 1];
      if last.turnId == turnId then prior + [last] else prior
  }

  /** Every event lands in the group of its own turn id, and only there. */
  lemma {:induction false} OfTurnMembers(events: seq<AgentEvent>, turnId: string)
    ensures forall e :: e in OfTurn(events, turnId) <==> e in events && e.turnId == turnId
  {
    if events != [] {
      var last := events[|events| - 1];
      OfTurnMembers(events[..|events| - 1], turnId);
      assert events == events[..|events| - 1] + [last];
    }
  }

  /** Grouping keeps input order: the group of a concatenation is the groups of the parts, concatenated. */
  lemma {:induction false} OfTurnAppend(a: seq<AgentEvent>, b: seq<AgentEvent>, turnId: string)
    ensures OfTurn(a + b, turnId) == OfTurn(a, turnId) + OfTurn(b, turnId)
    decreases |b|
  {
    if b == [] {
      assert a + b == a;
    } else {
      var init, last := b[..|b| - 1], b[|b| - 1];
      assert b == init + [last];
      assert a + b == (a + init) + [last];
      OfTurnAppend(a, init, turnId);
      OfTurnSnoc(a + init, last, turnId);
      OfTurnSnoc(init, last, turnId);
    }
  }

  /** The distinct turn ids of the events, in order of first appearance. */
  function TurnIds(events: seq<AgentEvent>): (ids: seq<string>)
    ensures forall i, j :: 0 <= i < j < |ids| ==> ids[i] != ids[j]
  {
    if events == [] then []
    else
      var prior := TurnIds(events[..|events| - 1]);
      var last := events[|events| - 1];
      if last.turnId in prior then prior else prior + [last.turnId]
  }

  /** The turn ids listed are exactly those some event carries. */
  lemma {:induction false} TurnIdsMembers(events: seq<AgentEvent>)
    ensures forall t :: t in TurnIds(events) <==> exists e :: e in events && e.turnId == t
  {
    if events != [] {
      var last := events[|events| - 1];
      TurnIdsMembers(events[..|events| - 1]);
      assert events == events[..|events| - 1] + [last];
    }
  }

  /** A turn id not yet listed has an empty group. */
  lemma {:induction false} OfTurnEmptyWhenAbsent(events: seq<AgentEvent>, turnId: string)
    requires turnId !in TurnIds(events)
    ensures OfTurn(events, turnId) == []
  {
    if events != [] {
      var prior := events[..|events| - 1];
      assert forall t :: t in TurnIds(prior) ==> t in TurnIds(events);
      OfTurnEmptyWhenAbsent(prior, turnId);
    }
  }

  /** One more event joins its own turn's group and no other. */
  lemma OfTurnSnoc(events: seq<AgentEvent>, e: AgentEvent, turnId: string)
    ensures OfTurn(events + [e], turnId) == OfTurn(events, turnId) + (if e.turnId == turnId then [e] else [])
  {
    assert (events + [e])[..|events|] == events;
  }

  /** One more event adds its turn id at the end exactly when the id is new. */
  lemma TurnIdsSnoc(events: seq<AgentEvent>, e: AgentEvent)
    ensures TurnIds(events + [e]) == TurnIds(events) + (if e.turnId in TurnIds(events) then [] else [e.turnId])
  {
    assert (events + [e])[..|events|] == events;
  }

  /**
   * The `reduce` that builds the groups: each event is pushed onto the
   * group of its turn id, a new group being opened on its first event.
   */
  method GroupByTurn(events: seq<AgentEvent>) returns (groups: map<string, seq<AgentEvent>>, keys: seq<string>)
    ensures keys == TurnIds(events)
    ensures forall t :: t in groups <==> t in keys
    ensures forall t :: t in groups ==> groups[t] == OfTurn(events, t)
  {
    groups := map[];
    keys := [];
    var i := 0;
    while i < |events|
      invariant 0 <= i <= |events|
      invariant keys == TurnIds(events[..i])
      invariant forall t :: t in groups <==> t in keys
      invariant forall t :: t in groups ==> groups[t] == OfTurn(events[..i], t)
    {
      var e := events[i];
      assert events[..i + 1] == events[..i] + [e];
      TurnIdsSnoc(events[..i], e);
      forall t ensures OfTurn(events[..i + 1], t) == OfTurn(events[..i], t) + (if e.turnId == t then [e] else []) {
        OfTurnSnoc(events[..i], e, t);
      }
      if e.turnId !in groups {
        OfTurnEmptyWhenAbsent(events[..i], e.turnId);
        groups := groups[e.turnId := []];
        keys := keys + [e.turnId];
      }
      groups := groups[e.turnId := groups[e.turnId] + [e]];
      i := i + 1;
    }
    assert events[..i] == events;
  }

  /** The total size of the groups named by `keys`. */
  function GroupSizes(events: seq<AgentEvent>, keys: seq<string>): nat {
    if keys == [] then 0 else GroupSizes(events, keys[..|keys| - 1]) + |OfTurn(events, keys[|keys| - 1])|
  }

  /** One more event adds one to the total over distinct keys exactly when its turn is among them. */
  lemma {:induction false} GroupSizesStep(events: seq<AgentEvent>, e: AgentEvent, keys: seq<string>)
    requires forall i, j :: 0 <= i < j < |keys| ==> keys[i] != keys[j]
    ensures GroupSizes(events + [e], keys) == GroupSizes(events, keys) + (if e.turnId in keys then 1 else 0)
    decreases |keys|
  {
    if keys != [] {
      var n := |keys|;
      GroupSizesStep(events, e, keys[..n - 1]);
      assert (events + [e])[..|events|] == events;
      assert e.turnId in keys <==> e.turnId in keys[..n - 1] || e.turnId == keys[n - 1] by {
        assert keys == keys[..n - 1] + [keys[n - 1]];
      }
      if e.turnId == keys[n - 1] {
        assert e.turnId !in keys[..n - 1];
      }
    }
  }

  /** The groups partition the events: their sizes add up to the number of events. */
  lemma {:induction false} GroupSizesSumToCount(events: seq<AgentEvent>)
    ensures GroupSizes(events, TurnIds(events)) == |events|
  {
    TurnIdsMembers(events);
    GroupSizesOver(events, TurnIds(events));
  }

  lemma {:induction false} GroupSizesOver(events: seq<AgentEvent>, keys: seq<string>)
    requires forall i, j :: 0 <= i < j < |keys| ==> keys[i] != keys[j]
    requires forall e :: e in events ==> e.turnId in keys
    ensures GroupSizes(events, keys) == |events|
    decreases |events|
  {
    if events == [] {
      GroupSizesOfNothing(keys);
    } else {
      var n := |events|;
      var prior := events[..n - 1];
      assert events == prior + [events[n - 1]];
      GroupSizesOver(prior, keys);
      GroupSizesStep(prior, events[n - 1], keys);
    }
  }

  lemma {:induction false} GroupSizesOfNothing(keys: seq<string>)
    ensures GroupSizes([], keys) == 0
    decreases |keys|
  {
    if keys != [] {
      GroupSizesOfNothing(keys[..|keys| - 1]);
    }
  }

  // ---------------------------------------------------------------- turn order

  /** `Math.max` over a group's timestamps. */
  function Latest(group: seq<AgentEvent>): (t: int)
    requires group != []
    ensures exists e :: e in group && e.timestamp == t
    ensures forall e :: e in group ==> e.timestamp <= t
  {
    if |group| == 1 then group[0].timestamp
    else
      var rest := Latest(group[1..]);
      assert forall e :: e in group ==> e == group[0] || e in group[1..];
      if group[0].timestamp >= rest then group[0].timestamp else rest
  }

  /** The latest time of a turn, or 0 for a turn without events. */
  function LatestOfTurn(events: seq<AgentEvent>, turnId: string): int {
    var group := OfTurn(events, turnId);
    if group == [] then 0 else Latest(group)
  }

  /** A list of turn ids whose scores never increase. */
  predicate NewestFirst(ids: seq<string>, score: string -> int) {
    forall i, j :: 0 <= i < j < |ids| ==> score(ids[i]) >= score(ids[j])
  }

  /** Places one turn id into a newest-first list, after every id scored at least as high. */
  function InsertTurn(id: string, sorted: seq<string>, score: string -> int): (r: seq<string>)
    requires NewestFirst(sorted, score)
    ensures NewestFirst(r, score)
    ensures multiset(r) == multiset(sorted) + multiset{id}
  {
    if sorted == [] then [id]
    else if score(sorted[0]) >= score(id) then
      var rest := InsertTurn(id, sorted[1..], score);
      assert sorted == [sorted[0]] + sorted[1..];
      ScoresBounded(rest, sorted[1..], id, score, score(sorted[0]));
      [sorted[0]] + rest
    else
      [id] + sorted
  }

  /** A list holding the ids of `parts` and `id` scores no higher than a bound all of them respect. */
  lemma ScoresBounded(r: seq<string>, parts: seq<string>, id: string, score: string -> int, bound: int)
    requires multiset(r) == multiset(parts) + multiset{id}
    requires forall k :: 0 <= k < |parts| ==> score(parts[k]) <= bound
    requires score(id) <= bound
    ensures forall k :: 0 <= k < |r| ==> score(r[k]) <= bound
  {
    forall k | 0 <= k < |r| ensures score(r[k]) <= bound {
      var x := r[k];
      assert x in multiset(r);
      if x != id {
        assert x in multiset(parts);
        var j :| 0 <= j < |parts| && parts[j] == x;
      }
    }
  }

  /** The turn ids sorted by score, highest first; ties keep their earlier order. */
  function SortTurns(ids: seq<string>, score: string -> int): (r: seq<string>)
    ensures NewestFirst(r, score)
    ensures multiset(r) == multiset(ids)
  {
    if ids == [] then []
    else
      assert ids == ids[..|ids| - 1] + [ids[|ids| - 1]];
      InsertTurn(ids[|ids| - 1], SortTurns(ids[..|ids| - 1], score), score)
  }

  /** `sortedTurnIds`: every turn exactly once, newest first. */
  function SortedTurnIds(events: seq<AgentEvent>): (r: seq<string>)
    ensures forall i, j :: 0 <= i < j < |r| ==> LatestOfTurn(events, r[i]) >= LatestOfTurn(events, r[j])
    ensures multiset(r) == multiset(TurnIds(events))
  {
    SortTurns(TurnIds(events), t => LatestOfTurn(events, t))
  }

  /** Every turn that has an event is listed exactly once, and nothing else is. */
  lemma SortedTurnIdsMembers(events: seq<AgentEvent>)
    ensures var r := SortedTurnIds(events);
      && (forall t :: t in r <==> exists e :: e in events && e.turnId == t)
      && (forall i, j :: 0 <= i < j < |r| ==> r[i] != r[j])
  {
    var r := SortedTurnIds(events);
    TurnIdsMembers(events);
    assert forall t :: t in r <==> t in multiset(r);
    assert forall t :: t in TurnIds(events) <==> t in multiset(TurnIds(events));
    PermutationOfDistinct(r, TurnIds(events));
  }

  /** A rearrangement of a list without repeats has no repeats. */
  lemma PermutationOfDistinct(a: seq<string>, b: seq<string>)
    requires multiset(a) == multiset(b)
    requires forall i, j :: 0 <= i < j < |b| ==> b[i] != b[j]
    ensures forall i, j :: 0 <= i < j < |a| ==> a[i] != a[j]
  {
    forall i, j | 0 <= i < j < |a| ensures a[i] != a[j] {
      if a[i] == a[j] {
        RepeatCountsTwice(a, i, j);
        DistinctCountsOnce(b, a[i]);
      }
    }
  }

  /** An element at two positions occurs at least twice. */
  lemma RepeatCountsTwice(a: seq<string>, i: nat, j: nat)
    requires i < j < |a| && a[i] == a[j]
    ensures multiset(a)[a[i]] >= 2
  {
    assert a == a[..i] + [a[i]] + a[i + 1..j] + [a[j]] + a[j + 1..];
  }

  /** In a list without repeats, each element occurs once. */
  lemma {:induction false} DistinctCountsOnce(ids: seq<string>, t: string)
    requires forall i, j :: 0 <= i < j < |ids| ==> ids[i] != ids[j]
    ensures multiset(ids)[t] <= 1
    decreases |ids|
  {
    if ids != [] {
      var n := |ids|;
      DistinctCountsOnce(ids[..n - 1], t);
      assert ids == ids[..n - 1] + [ids[n - 1]];
      if ids[n - 1] == t {
        assert t !in ids[..n - 1];
      }
    }
  }

  // ---------------------------------------------------------------- turn summary

  /** `[...new Set(types)]`: the event types of a group, once each, in order of first appearance. */
  function DistinctTypes(group: seq<AgentEvent>): (types: seq<EventType>)
    ensures forall i, j :: 0 <= i < j < |types| ==> types[i] != types[j]
    ensures forall t :: t in types <==> exists e :: e in group && e.eventType == t
  {
    if group == [] then []
    else
      var prior := DistinctTypes(group[..|group| - 1]);
      var last := group[|group| - 1];
      assert group == group[..|group| - 1] + [last];
      if last.eventType in prior then prior else prior + [last.eventType]
  }

  /** The earliest timestamp of a group. */
  function Earliest(group: seq<AgentEvent>): (t: int)
    requires group != []
    ensures exists e :: e in group && e.timestamp == t
    ensures forall e :: e in group ==> t <= e.timestamp
  {
    if |group| == 1 then group[0].timestamp
    else
      var rest := Earliest(group[1..]);
      assert forall e :: e in group ==> e == group[0] || e in group[1..];
      if group[0].timestamp <= rest then group[0].timestamp else rest
  }

  predicate Ascending(s: seq<AgentEvent>) {
    forall i, j :: 0 <= i < j < |s| ==> s[i].timestamp <= s[j].timestamp
  }

  /** Exchanges two neighbouring events. */
  method SwapWithPrevious(a: array<AgentEvent>, j: int)
    requires 0 < j < a.Length
    modifies a
    ensures a[j - 1] == old(a[j]) && a[j] == old(a[j - 1])
    ensures forall m :: 0 <= m < a.Length && m != j - 1 && m != j ==> a[m] == old(a[m])
    ensures multiset(a[..]) == multiset(old(a[..]))
  {
    a[j - 1], a[j] := a[j], a[j - 1];
  }

  /** `group.sort((a, b) => a.timestamp - b.timestamp)`, in place: ascending, and the same events. */
  method SortByTimestamp(a: array<AgentEvent>)
    modifies a
    ensures Ascending(a[..])
    ensures multiset(a[..]) == multiset(old(a[..]))
  {
    var i := 0;
    while i < a.Length
      invariant 0 <= i <= a.Length
      invariant forall k, l :: 0 <= k < l < i ==> a[k].timestamp <= a[l].timestamp
      invariant multiset(a[..]) == multiset(old(a[..]))
    {
      var j := i;
      while j > 0 && a[j - 1].timestamp > a[j].timestamp
        invariant 0 <= j <= i
        invariant forall k, l :: 0 <= k < l <= i && l != j ==> a[k].timestamp <= a[l].timestamp
        invariant 0 < j < i ==> a[j - 1].timestamp <= a[j + 1].timestamp
        invariant multiset(a[..]) == multiset(old(a[..]))
      {
        SwapWithPrevious(a, j);
        j := j - 1;
      }
      i := i + 1;
    }
  }

  /** The first event of an ascending arrangement of a group has the group's earliest time. */
  lemma FirstOfAscendingIsEarliest(sorted: seq<AgentEvent>, group: seq<AgentEvent>)
    requires group != [] && Ascending(sorted) && multiset(sorted) == multiset(group)
    ensures sorted != [] && sorted[0].timestamp == Earliest(group)
  {
    assert forall e :: e in sorted <==> e in group by {
      assert forall e :: e in sorted <==> e in multiset(sorted);
      assert forall e :: e in group <==> e in multiset(group);
    }
    assert group[0] in sorted;
    var m :| m in group && m.timestamp == Earliest(group);
    var k :| 0 <= k < |sorted| && sorted[k] == m;
    assert sorted[0] in group;
  }

  datatype TurnSummary = TurnSummary(types: seq<EventType>, timestamp: int, count: nat)

  /**
   * `getTurnSummary`: the types are taken before the group is sorted in
   * place; the timestamp is then that of the first event, which is the
   * group's earliest, and the count is the group's size.
   */
  method GetTurnSummary(group: array<AgentEvent>) returns (summary: TurnSummary)
    requires group.Length > 0
    modifies group
    ensures summary.types == DistinctTypes(old(group[..]))
    ensures summary.timestamp == Earliest(old(group[..]))
    ensures summary.count == group.Length
    ensures Ascending(group[..]) && multiset(group[..]) == multiset(old(group[..]))
  {
    var types := DistinctTypes(group[..]);
    ghost var before := group[..];
    SortByTimestamp(group);
    FirstOfAscendingIsEarliest(group[..], before);
    summary := TurnSummary(types, group[0].timestamp, group.Length);
  }

  // ---------------------------------------------------------------- the panel

  /** One accordion item: the turn id, its summary and its events as displayed. */
  datatype TurnView = TurnView(turnId: string, summary: TurnSummary, shown: seq<AgentEvent>)

  /** An item shows a turn that has events, summarised over them, with them oldest first. */
  predicate ShowsTurn(v: TurnView, events: seq<AgentEvent>) {
    var group := OfTurn(events, v.turnId);
    && group != []
    && v.summary.types == DistinctTypes(group)
    && v.summary.timestamp == Earliest(group)
    && v.summary.count == |group|
    && Ascending(v.shown)
    && multiset(v.shown) == multiset(group)
  }

  /** A listed turn has a non-empty group. */
  lemma ListedTurnHasEvents(events: seq<AgentEvent>, turnId: string)
    requires turnId in SortedTurnIds(events)
    ensures turnId in TurnIds(events) && OfTurn(events, turnId) != []
  {
    assert turnId in multiset(SortedTurnIds(events));
    SortedTurnIdsMembers(events);
    var e :| e in events && e.turnId == turnId;
    OfTurnMembers(events, turnId);
    assert e in OfTurn(events, turnId);
  }

  /** The accordion item of one turn: the group is summarised, then shown oldest first. */
  method ShowGroup(turnId: string, group: seq<AgentEvent>) returns (v: TurnView)
    requires group != []
    ensures v.turnId == turnId
    ensures v.summary.types == DistinctTypes(group) && v.summary.timestamp == Earliest(group)
    ensures v.summary.count == |group|
    ensures Ascending(v.shown) && multiset(v.shown) == multiset(group)
  {
    var arr := new AgentEvent[|group|](i requires 0 <= i < |group| => group[i]);
    assert arr[..] == group;
    var summary := GetTurnSummary(arr);
    SortByTimestamp(arr);
    v := TurnView(turnId, summary, arr[..]);
  }

  /**
   * The panel's turn list: turns newest first, each with its summary over
   * its own events and those events oldest first.
   */
  method View(events: seq<AgentEvent>) returns (views: seq<TurnView>)
    ensures |views| == |SortedTurnIds(events)|
    ensures forall k :: 0 <= k < |views| ==> views[k].turnId == SortedTurnIds(events)[k] && ShowsTurn(views[k], events)
  {
    var groups, keys := GroupByTurn(events);
    var order := SortedTurnIds(events);
    views := [];
    var k := 0;
    while k < |order|
      invariant 0 <= k <= |order|
      invariant |views| == k
      invariant forall m :: 0 <= m < k ==> views[m].turnId == order[m] && ShowsTurn(views[m], events)
    {
      var turnId := order[k];
      ListedTurnHasEvents(events, turnId);
      assert turnId in keys;
      var v := ShowGroup(turnId, groups[turnId]);
      views := views + [v];
      k := k + 1;
    }
  }
}
