/**
 The in-memory append-only ledger and its bounded query port.

 `Appended`, `Page` and `Grown` say what one append, one bounded query and a
 run of appends mean; the methods of `InMemoryLedger` are proved against them.
 */
module Ledger {
  import opened Wrappers
  import opened LedgerTypes

  const PAGE_LIMIT: nat := 512
  const MAX_LIMIT: nat := 1024

  /** Cursors are 1, 2, 3, ... and no identity or idempotency key occurs twice. */
  ghost predicate WellFormed(log: seq<Event>) {
    && (forall i :: 0 <= i < |log| ==> log[i].cursor == i + 1)
    && (forall i, j :: 0 <= i < j < |log| ==> log[i].eventId != log[j].eventId)
    && (forall i, j :: 0 <= i < j < |log| ==> log[i].idempotencyKey != log[j].idempotencyKey)
  }

  predicate IsCancelled(log: seq<Event>, execution: string) {
    exists i :: 0 <= i < |log| && log[i].executionId == execution && log[i].kind == ExecutionCancelled
  }

  predicate IsTaken(log: seq<Event>, event: Event) {
    exists i :: 0 <= i < |log| && (log[i].eventId == event.eventId || log[i].idempotencyKey == event.idempotencyKey)
  }

  /** The log after one append, or the error that leaves it alone. */
  function Appended(log: seq<Event>, event: Event, checkCancel: bool): (r: Result<seq<Event>, LedgerError>)
    ensures r.Ok? ==> log <= r.value && |r.value| == |log| + 1
  {
    if checkCancel && IsCancelled(log, event.executionId) then Err(CancelledExecution(event.executionId))
    else if IsTaken(log, event) then Err(Conflict(event.eventId))
    else Ok(log + [event.(cursor := |log| + 1)])
  }

  /** An append adds the event at the next cursor unless the execution is cancelled, if that is checked, or its identity or key is taken. */
  lemma AppendedExactlyWhen(log: seq<Event>, event: Event, checkCancel: bool)
    ensures var r := Appended(log, event, checkCancel);
            var cancelled := checkCancel && exists e :: e in log && e.executionId == event.executionId && e.kind == ExecutionCancelled;
            var taken := exists e :: e in log && (e.eventId == event.eventId || e.idempotencyKey == event.idempotencyKey);
            && (r == Err(CancelledExecution(event.executionId)) <==> cancelled)
            && (r == Err(Conflict(event.eventId)) <==> !cancelled && taken)
            && (r.Ok? <==> !cancelled && !taken)
            && (r.Ok? ==> r.value == log + [event.(cursor := |log| + 1)])
  {
    forall e | e in log ensures exists i :: 0 <= i < |log| && log[i] == e {}
  }

  lemma AppendedKeepsWellFormed(log: seq<Event>, event: Event, checkCancel: bool)
    requires WellFormed(log)
    ensures Appended(log, event, checkCancel).Ok? ==> WellFormed(Appended(log, event, checkCancel).value)
  {
  }

  /** One attempted append by another writer: an event and whether cancellation is checked. */
  datatype Write = Write(event: Event, checkCancel: bool)

  /** The log after the first `n` attempted appends; refused ones change nothing. */
  function GrownUpTo(log: seq<Event>, writes: seq<Write>, n: nat): seq<Event>
    requires n <= |writes|
  {
    if n == 0 then log
    else
      var earlier := GrownUpTo(log, writes, n - 1);
      var last := Appended(earlier, writes[n - 1].event, writes[n - 1].checkCancel);
      if last.Ok? then last.value else earlier
  }

  function Grown(log: seq<Event>, writes: seq<Write>): seq<Event> {
    GrownUpTo(log, writes, |writes|)
  }

  /** What a run of appends keeps, whatever the writers try. */
  lemma {:induction false} GrownKeepsWellFormed(log: seq<Event>, writes: seq<Write>, n: nat)
    requires WellFormed(log) && n <= |writes|
    ensures var r := GrownUpTo(log, writes, n);
            log <= r && WellFormed(r)
  {
    if n > 0 {
      GrownKeepsWellFormed(log, writes, n - 1);
      AppendedKeepsWellFormed(GrownUpTo(log, writes, n - 1), writes[n - 1].event, writes[n - 1].checkCancel);
    }
  }

  /** The log after others took their first `n` turns; `others[k]` is turn `k`. */
  function AfterTurns(log: seq<Event>, others: seq<seq<Write>>, n: nat): seq<Event> {
    if n == 0 then log else Grown(AfterTurns(log, others, n - 1), Turn(others, n - 1))
  }

  function Turn(others: seq<seq<Write>>, k: nat): seq<Write> {
    if k < |others| then others[k] else []
  }

  // ---------------------------------------------------------------- queries

  datatype Query = Query(
    executionId: Option<string>,
    eventId: Option<EventId>,
    after: nat,
    through: Option<nat>,
    limit: nat)
  {
    predicate Valid() {
      && 1 <= limit <= MAX_LIMIT
      && executionId != Some("")
      && eventId != Some(OtherId(""))
      && (through.Some? ==> after <= through.value)
    }

    predicate Matches(event: Event) {
      && after < event.cursor
      && (through.Some? ==> event.cursor <= through.value)
      && (executionId.Some? ==> executionId.value == event.executionId)
      && (eventId.Some? ==> eventId.value == event.eventId)
    }
  }

  /** The matching events among the first `n`, in log order. */
  function MatchingUpTo(log: seq<Event>, n: nat, query: Query): seq<Event>
    requires n <= |log|
  {
    if n == 0 then []
    else
      var earlier := MatchingUpTo(log, n - 1, query);
      if query.Matches(log[n - 1]) then earlier + [log[n - 1]] else earlier
  }

  /** The matching events in log order. */
  function Matching(log: seq<Event>, query: Query): seq<Event> {
    MatchingUpTo(log, |log|, query)
  }

  function Take(events: seq<Event>, limit: nat): seq<Event> {
    if |events| <= limit then events else events[..limit]
  }

  function Page(log: seq<Event>, query: Query): seq<Event> {
    Take(Matching(log, query), query.limit)
  }

  ghost predicate Ascending(events: seq<Event>) {
    forall i, j :: 0 <= i < j < |events| ==> events[i].cursor < events[j].cursor
  }

  /** What a caller may rely on in a page: bounded, in scope, strictly ascending. */
  ghost predicate IsPage(query: Query, page: seq<Event>) {
    && |page| <= query.limit
    && (forall i :: 0 <= i < |page| ==> query.Matches(page[i]))
    && Ascending(page)
  }

  lemma {:induction false} MatchingAscends(log: seq<Event>, n: nat, query: Query)
    requires WellFormed(log) && n <= |log|
    ensures var r := MatchingUpTo(log, n, query);
            && Ascending(r)
            && |r| <= n
            && (forall i :: 0 <= i < |r| ==> query.Matches(r[i]) && r[i].cursor <= n)
  {
    if n > 0 { MatchingAscends(log, n - 1, query); }
  }

  /** A bounded query of the in-memory ledger always passes the port's page check. */
  lemma PageIsPage(log: seq<Event>, query: Query)
    requires WellFormed(log)
    ensures IsPage(query, Page(log, query))
  {
    MatchingAscends(log, |log|, query);
  }

  /** What was selected from a prefix is selected however the log grows. */
  lemma {:induction false} MatchingIsStable(log: seq<Event>, longer: seq<Event>, n: nat, query: Query)
    requires log <= longer && n <= |log|
    ensures MatchingUpTo(log, n, query) == MatchingUpTo(longer, n, query)
  {
    if n > 0 { MatchingIsStable(log, longer, n - 1, query); }
  }

  /** Nothing matches at or below the exclusive bound. */
  lemma {:induction false} MatchingSkips(log: seq<Event>, n: nat, query: Query)
    requires WellFormed(log) && n <= |log| && n <= query.after
    ensures MatchingUpTo(log, n, query) == []
  {
    if n > 0 { MatchingSkips(log, n - 1, query); }
  }

  /** Moving the exclusive bound up to `query.after` splits the selection there. */
  lemma {:induction false} MatchingSplits(log: seq<Event>, n: nat, query: Query, whole: Query)
    requires WellFormed(log) && query.after <= n <= |log|
    requires whole.after <= query.after && query == whole.(after := query.after)
    ensures MatchingUpTo(log, n, whole) == MatchingUpTo(log, query.after, whole) + MatchingUpTo(log, n, query)
  {
    if n == query.after {
      MatchingSkips(log, n, query);
    } else {
      MatchingSplits(log, n - 1, query, whole);
      assert query.Matches(log[n - 1]) == whole.Matches(log[n - 1]);
    }
  }

  /** Where a prefix of the selection ends in the log. */
  lemma {:induction false} MatchingPrefix(log: seq<Event>, n: nat, query: Query, k: nat) returns (cut: nat)
    requires n <= |log| && 0 < k <= |MatchingUpTo(log, n, query)|
    ensures 0 < cut <= n && log[cut - 1] == MatchingUpTo(log, n, query)[k - 1]
    ensures MatchingUpTo(log, cut, query) == MatchingUpTo(log, n, query)[..k]
  {
    if k <= |MatchingUpTo(log, n - 1, query)| {
      cut := MatchingPrefix(log, n - 1, query, k);
    } else {
      cut := n;
    }
  }

  lemma {:induction false} MatchingMembers(log: seq<Event>, n: nat, query: Query)
    requires n <= |log|
    ensures forall e :: e in MatchingUpTo(log, n, query) <==> e in log[..n] && query.Matches(e)
  {
    if n > 0 {
      MatchingMembers(log, n - 1, query);
      assert log[..n] == log[..n - 1] + [log[n - 1]];
    }
  }

  /** A query may ask for 1 to 1024 events, of named coordinates, in an interval that is no less than empty. */
  lemma QueryExactlyWhen(query: Query)
    ensures query.Valid() <==>
              && 1 <= query.limit <= 1024 && !(query.executionId.Some? && query.executionId.value == "")
              && !(query.eventId.Some? && query.eventId.value == OtherId(""))
              && !(query.through.Some? && query.through.value < query.after)
  {
  }

  /** The event is in the query's interval and has its coordinates. */
  predicate IsWanted(query: Query, e: Event) {
    && query.after < e.cursor && !(query.through.Some? && query.through.value < e.cursor)
    && !(query.executionId.Some? && query.executionId.value != e.executionId)
    && !(query.eventId.Some? && query.eventId.value != e.eventId)
  }

  /** A page is the first wanted events: every one up to its last, and every one if it is not full. */
  lemma PageExactlyWhen(log: seq<Event>, query: Query, e: Event)
    requires WellFormed(log) && query.limit > 0
    ensures var page := Page(log, query);
            && |page| <= query.limit && Ascending(page)
            && (e in page <==> e in log && IsWanted(query, e)
                               && (|page| < query.limit || e.cursor <= page[query.limit - 1].cursor))
  {
    var all, page := Matching(log, query), Page(log, query);
    MatchingAscends(log, |log|, query);
    MatchingMembers(log, |log|, query);
    assert log[..|log|] == log;
    if e in all {
      var i :| 0 <= i < |all| && all[i] == e;
      if |all| > query.limit && i < query.limit { assert page[i] == e; }
    }
  }

  // ------------------------------------------------------- lookup by identity

  /** The first event with this identity among the first `n`. */
  function FindUpTo(log: seq<Event>, n: nat, id: EventId): (r: Option<Event>)
    requires n <= |log|
    ensures r.Some? ==> exists i :: 0 <= i < n && log[i] == r.value && log[i].eventId == id
    ensures r.None? ==> forall i :: 0 <= i < n ==> log[i].eventId != id
  {
    if n == 0 then None
    else
      var earlier := FindUpTo(log, n - 1, id);
      if earlier.Some? then earlier
      else if log[n - 1].eventId == id then Some(log[n - 1])
      else None
  }

  function Find(log: seq<Event>, id: EventId): Option<Event> {
    FindUpTo(log, |log|, id)
  }

  lemma {:induction false} FindUpToIsStable(log: seq<Event>, longer: seq<Event>, n: nat, id: EventId)
    requires log <= longer && n <= |log|
    ensures FindUpTo(longer, n, id) == FindUpTo(log, n, id)
  {
    if n > 0 { FindUpToIsStable(log, longer, n - 1, id); }
  }

  lemma {:induction false} FindUpToExtends(log: seq<Event>, n: nat, m: nat, id: EventId)
    requires n <= m <= |log| && FindUpTo(log, n, id).Some?
    ensures FindUpTo(log, m, id) == FindUpTo(log, n, id)
  {
    if n < m { FindUpToExtends(log, n, m - 1, id); }
  }

  /** A lookup that succeeded keeps its answer however the log grows. */
  lemma FindIsStable(log: seq<Event>, longer: seq<Event>, id: EventId)
    requires log <= longer && Find(log, id).Some?
    ensures Find(longer, id) == Find(log, id)
  {
    FindUpToIsStable(log, longer, |log|, id);
    FindUpToExtends(longer, |log|, |longer|, id);
  }

  lemma {:induction false} FindIsFirstMatch(log: seq<Event>, n: nat, query: Query)
    requires WellFormed(log) && n <= |log|
    requires query.executionId == None && query.through == None && query.eventId.Some? && query.after == 0
    ensures var r := MatchingUpTo(log, n, query);
            FindUpTo(log, n, query.eventId.value) == if r == [] then None else Some(r[0])
  {
    if n > 0 { FindIsFirstMatch(log, n - 1, query); }
  }

  /** All events of one execution above a cursor: one filter over the whole log. */
  function EventsOf(log: seq<Event>, execution: string, after: nat): seq<Event> {
    Matching(log, Query(Some(execution), None, after, None, PAGE_LIMIT))
  }

  /** With nobody writing between pages the log a paged read ends on is the log it began on. */
  lemma {:induction false} AfterNoTurns(log: seq<Event>, n: nat)
    ensures AfterTurns(log, [], n) == log
  {
    if n > 0 { AfterNoTurns(log, n - 1); }
  }

  class InMemoryLedger {
    var nextCursor: nat
    var events: seq<Event>

    ghost predicate Valid()
      reads this
    {
      WellFormed(events) && nextCursor == |events|
    }

    constructor ()
      ensures Valid() && events == []
    {
      nextCursor, events := 0, [];
    }

    method AppendChecked(event: Event, checkCancel: bool) returns (r: Result<Event, LedgerError>)
      requires Valid()
      modifies this
      ensures Valid()
      ensures match Appended(old(events), event, checkCancel)
              case Ok(log) => events == log && r == Ok(log[|old(events)|])
              case Err(error) => events == old(events) && r == Err(error)
    {
      AppendedKeepsWellFormed(events, event, checkCancel);
      if checkCancel && IsCancelled(events, event.executionId) {
        return Err(CancelledExecution(event.executionId));
      }
      if IsTaken(events, event) {
        return Err(Conflict(event.eventId));
      }
      nextCursor := nextCursor + 1;
      var placed := event.(cursor := nextCursor);
      events := events + [placed];
      return Ok(placed);
    }

    method Append(event: Event) returns (r: Result<Event, LedgerError>)
      requires Valid()
      modifies this
      ensures Valid()
      ensures match Appended(old(events), event, false)
              case Ok(log) => events == log && r == Ok(log[|old(events)|])
              case Err(error) => events == old(events) && r == Err(error)
    {
      r := AppendChecked(event, false);
    }

    method AppendUnlessCancelled(event: Event) returns (r: Result<Event, LedgerError>)
      requires Valid()
      modifies this
      ensures Valid()
      ensures match Appended(old(events), event, true)
              case Ok(log) => events == log && r == Ok(log[|old(events)|])
              case Err(error) => events == old(events) && r == Err(error)
    {
      r := AppendChecked(event, true);
    }

    /** Other writers take their turn. */
    method Interfere(writes: seq<Write>)
      requires Valid()
      modifies this
      ensures Valid()
      ensures events == Grown(old(events), writes)
    {
      var i := 0;
      while i < |writes|
        invariant 0 <= i <= |writes|
        invariant Valid()
        invariant events == GrownUpTo(old(events), writes, i)
      {
        var _ := AppendChecked(writes[i].event, writes[i].checkCancel);
        i := i + 1;
      }
    }

    method RunQuery(query: Query) returns (r: Result<seq<Event>, LedgerError>)
      requires Valid()
      ensures r == if query.Valid() then Ok(Page(events, query)) else Err(InvalidQuery)
    {
      if !query.Valid() {
        return Err(InvalidQuery);
      }
      return Ok(Page(events, query));
    }

    method CheckedQuery(query: Query) returns (r: Result<seq<Event>, LedgerError>)
      requires Valid()
      ensures r == if query.Valid() then Ok(Page(events, query)) else Err(InvalidQuery)
    {
      if !query.Valid() {
        return Err(InvalidQuery);
      }
      var answer := RunQuery(query);
      var page := answer.value;
      var accepted := CheckPage(query, page);
      PageIsPage(events, query);
      if !accepted {
        return Err(Storage);
      }
      return Ok(page);
    }

    method EventById(id: EventId) returns (r: Result<Option<Event>, LedgerError>)
      requires Valid()
      ensures r == if id == OtherId("") then Err(InvalidQuery) else Ok(Find(events, id))
    {
      var query := Query(None, Some(id), 0, None, 1);
      var answer := CheckedQuery(query);
      if answer.Err? {
        return Err(answer.error);
      }
      FindIsFirstMatch(events, |events|, query);
      return Ok(if answer.value == [] then None else Some(answer.value[0]));
    }

    /**
     Read one execution page by page while other writers append before each
     page: `others[k]` is what they write before page `k`, nothing once the
     list runs out. The answer is one filter over the log as it stood at the
     last page, so the read takes effect at that moment.
     */
    method ExecutionEventsAfter(execution: string, after: nat, others: seq<seq<Write>>)
      returns (r: Result<seq<Event>, LedgerError>, pages: nat)
      requires Valid()
      modifies this
      ensures Valid()
      ensures r == if execution == "" then Err(InvalidQuery) else Ok(EventsOf(events, execution, after))
      ensures events == AfterTurns(old(events), others, pages)
    {
      var query := Query(Some(execution), None, after, None, PAGE_LIMIT);
      var collected: seq<Event> := [];
      pages := 0;
      if !query.Valid() {
        return Err(InvalidQuery), pages;
      }
      CollectedSoFarInit(events, query, after);
      var more := true;
      while more
        invariant Valid()
        invariant events == AfterTurns(old(events), others, pages)
        invariant query == Query(Some(execution), None, query.after, None, PAGE_LIMIT)
        invariant if more then CollectedSoFar(events, query, after, collected)
                  else collected == EventsOf(events, execution, after)
        decreases more, if pages < |others| then |others| - pages else 0, |events| - query.after
      {
        more, query, collected := ReadPage(query, after, collected, Turn(others, pages));
        pages := pages + 1;
      }
      return Ok(collected), pages;
    }

    /** One turn of the paging loop: others write, then one page is read and the bound moves to its last cursor. */
    method ReadPage(query: Query, ghost after: nat, collected: seq<Event>, writes: seq<Write>)
      returns (more: bool, next: Query, gathered: seq<Event>)
      requires Valid() && query.Valid() && CollectedSoFar(events, query, after, collected)
      modifies this
      ensures Valid() && events == Grown(old(events), writes)
      ensures next == query.(after := next.after)
      ensures more ==> query.after < next.after <= |events| && CollectedSoFar(events, next, after, gathered)
      ensures !more ==> gathered == Matching(events, query.(after := after))
    {
      Interfere(writes);
      GrownKeepsWellFormed(old(events), writes, |writes|);
      GrownPrefix(old(events), events, query, after, collected);
      var answer := CheckedQuery(query);
      var page := answer.value;
      next := query;
      if page != [] {
        NextPage(events, query, after, collected);
        next := query.(after := page[|page| - 1].cursor);
      }
      gathered := collected + page;
      more := |page| >= query.limit;
      if !more {
        LastPage(events, query, after, collected);
      }
    }
  }

  /** Refuse a page that is oversized, out of scope or not strictly ascending. */
  method CheckPage(query: Query, page: seq<Event>) returns (accepted: bool)
    ensures accepted <==> IsPage(query, page)
  {
    if |page| > query.limit {
      return false;
    }
    var previous := query.after;
    var i := 0;
    while i < |page|
      invariant 0 <= i <= |page|
      invariant previous == if i == 0 then query.after else page[i - 1].cursor
      invariant forall k :: 0 <= k < i ==> query.Matches(page[k])
      invariant Ascending(page[..i])
      invariant forall k :: 0 <= k < i ==> page[k].cursor <= previous
    {
      if !query.Matches(page[i]) || page[i].cursor <= previous {
        assert i > 0 ==> page[i - 1].cursor == previous;
        return false;
      }
      assert page[..i + 1] == page[..i] + [page[i]];
      previous := page[i].cursor;
      i := i + 1;
    }
    assert page[..i] == page;
    return true;
  }

  /** The pages read so far are exactly the matches up to the query's moving bound. */
  ghost predicate CollectedSoFar(log: seq<Event>, query: Query, after: nat, collected: seq<Event>) {
    && after <= query.after
    && if query.after <= |log| then collected == MatchingUpTo(log, query.after, query.(after := after))
       else query.after == after && collected == []
  }

  lemma CollectedSoFarInit(log: seq<Event>, query: Query, after: nat)
    requires WellFormed(log) && query.after == after
    ensures CollectedSoFar(log, query, after, [])
  {
    if after <= |log| { MatchingSkips(log, after, query); }
  }

  /** Appends by other writers land above the bound. */
  lemma GrownPrefix(log: seq<Event>, longer: seq<Event>, query: Query, after: nat, collected: seq<Event>)
    requires WellFormed(longer) && log <= longer
    requires CollectedSoFar(log, query, after, collected)
    ensures CollectedSoFar(longer, query, after, collected)
  {
    if query.after <= |log| {
      MatchingIsStable(log, longer, query.after, query.(after := after));
    } else if query.after <= |longer| {
      MatchingSkips(longer, query.after, query);
    }
  }

  /** A page that is not full reaches the end of the log. */
  lemma LastPage(log: seq<Event>, query: Query, after: nat, collected: seq<Event>)
    requires WellFormed(log) && CollectedSoFar(log, query, after, collected)
    requires |Page(log, query)| < query.limit
    ensures collected + Page(log, query) == Matching(log, query.(after := after))
  {
    if query.after <= |log| {
      MatchingSplits(log, |log|, query, query.(after := after));
    } else {
      MatchingSkips(log, |log|, query);
    }
  }

  /** A nonempty page moves the bound to its last cursor. */
  lemma NextPage(log: seq<Event>, query: Query, after: nat, collected: seq<Event>)
    requires WellFormed(log) && query.Valid() && CollectedSoFar(log, query, after, collected)
    requires Page(log, query) != []
    ensures var page := Page(log, query);
            var next := query.(after := page[|page| - 1].cursor);
            query.after < next.after <= |log| && CollectedSoFar(log, next, after, collected + page)
  {
    var page := Page(log, query);
    MatchingAscends(log, |log|, query);
    var end := MatchingPrefix(log, |log|, query, |page|);
    assert page[|page| - 1].cursor == end && query.Matches(page[|page| - 1]);
    MatchingSplits(log, end, query, query.(after := after));
  }

  /** The events of one execution are exactly its events above the bound, each once, in cursor order. */
  lemma EventsOfIsExact(log: seq<Event>, execution: string, after: nat)
    requires WellFormed(log)
    ensures var r := EventsOf(log, execution, after);
            && Ascending(r)
            && (forall e :: e in r <==> e in log && e.executionId == execution && after < e.cursor)
  {
    var query := Query(Some(execution), None, after, None, PAGE_LIMIT);
    MatchingAscends(log, |log|, query);
    MatchingMembers(log, |log|, query);
    assert log[..|log|] == log;
  }
}
