/** The bounded event log of the broker and cursor paging over it. */

module EventLog {
  import opened Options
  import opened Tables

  const MAX_BROKER_EVENTS := 4096

  datatype Event = Event(sequence: nat, role: Option<Role>, status: nat)

  /** Everything ever recorded: sequence numbers count from one. */
  ghost predicate Numbered(history: seq<Event>) {
    forall i :: 0 <= i < |history| ==> history[i].sequence == i + 1
  }

  /** The last 4096 events, contiguous by construction. */
  function Retained(history: seq<Event>): seq<Event> {
    if |history| <= MAX_BROKER_EVENTS then history else history[|history| - MAX_BROKER_EVENTS..]
  }

  class Log {
    var rows: seq<Event>
    var last: nat
    ghost var history: seq<Event>

    ghost predicate Valid() reads this {
      Numbered(history) && last == |history| && rows == Retained(history)
    }

    constructor ()
      ensures Valid() && history == []
    {
      rows, last, history := [], 0, [];
    }

    /** The new row is stored, then every row 4096 or more behind it is deleted. */
    method RecordEvent(role: Option<Role>, status: nat) returns (sequence: nat)
      requires Valid()
      modifies this
      ensures Valid()
      ensures history == old(history) + [Event(sequence, role, status)]
      ensures sequence == |history|
      ensures rows == if |history| <= 4096 then history else history[|history| - 4096..]
    {
      sequence := last + 1;
      rows := rows + [Event(sequence, role, status)];
      last := sequence;
      history := history + [Event(sequence, role, status)];
      var kept: seq<Event> := [];
      var n := |rows|;
      for i := 0 to n
        invariant rows == old(rows) + [Event(sequence, role, status)] && history == old(history) + [Event(sequence, role, status)]
        invariant last == sequence && n == |rows|
        invariant kept == if n <= MAX_BROKER_EVENTS then rows[..i] else if i == 0 then [] else rows[1..i]
      {
        if rows[i].sequence > last - MAX_BROKER_EVENTS { kept := kept + [rows[i]]; }
      }
      rows := kept;
    }
  }

  // ----- pages -----

  predicate Matches(event: Event, role: Option<Role>) {
    role == None || event.role == role
  }

  /** The matching events in a range of sequence numbers, in order. */
  function Select(rows: seq<Event>, after: nat, upto: nat, role: Option<Role>): seq<Event> {
    if rows == [] then []
    else
      var last := rows[|rows| - 1];
      Select(rows[..|rows| - 1], after, upto, role)
      + if after < last.sequence <= upto && Matches(last, role) then [last] else []
  }

  function Latest(rows: seq<Event>): nat {
    if rows == [] then 0 else rows[|rows| - 1].sequence
  }

  datatype Page = Page(events: seq<Event>, next: nat, gap: bool, truncated: bool)

  function PublicEvents(rows: seq<Event>, after: nat, limit: nat, role: Option<Role>): Page {
    var matching := Select(rows, after, Latest(rows), role);
    var selected := if |matching| <= limit then matching else matching[..limit];
    Page(selected,
         if selected == [] then after else selected[|selected| - 1].sequence,
         rows != [] && rows[0].sequence > after + 1,
         |matching| > limit)
  }

  // ----- facts about ranges -----

  ghost predicate Rising(rows: seq<Event>) {
    forall i, j :: 0 <= i < j < |rows| ==> rows[i].sequence < rows[j].sequence
  }

  lemma {:induction false} SelectInside(rows: seq<Event>, after: nat, upto: nat, role: Option<Role>)
    requires Rising(rows)
    ensures var s := Select(rows, after, upto, role);
            && Rising(s)
            && forall i :: 0 <= i < |s| ==> s[i] in rows && after < s[i].sequence <= upto && Matches(s[i], role)
  {
    if rows != [] {
      var shorter, last := rows[..|rows| - 1], rows[|rows| - 1];
      SelectInside(shorter, after, upto, role);
      SelectLast(rows, after, upto, role);
      PickedInside(rows, Select(shorter, after, upto, role), after, upto, role);
    }
  }

  /** Selected are exactly the rows of the range, of the role that is asked for if
      one is. */
  lemma {:induction false} SelectExactly(rows: seq<Event>, after: nat, upto: nat, role: Option<Role>)
    ensures forall e :: e in Select(rows, after, upto, role) <==>
              e in rows && after < e.sequence && e.sequence <= upto && (role.Some? ==> e.role == role)
    decreases |rows|
  {
    if rows != [] {
      var last := rows[|rows| - 1];
      assert rows == rows[..|rows| - 1] + [last];
      SelectExactly(rows[..|rows| - 1], after, upto, role);
    }
  }

  lemma PickedInside(rows: seq<Event>, front: seq<Event>, after: nat, upto: nat, role: Option<Role>)
    requires Rising(rows) && rows != [] && Rising(front)
    requires forall i :: 0 <= i < |front| ==> front[i] in rows[..|rows| - 1] && after < front[i].sequence <= upto && Matches(front[i], role)
    ensures var s := front + Picked(rows[|rows| - 1], after, upto, role);
            && Rising(s)
            && forall i :: 0 <= i < |s| ==> s[i] in rows && after < s[i].sequence <= upto && Matches(s[i], role)
  {
    assert forall event :: event in rows[..|rows| - 1] ==> event in rows && event.sequence < rows[|rows| - 1].sequence;
  }

  /** Nothing is after a cursor that no row exceeds. */
  lemma {:induction false} SelectNone(rows: seq<Event>, after: nat, upto: nat, role: Option<Role>)
    requires Rising(rows) && (rows != [] ==> rows[|rows| - 1].sequence <= after)
    ensures Select(rows, after, upto, role) == []
  {
    if rows != [] { SelectNone(rows[..|rows| - 1], after, upto, role); }
  }

  /** Ranges join. */
  lemma {:induction false} SelectSplit(rows: seq<Event>, a: nat, b: nat, c: nat, role: Option<Role>)
    requires Rising(rows) && a <= b <= c
    ensures Select(rows, a, c, role) == Select(rows, a, b, role) + Select(rows, b, c, role)
  {
    if rows != [] {
      var shorter, last := rows[..|rows| - 1], rows[|rows| - 1];
      SelectSplit(shorter, a, b, c, role);
      if last.sequence <= b {
        SelectNone(rows, b, c, role);
        SelectNone(shorter, b, c, role);
        SelectLast(rows, a, b, role);
        SelectLast(rows, a, c, role);
      } else {
        SelectLast(rows, a, b, role);
        SelectLast(rows, a, c, role);
        SelectLast(rows, b, c, role);
        assert Select(rows, a, c, role) == Select(shorter, a, b, role) + (Select(shorter, b, c, role) + Picked(last, b, c, role));
      }
    }
  }

  function Picked(event: Event, after: nat, upto: nat, role: Option<Role>): seq<Event> {
    if after < event.sequence <= upto && Matches(event, role) then [event] else []
  }

  lemma SelectLast(rows: seq<Event>, after: nat, upto: nat, role: Option<Role>)
    requires rows != []
    ensures Select(rows, after, upto, role) == Select(rows[..|rows| - 1], after, upto, role) + Picked(rows[|rows| - 1], after, upto, role)
  {
  }

  /** Rows up to a cursor do not matter to what follows it. */
  lemma {:induction false} SelectSuffix(rows: seq<Event>, k: nat, after: nat, upto: nat, role: Option<Role>)
    requires Rising(rows) && k <= |rows| && (k > 0 ==> rows[k - 1].sequence <= after)
    ensures Select(rows[k..], after, upto, role) == Select(rows, after, upto, role)
    decreases |rows|
  {
    if k == |rows| {
      SelectNone(rows, after, upto, role);
    } else {
      var shorter := rows[..|rows| - 1];
      SelectSuffix(shorter, k, after, upto, role);
      assert rows[k..][..|rows| - k - 1] == shorter[k..];
    }
  }

  /** Later rows do not matter to a range that ends before them. */
  lemma SelectAppend(rows: seq<Event>, event: Event, after: nat, upto: nat, role: Option<Role>)
    requires event.sequence > upto
    ensures Select(rows + [event], after, upto, role) == Select(rows, after, upto, role)
  {
    assert (rows + [event])[..|rows|] == rows;
  }

  lemma NumberedRising(history: seq<Event>)
    requires Numbered(history)
    ensures Rising(history) && Latest(history) == |history|
  {
  }

  lemma RetainedBounds(history: seq<Event>)
    requires Numbered(history)
    ensures var rows := Retained(history);
            && Rising(rows) && Latest(rows) == Latest(history)
            && (rows == [] <==> history == [])
            && (history != [] ==> rows[0].sequence == |history| - |rows| + 1)
  {
    NumberedRising(history);
  }

  ghost predicate Deleted(history: seq<Event>, sequence: nat) {
    1 <= sequence <= |history| && forall event :: event in Retained(history) ==> event.sequence != sequence
  }

  /** A page reports a gap exactly when an event after its cursor was deleted. */
  lemma GapExact(history: seq<Event>, after: nat, limit: nat, role: Option<Role>)
    requires Numbered(history)
    ensures PublicEvents(Retained(history), after, limit, role).gap <==> exists s :: after < s && Deleted(history, s)
  {
    RetainedBounds(history);
    var rows := Retained(history);
    if PublicEvents(rows, after, limit, role).gap {
      assert after < after + 1 && Deleted(history, after + 1);
    }
    if s :| after < s && Deleted(history, s) {
      if rows[0].sequence <= s { assert rows[s - rows[0].sequence] in rows; }
    }
  }

  /** Without a gap a page is the front of the matching events after its cursor. */
  lemma PageIsFront(history: seq<Event>, after: nat, limit: nat, role: Option<Role>)
    requires Numbered(history) && limit >= 1
    requires !PublicEvents(Retained(history), after, limit, role).gap
    ensures var page := PublicEvents(Retained(history), after, limit, role);
            var matching := Select(history, after, |history|, role);
            && page.events == (if |matching| <= limit then matching else matching[..limit])
            && (page.truncated <==> |matching| > limit)
  {
    NumberedRising(history);
    RetainedBounds(history);
    SelectSuffix(history, |history| - |Retained(history)|, after, |history|, role);
  }

  /** It is the whole range up to its `next` cursor. */
  lemma PageIsRange(history: seq<Event>, after: nat, limit: nat, role: Option<Role>)
    requires Numbered(history) && limit >= 1
    requires !PublicEvents(Retained(history), after, limit, role).gap
    ensures var page := PublicEvents(Retained(history), after, limit, role);
            && after <= page.next
            && (page.next == after || page.next <= |history|)
            && page.events == Select(history, after, page.next, role)
            && (!page.truncated ==> page.events == Select(history, after, |history|, role))
            && Rising(page.events) && |page.events| <= limit && (page.truncated ==> |page.events| == limit)
            && (forall e :: e in page.events <==>
                  e in history && after < e.sequence && e.sequence <= page.next && (role.Some? ==> e.role == role))
            && (page.truncated <==> exists e :: e in history && e.sequence > page.next && e.sequence > after && (role.Some? ==> e.role == role))
  {
    NumberedRising(history);
    var whole := PublicEvents(Retained(history), after, limit, role);
    SelectExactly(history, after, whole.next, role);
    SelectInside(history, after, whole.next, role);
    PageTruncated(history, after, limit, role);
    var page := PublicEvents(Retained(history), after, limit, role);
    PageIsFront(history, after, limit, role);
    if page.events == [] {
      EmptyRange(history, after, role);
    } else {
      PrefixIsRange(history, after, |page.events|, role);
    }
  }

  /** More is to come exactly if a matching event is after the cursor. */
  lemma PageTruncated(history: seq<Event>, after: nat, limit: nat, role: Option<Role>)
    requires Numbered(history) && limit >= 1
    requires !PublicEvents(Retained(history), after, limit, role).gap
    ensures var page := PublicEvents(Retained(history), after, limit, role);
            page.truncated <==> exists e :: e in history && e.sequence > page.next && e.sequence > after && (role.Some? ==> e.role == role)
  {
    var page := PublicEvents(Retained(history), after, limit, role);
    var matching := Select(history, after, |history|, role);
    PageIsFront(history, after, limit, role);
    NumberedRising(history);
    SelectExactly(history, after, |history|, role);
    SelectInside(history, after, |history|, role);
    if page.truncated {
      assert matching[|page.events|] in matching;
    } else {
      forall e | e in matching ensures e.sequence <= page.next {
        var i :| 0 <= i < |matching| && matching[i] == e;
      }
    }
  }

  lemma {:induction false} EmptyRange(rows: seq<Event>, after: nat, role: Option<Role>)
    ensures Select(rows, after, after, role) == []
  {
    if rows != [] { EmptyRange(rows[..|rows| - 1], after, role); }
  }

  lemma SplitPoint(front: seq<Event>, back: seq<Event>, k: nat, next: nat)
    requires Rising(front + back) && 1 <= k <= |front + back| && (front + back)[k - 1].sequence == next
    requires forall i :: 0 <= i < |front| ==> front[i].sequence <= next
    requires forall i :: 0 <= i < |back| ==> back[i].sequence > next
    ensures |front| == k
  {
    assert forall i :: 0 <= i < |back| ==> (front + back)[|front| + i] == back[i];
    assert forall i :: 0 <= i < |front| ==> (front + back)[i] == front[i];
    assert Rising(front);
    assert front != [] ==> front[|front| - 1].sequence <= next;
  }

  lemma PrefixIsRange(history: seq<Event>, after: nat, k: nat, role: Option<Role>)
    requires Numbered(history)
    requires 1 <= k <= |Select(history, after, |history|, role)|
    ensures var matching := Select(history, after, |history|, role);
            && after <= matching[k - 1].sequence <= |history|
            && matching[..k] == Select(history, after, matching[k - 1].sequence, role)
  {
    NumberedRising(history);
    var matching := Select(history, after, |history|, role);
    SelectInside(history, after, |history|, role);
    var next := matching[k - 1].sequence;
    SelectSplit(history, after, next, |history|, role);
    var front, back := Select(history, after, next, role), Select(history, next, |history|, role);
    SelectInside(history, after, next, role);
    SelectInside(history, next, |history|, role);
    SplitPoint(front, back, k, next);
  }

  // ----- a reader among writers -----

  datatype Step = Append(writer: Option<Role>, status: nat) | Read(limit: nat)

  datatype Reader = Reader(history: seq<Event>, cursor: nat, seen: seq<Event>, missed: bool, current: bool)

  /** One record or one page; pages of any size from one upwards. */
  function Stepped(r: Reader, role: Option<Role>, step: Step): Reader {
    match step
    case Append(writer, status) =>
      r.(history := r.history + [Event(|r.history| + 1, writer, status)], current := false)
    case Read(limit) =>
      var page := PublicEvents(Retained(r.history), r.cursor, limit, role);
      Reader(r.history, page.next, r.seen + page.events, r.missed || page.gap, !page.truncated)
  }

  function Followed(start: nat, role: Option<Role>, steps: seq<Step>): Reader {
    if steps == [] then Reader([], start, [], false, false)
    else Stepped(Followed(start, role, steps[..|steps| - 1]), role, steps[|steps| - 1])
  }

  /** What the reader has seen is the range from its start to its cursor. */
  ghost predicate Complete(r: Reader, start: nat, role: Option<Role>) {
    && Numbered(r.history) && start <= r.cursor
    && (r.cursor <= |r.history| || r.cursor == start)
    && r.seen == Select(r.history, start, r.cursor, role)
    && (r.current ==> r.seen == Select(r.history, start, |r.history|, role))
  }

  lemma AppendComplete(r: Reader, start: nat, role: Option<Role>, writer: Option<Role>, status: nat)
    requires Complete(r, start, role)
    ensures Complete(Stepped(r, role, Append(writer, status)), start, role)
  {
    var event := Event(|r.history| + 1, writer, status);
    if r.cursor <= |r.history| {
      SelectAppend(r.history, event, start, r.cursor, role);
    } else {
      EmptyRange(r.history, start, role);
      EmptyRange(r.history + [event], start, role);
    }
  }

  lemma ReadComplete(r: Reader, start: nat, role: Option<Role>, limit: nat)
    requires Complete(r, start, role) && limit >= 1 && !Stepped(r, role, Read(limit)).missed
    ensures Complete(Stepped(r, role, Read(limit)), start, role)
  {
    var page := PublicEvents(Retained(r.history), r.cursor, limit, role);
    NumberedRising(r.history);
    PageIsRange(r.history, r.cursor, limit, role);
    SelectSplit(r.history, start, r.cursor, page.next, role);
    if r.cursor <= |r.history| {
      SelectSplit(r.history, start, r.cursor, |r.history|, role);
    } else {
      BeyondAll(r.history, start, role);
      EmptyRange(r.history, start, role);
    }
  }

  lemma BeyondAll(rows: seq<Event>, start: nat, role: Option<Role>)
    requires Rising(rows) && Latest(rows) <= start
    ensures forall upto :: Select(rows, start, upto, role) == []
  {
    forall upto ensures Select(rows, start, upto, role) == [] { SelectNone(rows, start, upto, role); }
  }

  /** A reader that follows `next` from page to page, while events are recorded
      in between, has seen every matching event between its start and its cursor,
      once and in order, unless a page reported a gap; after a page that was not
      truncated it has seen all there are. */
  lemma LosslessPaging(start: nat, role: Option<Role>, steps: seq<Step>)
    requires forall i :: 0 <= i < |steps| && steps[i].Read? ==> steps[i].limit >= 1
    requires !Followed(start, role, steps).missed
    ensures Complete(Followed(start, role, steps), start, role)
    ensures var r := Followed(start, role, steps);
            && Rising(r.seen)
            && (forall e :: e in r.seen <==> e in r.history && start < e.sequence && e.sequence <= r.cursor && (role.Some? ==> e.role == role))
            && (r.current ==> forall e :: e in r.history && e.sequence > start && (role.Some? ==> e.role == role) ==> e in r.seen)
  {
    FollowedComplete(start, role, steps);
    var r := Followed(start, role, steps);
    NumberedRising(r.history);
    SelectExactly(r.history, start, r.cursor, role);
    SelectInside(r.history, start, r.cursor, role);
    SelectExactly(r.history, start, |r.history|, role);
  }

  lemma {:induction false} FollowedComplete(start: nat, role: Option<Role>, steps: seq<Step>)
    requires forall i :: 0 <= i < |steps| && steps[i].Read? ==> steps[i].limit >= 1
    requires !Followed(start, role, steps).missed
    ensures Complete(Followed(start, role, steps), start, role)
    decreases |steps|
  {
    if steps != [] {
      var shorter := steps[..|steps| - 1];
      assert forall i :: 0 <= i < |shorter| ==> shorter[i] == steps[i];
      FollowedComplete(start, role, shorter);
      var before := Followed(start, role, shorter);
      match steps[|steps| - 1]
      case Append(writer, status) => AppendComplete(before, start, role, writer, status);
      case Read(limit) => ReadComplete(before, start, role, limit);
    }
  }
}
