/**
 * The events page's client-side filter: an event is shown when its
 * lower-cased device id contains the lower-cased search text and its
 * timestamp starts with the date filter, an empty filter matching all.
 */
module EventFilter {

  /** The fields of an event as the page's table reads them. */
  datatype UiEvent = UiEvent(
    deviceId: string,
    timestamp: string,
    acPower: real,
    temperatureModule: real,
    operational: bool)

  // ---------- string primitives ----------

  /** Lower-cases one character (ASCII letters only). */
  function LowerChar(c: char): (r: char)
    ensures !('A' <= r <= 'Z')
    ensures 'A' <= c <= 'Z' ==> r as int == c as int + 32
    ensures !('A' <= c <= 'Z') ==> r == c
  {
    if 'A' <= c <= 'Z' then (c as int + 32) as char else c
  }

  /** `toLowerCase`, restricted to ASCII letters. */
  function ToLower(s: string): (r: string)
    ensures |r| == |s|
    ensures forall i :: 0 <= i < |s| ==> r[i] == LowerChar(s[i])
    ensures forall i :: 0 <= i < |r| ==> !('A' <= r[i] <= 'Z')
    ensures (forall i :: 0 <= i < |s| ==> !('A' <= s[i] <= 'Z')) ==> r == s
  {
    seq(|s|, i requires 0 <= i < |s| => LowerChar(s[i]))
  }

  /** Lower-casing twice is lower-casing once. */
  lemma ToLowerIdempotent(s: string)
    ensures ToLower(ToLower(s)) == ToLower(s)
  {
  }

  /** `startsWith`: `s` is `p` followed by some rest. */
  predicate StartsWith(s: string, p: string): (b: bool)
    ensures b <==> exists rest :: s == p + rest
  {
    if |p| <= |s| && s[..|p|] == p then
      assert s == p + s[|p|..];
      true
    else
      false
  }

  /** `t` occurs in `s` starting at index `i`. */
  predicate OccursAt(s: string, t: string, i: nat)
  {
    i + |t| <= |s| && s[i..i + |t|] == t
  }

  /** `includes`: `t` occurs somewhere in `s` (the empty string occurs everywhere). */
  function Includes(s: string, t: string): (b: bool)
    ensures b <==> exists i: nat :: OccursAt(s, t, i)
    decreases |s|
  {
    if StartsWith(s, t) then
      assert OccursAt(s, t, 0);
      true
    else if |s| == 0 then
      false
    else
      var b := Includes(s[1..], t);
      if b then
        var i: nat :| OccursAt(s[1..], t, i);
        assert s[i + 1..i + 1 + |t|] == s[1..][i..i + |t|];
        assert OccursAt(s, t, i + 1);
        true
      else
        assert forall i: nat :: !OccursAt(s, t, i) by {
          forall i: nat ensures !OccursAt(s, t, i) {
            if i > 0 && OccursAt(s, t, i) {
              assert s[1..][i - 1..i - 1 + |t|] == s[i..i + |t|];
              assert OccursAt(s[1..], t, i - 1);
            }
          }
        }
        false
  }

  // ---------- the filter ----------

  /**
   * The predicate of `events.filter`, with both empty-filter short-cuts.
   * The short-cuts do not change the outcome: the empty string is contained
   * in every device id and is a prefix of every timestamp, so an event
   * matches exactly when both tests hold outright.
   */
  predicate Matches(e: UiEvent, search: string, dateFilter: string): (b: bool)
    ensures b <==> Includes(ToLower(e.deviceId), ToLower(search)) && StartsWith(e.timestamp, dateFilter)
  {
    && (search == "" || Includes(ToLower(e.deviceId), ToLower(search)))
    && (dateFilter == "" || StartsWith(e.timestamp, dateFilter))
  }

  /**
   * The events that pass the filter, in their original order.  An event is
   * kept exactly when it is one of the inputs and matches.
   */
  function Filter(events: seq<UiEvent>, search: string, dateFilter: string): (r: seq<UiEvent>)
    ensures |r| <= |events|
    ensures forall e :: e in r <==> e in events && Matches(e, search, dateFilter)
  {
    if events == [] then []
    else
      var rest := Filter(events[1..], search, dateFilter);
      assert events == [events[0]] + events[1..];
      if Matches(events[0], search, dateFilter) then [events[0]] + rest else rest
  }

  /** `a` can be obtained from `b` by deleting elements, keeping order. */
  ghost predicate IsSubsequence<T>(a: seq<T>, b: seq<T>)
    decreases |b|
  {
    if a == [] then true
    else if b == [] then false
    else (a[0] == b[0] && IsSubsequence(a[1..], b[1..])) || IsSubsequence(a, b[1..])
  }

  /** The filtered list is an order-preserving subsequence of the input. */
  lemma {:induction false} FilterIsSubsequence(events: seq<UiEvent>, search: string, dateFilter: string)
    ensures IsSubsequence(Filter(events, search, dateFilter), events)
  {
    if events != [] {
      var rest := Filter(events[1..], search, dateFilter);
      FilterIsSubsequence(events[1..], search, dateFilter);
      if Matches(events[0], search, dateFilter) {
        assert ([events[0]] + rest)[1..] == rest;
      } else if rest != [] {
        assert IsSubsequence(rest, events[1..]);
      }
    }
  }

  /** Filtering distributes over concatenation, so it decides element by element. */
  lemma {:induction false} FilterAppend(a: seq<UiEvent>, b: seq<UiEvent>, search: string, dateFilter: string)
    ensures Filter(a + b, search, dateFilter) == Filter(a, search, dateFilter) + Filter(b, search, dateFilter)
  {
    if a == [] {
      assert a + b == b;
    } else {
      assert (a + b)[1..] == a[1..] + b;
      assert (a + b)[0] == a[0];
      FilterAppend(a[1..], b, search, dateFilter);
    }
  }

  /** With no search text and no date filter, every event is shown. */
  lemma {:induction false} FilterNoCriteria(events: seq<UiEvent>)
    ensures Filter(events, "", "") == events
  {
    if events != [] {
      FilterNoCriteria(events[1..]);
      assert events == [events[0]] + events[1..];
    }
  }

  /** The device test ignores ASCII case on both sides. */
  lemma MatchIgnoresCase(e: UiEvent, search: string, dateFilter: string, search': string)
    requires ToLower(search) == ToLower(search')
    ensures Matches(e, search, dateFilter) <==> Matches(e, search', dateFilter)
  {
  }
}
