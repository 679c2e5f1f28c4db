/**
 Event filters of webhook subscriptions: checked by the manager, stored comma-joined, matched by
 EventMatches and listed by splitEvents.
 */
module EventFilter {
  import opened Strings

  const CATALOG: set<string> := {
    "message.queued", "message.sent", "message.failed", "message.incoming",
    "session.logged_out", "session.banned", "session.connect_failure", "session.connected",
    "session.disconnected", "session.replaced", "session.reachout_timelocked"
  }

  predicate IsKnownEvent(e: string) { e in CATALOG }

  predicate AnyTrimmed(parts: seq<string>, event: string) {
    parts != [] && (TrimSpace(parts[0]) == event || AnyTrimmed(parts[1..], event))
  }

  predicate EventMatches(subEvents: string, event: string) {
    TrimSpace(subEvents) == "" || AnyTrimmed(Split(subEvents, ','), event)
  }

  function NonBlank(parts: seq<string>): seq<string> {
    if parts == [] then []
    else (if TrimSpace(parts[0]) != "" then [TrimSpace(parts[0])] else []) + NonBlank(parts[1..])
  }

  function Listed(events: string): seq<string> {
    if TrimSpace(events) == "" then [] else NonBlank(Split(events, ','))
  }

  method SplitEvents(events: string) returns (out: seq<string>)
    ensures out == Listed(events)
  {
    hide TrimSpace, Split;
    out := [];
    if TrimSpace(events) == "" { return; }
    var parts := Split(events, ',');
    var i := 0;
    while i < |parts|
      invariant 0 <= i <= |parts|
      invariant out + NonBlank(parts[i..]) == NonBlank(parts)
    {
      var e := TrimSpace(parts[i]);
      if e != "" {
        out := out + [e];
      }
      i := i + 1;
    }
  }

  /** The manager's check before anything is stored. */
  ghost predicate Accepted(events: seq<string>) {
    forall i :: 0 <= i < |events| ==> IsKnownEvent(TrimSpace(events[i]))
  }

  function Trimmed(events: seq<string>): seq<string> {
    seq(|events|, i requires 0 <= i < |events| => TrimSpace(events[i]))
  }

  lemma CatalogNamesArePlain(e: string)
    requires IsKnownEvent(e)
    ensures e != "" && ',' !in e && !IsSpace(e[0])
  {
  }

  lemma AcceptedHasNoComma(e: string)
    requires IsKnownEvent(TrimSpace(e))
    ensures ',' !in e && TrimSpace(e) != "" && exists c :: c in e && !IsSpace(c)
  {
    CatalogNamesArePlain(TrimSpace(e));
    TrimKeeps(e);
    assert !IsSpace(',');
    assert TrimSpace(e)[0] in TrimSpace(e);
  }

  lemma {:induction false} JoinHas(parts: seq<string>, i: nat, c: char)
    requires i < |parts| && c in parts[i]
    ensures c in Join(parts, ',')
  {
    if i > 0 { JoinHas(parts[1..], i - 1, c); }
  }

  /** The stored text splits back into exactly the accepted list. */
  lemma StoredSplits(events: seq<string>)
    requires Accepted(events) && events != []
    ensures TrimSpace(Join(events, ',')) != "" && Split(Join(events, ','), ',') == events
  {
    hide TrimSpace, Join, Split, IsKnownEvent, IsSpace;
    forall i | 0 <= i < |events| ensures ',' !in events[i] { AcceptedHasNoComma(events[i]); }
    SplitOfJoin(events, ',');
    SplitWithoutSeparator(events[0], ',');
    assert [events[0]] + events[1..] == events;
    AcceptedHasNoComma(events[0]);
    var c :| c in events[0] && !IsSpace(c);
    JoinHas(events, 0, c);
    TrimKeeps(Join(events, ','));
  }

  lemma {:induction false} AnyTrimmedMeans(parts: seq<string>, event: string)
    ensures AnyTrimmed(parts, event) <==> event in Trimmed(parts)
  {
    if parts != [] {
      AnyTrimmedMeans(parts[1..], event);
      assert Trimmed(parts) == [TrimSpace(parts[0])] + Trimmed(parts[1..]);
    }
  }

  /** Any stored text: it lets an event through exactly if it is blank or one of its comma-separated
      parts is the event, white space at its ends aside. */
  lemma MatchesIff(stored: string, event: string)
    ensures EventMatches(stored, event)
       <==> (forall c :: c in stored ==> IsSpace(c))
            || exists part :: part in Split(stored, ',') && TrimSpace(part) == event
  {
    var parts := Split(stored, ',');
    AnyTrimmedAt(parts, event);
    BlankIff(stored);
    hide AnyTrimmed, TrimSpace, IsSpace;
  }

  lemma AnyTrimmedAt(parts: seq<string>, event: string)
    ensures AnyTrimmed(parts, event) <==> exists part :: part in parts && TrimSpace(part) == event
  {
    AnyTrimmedMeans(parts, event);
    if part :| part in parts && TrimSpace(part) == event {
      var i :| 0 <= i < |parts| && parts[i] == part;
      assert Trimmed(parts)[i] == event;
    }
  }

  lemma BlankIff(s: string)
    ensures TrimSpace(s) == "" <==> forall c :: c in s ==> IsSpace(c)
  {
    if forall c :: c in s ==> IsSpace(c) { BlankTrimsToNothing(s); }
    TrimKeeps(s);
  }

  /** One part more: it is listed last, unless it is blank. */
  lemma {:induction false} ListedOneMore(parts: seq<string>, part: string)
    ensures NonBlank(parts + [part])
         == NonBlank(parts) + if forall c :: c in part ==> IsSpace(c) then [] else [TrimSpace(part)]
  {
    BlankIff(part);
    hide TrimSpace, IsSpace;
    if parts == [] {
      assert parts + [part] == [part] && [part][1..] == [];
    } else {
      assert (parts + [part])[1..] == parts[1..] + [part];
      ListedOneMore(parts[1..], part);
    }
  }

  lemma {:induction false} NonBlankMeans(parts: seq<string>)
    requires forall i :: 0 <= i < |parts| ==> TrimSpace(parts[i]) != ""
    ensures NonBlank(parts) == Trimmed(parts)
  {
    if parts != [] {
      NonBlankMeans(parts[1..]);
      assert Trimmed(parts) == [TrimSpace(parts[0])] + Trimmed(parts[1..]);
    }
  }

  /** Filters survive storage: what was set decides what is delivered, and is listed back. */
  lemma FilterSurvivesStorage(events: seq<string>, event: string)
    requires Accepted(events)
    ensures EventMatches(Join(events, ','), event) <==> events == [] || event in Trimmed(events)
    ensures Listed(Join(events, ',')) == Trimmed(events)
  {
    if events != [] {
      StoredSplits(events);
      AnyTrimmedMeans(events, event);
      forall i | 0 <= i < |events| ensures TrimSpace(events[i]) != "" { CatalogNamesArePlain(TrimSpace(events[i])); }
      NonBlankMeans(events);
    }
  }
}
