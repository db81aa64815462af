/**
 * End-to-end runs of the two synchronizers over an in-memory history,
 * each stated for all inputs: the observable outcomes the hooks promise.
 */
module Scenarios {
  import opened Values
  import opened Navigation
  import opened UseUrlState
  import opened UseUrlToggle

  /**
   * Toggle collapse: with `initialValue = false`, turning the flag on and
   * then off makes one push and one goBack, ends on the starting entry,
   * and the listener's echo of that entry keeps the value false.
   */
  method ToggleCollapse(start: Location, name: string)
    returns (calls: seq<Call>, finalValue: bool, finalEntry: Entry, echoValue: bool)
    requires Lookup(start.query, name) != Some("true")
    ensures |calls| == 2 && calls[0].PushCall? && calls[1] == GoBackCall
    ensures !finalValue
    ensures finalEntry == Entry(start, NoState)
    ensures !echoValue
  {
    var h := new History(start);
    var t := new UrlToggle(h, name, false, None);
    t.SetStateWithHistory(h, true);
    t.SetStateWithHistory(h, false);
    calls := h.calls;
    finalValue := t.state;
    finalEntry := h.Current();
    t.OnNavigate(h, finalEntry.location, finalEntry.state);
    echoValue := t.state;
  }

  /**
   * Precondition lock with `initialValue = false`: the mount replaces the
   * entry only when the URL says "true"; `setState(true)` then makes no
   * call and leaves the value false; an event carrying "true" is answered
   * with goBack and the value stays false.
   */
  method PreconditionLock(start: Location, name: string)
    returns (mountCalls: seq<Call>, callsAfterSet: seq<Call>, valueAfterSet: bool,
             lastCall: Call, valueAfterEvent: bool)
    ensures |mountCalls| == if Lookup(start.query, name) == Some("true") then 1 else 0
    ensures callsAfterSet == mountCalls && !valueAfterSet
    ensures lastCall == GoBackCall && !valueAfterEvent
  {
    var h := new History(start);
    var t := new UrlToggle(h, name, false, Some(false));
    mountCalls := h.calls;
    t.SetStateWithHistory(h, true);
    callsAfterSet := h.calls;
    valueAfterSet := t.state;
    var forward := Location(start.pathname, start.query[name := "true"], start.hash);
    t.OnNavigate(h, forward, NoState);
    lastCall := h.calls[|h.calls| - 1];
    valueAfterEvent := t.state;
  }

  /** Key isolation: an event tagged with another instance's key changes nothing. */
  method KeyIsolation(start: Location, initialState: Record, decode: Query -> Record,
                      nonAtomic: set<string>, mine: string, other: string,
                      at: Location, foreign: Record)
    returns (before: Record, after: Record, focusBefore: nat, focusAfter: nat)
    requires other != "" && other != mine
    ensures after == before && focusAfter == focusBefore
  {
    var h := new History(start);
    var s := new UrlState(h, initialState, decode, nonAtomic, Some(mine));
    before, focusBefore := s.state, s.focusRequests;
    s.OnNavigate(at, Tagged(other, Some(foreign), None));
    after, focusAfter := s.state, s.focusRequests;
  }

  /**
   * Atomicity routing with `nonAtomic = {"query"}`, first half: a change of
   * "query" alone is one replace and moves no focus.
   */
  method QueryEditReplaces(start: Location, initialState: Record, decode: Query -> Record,
                           key: string, text: Value)
    returns (calls: seq<Call>, focus: nat)
    requires key != ""
    requires var s0 := initialState + decode(start.query);
      s0["query" := text] != s0
    ensures |calls| == 1 && calls[0].ReplaceCall?
    ensures focus == 0
  {
    var h := new History(start);
    var s := new UrlState(h, initialState, decode, {"query"}, Some(key));
    var s0 := s.state;
    AnyAtomicIffFieldDiffers(s0, s0["query" := text], {"query"});
    PickSeesOwnField(s0, "query", text, {"query"});
    s.SetStateWithHistory(h, s0["query" := text]);
    calls, focus := h.calls, s.focusRequests;
  }

  /**
   * Atomicity routing with `nonAtomic = {"query"}`, second half: a change
   * of any other field is one push, and its echo through the listener
   * moves focus once.
   */
  method SelectionPushesAndFocuses(start: Location, initialState: Record, decode: Query -> Record,
                                   key: string, field: string, v: Value)
    returns (calls: seq<Call>, focus: nat)
    requires key != "" && field != "query"
    requires var s0 := initialState + decode(start.query);
      s0[field := v] != s0
    ensures |calls| == 1 && calls[0].PushCall?
    ensures focus == 1
  {
    var h := new History(start);
    var s := new UrlState(h, initialState, decode, {"query"}, Some(key));
    var s0 := s.state;
    assert FieldDiffers(s0, s0[field := v], field);
    AnyAtomicIffFieldDiffers(s0, s0[field := v], {"query"});
    PickIgnoresOtherField(s0, field, v, {"query"});
    s.SetStateWithHistory(h, s0[field := v]);
    calls, focus := h.calls, s.focusRequests;
  }

  /**
   * External navigation: an event whose state differs from the applied one
   * only in atomic fields requests focus once; one that differs in a
   * non-atomic field requests none.
   */
  method ExternalNavigationFocus(start: Location, initialState: Record, decode: Query -> Record,
                                 nonAtomic: set<string>, key: string, at: Location, next: Record)
    returns (focusBefore: nat, focusAfter: nat)
    requires key != ""
    requires next != initialState + decode(start.query)
    ensures var s0 := initialState + decode(start.query);
      focusAfter == focusBefore + (if forall k :: k in nonAtomic ==> !FieldDiffers(s0, next, k) then 1 else 0)
  {
    var h := new History(start);
    var s := new UrlState(h, initialState, decode, nonAtomic, Some(key));
    SamePickIffNoFieldDiffers(s.state, next, nonAtomic);
    focusBefore := s.focusRequests;
    s.OnNavigate(at, Tagged(key, Some(next), None));
    focusAfter := s.focusRequests;
  }
}
