/**
 * The boolean toggle synchronizer behind `useUrlToggle`: one flag mirrored in
 * the query parameter `name`, with a precondition lock and at most one
 * history entry per on/off pair.
 */
module UseUrlToggle {
  import opened Values
  import opened Navigation

  /** Reads the flag from a query value: absent means `initialValue`, present means `== "true"`. */
  function Decode(urlValue: Option<string>, initialValue: bool): (b: bool)
    ensures urlValue.None? ==> b == initialValue
    ensures urlValue.Some? ==> (b <==> urlValue.value == "true")
  {
    if urlValue.None? then initialValue else urlValue.value == "true"
  }

  /**
   * The query `newPath` writes: the current query with `name` set to
   * `newValue`, and `name` dropped when `newValue` is the initial value.
   */
  function NewQuery(current: Query, name: string, initialValue: bool, newValue: bool): (q: Query)
    ensures name in q <==> newValue != initialValue
    ensures name in q ==> q[name] == Render(Bool(newValue))
    ensures forall k :: k != name ==> (k in q <==> k in current) && (k in q ==> q[k] == current[k])
  {
    var merged := Lift(current)[name := Bool(newValue)];
    map k | k in merged && !(k == name && Bool(initialValue) == merged[k]) :: Render(merged[k])
  }

  /** The URL `newPath` builds from the current location. */
  function NewPath(at: Location, name: string, initialValue: bool, newValue: bool): (loc: Location)
    ensures loc.pathname == at.pathname && loc.hash == at.hash
    ensures Decode(Lookup(loc.query, name), initialValue) == newValue
    ensures forall k :: k != name ==>
      (k in loc.query <==> k in at.query) && (k in loc.query ==> loc.query[k] == at.query[k])
  {
    DecodeNewQuery(at.query, name, initialValue, newValue);
    Location(at.pathname, NewQuery(at.query, name, initialValue, newValue), at.hash)
  }

  /** Reading back the query `newPath` wrote gives the value that was written. */
  lemma DecodeNewQuery(current: Query, name: string, initialValue: bool, newValue: bool)
    ensures Decode(Lookup(NewQuery(current, name, initialValue, newValue), name), initialValue) == newValue
  {
  }

  class UrlToggle {
    const name: string
    const initialValue: bool
    /** The value the URL carried at mount. */
    const initialUrlValue: bool
    /** The latest `precondition` argument; None stands for `undefined`. */
    var precondition: Option<bool>
    /** The observable value the hook returns. */
    var state: bool
    /** The last value this instance applied. */
    var currentStateRef: bool
    /** Whether this instance has pushed an entry; never reset. */
    var navigatedWithHook: bool

    ghost predicate Valid()
      reads this
    {
      state == currentStateRef
    }

    /** Only `precondition === false` locks; an undefined precondition does not. */
    predicate Locked()
      reads this
    {
      precondition == Some(false)
    }

    /**
     * Mounting: the value is read from the URL unless the lock pins it to
     * `initialValue`; a locked mount over a URL carrying another value
     * replaces the current entry with the initial value.
     */
    constructor (h: History, name: string, initialValue: bool, precondition: Option<bool>)
      requires h.Valid()
      modifies h
      ensures Valid() && h.Valid()
      ensures this.name == name && this.initialValue == initialValue && this.precondition == precondition
      ensures initialUrlValue == Decode(Lookup(old(h.Current().location.query), name), initialValue)
      ensures state == if precondition == Some(false) then initialValue else initialUrlValue
      ensures !navigatedWithHook
      ensures if precondition == Some(false) && initialUrlValue != initialValue then
          var e := Entry(NewPath(old(h.Current().location), name, initialValue, initialValue),
                         Tagged(name, None, Some(initialValue)));
          h.calls == old(h.calls) + [ReplaceCall(e)] &&
          h.entries == old(h.entries)[old(h.index) := e] && h.index == old(h.index)
        else
          h.calls == old(h.calls) && h.entries == old(h.entries) && h.index == old(h.index)
    {
      var urlValue := Decode(Lookup(h.Current().location.query, name), initialValue);
      this.name := name;
      this.initialValue := initialValue;
      this.initialUrlValue := urlValue;
      this.precondition := precondition;
      var s := if precondition == Some(false) then initialValue else urlValue;
      state := s;
      currentStateRef := s;
      navigatedWithHook := false;
      new;
      if precondition == Some(false) && urlValue != initialValue {
        h.Replace(NewPath(h.Current().location, name, initialValue, initialValue),
                  Tagged(name, None, Some(initialValue)));
      }
    }

    /** A re-render with a new `precondition` argument. */
    method SetPrecondition(p: Option<bool>)
      modifies this`precondition
      ensures precondition == p
    {
      precondition := p;
    }

    /** The value a history event carries: this instance's payload if any, else the URL's. */
    function ObservedValue(location: Location, locationState: HistoryState): (v: bool)
      ensures HasKey(locationState) && locationState.key == name && locationState.newValue.Some? ==>
        v == locationState.newValue.value
      ensures !HasKey(locationState) || locationState.key != name || locationState.newValue.None? ==>
        v == Decode(Lookup(location.query, name), initialValue)
    {
      if HasKey(locationState) && locationState.key == name && locationState.newValue.Some?
      then locationState.newValue.value
      else Decode(Lookup(location.query, name), initialValue)
    }

    /**
     * The history listener: a locked instance that observes a value other
     * than `initialValue` goes back; otherwise it adopts the observed value.
     */
    method OnNavigate(h: History, location: Location, locationState: HistoryState)
      requires Valid() && h.Valid()
      modifies this`state, this`currentStateRef, h
      ensures Valid() && h.Valid()
      ensures Locked() && old(state) == initialValue ==> state == initialValue
      ensures var v := ObservedValue(location, locationState);
        if Locked() && v != initialValue then
          state == old(state) && currentStateRef == old(currentStateRef) &&
          h.calls == old(h.calls) + [GoBackCall] && h.entries == old(h.entries) &&
          h.index == (if old(h.index) > 0 then old(h.index) - 1 else old(h.index))
        else
          state == v && currentStateRef == v &&
          h.calls == old(h.calls) && h.entries == old(h.entries) && h.index == old(h.index)
    {
      var newValue: Option<bool> := None;
      if HasKey(locationState) && locationState.key == name {
        newValue := locationState.newValue;
      }
      if newValue.None? {
        newValue := Some(Decode(Lookup(location.query, name), initialValue));
      }
      if precondition == Some(false) && newValue.value != initialValue {
        h.GoBack();
        return;
      }
      currentStateRef := newValue.value;
      state := newValue.value;
    }

    /** A call `setState(newValue)` changes nothing: the lock forbids it or the value is already set. */
    predicate Rejects(newValue: bool): (r: bool)
      reads this
      ensures !Locked() ==> (r <==> currentStateRef == newValue)
      ensures Locked() ==> (r <==> newValue != initialValue || currentStateRef == initialValue)
    {
      (Locked() && newValue != initialValue) || currentStateRef == newValue
    }

    /**
     * `setState`: rejected calls do nothing; going back to `initialValue`
     * after this instance pushed goes back in history; any other accepted
     * call pushes the new value and records that this instance navigated.
     * The push runs this instance's listener at once; it adopts the pushed
     * value and makes no history call of its own.
     */
    method SetStateWithHistory(h: History, newValue: bool)
      requires Valid() && h.Valid()
      modifies this`state, this`currentStateRef, this`navigatedWithHook, h
      ensures Valid() && h.Valid()
      ensures old(navigatedWithHook) ==> navigatedWithHook
      ensures Locked() && old(state) == initialValue ==> state == initialValue
      ensures old(Rejects(newValue)) ==>
        state == old(state) && currentStateRef == old(currentStateRef) &&
        navigatedWithHook == old(navigatedWithHook) &&
        h.calls == old(h.calls) && h.entries == old(h.entries) && h.index == old(h.index)
      ensures !old(Rejects(newValue)) ==>
        state == newValue && currentStateRef == newValue && navigatedWithHook &&
        if newValue == initialValue && old(navigatedWithHook) then
          h.calls == old(h.calls) + [GoBackCall] && h.entries == old(h.entries) &&
          h.index == (if old(h.index) > 0 then old(h.index) - 1 else old(h.index))
        else
          var e := Entry(NewPath(old(h.Current().location), name, initialValue, newValue),
                         Tagged(name, None, Some(newValue)));
          h.calls == old(h.calls) + [PushCall(e)] &&
          h.entries == old(h.entries[..h.index + 1]) + [e] && h.index == old(h.index) + 1
    {
      if precondition == Some(false) && newValue != initialValue {
        return;
      }
      if currentStateRef == newValue {
        return;
      }
      if newValue == initialValue && navigatedWithHook {
        h.GoBack();
      } else {
        navigatedWithHook := true;
        h.Push(NewPath(h.Current().location, name, initialValue, newValue),
               Tagged(name, None, Some(newValue)));
        // the history port calls its listeners synchronously
        DecodeNewQuery(old(h.Current().location.query), name, initialValue, newValue);
        OnNavigate(h, h.Current().location, h.Current().state);
      }
      currentStateRef := newValue;
      state := newValue;
    }
  }
}
