/**
 * The object-state synchronizer behind `useUrlState`: a record state kept in
 * step with the query string, written to history by push (atomic change) or
 * replace (non-atomic change) and read back from history events.
 */
module UseUrlState {
  import opened Values
  import opened Navigation

  /** The fields of `m` named in `fields` (lodash `pick`). */
  function Pick(m: Record, fields: set<string>): Record
  {
    map k | k in m && k in fields :: m[k]
  }

  /** The fields of `m` not named in `fields` (lodash `omit`). */
  function Omit(m: Record, fields: set<string>): Record
  {
    map k | k in m && k !in fields :: m[k]
  }

  /** Field `k` is present in one record and not the other, or holds different values. */
  predicate FieldDiffers(a: Record, b: Record, k: string)
  {
    (k in a) != (k in b) || (k in a && k in b && a[k] != b[k])
  }

  /** Some field outside `nonAtomic` differs between the two states. */
  predicate AnyAtomic(a: Record, b: Record, nonAtomic: set<string>): (r: bool)
    ensures r ==> a != b
    ensures nonAtomic == {} ==> (r <==> a != b)
  {
    assert nonAtomic == {} ==> Omit(a, nonAtomic) == a && Omit(b, nonAtomic) == b;
    Omit(a, nonAtomic) != Omit(b, nonAtomic)
  }

  /** Two records are equal exactly when their picked parts and their remaining parts are. */
  lemma {:induction false} EqualIffPartsEqual(a: Record, b: Record, fields: set<string>)
    ensures a == b <==> Pick(a, fields) == Pick(b, fields) && Omit(a, fields) == Omit(b, fields)
  {
    if Pick(a, fields) == Pick(b, fields) && Omit(a, fields) == Omit(b, fields) {
      forall k | k in a
        ensures k in b && a[k] == b[k]
      {
        if k in fields {
          assert k in Pick(a, fields);
        } else {
          assert k in Omit(a, fields);
        }
      }
      forall k | k in b
        ensures k in a
      {
        if k in fields {
          assert k in Pick(b, fields);
        } else {
          assert k in Omit(b, fields);
        }
      }
      assert a.Keys == b.Keys;
    }
  }

  /** The atomic classification is "some field outside `nonAtomic` differs". */
  lemma {:induction false} AnyAtomicIffFieldDiffers(a: Record, b: Record, nonAtomic: set<string>)
    ensures AnyAtomic(a, b, nonAtomic) <==> exists k :: k !in nonAtomic && FieldDiffers(a, b, k)
  {
    if AnyAtomic(a, b, nonAtomic) {
      var oa, ob := Omit(a, nonAtomic), Omit(b, nonAtomic);
      if oa.Keys == ob.Keys {
        var k :| k in oa && oa[k] != ob[k];
        assert FieldDiffers(a, b, k);
      } else if k :| k in oa && k !in ob {
        assert FieldDiffers(a, b, k);
      } else {
        var k :| k in ob && k !in oa;
        assert FieldDiffers(a, b, k);
      }
    } else {
      forall k | k !in nonAtomic
        ensures !FieldDiffers(a, b, k)
      {
        assert k in a <==> k in Omit(a, nonAtomic);
        assert k in b <==> k in Omit(b, nonAtomic);
      }
    }
  }

  /** The `nonAtomic` projections agree exactly when no field inside `nonAtomic` differs. */
  lemma {:induction false} SamePickIffNoFieldDiffers(a: Record, b: Record, nonAtomic: set<string>)
    ensures Pick(a, nonAtomic) == Pick(b, nonAtomic) <==> forall k :: k in nonAtomic ==> !FieldDiffers(a, b, k)
  {
    var pa, pb := Pick(a, nonAtomic), Pick(b, nonAtomic);
    if pa == pb {
      forall k | k in nonAtomic
        ensures !FieldDiffers(a, b, k)
      {
        assert k in a <==> k in pa;
        assert k in b <==> k in pb;
      }
    }
    if forall k :: k in nonAtomic ==> !FieldDiffers(a, b, k) {
      forall k | k in pa
        ensures k in pb && pa[k] == pb[k]
      {
        assert !FieldDiffers(a, b, k);
      }
      forall k | k in pb
        ensures k in pa
      {
        assert !FieldDiffers(a, b, k);
      }
      assert pa.Keys == pb.Keys;
    }
  }

  /** Setting a field outside `fields` leaves the projection on `fields` as it was. */
  lemma PickIgnoresOtherField(m: Record, f: string, v: Value, fields: set<string>)
    requires f !in fields
    ensures Pick(m[f := v], fields) == Pick(m, fields)
  {
  }

  /** Setting a field inside `fields` to a new value changes the projection on `fields`. */
  lemma PickSeesOwnField(m: Record, f: string, v: Value, fields: set<string>)
    requires f in fields && m[f := v] != m
    ensures Pick(m[f := v], fields) != Pick(m, fields)
  {
    assert Pick(m[f := v], fields)[f] == v;
  }

  /**
   * A change that is not atomic but is a change touches only `nonAtomic`
   * fields, so the replace branch never loses an atomic edit.
   */
  lemma {:induction false} ReplaceOnlyForNonAtomicChange(a: Record, b: Record, nonAtomic: set<string>)
    requires a != b && !AnyAtomic(a, b, nonAtomic)
    ensures Pick(a, nonAtomic) != Pick(b, nonAtomic)
    ensures exists k :: k in nonAtomic && FieldDiffers(a, b, k)
    ensures forall k :: k !in nonAtomic ==> !FieldDiffers(a, b, k)
  {
    EqualIffPartsEqual(a, b, nonAtomic);
    SamePickIffNoFieldDiffers(a, b, nonAtomic);
    AnyAtomicIffFieldDiffers(a, b, nonAtomic);
  }

  /**
   * The query `newPath` writes: the current query overridden by `state`,
   * minus every field equal to its initial value.
   */
  function NewQuery(current: Query, state: Record, initialState: Record): (q: Query)
    ensures forall k :: k in state ==>
      (k in q <==> !(k in initialState && initialState[k] == state[k])) &&
      (k in q ==> q[k] == Render(state[k]))
    ensures forall k :: k in current && k !in state ==>
      (k in q <==> !(k in initialState && initialState[k] == Str(current[k]))) &&
      (k in q ==> q[k] == current[k])
    ensures forall k :: k in q ==> k in state || k in current
  {
    var merged := Lift(current) + state;
    map k | k in merged && !(k in initialState && initialState[k] == merged[k]) :: Render(merged[k])
  }

  /** The URL `newPath` builds from the current location. */
  function NewPath(at: Location, state: Record, initialState: Record): (loc: Location)
    ensures loc.pathname == at.pathname && loc.hash == at.hash
    ensures forall k :: k in state && k in initialState && state[k] == initialState[k] ==> k !in loc.query
    ensures forall k :: k in state && k in loc.query ==> loc.query[k] == Render(state[k])
  {
    Location(at.pathname, NewQuery(at.query, state, initialState), at.hash)
  }

  /** The argument of `setState`: a new state or an updater of the previous one. */
  datatype Update = Given(newState: Record) | Updater(f: Record -> Record)

  /** The state an update stands for, given the last applied state. */
  function Resolve(u: Update, previous: Record): (r: Record)
    ensures u.Given? ==> r == u.newState
    ensures u.Updater? ==> r == u.f(previous)
  {
    match u
    case Given(s) => s
    case Updater(f) => f(previous)
  }

  class UrlState {
    const initialState: Record
    const decode: Query -> Record
    const nonAtomic: set<string>
    const key: string
    /** The observable state the hook returns. */
    var state: Record
    /** The last state this instance applied. */
    var previousStateRef: Record
    /** How many times focus was requested. */
    var focusRequests: nat

    ghost predicate Valid()
      reads this
    {
      state == previousStateRef
    }

    /**
     * Mounting: the state is the initial state overridden by the fields
     * decoded from the current URL; the key defaults to the pathname.
     */
    constructor (h: History, initialState: Record, decode: Query -> Record,
                 nonAtomic: set<string>, key: Option<string>)
      requires h.Valid()
      ensures Valid()
      ensures this.initialState == initialState && this.decode == decode && this.nonAtomic == nonAtomic
      ensures this.key == if key.Some? then key.value else h.Current().location.pathname
      ensures state == initialState + decode(h.Current().location.query)
      ensures focusRequests == 0
    {
      this.initialState := initialState;
      this.decode := decode;
      this.nonAtomic := nonAtomic;
      this.key := if key.Some? then key.value else h.Current().location.pathname;
      var s := initialState + decode(h.Current().location.query);
      state := s;
      previousStateRef := s;
      focusRequests := 0;
    }

    /**
     * The state a history event proposes: None for an event tagged by
     * another instance; this instance's own payload when it carries one;
     * otherwise the initial state overridden by what `decode` reads from the URL.
     */
    function Candidate(location: Location, locationState: HistoryState): (r: Option<Record>)
      ensures r.None? <==> HasKey(locationState) && locationState.key != key
      ensures HasKey(locationState) && locationState.key == key && locationState.newState.Some? ==>
        r == Some(locationState.newState.value)
      ensures !HasKey(locationState) || (locationState.key == key && locationState.newState.None?) ==>
        r == Some(initialState + decode(location.query))
    {
      if HasKey(locationState) && locationState.key != key then None
      else if HasKey(locationState) && locationState.newState.Some? then Some(locationState.newState.value)
      else Some(initialState + decode(location.query))
    }

    /** The history listener. */
    method OnNavigate(location: Location, locationState: HistoryState)
      requires Valid()
      modifies this
      ensures Valid()
      ensures var c := Candidate(location, locationState);
        if c.None? || c.value == old(previousStateRef) then
          previousStateRef == old(previousStateRef) && focusRequests == old(focusRequests)
        else
          previousStateRef == c.value &&
          focusRequests == old(focusRequests) +
            if Pick(old(previousStateRef), nonAtomic) == Pick(c.value, nonAtomic) then 1 else 0
    {
      var newState: Option<Record> := None;
      if HasKey(locationState) {
        if locationState.key == key {
          newState := locationState.newState;
        } else {
          // event from another instance
          return;
        }
      }
      if newState.None? {
        newState := Some(initialState + decode(location.query));
      }
      if previousStateRef == newState.value {
        return;
      }
      var justAtomic := Pick(previousStateRef, nonAtomic) == Pick(newState.value, nonAtomic);
      if justAtomic {
        focusRequests := focusRequests + 1;
      }
      previousStateRef := newState.value;
      state := newState.value;
    }

    /**
     * The effect of one `setStateWithHistory(newState)` call on this instance
     * and `h`. The push or replace runs this instance's listener on the new
     * entry before the ref moves, so that echo is compared with the old ref.
     */
    twostate predicate Applied(h: History, newState: Record)
      reads this, h
      requires old(h.Valid()) && h.Valid()
    {
      if old(previousStateRef) == newState then
        previousStateRef == old(previousStateRef) && state == old(state) &&
        focusRequests == old(focusRequests) &&
        h.entries == old(h.entries) && h.index == old(h.index) && h.calls == old(h.calls)
      else
        var e := Entry(NewPath(old(h.Current().location), newState, initialState),
                       Tagged(key, Some(newState), None));
        var echo := Candidate(e.location, e.state);
        previousStateRef == newState && state == newState && h.Current() == e &&
        focusRequests == old(focusRequests) +
          (if echo.Some? && echo.value != old(previousStateRef) &&
              Pick(old(previousStateRef), nonAtomic) == Pick(echo.value, nonAtomic) then 1 else 0) &&
        (key != "" ==>
          focusRequests == old(focusRequests) +
            if Pick(old(previousStateRef), nonAtomic) == Pick(newState, nonAtomic) then 1 else 0) &&
        if AnyAtomic(old(previousStateRef), newState, nonAtomic) then
          h.calls == old(h.calls) + [PushCall(e)] &&
          h.entries == old(h.entries[..h.index + 1]) + [e] && h.index == old(h.index) + 1
        else
          h.calls == old(h.calls) + [ReplaceCall(e)] &&
          h.entries == old(h.entries)[old(h.index) := e] && h.index == old(h.index)
    }

    /**
     * Applies a new state: nothing on an equal state; otherwise one push
     * when an atomic field changed, else one replace, with payload
     * `{key, newState}`. The history call notifies this instance's listener
     * at once, which requests focus for a change confined to atomic fields;
     * then the ref and the state become `newState`.
     */
    method SetStateWithHistory(h: History, newState: Record)
      requires Valid() && h.Valid()
      modifies this, h
      ensures Valid() && h.Valid()
      ensures Applied(h, newState)
    {
      if previousStateRef == newState {
        return;
      }
      var anyAtomic := AnyAtomic(previousStateRef, newState, nonAtomic);
      var path := NewPath(h.Current().location, newState, initialState);
      if anyAtomic {
        h.Push(path, Tagged(key, Some(newState), None));
      } else {
        h.Replace(path, Tagged(key, Some(newState), None));
      }
      // the history port calls its listeners synchronously
      OnNavigate(h.Current().location, h.Current().state);
      previousStateRef := newState;
      state := newState;
    }

    /** `setState` as the hook returns it: an updater is resolved once, against the ref. */
    method SetStateWithCallback(h: History, u: Update)
      requires Valid() && h.Valid()
      modifies this, h
      ensures Valid() && h.Valid()
      ensures Applied(h, Resolve(u, old(previousStateRef)))
    {
      var newState := Resolve(u, previousStateRef);
      SetStateWithHistory(h, newState);
    }
  }
}
