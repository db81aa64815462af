/** The navigable history stack both hooks write to and listen on. */
module Navigation {
  import opened Values

  /** A URL: pathname, parsed query and hash. */
  datatype Location = Location(pathname: string, query: Query, hash: string)

  /**
   * The state object attached to a history entry. `NoState` stands for an
   * entry without one (or with a non-object one). `Tagged` is `{key, newState}`
   * for the object hook and `{key, newValue}` for the toggle hook; a key
   * equal to "" is falsy and behaves like a missing key.
   */
  datatype HistoryState =
    | NoState
    | Tagged(key: string, newState: Option<Record>, newValue: Option<bool>)

  /** True when the entry carries a payload with a truthy key. */
  predicate HasKey(st: HistoryState)
  {
    st.Tagged? && st.key != ""
  }

  datatype Entry = Entry(location: Location, state: HistoryState)

  /** One call made on the history port, in the order it was made. */
  datatype Call = PushCall(entry: Entry) | ReplaceCall(entry: Entry) | GoBackCall

  /**
   * An in-memory history: a stack of entries, the index of the current one,
   * and the log of the calls made on it.
   */
  class History {
    var entries: seq<Entry>
    var index: nat
    var calls: seq<Call>

    ghost predicate Valid()
      reads this
    {
      index < |entries|
    }

    /** The entry `window.location` shows. */
    function Current(): Entry
      reads this
      requires Valid()
    {
      entries[index]
    }

    constructor (start: Location)
      ensures Valid()
      ensures entries == [Entry(start, NoState)] && index == 0 && calls == []
    {
      entries := [Entry(start, NoState)];
      index := 0;
      calls := [];
    }

    /** Drops the forward entries and appends a new current entry. */
    method Push(location: Location, state: HistoryState)
      requires Valid()
      modifies this
      ensures Valid()
      ensures entries == old(entries[..index + 1]) + [Entry(location, state)]
      ensures index == old(index) + 1
      ensures Current() == Entry(location, state)
      ensures calls == old(calls) + [PushCall(Entry(location, state))]
    {
      entries := entries[..index + 1] + [Entry(location, state)];
      index := index + 1;
      calls := calls + [PushCall(Entry(location, state))];
    }

    /** Overwrites the current entry; the depth of the stack is unchanged. */
    method Replace(location: Location, state: HistoryState)
      requires Valid()
      modifies this
      ensures Valid()
      ensures entries == old(entries)[old(index) := Entry(location, state)]
      ensures index == old(index)
      ensures Current() == Entry(location, state)
      ensures calls == old(calls) + [ReplaceCall(Entry(location, state))]
    {
      entries := entries[index := Entry(location, state)];
      calls := calls + [ReplaceCall(Entry(location, state))];
    }

    /** Moves to the previous entry; at the first entry the stack stays where it is. */
    method GoBack()
      requires Valid()
      modifies this
      ensures Valid()
      ensures entries == old(entries)
      ensures index == if old(index) > 0 then old(index) - 1 else old(index)
      ensures calls == old(calls) + [GoBackCall]
    {
      if index > 0 {
        index := index - 1;
      }
      calls := calls + [GoBackCall];
    }
  }
}
