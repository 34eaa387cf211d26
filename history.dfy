/**
 * The scan history: a JSON list of entries, most recent first, kept to at most 100 entries.
 * The file is modelled by what reading it gives (`Store`), and the lock that serialises the
 * operations by running each method to completion.
 */
module History {

  /** Entries kept after an insertion. */
  const MaxEntries := 100
  /** Entries returned by `get_history` when no limit is given. */
  const DefaultLimit := 50

  /** One scan: the URL, the label, the raw probability, the named features and an ISO time. */
  datatype Entry = Entry(
    url: string,
    isPhishing: bool,
    probability: real,
    features: map<string, int>,
    timestamp: string)

  /** What reading the history file gives: no file, content that is not valid JSON, or a list. */
  datatype Store = Missing | Corrupt | Stored(entries: seq<Entry>)

  /** A missing or unreadable file reads as the empty history. */
  function Load(store: Store): (h: seq<Entry>)
    ensures !store.Stored? ==> h == []
  {
    if store.Stored? then store.entries else []
  }

  /** Python's `s[:n]`: the first `n` elements, or all but the last `-n` when `n` is negative. */
  function Prefix<T>(s: seq<T>, n: int): (r: seq<T>)
    ensures 0 <= n ==> |r| == if n < |s| then n else |s|
    ensures n < 0 ==> |r| == if -n < |s| then |s| + n else 0
    ensures r == s[..|r|]
  {
    if 0 <= n then (if n < |s| then s[..n] else s)
    else (if -n < |s| then s[..|s| + n] else [])
  }

  /** `history.insert(0, entry)` followed by `history = history[:100]`. */
  function Added(history: seq<Entry>, entry: Entry): (h: seq<Entry>)
  {
    Prefix([entry] + history, MaxEntries)
  }

  /** The new entry comes first, the length grows by one up to 100, and the older entries
      follow in their order, the oldest dropped when the list was full. */
  lemma AddedShape(history: seq<Entry>, entry: Entry)
    ensures var h := Added(history, entry);
      && |h| == (if |history| + 1 < MaxEntries then |history| + 1 else MaxEntries)
      && h[0] == entry
      && h[1..] == Prefix(history, MaxEntries - 1)
  {
    var h := Added(history, entry);
    assert h == ([entry] + history)[..|h|];
    assert h[1..] == history[..|h| - 1];
  }

  /** The history after adding `entries`, in order, to `history`. */
  function AddedAll(history: seq<Entry>, entries: seq<Entry>): seq<Entry>
    decreases |entries|
  {
    if entries == [] then history
    else AddedAll(Added(history, entries[0]), entries[1..])
  }

  /** Adding entries one by one to an empty history keeps the last 100 of them, the most
      recent first. */
  lemma {:induction false} AddedAllFromEmpty(entries: seq<Entry>)
    ensures var h := AddedAll([], entries);
      && |h| == (if |entries| < MaxEntries then |entries| else MaxEntries)
      && forall i :: 0 <= i < |h| ==> h[i] == entries[|entries| - 1 - i]
    decreases |entries|
  {
    if entries != [] {
      var n := |entries| - 1;
      AddedAllFromEmpty(entries[..n]);
      AddedAllLast(entries[..n], entries[n]);
      assert entries[..n] + [entries[n]] == entries;
      var prev := AddedAll([], entries[..n]);
      var h := Added(prev, entries[n]);
      AddedShape(prev, entries[n]);
      forall i | 0 <= i < |h|
        ensures h[i] == entries[|entries| - 1 - i]
      {
        if i > 0 {
          assert h[i] == prev[i - 1];
        }
      }
    }
  }

  /** Adding a list and then one more entry is adding the longer list. */
  lemma {:induction false} AddedAllLast(entries: seq<Entry>, last: Entry)
    ensures AddedAll([], entries + [last]) == Added(AddedAll([], entries), last)
  {
    AddedAllSnoc([], entries, last);
  }

  lemma {:induction false} AddedAllSnoc(history: seq<Entry>, entries: seq<Entry>, last: Entry)
    ensures AddedAll(history, entries + [last]) == Added(AddedAll(history, entries), last)
    decreases |entries|
  {
    if entries == [] {
      assert [] + [last] == [last];
      assert [last][1..] == [];
    } else {
      assert (entries + [last])[1..] == entries[1..] + [last];
      AddedAllSnoc(Added(history, entries[0]), entries[1..], last);
    }
  }

  /** A hundred and five scans on a fresh history leave exactly the last hundred. */
  lemma HundredAndFive(entries: seq<Entry>)
    requires |entries| == 105
    ensures |AddedAll([], entries)| == 100
    ensures AddedAll([], entries)[0] == entries[104]
    ensures AddedAll([], entries)[99] == entries[5]
  {
    AddedAllFromEmpty(entries);
  }

  class HistoryManager {
    /** The path of the JSON file, `url_history.json` by default. */
    const historyFile: string
    /** What the file currently holds. */
    var store: Store

    /** The history as the other operations read it. */
    function Entries(): seq<Entry>
      reads this
    {
      Load(store)
    }

    /** `__init__` with `_ensure_history_file`: a missing file is created holding `[]`;
        an existing one, readable or not, is left as it is. */
    constructor(historyFile: string, existing: Store)
      ensures this.historyFile == historyFile
      ensures store == (if existing.Missing? then Stored([]) else existing)
      ensures existing.Missing? ==> Entries() == []
    {
      this.historyFile := historyFile;
      if existing.Missing? {
        store := Stored([]);
      } else {
        store := existing;
      }
    }

    /** Reads the list (empty when the file is missing or corrupt), puts the entry in front,
        keeps the first 100 and writes the list back. */
    method AddUrl(url: string, isPhishing: bool, probability: real, features: map<string, int>, timestamp: string)
      modifies this
      ensures store == Stored(Added(old(Entries()), Entry(url, isPhishing, probability, features, timestamp)))
    {
      var history: seq<Entry>;
      if store.Stored? {
        history := store.entries;
      } else {
        history := [];
      }
      var entry := Entry(url, isPhishing, probability, features, timestamp);
      history := [entry] + history;
      history := Prefix(history, MaxEntries);
      store := Stored(history);
    }

    /** `history[:limit]` of the stored list; `[]` when the file is missing or corrupt.
        Nothing is written. */
    method GetHistory(limit: int := DefaultLimit) returns (history: seq<Entry>)
      ensures history == Prefix(Entries(), limit)
    {
      if !store.Stored? {
        return [];
      }
      history := Prefix(store.entries, limit);
    }

    /** Overwrites the file with `[]`. */
    method ClearHistory()
      modifies this
      ensures store == Stored([])
      ensures Entries() == []
    {
      store := Stored([]);
    }
  }
}
