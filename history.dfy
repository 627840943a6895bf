/**
 * The recent-search history: a most-recent-first list of at most
 * `MaxHistoryItems` past results, deduplicated by (lower-cased term,
 * language value), kept in memory and mirrored into one storage key.
 */
module History {
  import opened Wrappers
  import opened Seqs
  import opened Text
  import opened Results

  const MaxHistoryItems: nat := 10

  /** The name of the storage key the list is mirrored into; the `storage` field of `HistoryStore` stands for its content. */
  const StorageKey: string := "begrepsbroen-history"

  datatype HistoryItem = HistoryItem(
    id: string,
    term: string,
    language: string,
    languageLabel: string,
    result: ResultData,
    timestamp: int)

  /** The duplicate test of `addToHistory`: same lower-cased term and same language value. */
  predicate SameKey(item: HistoryItem, term: string, language: string)
  {
    Lower(item.term) == Lower(term) && item.language == language
  }

  /** The filter predicate of `addToHistory`: the entry's key differs from (term, language). */
  function KeepOtherKeys(term: string, language: string): HistoryItem -> bool
  {
    (x: HistoryItem) => !SameKey(x, term, language)
  }

  /** The prior entries `addToHistory` keeps: those whose key differs from (term, language). */
  function WithoutKey(items: seq<HistoryItem>, term: string, language: string): (r: seq<HistoryItem>)
    ensures forall x :: x in r <==> x in items && !SameKey(x, term, language)
    ensures IsSubsequence(r, items)
  {
    FilterIsSubsequence(items, KeepOtherKeys(term, language));
    Filter(items, KeepOtherKeys(term, language))
  }

  /** Every entry whose key differs is kept as often as it occurs; the others are all dropped. */
  lemma WithoutKeyCounts(items: seq<HistoryItem>, term: string, language: string)
    ensures forall x :: multiset(WithoutKey(items, term, language))[x]
                        == if SameKey(x, term, language) then 0 else multiset(items)[x]
  {
    forall x {
      FilterMultiplicity(items, KeepOtherKeys(term, language), x);
    }
  }

  /** The entry `addToHistory` creates; the term is stored trimmed. */
  function NewItem(id: string, term: string, language: string, languageLabel: string,
                   result: ResultData, timestamp: int): HistoryItem
  {
    HistoryItem(id, Trim(term), language, languageLabel, result, timestamp)
  }

  /**
   * The updater of `addToHistory`: drop the entries with the same key as the
   * untrimmed `term`, put the new entry first and keep the first ten.
   */
  function AddEntry(prev: seq<HistoryItem>, id: string, term: string, language: string,
                    languageLabel: string, result: ResultData, timestamp: int): (r: seq<HistoryItem>)
    ensures 1 <= |r| <= MaxHistoryItems
    ensures r[0] == HistoryItem(id, Trim(term), language, languageLabel, result, timestamp)
  {
    var all := [NewItem(id, term, language, languageLabel, result, timestamp)] + WithoutKey(prev, term, language);
    if |all| <= MaxHistoryItems then all else all[..MaxHistoryItems]
  }

  /** Behind the head come the kept prior entries, in order, cut off after the tenth position. */
  lemma AddTail(prev: seq<HistoryItem>, id: string, term: string, language: string,
                languageLabel: string, result: ResultData, timestamp: int)
    ensures var r := AddEntry(prev, id, term, language, languageLabel, result, timestamp);
            var kept := WithoutKey(prev, term, language);
            && |r| == (if 1 + |kept| <= MaxHistoryItems then 1 + |kept| else MaxHistoryItems)
            && r[1..] == kept[..|r| - 1]
  {
  }

  /** Every entry behind the head is a prior entry whose key differs from (term, language). */
  lemma AddTailFromPrev(prev: seq<HistoryItem>, id: string, term: string, language: string,
                        languageLabel: string, result: ResultData, timestamp: int)
    ensures var r := AddEntry(prev, id, term, language, languageLabel, result, timestamp);
            forall i :: 1 <= i < |r| ==> r[i] in prev && !SameKey(r[i], term, language)
  {
    var r := AddEntry(prev, id, term, language, languageLabel, result, timestamp);
    var kept := WithoutKey(prev, term, language);
    AddTail(prev, id, term, language, languageLabel, result, timestamp);
    forall i | 1 <= i < |r|
      ensures r[i] in prev && !SameKey(r[i], term, language)
    {
      assert r[i] == r[1..][i - 1] == kept[i - 1];
      assert kept[i - 1] in kept;
    }
  }

  /** The filter predicate of `removeFromHistory`: the entry has another id. */
  function KeepOtherIds(id: string): HistoryItem -> bool
  {
    (x: HistoryItem) => x.id != id
  }

  /** The updater of `removeFromHistory`. */
  function WithoutId(items: seq<HistoryItem>, id: string): (r: seq<HistoryItem>)
    ensures forall x :: x in r <==> x in items && x.id != id
    ensures (forall i :: 0 <= i < |items| ==> items[i].id != id) ==> r == items
    ensures IsSubsequence(r, items)
  {
    FilterIsSubsequence(items, KeepOtherIds(id));
    Filter(items, KeepOtherIds(id))
  }

  /** Every entry with another id is kept as often as it occurs; those with the id are all dropped. */
  lemma WithoutIdCounts(items: seq<HistoryItem>, id: string)
    ensures forall x :: multiset(WithoutId(items, id))[x] == if x.id == id then 0 else multiset(items)[x]
  {
    forall x {
      FilterMultiplicity(items, KeepOtherIds(id), x);
    }
  }

  /** `getFromHistory`: the first entry with this id. */
  function Lookup(items: seq<HistoryItem>, id: string): (r: Option<HistoryItem>)
    ensures r.None? <==> forall i :: 0 <= i < |items| ==> items[i].id != id
    ensures r.Some? ==> exists i :: 0 <= i < |items| && items[i] == r.value && r.value.id == id
                                    && forall j :: 0 <= j < i ==> items[j].id != id
  {
    FindFirst(items, (x: HistoryItem) => x.id == id)
  }

  /** The surviving prior entries keep their relative order. */
  lemma AddKeepsOrder(prev: seq<HistoryItem>, id: string, term: string, language: string,
                      languageLabel: string, result: ResultData, timestamp: int)
    ensures var r := AddEntry(prev, id, term, language, languageLabel, result, timestamp);
            IsSubsequence(r[1..], prev)
  {
    var r := AddEntry(prev, id, term, language, languageLabel, result, timestamp);
    var kept := WithoutKey(prev, term, language);
    AddTail(prev, id, term, language, languageLabel, result, timestamp);
    PrefixIsSubsequence(kept, |r| - 1);
    SubsequenceTransitive(r[1..], kept, prev);
  }

  /** Only entries pushed beyond the tenth position are lost: every other kept entry survives. */
  lemma AddDropsOnlyOverflow(prev: seq<HistoryItem>, id: string, term: string, language: string,
                             languageLabel: string, result: ResultData, timestamp: int, k: nat)
    requires k < |WithoutKey(prev, term, language)| && k + 1 < MaxHistoryItems
    ensures var r := AddEntry(prev, id, term, language, languageLabel, result, timestamp);
            k + 1 < |r| && r[k + 1] == WithoutKey(prev, term, language)[k]
  {
    AddTail(prev, id, term, language, languageLabel, result, timestamp);
  }

  /**
   * With an already-trimmed term, the new head is the only entry of its key:
   * no other entry has the same lower-cased term and the same language.
   */
  lemma AddTrimmedKeyUnique(prev: seq<HistoryItem>, id: string, term: string, language: string,
                            languageLabel: string, result: ResultData, timestamp: int)
    requires IsTrimmed(term)
    ensures var r := AddEntry(prev, id, term, language, languageLabel, result, timestamp);
            SameKey(r[0], term, language)
            && forall i :: 1 <= i < |r| ==> !SameKey(r[i], r[0].term, r[0].language)
  {
    TrimmedIsFixed(term);
    AddTailFromPrev(prev, id, term, language, languageLabel, result, timestamp);
  }

  /**
   * The term as the page passes it (`term.trim()`): whatever the user typed,
   * the history ends with exactly one entry for the key, at the head.
   */
  lemma AddFromPageKeyUnique(prev: seq<HistoryItem>, id: string, typed: string, language: string,
                             languageLabel: string, result: ResultData, timestamp: int)
    ensures var r := AddEntry(prev, id, Trim(typed), language, languageLabel, result, timestamp);
            r[0].term == Trim(typed) && r[0].language == language
            && forall i :: 1 <= i < |r| ==> !SameKey(r[i], r[0].term, r[0].language)
  {
    AddTrimmedKeyUnique(prev, id, Trim(typed), language, languageLabel, result, timestamp);
    TrimIdempotent(typed);
  }

  /** Adding the same key twice leaves one entry for it, at the head, carrying the second result. */
  lemma AddTwiceSameKey(prev: seq<HistoryItem>, language: string, languageLabel: string,
                        id1: string, term1: string, result1: ResultData, time1: int,
                        id2: string, term2: string, result2: ResultData, time2: int)
    requires IsTrimmed(term2) && Lower(Trim(term1)) == Lower(term2)
    ensures var r := AddEntry(AddEntry(prev, id1, term1, language, languageLabel, result1, time1),
                              id2, term2, language, languageLabel, result2, time2);
            && r[0] == HistoryItem(id2, term2, language, languageLabel, result2, time2)
            && forall i :: 1 <= i < |r| ==> !SameKey(r[i], Trim(term1), language)
  {
    TrimmedIsFixed(term2);
    AddTailFromPrev(AddEntry(prev, id1, term1, language, languageLabel, result1, time1),
                    id2, term2, language, languageLabel, result2, time2);
  }

  /** A full history receiving a new key loses exactly its oldest entry. */
  lemma AddToFullEvictsOldest(prev: seq<HistoryItem>, id: string, term: string, language: string,
                              languageLabel: string, result: ResultData, timestamp: int)
    requires |prev| == MaxHistoryItems
    requires forall i :: 0 <= i < |prev| ==> !SameKey(prev[i], term, language)
    ensures AddEntry(prev, id, term, language, languageLabel, result, timestamp)
            == [NewItem(id, term, language, languageLabel, result, timestamp)] + prev[..MaxHistoryItems - 1]
  {
    var kept := WithoutKey(prev, term, language);
    assert kept == prev;
  }

  /** Supports `UntrimmedTermCanDuplicate`: "ord " trims to "ord" but folds to a different string. */
  lemma TrailingSpaceFacts()
    ensures Lower("ord") != Lower("ord ")
    ensures Trim("ord ") == "ord"
  {
    assert |Lower("ord ")| == 4;
    assert StartIndex("ord ", 0) == 0;
    assert EndIndex("ord ", 0, 4) == 3;
    assert "ord "[0..3] == "ord";
  }

  /** The stored term is trimmed but the duplicate test is not: an untrimmed term can leave two entries of one key. */
  lemma UntrimmedTermCanDuplicate(q: ResultData)
    ensures var earlier := HistoryItem("a", "ord", "english", "English", q, 0);
            var r := AddEntry([earlier], "b", "ord ", "english", "English", q, 1);
            |r| == 2 && r[0].term == "ord" && SameKey(r[1], r[0].term, r[0].language)
  {
    var earlier := HistoryItem("a", "ord", "english", "English", q, 0);
    TrailingSpaceFacts();
    assert !SameKey([earlier][0], "ord ", "english");
    assert WithoutKey([earlier], "ord ", "english") == [earlier];
    AddTail([earlier], "b", "ord ", "english", "English", q, 1);
  }

  /** Supports `CaseInsensitiveExample`: the two spellings fold to the same string. */
  lemma LowerDemokrati()
    ensures Lower("Demokrati") == Lower("demokrati")
  {
    assert forall i :: 0 <= i < 9 ==> LowerChar("Demokrati"[i]) == LowerChar("demokrati"[i]);
  }

  /** Adding "demokrati" and then "Demokrati" in the same language leaves one entry, with the second result. */
  lemma CaseInsensitiveExample(r1: ResultData, r2: ResultData)
    ensures var h := AddEntry(AddEntry([], "1", "demokrati", "en", "English", r1, 1),
                              "2", "Demokrati", "en", "English", r2, 2);
            |h| == 1 && h[0].result == r2 && h[0].term == "Demokrati"
  {
    TrimmedIsFixed("demokrati");
    TrimmedIsFixed("Demokrati");
    var h1 := AddEntry([], "1", "demokrati", "en", "English", r1, 1);
    AddTail([], "1", "demokrati", "en", "English", r1, 1);
    assert h1 == [HistoryItem("1", "demokrati", "en", "English", r1, 1)];
    LowerDemokrati();
    assert SameKey(h1[0], "Demokrati", "en");
    assert WithoutKey(h1, "Demokrati", "en") == [];
    AddTail(h1, "2", "Demokrati", "en", "English", r2, 2);
  }

  /** What reading the storage key yields when the history is loaded. */
  datatype Stored =
    | Absent                            // no value under the key, or an empty string
    | Unreadable                        // storage access or parsing failed
    | Saved(items: seq<HistoryItem>)    // a previously written list

  /** The state of the `useHistory` hook, with the storage key it mirrors into. */
  class HistoryStore {
    var history: seq<HistoryItem>
    var isLoaded: bool
    var storage: Stored

    /** The first render: empty, not loaded; `storage` is whatever the key held before. */
    constructor(storage: Stored)
      ensures history == [] && !isLoaded && this.storage == storage
    {
      history := [];
      isLoaded := false;
      this.storage := storage;
    }

    /** The mount effect: read the key; a missing or unreadable value leaves the list as it was. Either way, loading ends. */
    method Load()
      modifies this`history, this`isLoaded
      ensures isLoaded && storage == old(storage)
      ensures history == if old(storage).Saved? then old(storage).items else old(history)
    {
      if storage.Saved? {
        history := storage.items;
      }
      isLoaded := true;
    }

    /** The save effect: mirror the list into the key, but only once loading has finished; a failed write is ignored. */
    method SaveEffect(writeOk: bool)
      modifies this`storage
      ensures storage == if isLoaded && writeOk then Saved(history) else old(storage)
    {
      if isLoaded && writeOk {
        storage := Saved(history);
      }
    }

    method Add(term: string, language: string, languageLabel: string, result: ResultData,
               id: string, timestamp: int)
      modifies this`history
      ensures history == AddEntry(old(history), id, term, language, languageLabel, result, timestamp)
    {
      history := AddEntry(history, id, term, language, languageLabel, result, timestamp);
    }

    method Remove(id: string)
      modifies this`history
      ensures history == WithoutId(old(history), id)
    {
      history := WithoutId(history, id);
    }

    /** `clearHistory`; afterwards no id is found. */
    method Clear()
      modifies this`history
      ensures history == []
      ensures forall id :: Lookup(history, id) == None
    {
      history := [];
    }

    /** `addToHistory` followed by the save effect, which React runs after every change of the list. */
    method AddAndSave(term: string, language: string, languageLabel: string, result: ResultData,
                      id: string, timestamp: int, writeOk: bool)
      modifies this`history, this`storage
      ensures history == AddEntry(old(history), id, term, language, languageLabel, result, timestamp)
      ensures storage == if isLoaded && writeOk then Saved(history) else old(storage)
    {
      Add(term, language, languageLabel, result, id, timestamp);
      SaveEffect(writeOk);
    }

    /** `removeFromHistory` followed by the save effect. */
    method RemoveAndSave(id: string, writeOk: bool)
      modifies this`history, this`storage
      ensures history == WithoutId(old(history), id)
      ensures storage == if isLoaded && writeOk then Saved(history) else old(storage)
    {
      Remove(id);
      SaveEffect(writeOk);
    }

    /** `clearHistory` followed by the save effect: once loaded, the key is written with the empty list. */
    method ClearAndSave(writeOk: bool)
      modifies this`history, this`storage
      ensures history == []
      ensures storage == if isLoaded && writeOk then Saved([]) else old(storage)
    {
      Clear();
      SaveEffect(writeOk);
    }

    method Get(id: string) returns (r: Option<HistoryItem>)
      ensures r == Lookup(history, id)
    {
      r := Lookup(history, id);
    }
  }

  /** The hook on mount: the first render followed by the load effect. */
  method Mount(storage: Stored) returns (s: HistoryStore)
    ensures fresh(s) && s.isLoaded && s.storage == storage
    ensures s.history == if storage.Saved? then storage.items else []
  {
    s := new HistoryStore(storage);
    s.Load();
  }

  /**
   * The mount as React runs it: the load effect sets `isLoaded`, which runs the
   * save effect, so the loaded list is written back at once; a missing or
   * unreadable key then holds the empty list.
   */
  method MountAndSave(storage: Stored, writeOk: bool) returns (s: HistoryStore)
    ensures fresh(s) && s.isLoaded
    ensures s.history == if storage.Saved? then storage.items else []
    ensures s.storage == if writeOk then Saved(s.history) else storage
  {
    s := Mount(storage);
    s.SaveEffect(writeOk);
  }

  /** Writing a loaded history and loading it into a fresh store reproduces the same list. */
  method SaveAndReload(s: HistoryStore) returns (reloaded: HistoryStore)
    requires s.isLoaded
    modifies s`storage
    ensures fresh(reloaded) && reloaded.isLoaded && reloaded.history == s.history
  {
    s.SaveEffect(true);
    reloaded := Mount(s.storage);
  }
}
