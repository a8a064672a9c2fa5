/** The export history kept in the browser's `localStorage` under the key
    `exportHistory`: newest entry first, at most fifty entries. */
module ExportHistory {

  /** One record of an export attempt. */
  datatype HistoryEntry = HistoryEntry(
    projectId: string,
    projectTitle: string,
    format: string,
    timestamp: string,
    success: bool,
    message: string)

  /** What the storage slot holds: nothing (or the empty string), text that
      is not valid JSON, or a parsed list of entries. */
  datatype StoredHistory = Absent | Unparseable | Parsed(entries: seq<HistoryEntry>)

  const HistoryLimit: nat := 50

  /** `getExportHistory` on a stored value: a missing slot and a parse
      failure both read as the empty history. */
  function Read(stored: StoredHistory): (h: seq<HistoryEntry>)
    ensures stored.Parsed? ==> h == stored.entries
    ensures !stored.Parsed? ==> h == []
  {
    match stored
    case Parsed(entries) => entries
    case _ => []
  }

  function Min(a: nat, b: nat): nat
  {
    if a < b then a else b
  }

  /** `unshift` the entry, then `slice(0, 50)`. */
  function Saved(h: seq<HistoryEntry>, e: HistoryEntry): (r: seq<HistoryEntry>)
    ensures |r| == Min(|h| + 1, HistoryLimit)
    ensures r[0] == e
    ensures forall i :: 0 < i < |r| ==> r[i] == h[i - 1]
  {
    ([e] + h)[..Min(|h| + 1, HistoryLimit)]
  }

  /** A save never lets the history grow past the limit, and every entry it
      keeps besides the new one was already there, in the same order. */
  lemma SavedWithinLimit(h: seq<HistoryEntry>, e: HistoryEntry)
    requires |h| <= HistoryLimit
    ensures |Saved(h, e)| <= HistoryLimit
    ensures |h| < HistoryLimit ==> Saved(h, e) == [e] + h
    ensures |h| == HistoryLimit ==> Saved(h, e) == [e] + h[..HistoryLimit - 1]
  {
    var r := Saved(h, e);
    if |h| < HistoryLimit {
      assert r == [e] + h;
    } else {
      assert r == [e] + h[..HistoryLimit - 1];
    }
  }

  function Reverse<T>(s: seq<T>): (r: seq<T>)
    ensures |r| == |s|
    ensures forall i :: 0 <= i < |s| ==> r[i] == s[|s| - 1 - i]
  {
    if s == [] then [] else Reverse(s[1..]) + [s[0]]
  }

  /** Saving the entries `es` one after another, oldest first. */
  function SaveAll(h: seq<HistoryEntry>, es: seq<HistoryEntry>): seq<HistoryEntry>
    decreases |es|
  {
    if es == [] then h else SaveAll(Saved(h, es[0]), es[1..])
  }

  /** Any run of saves leaves the newest fifty entries of everything saved,
      newest first, followed by as much of the old history as fits (a stored
      history longer than the limit is only cut by the first save). */
  lemma {:induction false} SaveAllKeepsNewest(h: seq<HistoryEntry>, es: seq<HistoryEntry>)
    requires es != [] || |h| <= HistoryLimit
    ensures SaveAll(h, es) == (Reverse(es) + h)[..Min(|es| + |h|, HistoryLimit)]
    decreases |es|
  {
    if es == [] {
      assert Reverse(es) + h == h;
    } else {
      var h1 := Saved(h, es[0]);
      SaveAllKeepsNewest(h1, es[1..]);
      var n := Min(|es| + |h|, HistoryLimit);
      var whole := Reverse(es) + h;
      var rest := Reverse(es[1..]) + h1;
      assert |rest| == |es| - 1 + |h1|;
      assert SaveAll(h, es) == rest[..Min(|es| - 1 + |h1|, HistoryLimit)];
      assert Min(|es| - 1 + |h1|, HistoryLimit) == n;
      assert forall i :: 0 <= i < n ==> rest[i] == whole[i];
    }
  }

  /** Once fifty or more exports have been recorded, the history is exactly
      the latest fifty of them, newest first; older ones are gone. */
  lemma ManySavesKeepLatestFifty(h: seq<HistoryEntry>, es: seq<HistoryEntry>)
    requires |es| >= HistoryLimit
    ensures |SaveAll(h, es)| == HistoryLimit
    ensures forall i :: 0 <= i < HistoryLimit ==> SaveAll(h, es)[i] == es[|es| - 1 - i]
  {
    SaveAllKeepsNewest(h, es);
    var whole := Reverse(es) + h;
    assert forall i :: 0 <= i < HistoryLimit ==> whole[i] == Reverse(es)[i];
  }

  /** The browser storage slot and the two operations on it. */
  class HistoryStore {
    var stored: StoredHistory

    constructor (initial: StoredHistory)
      ensures stored == initial
    {
      stored := initial;
    }

    /** `getExportHistory`. */
    method GetExportHistory() returns (history: seq<HistoryEntry>)
      ensures history == Read(stored)
    {
      match stored
      case Parsed(entries) => history := entries;
      case _ => history := [];
    }

    /** `saveExportToHistory`: the stored list becomes the new entry followed
        by the previous history, cut to fifty entries. */
    method SaveExportToHistory(exportData: HistoryEntry)
      modifies this
      ensures stored == Parsed(Saved(Read(old(stored)), exportData))
    {
      var history := GetExportHistory();
      history := [exportData] + history;
      var trimmedHistory := history[..Min(|history|, HistoryLimit)];
      stored := Parsed(trimmedHistory);
    }
  }
}
