/** The recording history as `chrome.storage.local` keeps it under the key `recordings`: one
    list of records, newest first, read and written as a whole. */
module Store {
  import opened Base

  /** One uploaded recording. `date` is the ISO-8601 text of the upload time and `duration`
      the session clock in whole seconds. */
  datatype Recording = Recording(id: string, viewerUrl: string, date: string, duration: nat, thumbnail: string)

  /** The persistent store: the value under `recordings`, absent until the first upload. */
  class Storage {
    var recordings: Option<seq<Recording>>

    constructor (initial: Option<seq<Recording>>)
      ensures recordings == initial
    {
      recordings := initial;
    }
  }

  /** `result.recordings || []`: a missing list reads as the empty one. */
  function Load(stored: Option<seq<Recording>>): seq<Recording> {
    match stored
    case None => []
    case Some(l) => l
  }

  /** `unshift`: the new record goes in front of whatever was stored. */
  function Prepend(rec: Recording, stored: Option<seq<Recording>>): (list: seq<Recording>)
    ensures |list| == |Load(stored)| + 1
    ensures list[0] == rec
    ensures forall k :: 0 <= k < |Load(stored)| ==> list[k + 1] == Load(stored)[k]
  {
    [rec] + Load(stored)
  }

  /** `splice(i, 1)` with a non-negative index: the element at `i` is taken out and the rest
      close up; an index past the end removes nothing. */
  function RemoveAt<T>(list: seq<T>, i: nat): (r: seq<T>)
    ensures i < |list| ==> |r| == |list| - 1
    ensures i < |list| ==> forall k :: 0 <= k < i ==> r[k] == list[k]
    ensures i < |list| ==> forall k :: i <= k < |r| ==> r[k] == list[k + 1]
    ensures i < |list| ==> multiset(r) + multiset{list[i]} == multiset(list)
    ensures i >= |list| ==> r == list
  {
    if i < |list| then
      assert list == list[..i] + [list[i]] + list[i + 1..];
      list[..i] + list[i + 1..]
    else list
  }

  /** A missing list behaves as a stored empty list for every reader and writer: it reads as
      empty, an upload makes it a one-entry list, and a delete writes back the empty list. */
  lemma MissingListIsEmpty(rec: Recording, i: nat)
    ensures Load(None) == Load(Some([])) == []
    ensures Prepend(rec, None) == Prepend(rec, Some([])) == [rec]
    ensures RemoveAt(Load(None), i) == RemoveAt(Load(Some([])), i) == []
  {
  }

  /** Deleting the newest card right after an upload gives back the history as it was. */
  lemma RemoveNewestUndoesPrepend(rec: Recording, stored: Option<seq<Recording>>)
    ensures RemoveAt(Prepend(rec, stored), 0) == Load(stored)
  {
    var list := Prepend(rec, stored);
    assert list[1..] == Load(stored);
  }
}
