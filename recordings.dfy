/** The history page (extension/recordings.js): the stored recordings rendered as a grid of
    cards, newest first, each showing its duration and carrying its position for the delete
    button; an empty history shows the empty-state message. */
module Recordings {
  import opened Base
  import opened Text
  import opened Store

  // ---------------------------------------------------------------------------------------
  // Duration text

  /** `formatDuration`: whole minutes and remaining seconds as `m分s秒`, or only `s秒` under a
      minute; neither field is padded. */
  function FormatDuration(seconds: nat): string {
    var m := seconds / 60;
    var s := seconds % 60;
    if m > 0 then NatToString(m) + "分" + NatToString(s) + "秒" else NatToString(s) + "秒"
  }

  /** The text ends in `秒` and holds `分` exactly when the duration reaches a minute. */
  lemma FormatDurationShape(seconds: nat)
    ensures var r := FormatDuration(seconds);
      |r| >= 2 && r[|r| - 1] == '秒' && ('分' in r <==> seconds >= 60)
  {
    DecodeFieldOf(seconds / 60);
    DecodeFieldOf(seconds % 60);
  }

  /** Reads a duration text back into seconds: a field of digits, optionally followed by `分`
      and a second field, closed by `秒`. */
  function DecodeDuration(text: string): Option<nat> {
    if |text| == 0 || text[|text| - 1] != '秒' then None
    else
      var body := text[..|text| - 1];
      match IndexOf(body, '分')
      case None => DecodeField(body)
      case Some(k) =>
        match (DecodeField(body[..k]), DecodeField(body[k + 1..]))
        case (Some(m), Some(s)) => Some(m * 60 + s)
        case _ => None
  }

  /** A non-empty run of decimal digits and its value. */
  function DecodeField(field: string): Option<nat> {
    if |field| > 0 && AllDigits(field) then Some(ParseNat(field)) else None
  }

  /** A rendered counter is a field that decodes to the counter and holds no `分`. */
  lemma DecodeFieldOf(n: nat)
    ensures DecodeField(NatToString(n)) == Some(n)
    ensures '分' !in NatToString(n)
  {
    ParseNatToString(n);
    assert AllDigits(NatToString(n));
  }

  /** Two fields joined by `分` and closed by `秒` decode to the first times sixty plus the
      second. */
  lemma DecodeTwoFields(dm: string, ds: string)
    requires DecodeField(dm).Some? && DecodeField(ds).Some? && '分' !in dm
    ensures DecodeDuration(dm + "分" + ds + "秒") == Some(DecodeField(dm).value * 60 + DecodeField(ds).value)
  {
    var body := dm + "分" + ds;
    var text := body + "秒";
    assert text[..|text| - 1] == body;
    assert body[..|dm|] == dm;
    IndexOfAt(body, '分', |dm|);
    assert body[|dm| + 1..] == ds;
  }

  /** Rendered seconds and `秒` decode to the seconds. */
  lemma DecodeSecondsOnly(s: nat)
    ensures DecodeDuration(NatToString(s) + "秒") == Some(s)
  {
    var ds := NatToString(s);
    DecodeFieldOf(s);
    var text := ds + "秒";
    assert text[..|text| - 1] == ds;
    assert IndexOf(ds, '分') == None;
  }

  /** A duration of a minute or more is shown as two fields that decode back to it. */
  lemma DecodeLongDuration(seconds: nat)
    requires seconds >= 60
    ensures DecodeDuration(FormatDuration(seconds)) == Some(seconds)
  {
    var m, s := seconds / 60, seconds % 60;
    assert m * 60 + s == seconds && m > 0;
    var text := NatToString(m) + "分" + NatToString(s) + "秒";
    assert FormatDuration(seconds) == text;
    DecodeFieldOf(m);
    DecodeFieldOf(s);
    DecodeTwoFields(NatToString(m), NatToString(s));
    assert DecodeDuration(text) == Some(m * 60 + s);
  }

  /** The duration shown on a card determines the stored duration. */
  lemma DecodeFormatDuration(seconds: nat)
    ensures DecodeDuration(FormatDuration(seconds)) == Some(seconds)
  {
    if seconds >= 60 {
      DecodeLongDuration(seconds);
    } else {
      FormatDurationUnderMinute(seconds);
      DecodeSecondsOnly(seconds);
    }
  }

  /** Under a minute only the seconds are shown. */
  lemma FormatDurationUnderMinute(seconds: nat)
    requires seconds < 60
    ensures FormatDuration(seconds) == NatToString(seconds) + "秒"
  {
    assert seconds / 60 == 0 && seconds % 60 == seconds;
  }

  // ---------------------------------------------------------------------------------------
  // Cards and the rendered list

  /** What one card shows: the thumbnail, the stored date, the duration text, the viewer link
      used by both the copy and the open buttons, and the position its delete button carries. */
  datatype Card = Card(thumbnail: string, date: string, duration: string, url: string, index: nat)

  /** The card rendered for the recording at position `index`. */
  function CardOf(rec: Recording, index: nat): Card {
    Card(rec.thumbnail, rec.date, FormatDuration(rec.duration), rec.viewerUrl, index)
  }

  /** The page's content area: the empty-state message or the grid of cards. */
  datatype View = EmptyState | Grid(cards: seq<Card>)

  /** `v` is what rendering `recordings` shows: the empty state for no recordings, otherwise one
      card per recording, in list order, each carrying its own position. */
  predicate Shows(v: View, recordings: seq<Recording>) {
    && (|recordings| == 0 <==> v.EmptyState?)
    && (v.Grid? ==> |v.cards| == |recordings|)
    && (v.Grid? ==> forall k :: 0 <= k < |recordings| ==> v.cards[k] == CardOf(recordings[k], k))
  }

  /** The `forEach` over the recordings that appends one card per recording to the grid. */
  method BuildCards(recordings: seq<Recording>) returns (cards: seq<Card>)
    ensures |cards| == |recordings|
    ensures forall k :: 0 <= k < |recordings| ==> cards[k] == CardOf(recordings[k], k)
  {
    cards := [];
    for k := 0 to |recordings|
      invariant |cards| == k
      invariant forall j :: 0 <= j < k ==> cards[j] == CardOf(recordings[j], j)
    {
      cards := cards + [CardOf(recordings[k], k)];
    }
  }

  /** Deleting the card at `i` of a history and rendering again shows every card before it
      unchanged and every card after it moved up one place, its delete button now carrying its
      new position. */
  lemma DeleteShiftsCards(recordings: seq<Recording>, i: nat, before: View, after: View)
    requires i < |recordings|
    requires Shows(before, recordings) && Shows(after, RemoveAt(recordings, i))
    ensures after.Grid? ==> forall k :: 0 <= k < i ==> after.cards[k] == before.cards[k]
    ensures after.Grid? ==> forall k :: i <= k < |after.cards| ==>
      after.cards[k] == before.cards[k + 1].(index := k)
    ensures after.EmptyState? <==> |recordings| == 1
  {
  }

  /** The history page: the store it reads and writes and the content it shows. */
  class HistoryPage {
    const store: Storage
    var content: View

    /** Opening the page renders the stored list, a missing list reading as empty. */
    constructor (store: Storage)
      ensures this.store == store
      ensures Shows(content, Load(store.recordings))
    {
      this.store := store;
      content := EmptyState;
      new;
      RenderList(Load(store.recordings));
    }

    /** `renderList`: the empty-state message for no recordings, otherwise the grid. */
    method RenderList(recordings: seq<Recording>)
      modifies this
      ensures Shows(content, recordings)
    {
      if |recordings| == 0 {
        content := EmptyState;
        return;
      }
      var cards := BuildCards(recordings);
      content := Grid(cards);
    }

    /** A delete button whose card carries position `i`: the stored list is read again, the
        recording at `i` (if there still is one) is taken out, the list is written back and
        rendered. */
    method DeleteCard(i: nat)
      modifies this, store
      ensures store.recordings == Some(RemoveAt(Load(old(store.recordings)), i))
      ensures Shows(content, Load(store.recordings))
    {
      var recordings := Load(store.recordings);
      recordings := RemoveAt(recordings, i);
      store.recordings := Some(recordings);
      RenderList(recordings);
    }
  }

  /** Deleting a card removes exactly that card's recording from the stored history when the
      history is the one the page shows: the other recordings stay, in order. */
  lemma DeleteRemovesShownRecording(shown: View, stored: Option<seq<Recording>>, i: nat)
    requires Shows(shown, Load(stored)) && shown.Grid? && i < |shown.cards|
    ensures var rest := RemoveAt(Load(stored), i);
      && CardOf(Load(stored)[i], i) == shown.cards[i]
      && multiset(rest) + multiset{Load(stored)[i]} == multiset(Load(stored))
      && forall k :: 0 <= k < |rest| ==> rest[k] == Load(stored)[if k < i then k else k + 1]
  {
  }
}
