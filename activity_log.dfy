/**
 * The activity log of one report: the list of update cards, the photo
 * strip on each card, and the note dialog's draft.
 */
module ActivityLog {
  import opened Wrappers
  import opened Text
  import opened FieldReports

  const MaxThumbnails: nat := 3

  /** The timeline area: a placeholder, or one card per update. */
  datatype LogContent = Placeholder | Cards(cards: seq<ReportUpdate>)

  function LogContentOf(updates: seq<ReportUpdate>): (c: LogContent)
    ensures c == Placeholder <==> updates == []
    ensures c.Cards? ==> |c.cards| == |updates| && forall i :: 0 <= i < |updates| ==> c.cards[i] == updates[i]
  {
    if updates == [] then Placeholder else Cards(updates)
  }

  /** A card's photo strip: the first thumbnails and, when more photos exist, a "+n" tile. */
  datatype PhotoStrip = PhotoStrip(thumbnails: seq<string>, overflowLabel: Option<string>)

  /** The strip `UpdateCard` draws; none when the update has no photos. */
  function PhotoStripOf(photoUris: seq<string>): (strip: Option<PhotoStrip>)
    ensures strip.None? <==> photoUris == []
    ensures strip.Some? ==>
      var t := strip.value.thumbnails;
      |t| == (if |photoUris| < MaxThumbnails then |photoUris| else MaxThumbnails)
      && t == photoUris[..|t|]
      && (strip.value.overflowLabel.Some? <==> |photoUris| > MaxThumbnails)
  {
    if photoUris == [] then None
    else
      var shown := if |photoUris| <= MaxThumbnails then photoUris else photoUris[..MaxThumbnails];
      var more := if |photoUris| > MaxThumbnails then Some("+" + NatToString(|photoUris| - MaxThumbnails)) else None;
      Some(PhotoStrip(shown, more))
  }

  /** The "+n" tile counts exactly the photos left off the strip, so the
      strip accounts for every photo. */
  lemma OverflowCountsHidden(photoUris: seq<string>)
    requires |photoUris| > MaxThumbnails
    ensures var strip := PhotoStripOf(photoUris).value;
      var tile := strip.overflowLabel.value;
      |tile| >= 2 && tile[0] == '+'
      && (forall i :: 1 <= i < |tile| ==> IsDigit(tile[i]))
      && |strip.thumbnails| + ParseDigits(tile[1..]) == |photoUris|
  {
    var tile := "+" + NatToString(|photoUris| - MaxThumbnails);
    assert tile[1..] == NatToString(|photoUris| - MaxThumbnails);
    NatToStringRoundTrip(|photoUris| - MaxThumbnails);
  }

  /** The note dialog's draft: the typed note and the picked photos. */
  datatype NoteDraft = NoteDraft(noteText: string, photoUris: seq<string>)

  const EmptyDraft: NoteDraft := NoteDraft("", [])

  /** Typing replaces the note, keeps the photos. */
  function EditNote(d: NoteDraft, text: string): (r: NoteDraft)
    ensures r.noteText == text && r.photoUris == d.photoUris
  {
    d.(noteText := text)
  }

  /** A pick replaces the earlier selection; it does not add to it. */
  function PickPhotos(d: NoteDraft, uris: seq<string>): (r: NoteDraft)
    ensures r.photoUris == uris && r.noteText == d.noteText
  {
    d.(photoUris := uris)
  }

  /** Two picks in a row leave only the second. */
  lemma LastPickWins(d: NoteDraft, first: seq<string>, second: seq<string>)
    ensures PickPhotos(PickPhotos(d, first), second) == PickPhotos(d, second)
  {
  }

  /** "Add" is enabled exactly when the note has a non-whitespace character. */
  function AddEnabled(d: NoteDraft): (b: bool)
    ensures b <==> exists i :: 0 <= i < |d.noteText| && !IsWhitespace(d.noteText[i])
  {
    !IsBlank(d.noteText)
  }

  /** Pressing "Add": the note and photos handed on, or nothing while disabled. */
  function Submit(d: NoteDraft): (r: Option<(string, seq<string>)>)
    ensures r.Some? <==> AddEnabled(d)
    ensures r.Some? ==> r.value == (d.noteText, d.photoUris)
  {
    if AddEnabled(d) then Some((d.noteText, d.photoUris)) else None
  }

  /** A fresh dialog, and one holding only photos, cannot submit. */
  lemma PhotosAloneCannotSubmit(uris: seq<string>)
    ensures Submit(PickPhotos(EmptyDraft, uris)) == None
  {
  }
}
