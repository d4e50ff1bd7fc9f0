/**
 * The server actions of the application: the two calls into the art
 * transform service with their error mapping, and the bounded list of
 * recent results ("collage") kept in a JSON file.  The file itself is
 * modelled by what reading it produced and by the list handed to the write.
 */
module Actions {
  import opened Values

  /** One stored record of the recent-results list. */
  datatype CollageEntry = CollageEntry(id: int, imageDataUri: string, styleName: string)

  /** The `{ error?, data? }` object every server action resolves to. */
  datatype ActionResult<T> = ActionResult(error: Option<string>, data: Option<T>)

  /** What a call into the art transform service did: resolve with a data URI, or throw. */
  datatype ServiceOutcome = Resolved(uri: string) | Threw(message: Option<string>)

  /** What reading the collage file produced: its parsed list, or a failure with an error code. */
  datatype ReadOutcome = Parsed(entries: seq<CollageEntry>) | ReadFailed(code: Option<string>)

  const MaxCollageEntries: nat := 50
  const InvalidStyleError := "Invalid art style."
  const PreviewDefaultError := "An unexpected error occurred during preview generation."
  const TransformDefaultError := "An unexpected error occurred during art transformation."

  function Min(a: int, b: int): int { if a <= b then a else b }

  /**
   * The message an action reports for a thrown value: `e.message || fallback`.
   * The result is never empty, so the caller's `if (result.error)` always
   * sees a failure as a failure.
   */
  function ErrorText(message: Option<string>, fallback: string): (r: string)
    requires fallback != ""
    ensures r != ""
    ensures Truthy(message) ==> r == message.value
    ensures !Truthy(message) ==> r == fallback
  {
    if Truthy(message) then message.value else fallback
  }

  /** Maps a service outcome to the action's result object. */
  function ServiceResult(outcome: ServiceOutcome, fallback: string): (r: ActionResult<string>)
    requires fallback != ""
    ensures outcome.Resolved? ==> r == ActionResult(None, Some(outcome.uri))
    ensures outcome.Threw? ==> r.data.None? && r.error == Some(ErrorText(outcome.message, fallback))
    ensures Truthy(r.error) <==> outcome.Threw?
    ensures r.error.None? <==> r.data.Some?
  {
    match outcome
    case Resolved(uri) => ActionResult(None, Some(uri))
    case Threw(message) => ActionResult(Some(ErrorText(message, fallback)), None)
  }

  /** `generatePreviewAction`: the preview URI on success, a non-empty error message on failure. */
  function GeneratePreviewAction(outcome: ServiceOutcome): (r: ActionResult<string>)
    ensures outcome.Resolved? ==> r == ActionResult(None, Some(outcome.uri))
    ensures outcome.Threw? && Truthy(outcome.message) ==> r == ActionResult(outcome.message, None)
    ensures outcome.Threw? && !Truthy(outcome.message) ==> r == ActionResult(Some(PreviewDefaultError), None)
    ensures Truthy(r.error) <==> outcome.Threw?
  {
    ServiceResult(outcome, PreviewDefaultError)
  }

  /** `transformPhotoAction`: the transformed URI on success, a non-empty error message on failure. */
  function TransformPhotoAction(outcome: ServiceOutcome): (r: ActionResult<string>)
    ensures outcome.Resolved? ==> r == ActionResult(None, Some(outcome.uri))
    ensures outcome.Threw? && Truthy(outcome.message) ==> r == ActionResult(outcome.message, None)
    ensures outcome.Threw? && !Truthy(outcome.message) ==> r == ActionResult(Some(TransformDefaultError), None)
    ensures Truthy(r.error) <==> outcome.Threw?
  {
    ServiceResult(outcome, TransformDefaultError)
  }

  /**
   * `readCollageData`: the parsed list, or the empty list after any failure
   * (a missing file, ENOENT, and every other read or parse error alike).
   */
  function ReadCollageData(read: ReadOutcome): (entries: seq<CollageEntry>)
    ensures read.Parsed? ==> entries == read.entries
    ensures read.ReadFailed? ==> entries == []
  {
    match read
    case Parsed(entries) => entries
    case ReadFailed(_) => []
  }

  /** `getCollageImagesAction`: always succeeds, with whatever `readCollageData` produced. */
  function GetCollageImagesAction(read: ReadOutcome): (r: ActionResult<seq<CollageEntry>>)
    ensures r.error.None? && r.data.Some?
    ensures read.ReadFailed? ==> r.data == Some([])
    ensures read.Parsed? ==> r.data == Some(read.entries)
  {
    ActionResult(None, Some(ReadCollageData(read)))
  }

  /**
   * Index of the first style whose `id` is `id` (the position `Array.find`
   * stops at), or None when no style has that id.
   */
  function FindStyleIndex(styles: seq<ArtStyle>, id: string): (r: Option<nat>)
    ensures r.None? <==> forall i :: 0 <= i < |styles| ==> styles[i].id != id
    ensures r.Some? ==> r.value < |styles| && styles[r.value].id == id
    ensures r.Some? ==> forall j :: 0 <= j < r.value ==> styles[j].id != id
  {
    if styles == [] then None
    else if styles[0].id == id then Some(0)
    else
      match FindStyleIndex(styles[1..], id)
      case None => None
      case Some(k) => Some(k + 1)
  }

  /** `artStyles.find(s => s.id === id)`. */
  function FindStyle(styles: seq<ArtStyle>, id: string): (r: Option<ArtStyle>)
    ensures r.None? <==> forall i :: 0 <= i < |styles| ==> styles[i].id != id
    ensures r.Some? ==> exists i :: 0 <= i < |styles| && styles[i] == r.value
                                    && (forall j :: 0 <= j < i ==> styles[j].id != id)
    ensures r.Some? ==> r.value.id == id
  {
    match FindStyleIndex(styles, id)
    case None => None
    case Some(k) => Some(styles[k])
  }

  /**
   * `saveToCollageAction`.  The style is looked up first; an unknown id
   * fails before the file is read and nothing is written.  Otherwise the
   * loaded list gets the new entry in front (`unshift`) and is cut to its
   * first 50 entries, which is the list handed to the write.  A failing
   * write is only logged by the source, so the result is success either way.
   * `now` stands for `new Date().getTime()`.
   */
  method SaveToCollageAction(styles: seq<ArtStyle>, imageDataUri: string, styleId: string, now: int, stored: ReadOutcome)
    returns (result: ActionResult<bool>, written: Option<seq<CollageEntry>>)
    ensures FindStyle(styles, styleId).None? ==> result == ActionResult(Some(InvalidStyleError), None) && written.None?
    ensures FindStyle(styles, styleId).Some? ==> result == ActionResult(None, Some(true)) && written.Some?
    ensures written.Some? ==>
      var old_ := ReadCollageData(stored);
      var entry := CollageEntry(now, imageDataUri, FindStyle(styles, styleId).value.name);
      && written.value == Unshifted(entry, old_)
      && |written.value| == Min(|old_| + 1, MaxCollageEntries)
      && written.value[0] == entry
      && written.value[1..] == old_[..Min(|old_|, MaxCollageEntries - 1)]
  {
    var style := FindStyle(styles, styleId);
    if style.None? {
      return ActionResult(Some(InvalidStyleError), None), None;
    }
    var collageData := ReadCollageData(stored);
    var entry := CollageEntry(now, imageDataUri, style.value.name);
    collageData := [entry] + collageData;
    var slicedData := collageData[..Min(|collageData|, MaxCollageEntries)];
    UnshiftedShape(entry, ReadCollageData(stored));
    result, written := ActionResult(None, Some(true)), Some(slicedData);
  }

  /** The list a successful save writes, for a loaded list `stored` and a new entry. */
  function Unshifted(entry: CollageEntry, stored: seq<CollageEntry>): seq<CollageEntry>
  {
    var collage := [entry] + stored;
    collage[..Min(|collage|, MaxCollageEntries)]
  }

  /**
   * The bounded-list law of one save: the list grows by one up to 50, the
   * new entry is first, and behind it come the old entries, unchanged and
   * in order, as many as fit (at most 49).
   */
  lemma UnshiftedShape(entry: CollageEntry, stored: seq<CollageEntry>)
    ensures |Unshifted(entry, stored)| == Min(|stored| + 1, MaxCollageEntries)
    ensures Unshifted(entry, stored)[0] == entry
    ensures Unshifted(entry, stored)[1..] == stored[..Min(|stored|, MaxCollageEntries - 1)]
  {
  }

  /** The list left after saving `entries` one after the other, oldest first, starting from `stored`. */
  function SaveAll(stored: seq<CollageEntry>, entries: seq<CollageEntry>): seq<CollageEntry>
  {
    if entries == [] then stored
    else Unshifted(entries[|entries| - 1], SaveAll(stored, entries[..|entries| - 1]))
  }

  /**
   * Saving a sequence of entries keeps the list bounded by 50 and newest
   * first: position k holds the k-th most recent new entry, and past the
   * new entries the old list continues in its own order.  A stored list
   * longer than 50 entries, which reading the file accepts, is cut by the
   * first save.
   */
  lemma {:induction false} SaveAllShape(stored: seq<CollageEntry>, entries: seq<CollageEntry>)
    requires entries != [] || |stored| <= MaxCollageEntries
    ensures |SaveAll(stored, entries)| == Min(|stored| + |entries|, MaxCollageEntries)
    ensures forall k :: 0 <= k < |SaveAll(stored, entries)| ==>
      SaveAll(stored, entries)[k] == if k < |entries| then entries[|entries| - 1 - k] else stored[k - |entries|]
  {
    if entries != [] {
      var init := entries[..|entries| - 1];
      if init == [] {
        UnshiftedShape(entries[0], stored);
      } else {
        SaveAllShape(stored, init);
      }
      var prev := SaveAll(stored, init);
      var now := SaveAll(stored, entries);
      assert now == Unshifted(entries[|entries| - 1], prev);
      forall k | 0 <= k < |now|
        ensures now[k] == if k < |entries| then entries[|entries| - 1 - k] else stored[k - |entries|]
      {
        if k > 0 {
          assert now[k] == prev[k - 1];
          if k - 1 < |init| {
            assert init[|init| - 1 - (k - 1)] == entries[|entries| - 1 - k];
          }
        }
      }
    }
  }

  /**
   * Saving 51 entries into an empty list leaves exactly 50: the newest is
   * in front and the oldest, the first one saved, is gone.
   */
  lemma FiftyOneSavesEvictOldest(entries: seq<CollageEntry>)
    requires |entries| == MaxCollageEntries + 1
    ensures |SaveAll([], entries)| == MaxCollageEntries
    ensures SaveAll([], entries)[0] == entries[MaxCollageEntries]
    ensures SaveAll([], entries)[MaxCollageEntries - 1] == entries[1]
  {
    SaveAllShape([], entries);
  }
}
