/**
 * The page: the chosen photo, the selected style and the preview, the
 * handlers that change them, and what the page derives from them (the
 * image shown and downloaded, which steps are visible, whether the
 * download button is enabled).
 *
 * Selecting a style while a photo is present issues a preview request and
 * the answer arrives later, so the handler is split in two: `HandleStyleSelect`
 * issues the request, `OnPreviewResult` applies its answer.  Answers are
 * applied in whatever order they arrive, with no check that they belong to
 * the latest request, exactly as the page does.
 */
module ArtifyClient {
  import opened Values
  import opened Actions

  /** The arguments of one call of `generatePreviewAction`. */
  datatype PreviewRequest = PreviewRequest(photoDataUri: string, artStyleDescription: string)

  /** What the artwork card shows. */
  datatype ArtworkView = Skeleton | Picture(src: string) | Placeholder

  /** `previewImage` after an answer to a preview request: cleared on a failure, the answer's URI otherwise. */
  function PreviewAfter(result: ActionResult<string>): (r: Option<string>)
    ensures Truthy(result.error) ==> r.None?
    ensures !Truthy(result.error) ==> r == result.data
  {
    if Truthy(result.error) then None else result.data
  }

  /**
   * Through the action's error mapping, a resolved service call shows its
   * URI as the preview and a failed one leaves the preview cleared, whatever
   * (possibly empty) message it threw.
   */
  lemma PreviewFollowsService(outcome: ServiceOutcome)
    ensures outcome.Resolved? ==> PreviewAfter(GeneratePreviewAction(outcome)) == Some(outcome.uri)
    ensures outcome.Threw? ==> PreviewAfter(GeneratePreviewAction(outcome)).None?
  {
  }

  class ArtifyPage {
    var userPhoto: Option<string>
    var previewImage: Option<string>
    var selectedStyle: Option<ArtStyle>
    /** Preview requests issued and not yet answered; `isPreviewLoading` while there is one. */
    var pendingPreviews: nat

    constructor ()
      ensures userPhoto.None? && previewImage.None? && selectedStyle.None? && pendingPreviews == 0
    {
      userPhoto, previewImage, selectedStyle, pendingPreviews := None, None, None, 0;
    }

    /** The transition's pending flag. */
    predicate IsPreviewLoading()
      reads this
    {
      pendingPreviews > 0
    }

    /** `previewImage || userPhoto`: the preview when it is a non-empty URI, the photo otherwise. */
    function DisplayImage(): (r: Option<string>)
      reads this
      ensures Truthy(previewImage) ==> r == previewImage
      ensures !Truthy(previewImage) ==> r == userPhoto
      ensures Truthy(r) <==> Truthy(previewImage) || Truthy(userPhoto)
    {
      Or(previewImage, userPhoto)
    }

    /** The artwork card: a skeleton while loading, else the displayed image if there is one. */
    function Artwork(): (r: ArtworkView)
      reads this
      ensures IsPreviewLoading() ==> r == Skeleton
      ensures !IsPreviewLoading() && Truthy(DisplayImage()) ==> r == Picture(DisplayImage().value)
      ensures !IsPreviewLoading() && !Truthy(DisplayImage()) ==> r == Placeholder
      ensures r.Picture? ==> r.src != ""
    {
      if IsPreviewLoading() then Skeleton
      else if Truthy(DisplayImage()) then Picture(DisplayImage().value)
      else Placeholder
    }

    /** Step 2 (choose a style) is rendered iff the photo is truthy. */
    predicate ShowsStep2()
      reads this
    {
      Truthy(userPhoto)
    }

    /** Step 3 (the artwork and the download button) is rendered inside step 2, when a style or a preview is present. */
    predicate ShowsStep3()
      reads this
    {
      ShowsStep2() && (selectedStyle.Some? || Truthy(previewImage))
    }

    /** `disabled={!userPhoto || !selectedStyle || isPreviewLoading}`, negated. */
    predicate DownloadEnabled()
      reads this
    {
      Truthy(userPhoto) && selectedStyle.Some? && !IsPreviewLoading()
    }

    /** `handlePhotoSelected`: a null photo resets all three fields, a new photo clears only the preview. */
    method HandlePhotoSelected(dataUri: Option<string>)
      modifies this
      ensures dataUri.None? ==> userPhoto.None? && previewImage.None? && selectedStyle.None?
      ensures dataUri.Some? ==> userPhoto == dataUri && previewImage.None? && selectedStyle == old(selectedStyle)
      ensures pendingPreviews == old(pendingPreviews)
    {
      if dataUri.None? {
        userPhoto := None;
        previewImage := None;
        selectedStyle := None;
      } else {
        userPhoto := dataUri;
        previewImage := None;
      }
    }

    /**
     * `handleStyleSelect`: the style is always recorded.  Without a truthy
     * photo nothing else happens; with one, the preview is cleared and a
     * request for the photo and the style's prompt is issued.
     */
    method HandleStyleSelect(style: ArtStyle) returns (request: Option<PreviewRequest>)
      modifies this
      ensures selectedStyle == Some(style) && userPhoto == old(userPhoto)
      ensures !Truthy(old(userPhoto)) ==>
        request.None? && previewImage == old(previewImage) && pendingPreviews == old(pendingPreviews)
      ensures Truthy(old(userPhoto)) ==>
        && request == Some(PreviewRequest(old(userPhoto).value, style.prompt))
        && previewImage.None?
        && pendingPreviews == old(pendingPreviews) + 1
    {
      selectedStyle := Some(style);
      if !Truthy(userPhoto) {
        return None;
      }
      previewImage := None;
      pendingPreviews := pendingPreviews + 1;
      request := Some(PreviewRequest(userPhoto.value, style.prompt));
    }

    /** The answer to one issued preview request arrives: the preview becomes `PreviewAfter(result)`. */
    method OnPreviewResult(result: ActionResult<string>)
      requires pendingPreviews > 0
      modifies this
      ensures previewImage == PreviewAfter(result)
      ensures pendingPreviews == old(pendingPreviews) - 1
      ensures userPhoto == old(userPhoto) && selectedStyle == old(selectedStyle)
    {
      previewImage := PreviewAfter(result);
      pendingPreviews := pendingPreviews - 1;
    }

    /**
     * `handleDownload`: the link's target is the displayed image, and no
     * link is made when that image is absent or empty.  Nothing changes.
     */
    method HandleDownload() returns (href: Option<string>)
      ensures href.Some? <==> Truthy(DisplayImage())
      ensures href.Some? ==> href == DisplayImage() && href.value != ""
    {
      var imageToDownload := Or(previewImage, userPhoto);
      if !Truthy(imageToDownload) {
        return None;
      }
      href := imageToDownload;
    }
  }

  /** An enabled download button always leads to a download, of the photo or of a truthy preview. */
  lemma EnabledDownloadHasTarget(page: ArtifyPage)
    ensures page.DownloadEnabled() ==> Truthy(page.DisplayImage())
    ensures page.DownloadEnabled() ==>
      page.DisplayImage() == (if Truthy(page.previewImage) then page.previewImage else page.userPhoto)
  {
  }

  /** Step 3 is only ever shown together with step 2, and the download button only inside step 3. */
  lemma StepsNest(page: ArtifyPage)
    ensures page.ShowsStep3() ==> page.ShowsStep2()
    ensures page.DownloadEnabled() ==> page.ShowsStep3()
  {
  }

  /**
   * Clearing the photo after a preview was made resets the photo, the
   * style and the preview, so the page is back at step 1 with nothing to
   * download.
   */
  method ClearAfterPreview(photo: string, style: ArtStyle, preview: string) returns (page: ArtifyPage)
    requires photo != "" && preview != ""
    ensures page.userPhoto.None? && page.previewImage.None? && page.selectedStyle.None?
    ensures !page.ShowsStep2() && !page.ShowsStep3() && !page.DownloadEnabled()
  {
    page := new ArtifyPage();
    page.HandlePhotoSelected(Some(photo));
    var request := page.HandleStyleSelect(style);
    assert request.Some?;
    page.OnPreviewResult(ActionResult(None, Some(preview)));
    assert page.previewImage == Some(preview) && page.DownloadEnabled();
    page.HandlePhotoSelected(None);
  }
}
