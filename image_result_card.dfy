/**
 * The card that shows one job: which parts render for each status, which
 * button is offered, and the link a download produces. Everything here is a
 * function of the card's inputs; creating and clicking the link in the page
 * is not modelled.
 *
 * The balance input is an `Option<int>`: `None` is a missing (undefined)
 * property, which is what the card receives as the application wires it
 * (see CardButtonAsWired).
 */
module ImageResultCard {
  import opened Types
  import opened Jobs

  const InsufficientLabel: string := "Crédits insuffisants"
  const UnlockLabel: string := "Utiliser 1 Crédit pour Débloquer"
  const DownloadPrefix: string := "retouched_"

  datatype Button = DownloadButton | UnlockButton(disabled: bool, caption: string)

  /** The link a download creates: its `data:` URL and the file name offered. */
  datatype Link = Link(href: string, download: string)

  /** The action area under a completed image. */
  datatype Actions = Actions(showRegenerate: bool, button: Button)

  /** What the card renders. */
  datatype CardView = CardView(
    showLoader: bool,
    showError: bool,
    showRetouched: bool,
    showWatermark: bool,
    actions: Option<Actions>)

  /** JavaScript's `balance < 1`, where comparing an undefined value is false. */
  predicate LessThanOne(balance: Option<int>)
  {
    balance.Some? && balance.value < 1
  }

  /**
   * Whether the card treats the job as having a result: the test is
   * JavaScript truthiness, so an empty result string counts as none.
   */
  predicate HasResult(image: Job)
  {
    image.retouchedUrl.Some? && image.retouchedUrl.value != ""
  }

  /** A `data:` URL, the format the browser's file reader produces and the card builds. */
  function DataUrl(mimeType: string, data: string): string
  {
    "data:" + mimeType + ";base64," + data
  }

  /** Download: a link only when there is a (non-empty) result and the image is unlocked. */
  function DownloadLink(image: Job): (r: Option<Link>)
    ensures r.Some? <==> HasResult(image) && image.isUnlocked
    ensures r.Some? ==>
      |r.value.download| == |DownloadPrefix| + |image.originalFile.name|
      && r.value.download[..|DownloadPrefix|] == DownloadPrefix
      && r.value.download[|DownloadPrefix|..] == image.originalFile.name
      && r.value.href == DataUrl(image.originalFile.mimeType, image.retouchedUrl.value)
  {
    if HasResult(image) && image.isUnlocked then
      Some(Link(DataUrl(image.originalFile.mimeType, image.retouchedUrl.value),
                DownloadPrefix + image.originalFile.name))
    else None
  }

  /**
   * The button: download for an unlocked image; otherwise unlock, disabled
   * and labelled "insufficient" exactly when the balance is below one.
   */
  function GetButton(image: Job, creditBalance: Option<int>): (b: Button)
    ensures b.DownloadButton? <==> image.isUnlocked
    ensures b.UnlockButton? ==>
      (b.disabled <==> LessThanOne(creditBalance))
      && b.caption == (if b.disabled then InsufficientLabel else UnlockLabel)
  {
    if image.isUnlocked then DownloadButton
    else
      var insufficient := LessThanOne(creditBalance);
      UnlockButton(insufficient, if insufficient then InsufficientLabel else UnlockLabel)
  }

  /**
   * The card: loader while processing, error text in error, the result
   * when completed with a non-empty result and watermarked while locked,
   * and the action area whenever completed, with regenerate only while
   * locked.
   */
  function Render(image: Job, creditBalance: Option<int>): (v: CardView)
    ensures v.showLoader <==> image.status == Processing
    ensures v.showError <==> image.status == Error
    ensures v.showRetouched <==> image.status == Completed && HasResult(image)
    ensures v.showWatermark <==> v.showRetouched && !image.isUnlocked
    ensures v.actions.Some? <==> image.status == Completed
    ensures v.actions.Some? ==>
      (v.actions.value.showRegenerate <==> !image.isUnlocked)
      && v.actions.value.button == GetButton(image, creditBalance)
  {
    var retouched := image.status == Completed && HasResult(image);
    CardView(
      image.status == Processing,
      image.status == Error,
      retouched,
      retouched && !image.isUnlocked,
      if image.status == Completed then Some(Actions(!image.isUnlocked, GetButton(image, creditBalance)))
      else None)
  }

  /** The button as the application wires it: the balance property never arrives. */
  function CardButtonAsWired(image: Job, tokenBalance: int): (b: Button)
    ensures !image.isUnlocked ==> b == UnlockButton(false, UnlockLabel)
  {
    GetButton(image, None)
  }

  /** The button with the balance passed under the name the card reads. */
  function CardButton(image: Job, tokenBalance: int): (b: Button)
    ensures !image.isUnlocked ==> b.UnlockButton? && (b.disabled <==> tokenBalance < 1)
  {
    GetButton(image, Some(tokenBalance))
  }

  /** With no tokens, the wired card offers an enabled unlock button where a disabled one is meant. */
  lemma AsWiredEnabledAtZero(image: Job)
    requires !image.isUnlocked
    ensures CardButtonAsWired(image, 0) != CardButton(image, 0)
    ensures !CardButtonAsWired(image, 0).disabled && CardButton(image, 0).disabled
  {
  }

  /**
   * A well-formed job shows a watermark exactly when it is completed, still
   * locked, and its result is not the empty string.
   */
  lemma WatermarkIffLockedResult(image: Job, creditBalance: Option<int>)
    requires WellFormed(image)
    ensures Render(image, creditBalance).showWatermark <==>
      image.status == Completed && !image.isUnlocked && image.retouchedUrl != Some("")
  {
  }

  /**
   * On a well-formed job with the download button on screen, a click
   * produces a link exactly when the result is not the empty string.
   */
  lemma DownloadButtonAlwaysDownloads(image: Job, creditBalance: Option<int>)
    requires WellFormed(image)
    requires Render(image, creditBalance).actions.Some?
    requires Render(image, creditBalance).actions.value.button.DownloadButton?
    ensures DownloadLink(image).Some? <==> image.retouchedUrl != Some("")
  {
  }

  /**
   * A job completed with an empty result (the service passes its answer on
   * unchecked) shows neither image nor watermark, yet shows the action
   * area; once unlocked, its download button is on screen and does nothing.
   */
  lemma EmptyResultShowsNothing(image: Job, creditBalance: Option<int>)
    requires image.status == Completed && image.retouchedUrl == Some("")
    ensures var v := Render(image, creditBalance);
      !v.showRetouched && !v.showWatermark && v.actions.Some?
      && (image.isUnlocked ==> v.actions.value.button == DownloadButton && DownloadLink(image) == None)
  {
  }

  /** A job just uploaded or regenerated shows only the loader: no result, no actions. */
  lemma FreshJobShowsLoaderOnly(image: Job, creditBalance: Option<int>)
    requires image.status == Processing
    ensures var v := Render(image, creditBalance);
      v.showLoader && !v.showError && !v.showRetouched && !v.showWatermark && v.actions.None?
  {
  }

  /** Once the application unlocked a completed job, its card offers download and no regenerate. */
  lemma UnlockedJobOffersDownload(jobs: seq<Job>, id: string, i: int, creditBalance: Option<int>)
    requires 0 <= i < |jobs| && jobs[i].id == id && jobs[i].status == Completed
    ensures var v := Render(UnlockJobs(jobs, id)[i], creditBalance);
      v.actions == Some(Actions(false, DownloadButton)) && !v.showWatermark
  {
  }

  /**
   * `s.split(',')[1]`: the text after the first comma, up to the next comma
   * or the end; None (JavaScript's undefined) when there is no comma.
   */
  function SecondField(s: string): (r: Option<string>)
    ensures r.None? <==> ',' !in s
    ensures r.Some? ==> CommaIndex(s).Some? && ',' !in r.value
    ensures r.Some? ==> var rest := s[CommaIndex(s).value + 1..];
      |r.value| <= |rest| && r.value == rest[..|r.value|]
      && (|r.value| < |rest| ==> rest[|r.value|] == ',')
  {
    match CommaIndex(s)
    case None => None
    case Some(i) => Some(UpToComma(s[i + 1..]))
  }

  /** The index of the first comma. */
  function CommaIndex(s: string): (r: Option<nat>)
    ensures r.None? <==> ',' !in s
    ensures r.Some? ==> r.value < |s| && s[r.value] == ',' && ',' !in s[..r.value]
  {
    if s == [] then None
    else if s[0] == ',' then Some(0)
    else
      var r := CommaIndex(s[1..]);
      assert s == [s[0]] + s[1..];
      if r.None? then None
      else
        assert s[..r.value + 1] == [s[0]] + s[1..][..r.value];
        Some(r.value + 1)
  }

  /** The text before the first comma (all of `s` when it has none). */
  function UpToComma(s: string): (r: string)
    ensures ',' !in s ==> r == s
    ensures |r| <= |s| && r == s[..|r|] && ',' !in r
    ensures |r| < |s| ==> s[|r|] == ','
  {
    match CommaIndex(s)
    case None => s
    case Some(i) => s[..i]
  }

  /**
   * The retouching service reads a file as a `data:<type>;base64,<payload>`
   * URL and keeps the field after the first comma. For a MIME type and a
   * base64 payload (neither has a comma) that field is exactly the payload.
   * The card's download link uses the same format, so the same holds for it.
   */
  lemma {:induction false} DataUrlRoundTrip(mimeType: string, data: string)
    requires ',' !in mimeType && ',' !in data
    ensures SecondField(DataUrl(mimeType, data)) == Some(data)
  {
    var head := "data:" + mimeType + ";base64";
    var s := DataUrl(mimeType, data);
    assert s == head + "," + data;
    assert ',' !in head by {
      assert forall k :: 0 <= k < |head| ==> head[k] != ',' by {
        forall k | 0 <= k < |head| ensures head[k] != ',' {
          if 5 <= k < 5 + |mimeType| { assert head[k] == mimeType[k - 5]; }
        }
      }
    }
    var r := CommaIndex(s);
    assert s[|head|] == ',';
    assert forall k :: 0 <= k < |head| ==> s[k] == head[k];
    assert r.value >= |head|;
    assert s[|head| + 1..] == data;
  }
}
