# AI Home Staging: image jobs, token ledger and page logic in Dafny

This project models the client-side logic of the AI Home Staging web
application. A signed-in user uploads photos of rooms. Each photo becomes a
job that an external service redecorates. The user then spends one token
to unlock a result, which removes its watermark and allows a download.
Tokens are bought in packs. They are kept per user in the browser's
key-value store under the key `tokens_{uid}`.

Modules, one per source file:

- `Types` (`types.dfy`): the job record (`ProcessedImage`), the user, the uploaded file and a transform outcome, `Success(data)` or `Failure(message)`.
- `Ledger` (`ledger.dfy`): the key scheme and the reads, writes and removals of balances in the store.
- `Jobs` (`jobs.dfy`): the job list as values. It covers the jobs an upload creates and the three per-id updates, settle, regenerate and unlock. All three have the `list.map(j => j.id === id ? f(j) : j)` shape, written once as `MapById`.
- `App` (`app.dfy`): the application shell as a class. Its fields are `images`, `tokenBalance`, `view`, `user`, `authRedirect`, `isAccountModalOpen` and the `store`. It has one method per handler. The invariant `Valid()` says the displayed balance and every stored balance are non-negative.
- `ImageResultCard`, `AccountModal`, `AuthPage`, `PricingPage`, `Carousel`, `Faq`: the decision logic of those components. Pure decisions are functions. Components that keep state are classes.

External calls are parameters. This covers the identity provider (session changes, sign-in, sign-up, reset e-mail, password update, account deletion), the retouching service, `Date.now()` and `URL.createObjectURL`. Asynchronous handlers are split at their await. The part before the call returns what it sends, such as the jobs to process or the password to set. The part after the call is a separate method that takes the outcome. A settlement may arrive in any order and at any time, including after its job has been cleared.

Three points about the model:

- `handleUnlockImage` does not check the job's status or unlock flag. The card checks them when it decides which buttons to show. The model keeps that split: `HandleUnlockImage` debits one token even for an id that is not in the list.
- The card tests the result with JavaScript truthiness. The service passes its answer on unchecked, so a job can be completed with an empty result. Such a card shows neither image nor watermark, and its download button does nothing (`EmptyResultShowsNothing`).
- A settled job is the old job with two fields replaced. So "a result is present exactly when completed, a message exactly when in error" holds only while each settlement lands on a processing job (`SettlePreservesWellFormed`). `SettleOnCompletedBreaksWellFormed` shows the breakage: a failure that lands on a completed job leaves its old result in place. This can happen when two jobs share an id, because ids are the file name plus a millisecond timestamp and are not guaranteed unique. The model does not assume ids are unique.

## Model

| member | source | states |
|---|---|---|
| `Ledger.TokenKey` | App.tsx:125 | a balance key is `tokens_` followed by the uid |
| `Ledger.TokenKeyInjective` | App.tsx:125 | two uids share a key exactly when they are the same uid |
| `Ledger.LoadBalance` | App.tsx:125-126 | a user's balance is the value under their key, and 0 when that key is missing |
| `Ledger.StoreBalance` | App.tsx:208 | after a write the user's key holds the new balance; no other key is added, removed or changed |
| `Ledger.RemoveBalance` | App.tsx:255 | after a removal the user's key is gone; no other key is added, removed or changed |
| `Ledger.LoadAfterStore` | App.tsx:207-209 | a written balance is read back unchanged |
| `Ledger.LoadAfterStoreOther` | App.tsx:208 | writing one user's balance leaves every other user's balance alone |
| `Ledger.LoadAfterRemove` | App.tsx:253-258 | after deletion removes the key, the next load yields 0 |
| `Ledger.LoadAfterRemoveOther` | App.tsx:255 | removing one user's key leaves every other user's balance alone |
| `Ledger.LoadNonNegative` | App.tsx:125-126 | a store of non-negative balances only yields non-negative balances |
| `Ledger.UpdatesKeepNonNegative` | App.tsx:208 | writing a non-negative balance, or removing one, keeps every stored balance non-negative |
| `Jobs.NewJobs` | App.tsx:162-170 | one job per file, in file order; each is processing, with no result, no error and not unlocked, and carries its file, preview and the id `name-stamp` built from that file's own clock reading |
| `Jobs.AppendKeepsExisting` | App.tsx:172 | an upload keeps the existing jobs as a prefix, and exactly the new fresh jobs follow them |
| `Jobs.Find` | App.tsx:180-181 | a job is found exactly when some job has the id; the job found has the id, and no job before it does (the first match) |
| `Jobs.MapById` | App.tsx:140-146 | same length; jobs with the id are replaced by f of themselves; all other jobs are unchanged |
| `Jobs.Settled` | App.tsx:143-153 | success makes a job completed with the data and keeps its old message; failure puts it in error with the message and keeps its old result; id, file, preview and unlock flag never change |
| `Jobs.Reset` | App.tsx:186 | a reset job is processing with no result and no message, keeping id, file, preview and unlock flag |
| `Jobs.SettleJobs` | App.tsx:137-157 | only jobs with the id change; success makes them completed with the data, failure puts them in error with the message; id, file, preview and unlock flag are kept |
| `Jobs.RegenerateJobs` | App.tsx:183-189 | only jobs with the id change; they become processing with no result and no error, keeping id, file, preview and unlock flag |
| `Jobs.UnlockJobs` | App.tsx:210-212 | only jobs with the id change, and only their unlock flag, which becomes true |
| `Jobs.MapByIdAbsent` | App.tsx:140-146 | an update of an id that no job carries returns the list unchanged |
| `Jobs.AbsentIdChangesNothing` | App.tsx:137-157 | a settlement after the list was cleared, or a regenerate or unlock of an absent id, leaves the list unchanged |
| `Jobs.UpdatesKeepIdsAndUnlocks` | App.tsx:137-212 | settle, regenerate and unlock keep every position's id and never lock an unlocked job again |
| `Jobs.NewJobsWellFormed` | App.tsx:162-170 | new jobs have a result exactly when completed and a message exactly when in error |
| `Jobs.SettlePreservesWellFormed` | App.tsx:140-156 | a settlement keeps the list well formed when every job it lands on is processing |
| `Jobs.SettleOnCompletedBreaksWellFormed` | App.tsx:150-156 | a failure landing on a completed job yields a job in error that still has a result |
| `Jobs.RegeneratePreservesWellFormed` | App.tsx:183-189 | regenerate keeps the list well formed from any prior status |
| `Jobs.UnlockPreservesWellFormed` | App.tsx:210-212 | unlock keeps the list well formed |
| `App.App.constructor` | App.tsx:109-117 | the first render has no jobs, balance 0, main view, no user, no redirect, panel closed, over the persisted store |
| `App.App.OnAuthStateChanged` | App.tsx:120-132 | the user is recorded; the balance is the stored value for the user, 0 when missing or signed out; nothing else changes |
| `App.App.HandleUpload` | App.tsx:160-177 | the new jobs, one clock reading per file, are appended after the existing ones and returned as the transforms to start; nothing else changes |
| `App.App.SettleTransform` | App.tsx:137-157 | the list becomes `SettleJobs` of the old list; an absent id changes nothing; ids and unlocks are kept |
| `App.App.HandleRegenerate` | App.tsx:179-192 | an absent id changes nothing and starts nothing; a present id resets its jobs and returns the first job with the id, as found before the reset |
| `App.App.HandleUnlockImage` | App.tsx:195-213 | no user: view auth with a pricing redirect, and no balance, store or job change; balance below 1: view pricing, and no balance, store or job change; otherwise balance minus exactly 1, the same value stored under the user's key, and only matching jobs unlocked; the balance stays non-negative |
| `App.App.HandlePurchase` | App.tsx:215-226 | no user: view auth, balance and store unchanged; with a user: exactly `tokens` added to balance and stored value, then view main |
| `App.App.HandleLoginSuccess` | App.tsx:228-240 | a new user's balance and stored value become exactly 1 whatever they were; an existing user's are untouched; a pending pricing redirect is taken and cleared, else view main |
| `App.App.HandleLogout` | App.tsx:242-251 | a successful sign-out clears the jobs and shows main; a failed one changes nothing |
| `App.App.HandleNew` | App.tsx:358-360 | "Nouveau" clears the job list and changes nothing else |
| `App.App.HandleDeleteAccount` | App.tsx:253-258 | for the user shown when the deletion was clicked, their stored balance is removed and the account panel closed, even if a session change arrived meanwhile; with no such user, nothing changes |
| `App.App.HandleBuyTokensClick` | App.tsx:260-267 | a signed-in user goes to pricing; otherwise to sign-in with a pricing redirect |
| `ImageResultCard.DownloadLink` | components/ImageResultCard.tsx:13-23 | a link exists exactly when the result is a non-empty string and the image is unlocked; its name is `retouched_` followed by the original name, and its href is the data URL of the MIME type and the result |
| `ImageResultCard.DataUrlRoundTrip` | services/geminiService.ts:8-11 | for a comma-free MIME type and payload, the field after the first comma of `data:<type>;base64,<payload>` is exactly the payload |
| `ImageResultCard.SecondField` | services/geminiService.ts:11 | `split(',')[1]` is missing exactly when there is no comma; otherwise it is the comma-free text after the first comma, up to the next comma or the end |
| `ImageResultCard.GetButton` | components/ImageResultCard.tsx:25-46 | download exactly when unlocked; otherwise unlock, disabled and labelled "insufficient" exactly when the balance is below one |
| `ImageResultCard.Render` | components/ImageResultCard.tsx:48-91 | loader only while processing, error text only in error, result only when completed with a non-empty result, watermark exactly when that result shows and the image is locked, action area exactly when completed, regenerate only while locked |
| `ImageResultCard.CardButtonAsWired` | App.tsx:369 | as wired, the balance prop never arrives, so a locked image's unlock button is always enabled with the "use 1 credit" label |
| `ImageResultCard.CardButton` | components/ImageResultCard.tsx:37-45 | with the balance passed under the name the card reads, the unlock button is disabled exactly when the balance is below 1 |
| `ImageResultCard.AsWiredEnabledAtZero` | components/ImageResultCard.tsx:8-12 | with 0 tokens the wired button is enabled while the intended one is disabled |
| `ImageResultCard.WatermarkIffLockedResult` | components/ImageResultCard.tsx:60-71 | on a well-formed job the watermark shows exactly when completed, locked and the result is not empty |
| `ImageResultCard.DownloadButtonAlwaysDownloads` | components/ImageResultCard.tsx:13-34 | on a well-formed job with the download button on screen, a click produces a link exactly when the result is not empty |
| `ImageResultCard.EmptyResultShowsNothing` | components/ImageResultCard.tsx:14-87 | a job completed with an empty result shows no image and no watermark but does show the action area; once unlocked, its download button does nothing |
| `ImageResultCard.FreshJobShowsLoaderOnly` | components/ImageResultCard.tsx:58-89 | a processing job, new or regenerated, shows the loader and nothing else |
| `ImageResultCard.UnlockedJobOffersDownload` | components/ImageResultCard.tsx:77-87 | after the application unlocks a completed job, its card offers download and no regenerate |
| `AccountModal.ValidatePasswordChange` | components/AccountModal.tsx:26-41 | the checks run in order (no user, empty field, mismatch, under 6 characters) and the first that fails gives its message; none fails exactly when all four pass |
| `AccountModal.HandleDelete` | components/AccountModal.tsx:68-85 | deletion is requested only when confirmed with a current user; the callback and close run only after it succeeds; a failure alerts instead |
| `AccountModal.AccountModal.constructor` | components/AccountModal.tsx:15-18 | empty fields, no message, not busy |
| `AccountModal.AccountModal.EditNewPassword` | components/AccountModal.tsx:122 | only the new password changes |
| `AccountModal.AccountModal.EditConfirmPassword` | components/AccountModal.tsx:134 | only the confirmation changes |
| `AccountModal.AccountModal.BeginPasswordChange` | components/AccountModal.tsx:23-46 | the message is reset first; a failing check sets its error and sends nothing; otherwise the panel is busy and the password sent is at least 6 characters and equal to its confirmation |
| `AccountModal.AccountModal.FinishPasswordChange` | components/AccountModal.tsx:46-56 | success clears both fields and reports success; failure keeps them and reports an error; the panel is not busy after either |
| `AuthPage.FirebaseErrorMessage` | components/AuthPage.tsx:31-51 | user-not-found and wrong-password share one message; address in use, weak password and invalid address each have their own; every other code gives the generic message |
| `AuthPage.SameMessageIffSameClass` | components/AuthPage.tsx:31-51 | two codes give the same message exactly when they are equal, both credential codes, or both without a message of their own |
| `AuthPage.AuthPage.constructor` | components/AuthPage.tsx:17-22 | login mode, empty fields, not busy, no error or message |
| `AuthPage.AuthPage.EditEmail` | components/AuthPage.tsx:180 | only the e-mail changes |
| `AuthPage.AuthPage.EditPassword` | components/AuthPage.tsx:192 | only the password changes |
| `AuthPage.AuthPage.ResetState` | components/AuthPage.tsx:24-29 | password, error and message are cleared, and the e-mail only when asked |
| `AuthPage.AuthPage.HandleModeChange` | components/AuthPage.tsx:54-57 | the mode is set; password, error and message are cleared; the e-mail is cleared only for the forgot mode |
| `AuthPage.AuthPage.BeginForgotPassword` | components/AuthPage.tsx:59-70 | an empty e-mail sets an error and sends nothing; otherwise error and message are cleared, the page is busy and a request goes out for that e-mail |
| `AuthPage.AuthPage.FinishForgotPassword` | components/AuthPage.tsx:70-79 | success shows the confirmation for the address; failure shows the mapped error; the page is not busy after either |
| `AuthPage.AuthPage.BeginSubmit` | components/AuthPage.tsx:82-94 | an empty e-mail or password sets "fill all fields" and sends nothing; otherwise error and message are cleared, the page is busy, and a sign-up goes out in signup mode and a sign-in otherwise |
| `AuthPage.AuthPage.FinishSubmit` | components/AuthPage.tsx:93-107 | a credential with a user is reported as new exactly for a sign-up; a rejected call shows the mapped error and the page is not busy |
| `PricingPage.ButtonDisabled` | components/PricingPage.tsx:53 | the buttons are disabled exactly while a purchase is in progress, so a button reading "processing" is always disabled |
| `PricingPage.ButtonCaption` | components/PricingPage.tsx:56 | a pack reads "processing" exactly when its credits are the ones being bought |
| `PricingPage.TierCredits` | components/PricingPage.tsx:8-13 | the packs are 1, 5, 10 and 25 tokens, all positive and distinct |
| `PricingPage.OnlyTenIsBestValue` | components/PricingPage.tsx:9-12 | exactly the 10-token pack is marked best value |
| `PricingPage.PricingPage.constructor` | components/PricingPage.tsx:16 | no purchase in progress |
| `PricingPage.PricingPage.HandlePurchaseClick` | components/PricingPage.tsx:18-21 | the clicked pack becomes the one being bought and exactly its credits are forwarded |
| `PricingPage.ClickedPackAloneProcessing` | components/PricingPage.tsx:51-57 | after a click on one pack, exactly that pack reads "processing", since no two packs share a credit count |
| `Carousel.NextIndex` | components/Carousel.tsx:87-91 | for an index in range, the next index is in range and equals (index + 1) mod length |
| `Carousel.PrevIndex` | components/Carousel.tsx:81-85 | for an index in range, the previous index is in range and equals (index + length - 1) mod length |
| `Carousel.PrevNextInverse` | components/Carousel.tsx:81-91 | next then previous, and previous then next, return to the original index |
| `Carousel.Carousel.constructor` | components/Carousel.tsx:13-15 | first slide, slider in the middle |
| `Carousel.Carousel.CurrentItem` | components/Carousel.tsx:93 | the slide shown is one of the items |
| `Carousel.Carousel.SetCurrentIndex` | components/Carousel.tsx:19-22 | the index is set; the slider returns to 50 exactly when the index value changes |
| `Carousel.Carousel.GoToPrev` | components/Carousel.tsx:81-85 | the index becomes `PrevIndex` and stays in range |
| `Carousel.Carousel.GoToNext` | components/Carousel.tsx:87-91 | the index becomes `NextIndex` and stays in range |
| `Carousel.Carousel.GoToSlide` | components/Carousel.tsx:77-79 | the index becomes the argument, and is in range for any dot's argument |
| `Faq.Toggled` | components/FAQ.tsx:16-18 | clicking the open item closes it; clicking any other item opens that item |
| `Faq.IsShown` | components/FAQ.tsx:42 | an answer shows only while some item is open, and only for that item |
| `Faq.Faq.constructor` | components/FAQ.tsx:14 | nothing open |
| `Faq.Faq.ToggleItem` | components/FAQ.tsx:16-18 | the open item becomes `Toggled` of the old one |
| `Faq.AtMostOneShown` | components/FAQ.tsx:42 | at most one answer is shown |
| `Faq.OpeningClosesOther` | components/FAQ.tsx:17 | opening an item closes the previously open one |
| `Faq.ToggleTwice` | components/FAQ.tsx:16-18 | two clicks on one item restore the state exactly when nothing or that item was open; otherwise everything ends closed |

## Left out

- The identity provider and the retouching service are external calls. Their answers are parameters of the methods that receive them. A settlement carries either the data or the message shown. The message can be the service's fixed one. It can also be the message of an error raised before the service's own catch, when the client is created or the file is read. A non-`Error` rejection gives "An unknown error occurred.". `Failure(message)` takes any text, so all of these are covered.
- Reading the file as base64 before upload is left out, and so are the prompt and the model name sent to the retouching service.
- `Promise.all` over the new jobs and the `isProcessing` flag it resets are left out. This is the application's uploader busy flag, not the page flags of the same name, which are modelled. Concurrency becomes separately invoked settlements.
- The store holds integers. Decimal string encoding and `parseInt` are left out.
- `isLoading`, the legal and information modals, and the back buttons that only set the view to main are left out. They only gate rendering.
- Timers are left out. This covers the password message cleared after 3 s, the invoice message, and the switch back to log-in 4 s after a reset e-mail. That switch is a later `HandleModeChange(Login)`.
- The simulated invoice request is left out.
- Password length counts characters. JavaScript counts UTF-16 code units, which differ for characters outside the Basic Multilingual Plane.
- Slider dragging, its clamp to 0-100 and the per-credit price are floating-point display logic. Pack prices are not modelled.
- DOM work is left out: creating and clicking the download anchor, event listener attach and detach, markup.
- The uploader component is left out. Its only rule is that it forwards non-empty file lists, which is the precondition of `HandleUpload`.
- Preview handles are never released in the source. The model holds them as strings.
- `App.App.HandlePurchase`: `Valid()` is promised only for a non-negative purchase. The pricing packs are all positive (`TierCredits`), but the handler itself accepts any number.
- `Carousel.Carousel.GoToSlide`: range is promised only for an argument in range. The handler does not check it; only the dots restrict it.

## Findings

| source | as written | input that shows it | evidently intended | confidence | as-written member | corrected member |
|---|---|---|---|---|---|---|
| App.tsx:369 | App passes the balance as `tokenBalance`, but the card reads `creditBalance` (components/ImageResultCard.tsx:8-12). The card therefore sees `undefined`, and `undefined < 1` is false. | a signed-in user with 0 tokens and a completed, locked image: the unlock button is enabled and reads "Utiliser 1 Crédit pour Débloquer" | the button is disabled and reads "Crédits insuffisants" when the balance is below 1; clicking still reaches `HandleUnlockImage`, which refuses and shows pricing | high (not executed) | `ImageResultCard.CardButtonAsWired` (exhibited by `ImageResultCard.AsWiredEnabledAtZero`) | `ImageResultCard.CardButton` |
