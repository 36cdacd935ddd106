/**
 * The application shell: the list of image jobs, the signed-in user, the
 * token balance shown for that user, the current view and the pending
 * redirect after sign-in, together with the browser key-value store that
 * persists balances. Each handler of the shell is a method.
 *
 * Asynchronous work is split at its await: a handler returns what it hands
 * to the retouching service (the jobs to process), and the settlement of
 * each call is a separate method that may run in any order, at any later
 * time, including after the job has been cleared.
 */
module App {
  import opened Types
  import opened Ledger
  import opened Jobs

  datatype View = Main | Pricing | Auth

  /** Where to go once sign-in succeeds: the pricing page, or nowhere in particular. */
  datatype AuthRedirect = NoRedirect | RedirectPricing

  class App {
    var images: seq<Job>
    var tokenBalance: int
    var view: View
    var user: Option<User>
    var authRedirect: AuthRedirect
    var isAccountModalOpen: bool
    /** The browser's persistent store, shared with earlier sessions. */
    var store: map<string, int>

    /** The balance on screen and every stored balance are non-negative. */
    ghost predicate Valid()
      reads this
    {
      tokenBalance >= 0 && NonNegative(store)
    }

    /** The first render, over whatever the store already holds. */
    constructor (persisted: map<string, int>)
      ensures images == [] && tokenBalance == 0 && view == Main && user == None
      ensures authRedirect == NoRedirect && !isAccountModalOpen && store == persisted
      ensures NonNegative(persisted) ==> Valid()
    {
      images := [];
      tokenBalance := 0;
      view := Main;
      user := None;
      authRedirect := NoRedirect;
      isAccountModalOpen := false;
      store := persisted;
    }

    /**
     * The identity provider reports a session (or its absence): the user is
     * recorded and the balance is loaded from the store, 0 when missing or
     * signed out.
     */
    method OnAuthStateChanged(currentUser: Option<User>)
      requires Valid()
      modifies this
      ensures Valid()
      ensures user == currentUser
      ensures tokenBalance == if currentUser.Some? then LoadBalance(store, currentUser.value.uid) else 0
      ensures images == old(images) && store == old(store) && view == old(view)
      ensures authRedirect == old(authRedirect) && isAccountModalOpen == old(isAccountModalOpen)
    {
      user := currentUser;
      if currentUser.Some? {
        LoadNonNegative(store, currentUser.value.uid);
        tokenBalance := LoadBalance(store, currentUser.value.uid);
      } else {
        tokenBalance := 0;
      }
    }

    /**
     * An upload of a non-empty list of files: one fresh job per file is
     * appended after the existing ones, and those new jobs are returned as
     * the transforms to start. `stamps[i]` is the clock reading taken for
     * file i.
     */
    method HandleUpload(files: seq<File>, stamps: seq<string>, previewUrls: seq<string>)
      returns (newImages: seq<Job>)
      requires |files| > 0 && |stamps| == |files| && |previewUrls| == |files|
      modifies this
      ensures newImages == NewJobs(files, stamps, previewUrls)
      ensures images == old(images) + newImages
      ensures tokenBalance == old(tokenBalance) && store == old(store) && view == old(view)
      ensures user == old(user) && authRedirect == old(authRedirect)
      ensures isAccountModalOpen == old(isAccountModalOpen)
    {
      newImages := NewJobs(files, stamps, previewUrls);
      images := images + newImages;
    }

    /** The transform of job `id` settled with `outcome`; only jobs with that id change. */
    method SettleTransform(id: string, outcome: TransformOutcome)
      modifies this
      ensures images == SettleJobs(old(images), id, outcome)
      ensures KeepsIdsAndUnlocks(old(images), images)
      ensures !HasId(old(images), id) ==> images == old(images)
      ensures tokenBalance == old(tokenBalance) && store == old(store) && view == old(view)
      ensures user == old(user) && authRedirect == old(authRedirect)
      ensures isAccountModalOpen == old(isAccountModalOpen)
    {
      UpdatesKeepIdsAndUnlocks(images, id, outcome);
      if !HasId(images, id) {
        AbsentIdChangesNothing(images, id, outcome);
      }
      images := SettleJobs(images, id, outcome);
    }

    /**
     * Regenerate: an absent id changes nothing and starts no transform; a
     * present id resets its jobs and returns the first of them, as found
     * before the reset, as the transform to start.
     */
    method HandleRegenerate(id: string) returns (toProcess: Option<Job>)
      modifies this
      ensures toProcess == Find(old(images), id)
      ensures toProcess.None? ==> images == old(images)
      ensures toProcess.Some? ==> images == RegenerateJobs(old(images), id)
      ensures KeepsIdsAndUnlocks(old(images), images)
      ensures tokenBalance == old(tokenBalance) && store == old(store) && view == old(view)
      ensures user == old(user) && authRedirect == old(authRedirect)
      ensures isAccountModalOpen == old(isAccountModalOpen)
    {
      toProcess := Find(images, id);
      if toProcess.None? {
        return;
      }
      UpdatesKeepIdsAndUnlocks(images, id, Failure(""));
      images := RegenerateJobs(images, id);
    }

    /**
     * Unlock: without a user, go to sign-in and come back to pricing; with
     * fewer than one token, go to pricing; otherwise spend one token, write
     * the new balance to the user's key and unlock the jobs with the id.
     * A refused unlock changes no balance, no stored value and no job.
     */
    method HandleUnlockImage(id: string)
      requires Valid()
      modifies this
      ensures Valid()
      ensures old(user).None? ==>
        view == Auth && authRedirect == RedirectPricing
        && tokenBalance == old(tokenBalance) && store == old(store) && images == old(images)
      ensures old(user).Some? && old(tokenBalance) < 1 ==>
        view == Pricing && authRedirect == old(authRedirect)
        && tokenBalance == old(tokenBalance) && store == old(store) && images == old(images)
      ensures old(user).Some? && old(tokenBalance) >= 1 ==>
        tokenBalance == old(tokenBalance) - 1
        && store == StoreBalance(old(store), old(user).value.uid, tokenBalance)
        && images == UnlockJobs(old(images), id)
        && view == old(view) && authRedirect == old(authRedirect)
      ensures user == old(user) && isAccountModalOpen == old(isAccountModalOpen)
    {
      if user.None? {
        authRedirect := RedirectPricing;
        view := Auth;
        return;
      }
      if tokenBalance < 1 {
        view := Pricing;
        return;
      }
      var newBalance := tokenBalance - 1;
      UpdatesKeepNonNegative(store, user.value.uid, newBalance);
      store := StoreBalance(store, user.value.uid, newBalance);
      tokenBalance := newBalance;
      images := UnlockJobs(images, id);
    }

    /**
     * Purchase: without a user, go to sign-in and change nothing else; with
     * a user, add exactly `tokens` to the balance and to the stored value,
     * then return to the main view.
     */
    method HandlePurchase(tokens: int)
      requires Valid()
      modifies this
      ensures tokens >= 0 ==> Valid()
      ensures old(user).None? ==>
        view == Auth && tokenBalance == old(tokenBalance) && store == old(store)
      ensures old(user).Some? ==>
        tokenBalance == old(tokenBalance) + tokens
        && store == StoreBalance(old(store), old(user).value.uid, tokenBalance)
        && view == Main
      ensures images == old(images) && user == old(user) && authRedirect == old(authRedirect)
      ensures isAccountModalOpen == old(isAccountModalOpen)
    {
      if user.None? {
        view := Auth;
        return;
      }
      var newBalance := tokenBalance + tokens;
      if tokens >= 0 {
        UpdatesKeepNonNegative(store, user.value.uid, newBalance);
      }
      store := StoreBalance(store, user.value.uid, newBalance);
      tokenBalance := newBalance;
      view := Main;
    }

    /**
     * Sign-in succeeded: a new user gets exactly one welcome token, stored
     * under their key whatever was there; an existing user's balance is
     * left alone. Then go to pricing if that was pending, else to main.
     */
    method HandleLoginSuccess(loggedInUser: User, isNewUser: bool)
      requires Valid()
      modifies this
      ensures Valid()
      ensures isNewUser ==>
        tokenBalance == 1 && store == StoreBalance(old(store), loggedInUser.uid, 1)
      ensures !isNewUser ==> tokenBalance == old(tokenBalance) && store == old(store)
      ensures old(authRedirect) == RedirectPricing ==> view == Pricing && authRedirect == NoRedirect
      ensures old(authRedirect) == NoRedirect ==> view == Main && authRedirect == NoRedirect
      ensures images == old(images) && user == old(user)
      ensures isAccountModalOpen == old(isAccountModalOpen)
    {
      if isNewUser {
        UpdatesKeepNonNegative(store, loggedInUser.uid, 1);
        store := StoreBalance(store, loggedInUser.uid, 1);
        tokenBalance := 1;
      }
      if authRedirect == RedirectPricing {
        view := Pricing;
        authRedirect := NoRedirect;
      } else {
        view := Main;
      }
    }

    /**
     * Sign-out: when the provider's sign-out succeeds the job list is
     * cleared and the main view shown; when it fails nothing changes. The
     * session change itself arrives later through OnAuthStateChanged.
     */
    method HandleLogout(signOutSucceeded: bool)
      modifies this
      ensures signOutSucceeded ==> images == [] && view == Main
      ensures !signOutSucceeded ==> images == old(images) && view == old(view)
      ensures tokenBalance == old(tokenBalance) && store == old(store) && user == old(user)
      ensures authRedirect == old(authRedirect) && isAccountModalOpen == old(isAccountModalOpen)
    {
      if signOutSucceeded {
        images := [];
        view := Main;
      }
    }

    /** The "Nouveau" button: the job list is cleared and nothing else changes. */
    method HandleNew()
      modifies this
      ensures images == []
      ensures tokenBalance == old(tokenBalance) && store == old(store) && view == old(view)
      ensures user == old(user) && authRedirect == old(authRedirect)
      ensures isAccountModalOpen == old(isAccountModalOpen)
    {
      images := [];
    }

    /**
     * The account was deleted. The callback is the one rendered when the
     * user clicked, so it acts for `clickedBy`, the user shown at that time,
     * even if a session change arrived while the deletion was awaited: that
     * user's stored balance is removed and the account panel closed. The
     * balance on screen is left as it is until the session change arrives.
     */
    method HandleDeleteAccount(clickedBy: Option<User>)
      requires Valid()
      modifies this
      ensures Valid()
      ensures clickedBy.Some? ==>
        store == RemoveBalance(old(store), clickedBy.value.uid) && !isAccountModalOpen
      ensures clickedBy.None? ==> store == old(store) && isAccountModalOpen == old(isAccountModalOpen)
      ensures images == old(images) && tokenBalance == old(tokenBalance) && view == old(view)
      ensures user == old(user) && authRedirect == old(authRedirect)
    {
      if clickedBy.Some? {
        UpdatesKeepNonNegative(store, clickedBy.value.uid, 0);
        store := RemoveBalance(store, clickedBy.value.uid);
        isAccountModalOpen := false;
      }
    }

    /** "Acheter": pricing for a signed-in user, otherwise sign-in first and pricing after. */
    method HandleBuyTokensClick()
      modifies this
      ensures old(user).Some? ==> view == Pricing && authRedirect == old(authRedirect)
      ensures old(user).None? ==> view == Auth && authRedirect == RedirectPricing
      ensures images == old(images) && tokenBalance == old(tokenBalance) && store == old(store)
      ensures user == old(user) && isAccountModalOpen == old(isAccountModalOpen)
    {
      if user.Some? {
        view := Pricing;
      } else {
        authRedirect := RedirectPricing;
        view := Auth;
      }
    }
  }
}
