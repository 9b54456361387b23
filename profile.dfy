/** The profile page. On mount it reads the signed-in user's name and then, in
    sequence, whether the user owns a store, and merges both into the page's
    state, falling back to "Guest" and no store. It offers "Create Store" to a
    user without a store and "Sell Item" to one with a store; creating a store
    updates the page from the request alone, without reading the store again. */
module Profile {
  import opened Client
  import JsString

  /** The `userStore` object: `has_store` and `store_name` as the page holds them. */
  datatype StoreInfo = StoreInfo(hasStore: bool, storeName: Option<string>)

  /** The page's `name` and `userStore` together. A `name` of None is the
      `undefined` that a profile answer without a `name` field leaves. */
  datatype AccountView = AccountView(name: Option<string>, store: Option<StoreInfo>)

  const Guest := AccountView(Some("Guest"), None)

  /** The path of the profile read; it has no trailing slash, unlike the guards'. */
  const ProfilePath := "/api/auth/check"

  /** The profile read did not throw, so the store read is issued: the profile
      request reached the server and, if it was 2xx, its body parsed to a value
      whose `name` can be read (not `null`). */
  predicate StoreReadIssued(profile: FetchOutcome) {
    profile.Responded? && (profile.response.ok ==> profile.response.body.Value?)
  }

  /** The reads `fetchUserData` issues, in order. */
  function ReadsIssued(profile: FetchOutcome): (rs: seq<Request>)
    ensures |rs| > 0 && rs[0] == AuthCheck(ProfilePath)
    ensures CheckStore in rs <==> StoreReadIssued(profile)
  {
    [AuthCheck(ProfilePath)] + if StoreReadIssued(profile) then [CheckStore] else []
  }

  /** The state `fetchUserData` leaves, given the outcome of each read. */
  function LoadAccount(profile: FetchOutcome, store: FetchOutcome): (v: AccountView)
    // a store is shown only for a parsed 2xx store answer whose `has_store` is truthy
    ensures v.store.Some? ==> Is2xx(store) && Readable(store) && store.response.body.data.hasStore
    ensures v.store.Some? ==> v.store.value.hasStore
    ensures StoreReadIssued(profile) && Is2xx(store) && Readable(store) && store.response.body.data.hasStore ==>
              v.store == Some(StoreInfo(true, store.response.body.data.storeName))
    // a non-2xx profile answer means "Guest" whatever happens next
    ensures !Is2xx(profile) ==> v.name == Some("Guest")
    ensures Is2xx(profile) && Readable(profile) && store.Responded? && !(Is2xx(store) && !Readable(store)) ==>
              v.name == profile.response.body.data.name
    // a throw in either read resets both fields, even after a successful profile
    // read; a 2xx `null` body throws as soon as one of its fields is read
    ensures !StoreReadIssued(profile) ==> v == Guest
    ensures store.NetworkError? || (Is2xx(store) && !Readable(store)) ==> v == Guest
  {
    if !StoreReadIssued(profile) then Guest
    else
      var name := if profile.response.ok then profile.response.body.data.name else Some("Guest");
      match store
      case NetworkError => Guest
      case Responded(res) =>
        if !res.ok then AccountView(name, None)
        else
          match res.body
          case Value(data) => AccountView(name, if data.hasStore then Some(StoreInfo(true, data.storeName)) else None)
          case _ => Guest
  }

  /** The sidebar's store entry. */
  datatype StoreButton = SellItemButton | CreateStoreButton

  datatype ProfileView = LoadingProfile | Account(name: Option<string>, store: Option<StoreInfo>, button: StoreButton)

  class ProfilePage {
    var name: Option<string>
    var loadingProfile: bool
    var createStoreModal: bool
    var sellModal: bool
    var storeName: string
    var userStore: Option<StoreInfo>
    var error: string
    var success: string
    var loadingStore: bool
    var timers: seq<Timer>
    var navigations: seq<string>
    /** Every request the page has issued, in order. */
    ghost var issued: seq<Request>
    /** The store creation awaiting its response, if any: the continuation of
        `handleCreateStore` keeps the store name its closure captured. */
    var pending: Option<Request>

    ghost predicate Valid()
      reads this
    {
      (loadingStore <==> pending.Some?)
      && (pending.Some? ==> pending.value.CreateStore?)
      && (userStore.Some? ==> userStore.value.hasStore)
    }

    constructor ()
      ensures Valid()
      ensures name == Some("") && loadingProfile && !createStoreModal && !sellModal && storeName == ""
      ensures userStore == None && error == "" && success == "" && !loadingStore
      ensures timers == [] && navigations == [] && issued == []
    {
      name := Some("");
      loadingProfile := true;
      createStoreModal := false;
      sellModal := false;
      storeName := "";
      userStore := None;
      error := "";
      success := "";
      loadingStore := false;
      timers := [];
      navigations := [];
      issued := [];
      pending := None;
    }

    /** `fetchUserData`, run once by the mount effect: the profile read, then the
        store read unless the first one threw, a `catch` that resets both fields,
        and a `finally` that ends the loading state. */
    method FetchUserData(profile: FetchOutcome, store: FetchOutcome)
      requires Valid() && loadingProfile
      modifies this`name, this`userStore, this`loadingProfile, this`issued
      ensures Valid()
      ensures !loadingProfile
      ensures AccountView(name, userStore) == LoadAccount(profile, store)
      ensures issued == old(issued) + ReadsIssued(profile)
    {
      loadingProfile := true;
      var threw := false;
      issued := issued + [AuthCheck(ProfilePath)];
      if profile.NetworkError? {
        threw := true;
      } else if profile.response.ok {
        if !profile.response.body.Value? {
          threw := true;
        } else {
          name := profile.response.body.data.name;
        }
      } else {
        name := Some("Guest");
      }
      if !threw {
        issued := issued + [CheckStore];
        if store.NetworkError? {
          threw := true;
        } else if store.response.ok {
          if !store.response.body.Value? {
            threw := true;
          } else {
            var data := store.response.body.data;
            userStore := if data.hasStore then Some(StoreInfo(true, data.storeName)) else None;
          }
        } else {
          userStore := None;
        }
      }
      if threw {
        name := Some("Guest");
        userStore := None;
      }
      loadingProfile := false;
    }

    /** The loading view while the reads are outstanding; afterwards "Sell Item"
        exactly when there is a store, "Create Store" otherwise. */
    function View(): (v: ProfileView)
      reads this
      ensures v == LoadingProfile <==> loadingProfile
      ensures v.Account? ==> (v.button == SellItemButton <==> userStore.Some?)
      ensures v.Account? ==> v.name == name && v.store == userStore
    {
      if loadingProfile then LoadingProfile
      else Account(name, userStore, if userStore.Some? then SellItemButton else CreateStoreButton)
    }

    /** The "Back" button of the sidebar. */
    method Back()
      modifies this`navigations
      ensures navigations == old(navigations) + ["/dashboard"]
    {
      navigations := navigations + ["/dashboard"];
    }

    method ShowCreateStoreModal()
      modifies this`createStoreModal
      ensures createStoreModal
    {
      createStoreModal := true;
    }

    method HideCreateStoreModal()
      modifies this`createStoreModal
      ensures !createStoreModal
    {
      createStoreModal := false;
    }

    method ShowSellModal()
      modifies this`sellModal
      ensures sellModal
    {
      sellModal := true;
    }

    method HideSellModal()
      modifies this`sellModal
      ensures !sellModal
    {
      sellModal := false;
    }

    /** The store-name input. */
    method EditStoreName(value: string)
      modifies this`storeName
      ensures storeName == value
    {
      storeName := value;
    }

    /** The part of `handleCreateStore` before the `await`. A name that is blank
        after trimming sets the error and issues nothing; otherwise the untrimmed
        name is posted. Neither path clears an earlier `error` or `success`. The
        button is disabled while a creation is in flight. */
    method HandleCreateStore() returns (request: Option<Request>)
      requires Valid() && !loadingStore
      modifies this`error, this`loadingStore, this`issued, this`pending
      ensures Valid()
      ensures JsString.Trim(storeName) == "" ==>
                request == None && error == "Store name cannot be empty."
                && !loadingStore && issued == old(issued)
      ensures JsString.Trim(storeName) != "" ==>
                request == Some(CreateStore(storeName)) && error == old(error)
                && loadingStore && pending == request && issued == old(issued) + [request.value]
    {
      if JsString.Trim(storeName) == "" {
        error := "Store name cannot be empty.";
        return None;
      }
      loadingStore := true;
      request := Some(CreateStore(storeName));
      issued := issued + [request.value];
      pending := request;
    }

    /** The rest of `handleCreateStore` once its request has settled. A parsed 2xx
        answer records the store under the name that was posted and schedules the
        modal to close, with no further read; a failure sets the error; every path
        ends `loadingStore`. */
    method ResumeCreateStore(outcome: FetchOutcome)
      requires Valid() && pending.Some?
      modifies this`error, this`success, this`userStore, this`loadingStore, this`timers, this`pending
      ensures Valid() && pending == None && !loadingStore
      ensures issued == old(issued)
      ensures Is2xx(outcome) && Parses(outcome) ==>
                success == "Store created!" && error == old(error)
                && userStore == Some(StoreInfo(true, Some(old(pending).value.storeName)))
                && timers == old(timers) + [Timer(1000, CloseCreateStoreModal)]
      ensures !Parses(outcome) || (!Is2xx(outcome) && !Readable(outcome)) ==>
                error == "Network error." && success == old(success)
                && userStore == old(userStore) && timers == old(timers)
      ensures Readable(outcome) && !Is2xx(outcome) ==>
                error == ErrorOr(outcome.response.body.data.error, "Failed to create store.")
                && success == old(success) && userStore == old(userStore) && timers == old(timers)
    {
      var posted := pending.value.storeName;
      match JsonThenOk(outcome) {
        case Succeeded =>
          success := "Store created!";
          userStore := Some(StoreInfo(true, Some(posted)));
          timers := timers + [Timer(1000, CloseCreateStoreModal)];
        case Failed(e) =>
          error := ErrorOr(e, "Failed to create store.");
        case Caught =>
          error := "Network error.";
      }
      loadingStore := false;
      pending := None;
    }
  }

  /** Creating "Acme" with a 2xx answer whose body parses shows the store "Acme"
      and offers "Sell Item", whatever the mount reads answered. */
  method CreateAcme(profile: FetchOutcome, store: FetchOutcome, created: Response)
    returns (view: ProfileView)
    requires created.ok && !created.body.NotJson?
    ensures view.Account? && view.store == Some(StoreInfo(true, Some("Acme"))) && view.button == SellItemButton
  {
    var page := new ProfilePage();
    page.FetchUserData(profile, store);
    page.EditStoreName("Acme");
    JsString.TrimKeepsInner("Acme");
    var request := page.HandleCreateStore();
    page.ResumeCreateStore(Responded(created));
    view := page.View();
  }

  /** An error left by a blank name stays on screen next to the success message of
      a later creation. */
  method StaleErrorAfterSuccess(created: Response) returns (error: string, success: string)
    requires created.ok && !created.body.NotJson?
    ensures error == "Store name cannot be empty." && success == "Store created!"
  {
    var page := new ProfilePage();
    page.EditStoreName(" ");
    var first := page.HandleCreateStore();
    page.EditStoreName("Acme");
    var second := page.HandleCreateStore();
    page.ResumeCreateStore(Responded(created));
    error, success := page.error, page.success;
  }
}
