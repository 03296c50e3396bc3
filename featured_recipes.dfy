/**
 * The featured-recipes section: personalised recipes are fetched only when the browser's
 * store holds an auth token; otherwise, and whenever the server gives nothing or fails,
 * the fixed list of three placeholder recipes is shown. A 401 reply also ends the session.
 */
module FeaturedRecipesComponent {
  import opened Common

  /**
   * A recipe card as the featured section uses it: with the `id`/`recipeId` key and the
   * card's `link`, and no description. The placeholder list and the server's list have this
   * shape; the detail page's recipe is a different reply with its own type.
   */
  datatype Recipe = Recipe(
    id: string, title: string, image: string, link: string,
    calories: int, time: int, recipeId: string)

  /** `DUMMY_RECIPES`: the list shown to visitors without a session and on every fallback. */
  const DummyRecipes: seq<Recipe> := [
    Recipe("d1", "Spaghetti Carbonara (Dummy)", "/assets/images/carbonara.jpg",
           "/recipes/spaghetti-carbonara", 500, 30, "dummy1"),
    Recipe("d2", "Avocado Toast (Dummy)", "/assets/images/avocado-toast.jfif",
           "/recipes/avocado-toast", 250, 10, "dummy2"),
    Recipe("d3", "Berry Smoothie (Dummy)", "/assets/images/berry-smoothie.jfif",
           "/recipes/berry-smoothie", 180, 5, "dummy3")
  ]

  const AuthTokenKey := "authToken"
  const UserIdKey := "userId"

  const SessionExpiredMessage := "Session expired or not authorized. Please log in again."
  const FetchFailedMessage := "Failed to load personalized recipes. Displaying general recommendations."

  /** The placeholder list has three cards whose keys are distinct. */
  lemma DummyRecipesHaveDistinctIds()
    ensures |DummyRecipes| == 3
    ensures DummyRecipes[0].id == "d1" && DummyRecipes[1].id == "d2" && DummyRecipes[2].id == "d3"
    ensures forall i, j :: 0 <= i < j < |DummyRecipes| ==> DummyRecipes[i].id != DummyRecipes[j].id
  {
  }

  /** `localStorage.getItem(key)`: the stored string, or `null` when the key is absent. */
  function GetItem(store: map<string, string>, key: string): (item: Option<string>)
    ensures item.Some? <==> key in store
    ensures item.Some? ==> item.value == store[key]
  {
    if key in store then Some(store[key]) else None
  }

  /** `!authToken` is false: the stored token is present and is not the empty string. */
  predicate HasToken(store: map<string, string>): (b: bool)
    ensures b <==> AuthTokenKey in store && store[AuthTokenKey] != ""
  {
    Truthy(GetItem(store, AuthTokenKey))
  }

  /** How `GET /api/recipes/featured` ended. */
  datatype FeaturedReply =
    | Fetched(data: Option<seq<Recipe>>)   // a 2xx reply; `data` absent when the body is not a list
    | HttpError(status: int)               // the server answered with an error status
    | NoResponse                           // the request failed without a response

  class FeaturedRecipes {
    var featuredRecipes: seq<Recipe>
    var loading: bool
    var error: Option<string>
    /** The browser's `localStorage`. */
    var store: map<string, string>
    /** True while the personalised request is outstanding. */
    var inFlight: bool
    /** The bearer token of every request issued, in order. */
    var requests: seq<string>

    ghost predicate Valid()
      reads this
    {
      inFlight ==> loading && error == None
    }

    /** The initial state: the placeholder list, loading, and no error. */
    constructor (initialStore: map<string, string>)
      ensures Valid()
      ensures featuredRecipes == DummyRecipes && loading && error == None
      ensures store == initialStore && !inFlight && requests == []
    {
      featuredRecipes := DummyRecipes;
      loading := true;
      error := None;
      store := initialStore;
      inFlight := false;
      requests := [];
    }

    /**
     * The part of `fetchRecommendedRecipes` before the request: loading starts and the error
     * is cleared; without a token the placeholders are shown at once and no request is made.
     */
    method BeginFetch() returns (requested: bool)
      requires Valid() && !inFlight
      modifies this
      ensures Valid()
      ensures requested <==> HasToken(old(store))
      ensures error == None && store == old(store)
      ensures !requested ==>
                featuredRecipes == DummyRecipes && !loading && !inFlight && requests == old(requests)
      ensures requested ==>
                loading && inFlight && featuredRecipes == old(featuredRecipes) &&
                requests == old(requests) + [old(store)[AuthTokenKey]]
    {
      loading := true;
      error := None;
      if !HasToken(store) {
        featuredRecipes := DummyRecipes;
        loading := false;
        return false;
      }
      requests := requests + [store[AuthTokenKey]];
      inFlight := true;
      requested := true;
    }

    /**
     * The rest of `fetchRecommendedRecipes`: a non-empty list is shown as it came; an empty
     * or missing list falls back without an error; a 401 removes the session and falls back
     * with the expiry message; any other failure falls back with the generic message.
     * Loading ends on every path.
     */
    method ReceiveRecipes(reply: FeaturedReply)
      requires Valid() && inFlight
      modifies this
      ensures Valid() && !loading && !inFlight && requests == old(requests)
      ensures reply.Fetched? && reply.data.Some? && |reply.data.value| > 0 ==>
                featuredRecipes == reply.data.value && error == None && store == old(store)
      ensures reply.Fetched? && (reply.data.None? || reply.data.value == []) ==>
                featuredRecipes == DummyRecipes && error == None && store == old(store)
      ensures reply == HttpError(401) ==>
                featuredRecipes == DummyRecipes && error == Some(SessionExpiredMessage) &&
                store == old(store) - {AuthTokenKey, UserIdKey}
      ensures !reply.Fetched? && reply != HttpError(401) ==>
                featuredRecipes == DummyRecipes && error == Some(FetchFailedMessage) && store == old(store)
    {
      match reply {
        case Fetched(data) =>
          if data.Some? && |data.value| > 0 {
            featuredRecipes := data.value;
          } else {
            featuredRecipes := DummyRecipes;
          }
        case HttpError(status) =>
          var message := FetchFailedMessage;
          if status == 401 {
            message := SessionExpiredMessage;
            store := store - {AuthTokenKey};
            store := store - {UserIdKey};
          }
          error := Some(message);
          featuredRecipes := DummyRecipes;
        case NoResponse =>
          error := Some(FetchFailedMessage);
          featuredRecipes := DummyRecipes;
      }
      loading := false;
      inFlight := false;
    }
  }

  /**
   * Whatever the store holds and however the request ends, one run settles: loading is off,
   * and the list shown is either the placeholders or exactly the server's non-empty list.
   */
  method FetchOnce(initialStore: map<string, string>, reply: FeaturedReply)
    returns (shown: seq<Recipe>, loading: bool, error: Option<string>, store: map<string, string>,
             requested: bool)
    ensures !loading
    ensures requested <==> HasToken(initialStore)
    ensures shown == DummyRecipes || (requested && reply.Fetched? && reply.data == Some(shown) && shown != [])
    ensures error.Some? <==> requested && !reply.Fetched?
    ensures store == initialStore || (requested && reply == HttpError(401) &&
                                      store == initialStore - {AuthTokenKey, UserIdKey})
    ensures !HasToken(initialStore) ==> shown == DummyRecipes && error == None && store == initialStore
  {
    var view := new FeaturedRecipes(initialStore);
    requested := view.BeginFetch();
    if requested {
      view.ReceiveRecipes(reply);
    }
    shown, loading, error, store := view.featuredRecipes, view.loading, view.error, view.store;
  }
}
