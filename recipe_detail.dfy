/**
 * The recipe-detail page: one fetch per slug, and a render that picks, in order, the
 * loading text, the error text, "Recipe not found." or the recipe itself.
 */
module RecipeDetailPage {
  import opened Common

  const FailedMessage := "Failed to load recipe details."
  const NoDescriptionText := "No description available."

  /**
   * The fields of a recipe the detail page displays. This is the reply of the detail
   * endpoint, which carries a description and no card link, so it is not the card type of
   * the featured section.
   */
  datatype Recipe = Recipe(
    title: string, image: string, description: Option<string>, calories: int, time: int)

  /** How `GET /api/recipes/:slug` ended. */
  datatype DetailReply =
    | Fetched(data: Option<Recipe>)   // a 2xx reply; `data` absent when the body is empty
    | FetchFailed                     // any error, a 404 included

  /** What the page renders. */
  datatype Screen = LoadingScreen | ErrorScreen(text: string) | NotFoundScreen | DetailScreen(recipe: Recipe)

  /**
   * The render-selection chain: loading wins over everything, a (truthy) error over a
   * missing recipe, and the recipe is shown only when neither is set.
   */
  function SelectScreen(loading: bool, error: Option<string>, recipe: Option<Recipe>): (s: Screen)
    ensures s == LoadingScreen <==> loading
    ensures s.ErrorScreen? <==> !loading && Truthy(error)
    ensures s.ErrorScreen? ==> s.text == error.value
    ensures s == NotFoundScreen <==> !loading && !Truthy(error) && recipe.None?
    ensures s.DetailScreen? <==> !loading && !Truthy(error) && recipe.Some?
    ensures s.DetailScreen? ==> recipe == Some(s.recipe)
  {
    if loading then LoadingScreen
    else if Truthy(error) then ErrorScreen(error.value)
    else if recipe.None? then NotFoundScreen
    else DetailScreen(recipe.value)
  }

  /** The description paragraph: the recipe's description, or a fixed text when it has none. */
  function DescriptionText(r: Recipe): (text: string)
    ensures text != ""
    ensures Truthy(r.description) ==> text == r.description.value
    ensures !Truthy(r.description) ==> text == NoDescriptionText
  {
    OrElse(r.description, NoDescriptionText)
  }

  class RecipeDetail {
    var recipe: Option<Recipe>
    var loading: bool
    var error: Option<string>
    /** True while a detail request is outstanding. */
    var inFlight: bool
    /** The slug of every request issued, in order. */
    var requests: seq<string>

    ghost predicate Valid()
      reads this
    {
      inFlight ==> loading && error == None
    }

    /** The initial state: no recipe, loading, no error. */
    constructor ()
      ensures Valid()
      ensures recipe == None && loading && error == None && !inFlight && requests == []
    {
      recipe := None;
      loading := true;
      error := None;
      inFlight := false;
      requests := [];
    }

    /**
     * The screen the current state renders: the loading text whenever loading is on, and the
     * stored recipe only when neither loading nor an error is set.
     */
    function Screen(): (s: Screen)
      reads this
      ensures s == LoadingScreen <==> loading
      ensures s.DetailScreen? <==> !loading && !Truthy(error) && recipe.Some?
      ensures s.DetailScreen? ==> recipe == Some(s.recipe)
    {
      SelectScreen(loading, error, recipe)
    }

    /**
     * The part of `fetchRecipeDetails` before the request: with an empty slug nothing
     * happens at all; otherwise loading starts, the error is cleared and the slug is requested.
     */
    method FetchRecipeDetails(slug: string) returns (requested: bool)
      requires Valid() && !inFlight
      modifies this
      ensures Valid()
      ensures requested <==> slug != ""
      ensures !requested ==>
                recipe == old(recipe) && loading == old(loading) && error == old(error) &&
                !inFlight && requests == old(requests)
      ensures requested ==>
                loading && error == None && recipe == old(recipe) && inFlight &&
                requests == old(requests) + [slug]
    {
      if slug == "" {
        return false;
      }
      loading := true;
      error := None;
      requests := requests + [slug];
      inFlight := true;
      requested := true;
    }

    /**
     * The rest of `fetchRecipeDetails`: a reply replaces the recipe and leaves no error; a
     * failure sets the error text and keeps whatever recipe was shown before. Loading ends.
     */
    method ReceiveDetails(reply: DetailReply)
      requires Valid() && inFlight
      modifies this
      ensures Valid() && !loading && !inFlight && requests == old(requests)
      ensures reply.Fetched? ==> recipe == reply.data && error == None
      ensures reply.FetchFailed? ==> recipe == old(recipe) && error == Some(FailedMessage)
      ensures reply.FetchFailed? ==> Screen() == ErrorScreen(FailedMessage)
      ensures reply == Fetched(None) ==> Screen() == NotFoundScreen
      ensures reply.Fetched? && reply.data.Some? ==> Screen() == DetailScreen(reply.data.value)
    {
      match reply {
        case Fetched(data) =>
          recipe := data;
        case FetchFailed =>
          error := Some(FailedMessage);
      }
      loading := false;
      inFlight := false;
    }
  }

  /**
   * A fresh page given a slug shows the loading text until the reply, and then the error
   * text for any failure (a 404 included), never "Recipe not found."; an empty slug leaves
   * it loading.
   */
  method LoadOnce(slug: string, reply: DetailReply) returns (beforeReply: Screen, afterReply: Screen)
    ensures beforeReply == LoadingScreen
    ensures slug == "" ==> afterReply == LoadingScreen
    ensures slug != "" && reply.FetchFailed? ==> afterReply == ErrorScreen(FailedMessage)
    ensures slug != "" && reply.Fetched? ==>
              afterReply == (if reply.data.Some? then DetailScreen(reply.data.value) else NotFoundScreen)
  {
    var page := new RecipeDetail();
    var requested := page.FetchRecipeDetails(slug);
    beforeReply := page.Screen();
    if requested {
      page.ReceiveDetails(reply);
    }
    afterReply := page.Screen();
  }
}
