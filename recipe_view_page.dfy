/** The recipe detail page: on mount it looks the route's id up in the recipe
    list kept in `localStorage` and shows the first match, or "Recipe not
    found.". */
module RecipeView {

  import opened Wrappers
  import opened Browser
  import opened JsValues

  /** A recipe of the stored list, whose ingredients are a list of strings. */
  datatype ViewRecipe = ViewRecipe(
    id: string,
    title: string,
    description: string,
    ingredients: seq<string>,
    instructions: string)

  /** The position of the first recipe whose id is the route's, or |rs| when
      there is none. A route without an id (None) matches nothing. */
  function FirstMatch(rs: seq<ViewRecipe>, routeId: Option<string>): (k: nat)
    ensures k <= |rs|
    ensures forall j | 0 <= j < k :: Some(rs[j].id) != routeId
    ensures k < |rs| ==> Some(rs[k].id) == routeId
  {
    if |rs| == 0 then 0
    else if Some(rs[0].id) == routeId then 0
    else 1 + FirstMatch(rs[1..], routeId)
  }

  /** `recipes.find(r => r.id === id)`: the first recipe with the route's id,
      or nothing when no recipe has it. */
  function Find(rs: seq<ViewRecipe>, routeId: Option<string>): (r: Option<ViewRecipe>)
    ensures r.None? <==> forall j | 0 <= j < |rs| :: Some(rs[j].id) != routeId
    ensures r.Some? ==> exists k | 0 <= k < |rs| ::
      && rs[k] == r.value
      && Some(rs[k].id) == routeId
      && forall j | 0 <= j < k :: Some(rs[j].id) != routeId
  {
    var k := FirstMatch(rs, routeId);
    if k < |rs| then Some(rs[k]) else None
  }

  /** The effect on `[id]`: what `recipe` holds once it has run, given what it
      held before, the stored string `stored`, and `parse`, which stands for
      `JSON.parse`. It only ever sets a recipe it found; it never clears one. */
  function AfterLookup(current: Option<ViewRecipe>, stored: Option<string>,
                       parse: string -> seq<ViewRecipe>, routeId: Option<string>): (r: Option<ViewRecipe>)
    // an absent or empty "recipes" entry: nothing happens
    ensures !ItemTruthy(stored) ==> r == current
    // otherwise the first match wins, and without a match nothing happens
    ensures ItemTruthy(stored) ==>
      var rs := parse(stored.value);
      && ((exists j | 0 <= j < |rs| :: Some(rs[j].id) == routeId) ==> r == Find(rs, routeId) && r.Some?)
      && ((forall j | 0 <= j < |rs| :: Some(rs[j].id) != routeId) ==> r == current)
    // whatever is shown carries the route's id, or was already shown
    ensures r == current || (r.Some? && Some(r.value.id) == routeId)
  {
    if ItemTruthy(stored) then
      var found := Find(parse(stored.value), routeId);
      if found.Some? then found else current
    else current
  }

  /** A first visit to an id the store does not hold stays on "not found";
      a later visit to such an id keeps showing the previous recipe. */
  lemma NotFoundKeepsState(current: Option<ViewRecipe>, stored: Option<string>,
                           parse: string -> seq<ViewRecipe>, routeId: Option<string>)
    requires ItemTruthy(stored) ==>
      forall j | 0 <= j < |parse(stored.value)| :: Some(parse(stored.value)[j].id) != routeId
    ensures AfterLookup(current, stored, parse, routeId) == current
    ensures AfterLookup(None, stored, parse, routeId) == None
  {
  }

  /** `items.map(item => item.trim())`: one item per ingredient, in order,
      each without surrounding white space. */
  function TrimmedItems(items: seq<string>): (r: seq<string>)
    ensures |r| == |items|
    ensures forall i | 0 <= i < |items| :: r[i] == Trim(items[i])
    ensures forall i | 0 <= i < |r| && r[i] != [] ::
      !IsWhiteSpace(r[i][0]) && !IsWhiteSpace(r[i][|r[i]| - 1])
  {
    if |items| == 0 then []
    else
      var rest := TrimmedItems(items[1..]);
      var r := [Trim(items[0])] + rest;
      assert forall i | 1 <= i < |r| :: r[i] == rest[i - 1];
      r
  }

  /** What the page shows. */
  datatype Screen =
    | NotFound
    | Detail(title: string, description: string, items: seq<string>, instructions: string)

  function Render(recipe: Option<ViewRecipe>): (v: Screen)
    ensures v.NotFound? <==> recipe.None?
    ensures v.Detail? ==>
      && v.title == recipe.value.title && v.description == recipe.value.description
      && v.instructions == recipe.value.instructions
      && |v.items| == |recipe.value.ingredients|
      && forall i | 0 <= i < |v.items| :: v.items[i] == Trim(recipe.value.ingredients[i])
  {
    match recipe
    case None => NotFound
    case Some(r) => Detail(r.title, r.description, TrimmedItems(r.ingredients), r.instructions)
  }

  /** The page's one piece of state. */
  class RecipeViewPage {
    var recipe: Option<ViewRecipe>

    constructor ()
      ensures recipe == None
    {
      recipe := None;
    }

    /** The lookup effect. It reads the store and never writes it. */
    method LookupEffect(storage: LocalStorage, routeId: Option<string>, parse: string -> seq<ViewRecipe>)
      modifies this
      ensures recipe == AfterLookup(old(recipe), Lookup(storage.items, RecipesKey), parse, routeId)
      ensures unchanged(storage)
    {
      var stored := storage.GetItem(RecipesKey);
      if ItemTruthy(stored) {
        var recipes := parse(stored.value);
        var found := Find(recipes, routeId);
        if found.Some? {
          recipe := found;
        }
      }
    }
  }
}
