/** The recipe editor: a list of the user's recipes fetched from the server,
    a form that creates a recipe or updates the one being edited, delete, and
    logout. */
module CreateRecipe {

  import opened Wrappers
  import opened Browser
  import opened JsValues
  import Auth

  const TitleRequired: string := "Title is required"
  const IngredientsRequired: string := "Ingredients are required"
  const InstructionsRequired: string := "Instructions are required"
  const SaveFailed: string := "Failed to save recipe"
  const LoadFailed: string := "Failed to load recipe for editing"

  /** A recipe as the page keeps it. `id` is absent on a form that has not
      been loaded from the server. */
  datatype Recipe = Recipe(
    id: Option<int>,
    title: string,
    description: string,
    ingredients: string,
    instructions: string,
    username: string)

  /** A recipe as the server sends it, before `ingredients` is turned into a
      string. */
  datatype ServerRecipe = ServerRecipe(
    id: Option<int>,
    title: string,
    description: string,
    ingredients: JsValue,
    instructions: string,
    username: string)

  /** The form's initial value. */
  const EmptyForm: Recipe := Recipe(None, "", "", "", "", "")

  // ---------------------------------------------------------------------
  // Normalisation of what the server sends
  // ---------------------------------------------------------------------

  /** `{ ...r, ingredients: String(r.ingredients || "") }` */
  function Normalize(r: ServerRecipe): (n: Recipe)
    ensures n.id == r.id && n.title == r.title && n.description == r.description
    ensures n.instructions == r.instructions && n.username == r.username
    ensures !Truthy(r.ingredients) ==> n.ingredients == ""
    ensures r.ingredients.Str? ==> n.ingredients == r.ingredients.s
  {
    Recipe(r.id, r.title, r.description, Coerce(r.ingredients), r.instructions, r.username)
  }

  /** `(res.data || []).map(normalize)`, where None stands for a falsy body:
      every recipe keeps its fields, and its ingredients become a string, ""
      when they were missing. */
  function NormalizeAll(data: Option<seq<ServerRecipe>>): (rs: seq<Recipe>)
    ensures data.None? ==> rs == []
    ensures data.Some? ==> |rs| == |data.value|
    ensures data.Some? ==> forall i | 0 <= i < |rs| ::
      && rs[i].ingredients == Coerce(data.value[i].ingredients)
      && (!Truthy(data.value[i].ingredients) ==> rs[i].ingredients == "")
      && (data.value[i].ingredients.Str? ==> rs[i].ingredients == data.value[i].ingredients.s)
      && rs[i].id == data.value[i].id && rs[i].title == data.value[i].title
      && rs[i].description == data.value[i].description
      && rs[i].instructions == data.value[i].instructions
      && rs[i].username == data.value[i].username
  {
    match data
    case None => []
    case Some(list) => seq(|list|, i requires 0 <= i < |list| => Normalize(list[i]))
  }

  /** `{ ...res.data, ingredients: String(res.data.ingredients || ""),
      username: storedUsername }`, the recipe a save answers with. */
  function Saved(data: ServerRecipe, storedUsername: string): (r: Recipe)
    ensures r.username == storedUsername
    ensures r.id == data.id && r.title == data.title && r.description == data.description
    ensures r.instructions == data.instructions
    ensures !Truthy(data.ingredients) ==> r.ingredients == ""
    ensures data.ingredients.Str? ==> r.ingredients == data.ingredients.s
  {
    Normalize(data).(username := storedUsername)
  }

  // ---------------------------------------------------------------------
  // The list updates
  // ---------------------------------------------------------------------

  /** `prev.map(r => r.id === updated.id ? updated : r)` */
  function ReplaceById(rs: seq<Recipe>, updated: Recipe): (r: seq<Recipe>)
    ensures |r| == |rs|
    ensures forall i | 0 <= i < |rs| && rs[i].id == updated.id :: r[i] == updated
    ensures forall i | 0 <= i < |rs| && rs[i].id != updated.id :: r[i] == rs[i]
  {
    if |rs| == 0 then []
    else [if rs[0].id == updated.id then updated else rs[0]] + ReplaceById(rs[1..], updated)
  }

  /** `prev.filter(r => r.id !== id)`, with `id` None standing for
      undefined. */
  function Without(rs: seq<Recipe>, id: Option<int>): (r: seq<Recipe>)
    ensures |r| <= |rs|
    ensures forall i | 0 <= i < |r| :: r[i].id != id
  {
    if |rs| == 0 then []
    else (if rs[0].id == id then [] else [rs[0]]) + Without(rs[1..], id)
  }

  /** One step of the filter, on a list written as a head and a tail. */
  lemma WithoutCons(x: Recipe, rest: seq<Recipe>, id: Option<int>)
    ensures Without([x] + rest, id) == (if x.id == id then [] else [x]) + Without(rest, id)
  {
    assert ([x] + rest)[0] == x;
    assert ([x] + rest)[1..] == rest;
  }

  /** Filtering works piecewise, so the recipes that stay keep their relative
      order. */
  lemma {:induction false} WithoutConcat(a: seq<Recipe>, b: seq<Recipe>, id: Option<int>)
    ensures Without(a + b, id) == Without(a, id) + Without(b, id)
  {
    if |a| == 0 {
      assert a + b == b;
    } else {
      var x, tail := a[0], a[1..];
      assert a == [x] + tail;
      assert a + b == [x] + (tail + b);
      WithoutConcat(tail, b, id);
      WithoutCons(x, tail + b, id);
      WithoutCons(x, tail, id);
      var kept := if x.id == id then [] else [x];
      assert kept + (Without(tail, id) + Without(b, id)) == (kept + Without(tail, id)) + Without(b, id);
    }
  }

  /** Filtering keeps exactly the recipes whose id differs. */
  lemma {:induction false} WithoutMembers(rs: seq<Recipe>, id: Option<int>, x: Recipe)
    ensures x in Without(rs, id) <==> x in rs && x.id != id
  {
    if rs != [] {
      WithoutMembers(rs[1..], id, x);
      assert rs == [rs[0]] + rs[1..];
    }
  }

  lemma WithoutMembersAll(rs: seq<Recipe>, id: Option<int>)
    ensures forall x | x in rs :: x in Without(rs, id) <==> x.id != id
    ensures forall x | x in Without(rs, id) :: x in rs
  {
    forall x {
      WithoutMembers(rs, id, x);
    }
  }

  /** Deleting an id no recipe has changes nothing. */
  lemma {:induction false} WithoutAbsent(rs: seq<Recipe>, id: Option<int>)
    requires forall i | 0 <= i < |rs| :: rs[i].id != id
    ensures Without(rs, id) == rs
  {
    if rs != [] {
      WithoutAbsent(rs[1..], id);
      assert [rs[0]] + rs[1..] == rs;
    }
  }

  /** Deleting twice is deleting once. */
  lemma {:induction false} WithoutIdempotent(rs: seq<Recipe>, id: Option<int>)
    ensures Without(Without(rs, id), id) == Without(rs, id)
  {
    var r := Without(rs, id);
    WithoutAbsent(r, id);
  }

  /** A replacement touches only the recipes with the updated id: once they
      are filtered out, the list is what it was. */
  lemma {:induction false} ReplaceTouchesOnlyItsId(rs: seq<Recipe>, updated: Recipe)
    ensures Without(ReplaceById(rs, updated), updated.id) == Without(rs, updated.id)
  {
    if rs != [] {
      ReplaceTouchesOnlyItsId(rs[1..], updated);
    }
  }

  /** Deleting after a creation: the recipes that were there before are
      filtered as they would have been, and the created one stays exactly when
      its id differs. */
  lemma AppendThenDelete(rs: seq<Recipe>, created: Recipe, id: Option<int>)
    ensures Without(rs + [created], id) ==
      Without(rs, id) + (if created.id == id then [] else [created])
  {
    WithoutConcat(rs, [created], id);
  }

  // ---------------------------------------------------------------------
  // The page's state and its handlers
  // ---------------------------------------------------------------------

  datatype PageState = PageState(
    recipes: seq<Recipe>,
    form: Recipe,
    isEditing: bool,
    username: string,
    error: string)

  /** The body of a save request: the form's fields with the stored username,
      never the form's own. */
  datatype Payload = Payload(
    title: string,
    description: string,
    ingredients: string,
    instructions: string,
    username: string)

  /** `PUT /recipes/{id}` or `POST /recipes`, each with its `Authorization`
      header value. */
  datatype SaveRequest =
    | Put(id: int, payload: Payload, authorization: string)
    | Post(payload: Payload, authorization: string)

  /** How a save settles: rejected, or resolved with `res.data` (None when the
      body is undefined or null, so that reading `res.data.ingredients`
      throws). */
  datatype SaveReply = SaveRejected | SaveResolved(data: Option<ServerRecipe>)

  datatype SubmitOutcome = SubmitOutcome(state: PageState, request: Option<SaveRequest>, nav: Option<Navigation>)

  /** Both the username and the token are stored and truthy. */
  predicate SessionPresent(store: Store)
  {
    ItemTruthy(Lookup(store, UsernameKey)) && HasToken(store)
  }

  /** The message of the first validation that fails, "" when none does. */
  function FormProblem(form: Recipe): (msg: string)
    ensures msg == "" <==>
      !IsBlank(form.title) && !IsBlank(form.ingredients) && !IsBlank(form.instructions)
    ensures IsBlank(form.title) ==> msg == TitleRequired
    ensures !IsBlank(form.title) && IsBlank(form.ingredients) ==> msg == IngredientsRequired
    ensures !IsBlank(form.title) && !IsBlank(form.ingredients) && IsBlank(form.instructions)
      ==> msg == InstructionsRequired
  {
    if Trim(form.title) == "" then TitleRequired
    else if Trim(form.ingredients) == "" then IngredientsRequired
    else if Trim(form.instructions) == "" then InstructionsRequired
    else ""
  }

  /** The description is never validated. */
  lemma DescriptionNotChecked(form: Recipe, description: string)
    ensures FormProblem(form.(description := description)) == FormProblem(form)
  {
  }

  /** An id is truthy when present and not 0. */
  predicate IdTruthy(id: Option<int>)
  {
    id.Some? && id.value != 0
  }

  /** `handleSubmit` on the state `s` and the store it reads. */
  function SubmitTransition(s: PageState, store: Store, reply: SaveReply): (o: SubmitOutcome)
    // without a session: to the login page, no request, only the error cleared
    ensures !SessionPresent(store) ==>
      o == SubmitOutcome(s.(error := ""), None, Some(Navigation(LoginPath, false)))
    // a blank title, ingredients or instructions: the first message, no request
    ensures SessionPresent(store) && FormProblem(s.form) != "" ==>
      o == SubmitOutcome(s.(error := FormProblem(s.form)), None, None)
    // otherwise exactly one request, carrying the stored username and token
    ensures SessionPresent(store) && FormProblem(s.form) == "" ==>
      && o.request.Some? && o.nav.None?
      && o.request.value.payload == Payload(s.form.title, s.form.description, s.form.ingredients,
                                            s.form.instructions, store[UsernameKey])
      && o.request.value.authorization == Auth.BearerPrefix + store[TokenKey]
      && (o.request.value.Put? <==> s.isEditing && IdTruthy(s.form.id))
      && (o.request.value.Put? ==> o.request.value.id == s.form.id.value)
    // a failed save: the list, form and mode stay, the error says so
    ensures o.request.Some? && (reply.SaveRejected? || reply.data.None?) ==>
      o.state == s.(error := SaveFailed)
    // a successful save: the list is updated, the form reset, editing ended
    ensures o.request.Some? && reply.SaveResolved? && reply.data.Some? ==>
      var saved := Saved(reply.data.value, store[UsernameKey]);
      && o.state.recipes == (if o.request.value.Put? then ReplaceById(s.recipes, saved)
                             else s.recipes + [saved])
      && o.state.form == Recipe(None, "", "", "", "", store[UsernameKey])
      && !o.state.isEditing && o.state.error == "" && o.state.username == s.username
  {
    if !SessionPresent(store) then
      SubmitOutcome(s.(error := ""), None, Some(Navigation(LoginPath, false)))
    else if FormProblem(s.form) != "" then
      SubmitOutcome(s.(error := FormProblem(s.form)), None, None)
    else
      SaveOutcome(s, store[UsernameKey], store[TokenKey], reply)
  }

  /** The save, once the session and the form have passed their checks, for
      the stored username `user` and token `token`. */
  function SaveOutcome(s: PageState, user: string, token: string, reply: SaveReply): (o: SubmitOutcome)
    ensures o.request.Some? && o.nav.None? && o.state.username == s.username
    ensures o.request.value.Put? <==> s.isEditing && IdTruthy(s.form.id)
    ensures o.request.value.authorization == Auth.BearerPrefix + token
  {
    var payload := Payload(s.form.title, s.form.description, s.form.ingredients, s.form.instructions, user);
    var authorization := Auth.BearerPrefix + token;
    var editing := s.isEditing && IdTruthy(s.form.id);
    var request := if editing then Put(s.form.id.value, payload, authorization) else Post(payload, authorization);
    match reply
    case SaveResolved(Some(data)) =>
      var saved := Saved(data, user);
      var recipes := if editing then ReplaceById(s.recipes, saved) else s.recipes + [saved];
      SubmitOutcome(PageState(recipes, Recipe(None, "", "", "", "", user), false, s.username, ""),
                    Some(request), None)
    case _ =>
      SubmitOutcome(s.(error := SaveFailed), Some(request), None)
  }

  /** The save does not depend on the error shown before it. */
  lemma SaveIgnoresError(s: PageState, user: string, token: string, reply: SaveReply)
    ensures SaveOutcome(s.(error := ""), user, token, reply) == SaveOutcome(s, user, token, reply)
  {
  }

  /** A successful edit keeps the length and order of the list and changes only
      the entries whose id is the saved recipe's. */
  lemma SuccessfulEditReplaces(s: PageState, store: Store, data: ServerRecipe)
    requires SessionPresent(store) && FormProblem(s.form) == ""
    requires s.isEditing && IdTruthy(s.form.id)
    ensures var o := SubmitTransition(s, store, SaveResolved(Some(data)));
      var saved := Saved(data, store[UsernameKey]);
      && |o.state.recipes| == |s.recipes|
      && (forall i | 0 <= i < |s.recipes| && s.recipes[i].id == data.id :: o.state.recipes[i] == saved)
      && (forall i | 0 <= i < |s.recipes| && s.recipes[i].id != data.id :: o.state.recipes[i] == s.recipes[i])
  {
  }

  /** An edit whose form id is 0 is falsy and takes the create branch: the
      saved recipe is appended instead of replacing one. */
  lemma ZeroIdCreates(s: PageState, store: Store, data: ServerRecipe)
    requires SessionPresent(store) && FormProblem(s.form) == ""
    requires s.isEditing && s.form.id == Some(0)
    ensures var o := SubmitTransition(s, store, SaveResolved(Some(data)));
      o.request.Some? && o.request.value.Post?
      && o.state.recipes == s.recipes + [Saved(data, store[UsernameKey])]
  {
  }

  /** The fields the change handlers write. */
  datatype FormField = Title | Description | Ingredients | Instructions

  /** `handleChange` and `handleIngredientsChange`. */
  function WithFormField(form: Recipe, field: FormField, value: string): (r: Recipe)
    ensures field == Title ==> r.title == value
    ensures field == Description ==> r.description == value
    ensures field == Ingredients ==> r.ingredients == value
    ensures field == Instructions ==> r.instructions == value
    ensures r.id == form.id && r.username == form.username
    ensures field != Title ==> r.title == form.title
    ensures field != Description ==> r.description == form.description
    ensures field != Ingredients ==> r.ingredients == form.ingredients
    ensures field != Instructions ==> r.instructions == form.instructions
  {
    match field
    case Title => form.(title := value)
    case Description => form.(description := value)
    case Ingredients => form.(ingredients := value)
    case Instructions => form.(instructions := value)
  }

  /** A recipe as `GET /recipes/{id}` sends it to the edit handler; None
      stands for an absent (null or undefined) field. */
  datatype EditData = EditData(
    id: Option<int>,
    title: Option<string>,
    description: Option<string>,
    ingredients: JsValue,
    instructions: Option<string>)

  /** How the edit load settles; a resolved body of None is falsy and is read
      as `{}`. */
  datatype EditReply = EditRejected | EditResolved(data: Option<EditData>)

  /** `x ?? ""` */
  function OrBlank(x: Option<string>): string
  {
    if x.Some? then x.value else ""
  }

  /** `handleEdit`: on success the form holds the loaded recipe under the
      page's username and the page is in edit mode. */
  function EditTransition(s: PageState, reply: EditReply): (t: PageState)
    ensures reply.EditRejected? ==> t == s.(error := LoadFailed)
    ensures reply.EditResolved? ==>
      && t.isEditing && t.error == "" && t.recipes == s.recipes && t.username == s.username
      && t.form.username == s.username
    ensures reply.EditResolved? && reply.data.None? ==> t.form == Recipe(None, "", "", "", "", s.username)
    ensures reply.EditResolved? && reply.data.Some? ==>
      var d := reply.data.value;
      && t.form.id == d.id
      && t.form.ingredients == Coerce(d.ingredients)
      && (d.title.Some? ==> t.form.title == d.title.value)
      && (d.title.None? ==> t.form.title == "")
      && (d.description.Some? ==> t.form.description == d.description.value)
      && (d.description.None? ==> t.form.description == "")
      && (d.instructions.Some? ==> t.form.instructions == d.instructions.value)
      && (d.instructions.None? ==> t.form.instructions == "")
  {
    match reply
    case EditRejected => s.(error := LoadFailed)
    case EditResolved(data) =>
      var d := if data.Some? then data.value else EditData(None, None, None, Undefined, None);
      var form := Recipe(d.id, OrBlank(d.title), OrBlank(d.description), Coerce(d.ingredients),
                         OrBlank(d.instructions), s.username);
      s.(form := form, isEditing := true, error := "")
  }

  /** `handleDelete(id)`: a successful delete removes every recipe with that
      id and keeps the rest in order; a failed one changes nothing. The id is
      `recipe.id!` of a listed recipe, so None (undefined) when that recipe
      came back from the server without one. */
  function DeleteTransition(s: PageState, id: Option<int>, deleted: bool): (t: PageState)
    ensures !deleted ==> t == s
    ensures deleted ==> t == s.(recipes := Without(s.recipes, id))
    ensures deleted ==> forall i | 0 <= i < |t.recipes| :: t.recipes[i].id != id
    ensures deleted ==> forall x | x in s.recipes :: x in t.recipes <==> x.id != id
    ensures deleted ==> forall x | x in t.recipes :: x in s.recipes
  {
    if deleted then
      WithoutMembersAll(s.recipes, id);
      s.(recipes := Without(s.recipes, id))
    else s
  }

  /** `handleLogout`: both session keys leave the store. */
  function LogoutStore(store: Store): (r: Store)
    ensures UsernameKey !in r && TokenKey !in r
    ensures forall k | k in store && k != UsernameKey && k != TokenKey :: k in r && r[k] == store[k]
    ensures forall k | k in r :: k in store
  {
    store - {UsernameKey} - {TokenKey}
  }

  /** How the initial `GET /recipes/get-all` settles; a resolved body of None
      is falsy. `FetchUnreadable` is a body on which the normalisation throws
      inside the `try`: a truthy body that is not an array (it has no `map`),
      or an array with a null or undefined element (reading `ingredients`
      of it throws). */
  datatype FetchReply =
    | FetchRejected
    | FetchUnreadable
    | FetchResolved(data: Option<seq<ServerRecipe>>)

  /** The page's state and its handlers. */
  class CreateRecipePage {
    var recipes: seq<Recipe>
    var form: Recipe
    var isEditing: bool
    var username: string
    var error: string

    function State(): PageState
      reads this
    {
      PageState(recipes, form, isEditing, username, error)
    }

    /** The initial render: the username state starts from the store. */
    constructor (storage: LocalStorage)
      ensures State() == PageState([], EmptyForm, false, OrEmpty(Lookup(storage.items, UsernameKey)), "")
    {
      recipes := [];
      form := EmptyForm;
      isEditing := false;
      var stored := storage.GetItem(UsernameKey);
      username := OrEmpty(stored);
      error := "";
    }

    /** The mount effect: re-read the username, then load and normalise the
      list; a failed load, or a body the normalisation throws on, leaves the
      list as it was. */
    method Mount(storage: LocalStorage, reply: FetchReply)
      modifies this
      ensures username == OrEmpty(Lookup(storage.items, UsernameKey))
      ensures recipes == (if reply.FetchResolved? then NormalizeAll(reply.data) else old(recipes))
      ensures form == old(form) && isEditing == old(isEditing) && error == old(error)
    {
      var stored := storage.GetItem(UsernameKey);
      username := OrEmpty(stored);
      match reply {
        case FetchRejected =>
        case FetchUnreadable =>
        case FetchResolved(data) =>
          recipes := NormalizeAll(data);
      }
    }

    /** `handleChange` / `handleIngredientsChange`. */
    method HandleChange(field: FormField, value: string)
      modifies this
      ensures State() == old(State()).(form := WithFormField(old(form), field, value))
    {
      match field {
        case Title => form := form.(title := value);
        case Description => form := form.(description := value);
        case Ingredients => form := form.(ingredients := value);
        case Instructions => form := form.(instructions := value);
      }
    }

    /** `handleEdit`, once `GET /recipes/{id}` has settled as `reply`. */
    method HandleEdit(reply: EditReply)
      modifies this
      ensures State() == EditTransition(old(State()), reply)
    {
      match reply {
        case EditRejected =>
          error := LoadFailed;
        case EditResolved(data) =>
          var d := if data.Some? then data.value else EditData(None, None, None, Undefined, None);
          form := Recipe(d.id, OrBlank(d.title), OrBlank(d.description), Coerce(d.ingredients),
                         OrBlank(d.instructions), username);
          isEditing := true;
          error := "";
      }
    }

    /** `handleSubmit`: the session check, the three validations in order,
      then one save request settling as `reply`. */
    method HandleSubmit(storage: LocalStorage, reply: SaveReply)
      returns (request: Option<SaveRequest>, nav: Option<Navigation>)
      modifies this
      ensures var o := SubmitTransition(old(State()), storage.items, reply);
        State() == o.state && request == o.request && nav == o.nav
    {
      ghost var s0 := State();
      ghost var store := storage.items;
      error := "";
      request, nav := None, None;
      var storedUsername := storage.GetItem(UsernameKey);
      var token := storage.GetItem(TokenKey);
      if !ItemTruthy(storedUsername) || !ItemTruthy(token) {
        nav := Some(Navigation(LoginPath, false));
        assert !SessionPresent(store);
        return;
      }
      assert SessionPresent(store);
      if Trim(form.title) == "" {
        error := TitleRequired;
        assert FormProblem(s0.form) == TitleRequired;
        return;
      }
      if Trim(form.ingredients) == "" {
        error := IngredientsRequired;
        assert FormProblem(s0.form) == IngredientsRequired;
        return;
      }
      if Trim(form.instructions) == "" {
        error := InstructionsRequired;
        assert FormProblem(s0.form) == InstructionsRequired;
        return;
      }
      assert FormProblem(s0.form) == "";
      assert storedUsername.value == store[UsernameKey] && token.value == store[TokenKey];
      SaveIgnoresError(s0, storedUsername.value, token.value, reply);
      request := Save(storedUsername.value, token.value, reply);
      assert State() == SaveOutcome(s0, store[UsernameKey], store[TokenKey], reply).state;
      assert request == SaveOutcome(s0, store[UsernameKey], store[TokenKey], reply).request;
      assert SubmitTransition(s0, store, reply) == SaveOutcome(s0, store[UsernameKey], store[TokenKey], reply);
    }

    /** The `try` block of `handleSubmit`: one request, then the list update
      and the reset, or the failure message. */
    method Save(user: string, token: string, reply: SaveReply) returns (request: Option<SaveRequest>)
      modifies this
      ensures var o := SaveOutcome(old(State()), user, token, reply);
        State() == o.state && request == o.request
    {
      var payload := Payload(form.title, form.description, form.ingredients, form.instructions, user);
      var authorization := Auth.BearerPrefix + token;
      var editing := isEditing && IdTruthy(form.id);
      request := Some(if editing then Put(form.id.value, payload, authorization) else Post(payload, authorization));
      if !(reply.SaveResolved? && reply.data.Some?) {
        error := SaveFailed;
        return;
      }
      var saved := Saved(reply.data.value, user);
      if editing {
        recipes := ReplaceById(recipes, saved);
      } else {
        recipes := recipes + [saved];
      }
      form := Recipe(None, "", "", "", "", user);
      isEditing := false;
      error := "";
    }

    /** `handleDelete(id)`, once `DELETE /recipes/{id}` has settled. */
    method HandleDelete(id: Option<int>, deleted: bool)
      modifies this
      ensures State() == DeleteTransition(old(State()), id, deleted)
    {
      if deleted {
        recipes := Without(recipes, id);
      }
    }

    /** `handleLogout`: remove both keys, clear the username, go to login. */
    method HandleLogout(storage: LocalStorage) returns (nav: Navigation)
      modifies this, storage
      ensures storage.items == LogoutStore(old(storage.items))
      ensures State() == old(State()).(username := "")
      ensures nav == Navigation(LoginPath, false)
    {
      storage.RemoveItem(UsernameKey);
      storage.RemoveItem(TokenKey);
      username := "";
      nav := Navigation(LoginPath, false);
    }
  }
}
