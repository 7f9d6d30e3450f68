/**
 * viewmodel/RecipeViewModel.kt: the screen state of the recipe list
 * (`_recipes`, `_isLoading`, `_errorMessage`, `_operationSuccess`) and the
 * local recipe table its repository writes. The outcome of every network
 * or database call is an input of the method that makes it.
 */
module Recipes {
  import opened Wrappers
  import opened Entities
  import opened Failures
  import opened Seqs
  import opened Order
  import Store

  const NoRecipesFound := "No recipes found. Pull to refresh or check connection."

  /** The sign each kind of failure message starts with: warning, stopwatch, globe, cross mark. */
  const WarningSign := "\U{26A0}\U{FE0F}"
  const Stopwatch := "\U{23F1}\U{FE0F}"
  const Globe := "\U{1F310}"
  const CrossMark := "\U{274C}"

  /** The phrases the recipe form looks for in an error message. */
  const ServerIsOffline := "Server is offline"
  const Timeout := "timeout"
  const NetworkError := "Network error"

  /** What each message says after its phrase. */
  const OfflineCreateAdvice := ". Please make sure the server is running on http://192.168.1.194:2528 and try again."
  const TimeoutCreateAdvice := ". The server took too long to respond. Please check your connection and try again."
  const NoNetworkCreateAdvice := ". Cannot reach the server. Please check your network connection."
  const UnknownCreateError := "Unknown error occurred. Please check if the server is running."
  const OfflineDeleteAdvice := ". Please make sure the server is running to delete recipes."
  const TimeoutDeleteAdvice := ". The server took too long to respond."
  const NoNetworkDeleteAdvice := ". Cannot reach the server."
  const UnknownDeleteError := "Unknown error occurred."

  function Sign(c: Cause): string {
    match c
    case Offline => WarningSign
    case TimedOut => Stopwatch
    case NoNetwork => Globe
    case Unexpected => CrossMark
  }

  function RecipeId(r: Recipe): int { r.id }

  /** `cached` is what `getCachedRecipes()` returns: every stored row once, `ORDER BY date DESC`. */
  predicate ListsCache(cached: seq<Recipe>, cache: map<int, Recipe>) {
    && Store.Lists(cached, cache, RecipeId)
    && forall i, j :: 0 <= i < j < |cached| ==> !StrLess(cached[i].date, cached[j].date)
  }

  /** The `when` of `createRecipe`'s catch block. */
  function CreateFailureMessage(e: Exn): string {
    CreateMessage(Classify(e), e.message)
  }

  /**
   * The branch of that `when` for `cause`; `message` is `e.message`. Each
   * message is the sign of its guard, a space and the text.
   */
  function CreateMessage(cause: Cause, message: Option<string>): string {
    Sign(cause) + " " + CreateText(cause, message)
  }

  function CreateText(cause: Cause, message: Option<string>): string {
    match cause
    case Offline => ServerIsOffline + OfflineCreateAdvice
    case TimedOut => "Server " + Timeout + TimeoutCreateAdvice
    case NoNetwork => NetworkError + NoNetworkCreateAdvice
    case Unexpected => "Error creating recipe: " + message.GetOr(UnknownCreateError)
  }

  /** The message of a load whose database read threw. */
  function LoadFailed(e: Exn): string {
    "Error loading recipes: " + MessageText(e)
  }

  /** The message of a create request the server answered with an error status. */
  function CreateRejected(responseMessage: string): string {
    CrossMark + " Failed to create recipe: " + responseMessage
  }

  /** The message of a delete request the server answered with an error status other than 404. */
  function DeleteRejected(responseMessage: string): string {
    CrossMark + " Failed to delete recipe: " + responseMessage
  }

  /** The `when` of `deleteRecipe`'s catch block. */
  function DeleteFailureMessage(e: Exn): string {
    DeleteMessage(Classify(e), e.message)
  }

  function DeleteMessage(cause: Cause, message: Option<string>): string {
    Sign(cause) + " " + DeleteText(cause, message)
  }

  function DeleteText(cause: Cause, message: Option<string>): string {
    match cause
    case Offline => ServerIsOffline + OfflineDeleteAdvice
    case TimedOut => "Server " + Timeout + TimeoutDeleteAdvice
    case NoNetwork => NetworkError + NoNetworkDeleteAdvice
    case Unexpected => "Error deleting recipe: " + message.GetOr(UnknownDeleteError)
  }

  // ---------------------------------------------------------------- messages

  /** Each catch-block message starts with the sign of the guard that fired. */
  lemma MessagesSigned(cause: Cause, message: Option<string>)
    ensures |CreateMessage(cause, message)| > 0 && CreateMessage(cause, message)[0] == Sign(cause)[0]
    ensures |DeleteMessage(cause, message)| > 0 && DeleteMessage(cause, message)[0] == Sign(cause)[0]
  {
    CreateSigned(cause, message);
    DeleteSigned(cause, message);
  }

  lemma CreateSigned(cause: Cause, message: Option<string>)
    ensures |CreateMessage(cause, message)| > 0 && CreateMessage(cause, message)[0] == Sign(cause)[0]
  {
    SignFirst(Sign(cause), CreateText(cause, message));
  }

  lemma DeleteSigned(cause: Cause, message: Option<string>)
    ensures |DeleteMessage(cause, message)| > 0 && DeleteMessage(cause, message)[0] == Sign(cause)[0]
  {
    SignFirst(Sign(cause), DeleteText(cause, message));
  }

  lemma SignFirst(sign: string, text: string)
    requires sign != []
    ensures |sign + " " + text| > 0 && (sign + " " + text)[0] == sign[0]
  {
  }

  /** The four signs start with four different characters. */
  lemma SignsDiffer(c1: Cause, c2: Cause)
    requires c1 != c2
    ensures Sign(c1)[0] != Sign(c2)[0]
  {
  }

  /** Different guards give different messages, so the message tells which guard fired. */
  lemma FailureMessageTellsCause(e1: Exn, e2: Exn)
    requires Classify(e1) != Classify(e2)
    ensures CreateFailureMessage(e1) != CreateFailureMessage(e2)
    ensures DeleteFailureMessage(e1) != DeleteFailureMessage(e2)
  {
    MessageTellsCause(Classify(e1), e1.message, Classify(e2), e2.message);
  }

  lemma MessageTellsCause(c1: Cause, m1: Option<string>, c2: Cause, m2: Option<string>)
    requires c1 != c2
    ensures CreateMessage(c1, m1) != CreateMessage(c2, m2)
    ensures DeleteMessage(c1, m1) != DeleteMessage(c2, m2)
  {
    CreateSigned(c1, m1);
    CreateSigned(c2, m2);
    DeleteSigned(c1, m1);
    DeleteSigned(c2, m2);
    SignsDiffer(c1, c2);
  }

  // ---------------------------------------------------------------- state

  class RecipeViewModel {
    var recipes: Option<seq<Recipe>>
    var isLoading: bool
    var errorMessage: Option<string>
    var operationSuccess: bool
    /** The local recipe table. */
    var cache: map<int, Recipe>

    /** A fresh view model over the table as the database holds it. */
    constructor (stored: map<int, Recipe>)
      ensures recipes == None && !isLoading && errorMessage == None && !operationSuccess && cache == stored
    {
      recipes := None;
      isLoading := false;
      errorMessage := None;
      operationSuccess := false;
      cache := stored;
    }

    /**
     * `loadRecipes`. `cached` is what reading the table gives, `None` where the
     * read throws: the repository's own read for `Fallback`, the catch
     * block's second read for `Broken`. When that second read throws as
     * well, the list keeps its value, `finally` still clears `isLoading`, and
     * the exception leaves the coroutine (`escaped`).
     */
    method LoadRecipes(outcome: Load<Recipe>, cached: Option<seq<Recipe>>) returns (escaped: bool)
      requires cached.Some? ==> ListsCache(cached.value, cache)
      requires outcome.Fallback? ==> cached.Some?
      modifies this`recipes, this`isLoading, this`errorMessage, this`cache
      ensures !isLoading && operationSuccess == old(operationSuccess)
      ensures escaped <==> outcome.Broken? && cached.None?
      ensures outcome.Fetched? ==>
        && recipes == Some(outcome.items)
        && cache == Store.InsertAll(old(cache), outcome.items, RecipeId)
        && errorMessage == (if outcome.items == [] then Some(NoRecipesFound) else None)
      ensures outcome.Fallback? ==>
        && recipes == Some(cached.value) && cache == old(cache)
        && errorMessage == (if cached.value == [] then Some(NoRecipesFound) else None)
      ensures outcome.Broken? ==>
        && recipes == (if cached.Some? then Some(cached.value) else old(recipes)) && cache == old(cache)
        && errorMessage == Some(LoadFailed(outcome.e))
    {
      isLoading := true;
      errorMessage := None;
      escaped := false;
      match outcome {
        case Fetched(items) =>
          cache := Store.InsertAll(cache, items, RecipeId);
          recipes := Some(items);
          if items == [] {
            errorMessage := Some(NoRecipesFound);
          }
        case Fallback =>
          recipes := Some(cached.value);
          if cached.value == [] {
            errorMessage := Some(NoRecipesFound);
          }
        case Broken(e) =>
          errorMessage := Some(LoadFailed(e));
          if cached.Some? {
            recipes := Some(cached.value);
          } else {
            escaped := true;
          }
      }
      isLoading := false;
    }

    /** `createRecipe`: only a 2xx response counts as success; the list is left to the WebSocket. */
    method CreateRecipe(recipe: Recipe, call: Call)
      modifies this`isLoading, this`errorMessage, this`operationSuccess
      ensures !isLoading && recipes == old(recipes) && cache == old(cache)
      ensures operationSuccess <==> call.Returned? && IsSuccessful(call.response)
      ensures call.Returned? && IsSuccessful(call.response) ==> errorMessage == old(errorMessage)
      ensures call.Returned? && !IsSuccessful(call.response) ==>
        errorMessage == Some(CreateRejected(call.response.message))
      ensures call.Threw? ==> errorMessage == Some(CreateFailureMessage(call.e))
    {
      isLoading := true;
      match call {
        case Returned(response) =>
          if IsSuccessful(response) {
            operationSuccess := true;
          } else {
            errorMessage := Some(CreateRejected(response.message));
            operationSuccess := false;
          }
        case Threw(e) =>
          errorMessage := Some(CreateFailureMessage(e));
          operationSuccess := false;
      }
      isLoading := false;
    }

    /**
     * `deleteRecipe`: a 2xx or a 404 removes the recipe from the list and
     * from the table (the repository deletes it on a 2xx, the view model
     * on a 404); anything else keeps the list and reports an error.
     */
    method DeleteRecipe(id: int, call: Call)
      modifies this`recipes, this`isLoading, this`errorMessage, this`operationSuccess, this`cache
      ensures !isLoading
      ensures call.Returned? && (IsSuccessful(call.response) || call.response.code == NotFound) ==>
        && recipes == Some(Store.WithoutKey(old(recipes).GetOr([]), RecipeId, id))
        && cache == old(cache) - {id}
        && operationSuccess && errorMessage == old(errorMessage)
      ensures call.Returned? && !IsSuccessful(call.response) && call.response.code != NotFound ==>
        && recipes == old(recipes) && cache == old(cache) && !operationSuccess
        && errorMessage == Some(DeleteRejected(call.response.message))
      ensures call.Threw? ==>
        && recipes == old(recipes) && cache == old(cache) && !operationSuccess
        && errorMessage == Some(DeleteFailureMessage(call.e))
    {
      isLoading := true;
      match call {
        case Returned(response) =>
          if IsSuccessful(response) {
            cache := cache - {id};
            var currentList := recipes.GetOr([]);
            recipes := Some(Store.WithoutKey(currentList, RecipeId, id));
            operationSuccess := true;
          } else if response.code == NotFound {
            cache := cache - {id};
            var currentList := recipes.GetOr([]);
            recipes := Some(Store.WithoutKey(currentList, RecipeId, id));
            operationSuccess := true;
          } else {
            errorMessage := Some(DeleteRejected(response.message));
            operationSuccess := false;
          }
        case Threw(e) =>
          errorMessage := Some(DeleteFailureMessage(e));
          operationSuccess := false;
      }
      isLoading := false;
    }

    /**
     * `getAllRecipesForAnalysis`: the table's rows when there are any; only
     * an empty table leads to the network, whose outcome is `complete`.
     * `failure` is an exception from reading the table, after which the
     * returned LiveData never receives a value (`result == None`).
     */
    method GetAllRecipesForAnalysis(cached: seq<Recipe>, complete: seq<Recipe>, failure: Option<Exn>)
      returns (result: Option<seq<Recipe>>, fetched: bool)
      requires ListsCache(cached, cache)
      modifies this`errorMessage
      ensures failure.Some? ==> result == None && !fetched && errorMessage == Some(LoadFailed(failure.value))
      ensures failure.None? ==> errorMessage == old(errorMessage)
      ensures failure.None? ==> (fetched <==> cache == map[])
      ensures failure.None? ==> result == Some(if fetched then complete else cached)
    {
      Store.EmptyListing(cached, cache, RecipeId);
      if failure.Some? {
        errorMessage := Some(LoadFailed(failure.value));
        return None, false;
      }
      if cached == [] {
        result, fetched := Some(complete), true;
      } else {
        result, fetched := Some(cached), false;
      }
    }

    /** `addRecipeToList`: in front of the list, and written to the table. */
    method AddRecipeToList(recipe: Recipe)
      modifies this`recipes, this`cache
      ensures recipes == Some(Prepended(old(recipes), recipe))
      ensures cache == old(cache)[recipe.id := recipe]
    {
      var currentList := recipes.GetOr([]);
      recipes := Some([recipe] + currentList);
      cache := cache[recipe.id := recipe];
    }

    method ClearError()
      modifies this`errorMessage
      ensures errorMessage == None
    {
      errorMessage := None;
    }

    method ResetOperationSuccess()
      modifies this`operationSuccess
      ensures !operationSuccess
    {
      operationSuccess := false;
    }
  }
}
