/**
 * The resource commands: `add_resource` checks the link's scheme, calls
 * the store and turns each of its outcomes into a response;
 * `get_resources` lists one category or all of them, each category's
 * links without repeats.
 */
module Resources {
  import opened Wrappers
  import opened Classes
  import opened Formatting
  import opened Database

  const WrongUrlText: string := "Please provide a link starting with 'http(s)://'."
  const DatabaseErrorText: string := "Error. Please contact administrator."

  // The warning texts hold the two flag emoji and an accented letter, as
  // the source file spells them: UTF-8 bytes decoded as Windows-1252.
  const FlagGb: string := "\U{F0}\U{178}\U{2021}\U{AC}\U{F0}\U{178}\U{2021}\U{A7}"
  const FlagFr: string := "\U{F0}\U{178}\U{2021}\U{AB}\U{F0}\U{178}\U{2021}\U{B7}"
  const Trouvee: string := "trouv\U{C3}\U{A9}e"

  const NoResourcesText: string :=
    FlagGb + " No resources found.\n" + FlagFr + " Aucune ressource " + Trouvee + "."

  function NoResourcesInText(categoryName: string): string
  {
    FlagGb + " No resources found in " + categoryName + ".\n" +
    FlagFr + " Aucune ressource " + Trouvee + " dans " + categoryName + "."
  }

  /** A link the command accepts: non-empty and starting with `http://` or `https://`. */
  predicate IsHttpUrl(url: string)
  {
    |url| > 0 && ("http://" <= url || "https://" <= url)
  }

  /** The distinct links of a list: Python's `set(links)`. */
  function LinkSet(links: seq<string>): (s: set<string>)
    ensures forall u :: u in s <==> u in links
  {
    set u | u in links
  }

  /** An f-string of an optional category name: the name, or `None`. */
  function Heading(name: Option<string>): string
  {
    if name.Some? then name.value else "None"
  }

  /**
   * `add_resource`: a link without an http(s) scheme is refused before the
   * store is touched; otherwise the store's id, `None` and duplicate error
   * become a success, the generic error and the duplicate message.
   */
  method AddResource(store: Store, logs: LogsChannel, userName: string, commandName: string, url: string, category: Choice)
    returns (response: Response)
    requires store.Valid()
    modifies store, logs
    ensures store.Valid()
    ensures store.categories == old(store.categories)
    ensures !IsHttpUrl(url) ==>
      && response == Message(Error, WrongUrlText)
      && store.resources == old(store.resources)
      && logs.messages == old(logs.messages) + [LogInteraction(userName, commandName) + " Wrong URL: '" + url + "'"]
    ensures IsHttpUrl(url) && FetchResource(store.categories, old(store.resources), url, category.value).Some? ==>
      && response == Message(Error, DuplicateMessage)
      && store.resources == old(store.resources)
      && logs.messages == old(logs.messages)
    ensures IsHttpUrl(url) && FetchResource(store.categories, old(store.resources), url, category.value).None? &&
            !Truthy(FetchCategoryId(store.categories, category.value)) ==>
      && response == Message(Error, DatabaseErrorText)
      && store.resources == old(store.resources)
      && logs.messages == old(logs.messages) + [LogInteraction(userName, commandName) + " Database error."]
    ensures response.kind == Success <==>
      IsHttpUrl(url) && FetchResource(store.categories, old(store.resources), url, category.value).None? &&
      Truthy(FetchCategoryId(store.categories, category.value))
    ensures response.kind == Success ==>
      && response == Message(Success, "Link added to " + category.name + " category.")
      && |store.resources| == |old(store.resources)| + 1
      && store.resources[..|old(store.resources)|] == old(store.resources)
      && Some(store.resources[|old(store.resources)|].categoryId) == FetchCategoryId(store.categories, category.value)
      && store.resources[|old(store.resources)|].url == url
      && logs.messages == old(logs.messages)
  {
    var action := LogInteraction(userName, commandName);
    if !IsHttpUrl(url) {
      response := Message(Error, WrongUrlText);
      logs.LogBotAction(action + " Wrong URL: '" + url + "'");
      return;
    }
    var created := store.CreateResource(url, category.value);
    match created {
      case DuplicateError(message) =>
        response := Message(Error, message);
      case Created(id) =>
        // the returned id is truthy: rowids start at 1
        assert id != 0;
        response := Message(Success, "Link added to " + category.name + " category.");
      case NotCreated =>
        response := Message(Error, DatabaseErrorText);
        logs.LogBotAction(action + " Database error.");
    }
  }

  /**
   * `get_category_resources`: the category's distinct links under its
   * display name, or a warning when it has none.
   */
  function GetCategoryResources(categories: CategoryTable, resources: ResourceTable, category: Choice)
    : (response: Response)
    ensures response.Listing? <==>
      Truthy(FetchCategoryId(categories, category.value)) &&
      exists i :: 0 <= i < |resources| && Some(resources[i].categoryId) == FetchCategoryId(categories, category.value)
    ensures response.Message? ==> response == Message(Warning, NoResourcesInText(category.name))
    ensures response.Listing? ==>
      && response.kind == Success
      && |response.sections| == 1
      && response.sections[0].heading == category.name
      && forall u :: u in response.sections[0].links <==>
           exists i :: 0 <= i < |resources| && resources[i].url == u &&
             Some(resources[i].categoryId) == FetchCategoryId(categories, category.value)
  {
    var links := FetchResources(categories, resources, category.value);
    if |links| > 0 then
      assert links[0] in links;
      Listing(Success, [Section(category.name, LinkSet(links))])
    else
      assert forall i :: 0 <= i < |resources| ==> resources[i].url !in links;
      Message(Warning, NoResourcesInText(category.name))
  }

  /**
   * `get_all_resources`: one section per category key of the dict, headed
   * by the category's stored name, or a warning when the catalog is empty.
   */
  method GetAllResources(store: Store) returns (response: Response)
    requires store.Valid()
    ensures response.Message? <==> store.resources == []
    ensures response.Message? ==> response == Message(Warning, NoResourcesText)
    ensures response.Listing? ==>
      && response.kind == Success
      && |response.sections| == |CategoryKeys(store.resources)|
      && forall j :: 0 <= j < |response.sections| ==>
           var categoryId := CategoryKeys(store.resources)[j];
           && Some(response.sections[j].heading) == FetchCategory(store.categories, categoryId)
           && forall u :: u in response.sections[j].links <==>
                exists i :: 0 <= i < |store.resources| && store.resources[i].categoryId == categoryId &&
                  store.resources[i].url == u
  {
    var links := store.FetchAllResources();
    if |links| > 0 {
      var sections: seq<Section> := [];
      for j := 0 to |links|
        invariant |sections| == j
        invariant forall t :: 0 <= t < j ==>
          sections[t] == Section(Heading(FetchCategory(store.categories, links[t].categoryId)), LinkSet(links[t].urls))
      {
        var heading := Heading(FetchCategory(store.categories, links[j].categoryId));
        sections := sections + [Section(heading, LinkSet(links[j].urls))];
      }
      response := Listing(Success, sections);
      ListingProperties(store.categories, store.resources, links, sections);
    } else {
      response := Message(Warning, NoResourcesText);
    }
  }

  /** The sections built from the grouped rows name stored categories and hold exactly their urls. */
  lemma ListingProperties(categories: CategoryTable, resources: ResourceTable, links: seq<LinkEntry>, sections: seq<Section>)
    requires CategoryIdsArePositions(categories)
    requires forall i :: 0 <= i < |resources| ==> 1 <= resources[i].categoryId <= |categories|
    requires |links| == |CategoryKeys(resources)| == |sections|
    requires forall j :: 0 <= j < |links| ==> links[j].categoryId == CategoryKeys(resources)[j]
    requires forall j :: 0 <= j < |links| ==> links[j].urls == UrlsIn(resources, links[j].categoryId)
    requires forall t :: 0 <= t < |sections| ==>
      sections[t] == Section(Heading(FetchCategory(categories, links[t].categoryId)), LinkSet(links[t].urls))
    ensures forall j :: 0 <= j < |sections| ==>
      var categoryId := CategoryKeys(resources)[j];
      && Some(sections[j].heading) == FetchCategory(categories, categoryId)
      && forall u :: u in sections[j].links <==>
           exists i :: 0 <= i < |resources| && resources[i].categoryId == categoryId && resources[i].url == u
  {
    CategoryKeysMembers(resources);
    forall j | 0 <= j < |sections|
      ensures var categoryId := CategoryKeys(resources)[j];
        && Some(sections[j].heading) == FetchCategory(categories, categoryId)
        && forall u :: u in sections[j].links <==>
             exists i :: 0 <= i < |resources| && resources[i].categoryId == categoryId && resources[i].url == u
    {
      var categoryId := CategoryKeys(resources)[j];
      assert categoryId in CategoryKeys(resources);
      FetchCategoryByPosition(categories, categoryId);
      UrlsInMembers(resources, categoryId);
    }
  }

  /** `get_resources`: one category when a category is given, otherwise the whole catalog. */
  method GetResources(store: Store, category: Option<Choice>) returns (response: Response)
    requires store.Valid()
    ensures category.Some? ==> response == GetCategoryResources(store.categories, store.resources, category.value)
    ensures category.None? ==>
      && (response.Message? <==> store.resources == [])
      && (response.Message? ==> response == Message(Warning, NoResourcesText))
      && (response.Listing? ==>
            && response.kind == Success
            && |response.sections| == |CategoryKeys(store.resources)|
            && forall j :: 0 <= j < |response.sections| ==>
                 var categoryId := CategoryKeys(store.resources)[j];
                 && Some(response.sections[j].heading) == FetchCategory(store.categories, categoryId)
                 && forall u :: u in response.sections[j].links <==>
                      exists i :: 0 <= i < |store.resources| && store.resources[i].categoryId == categoryId &&
                        store.resources[i].url == u)
  {
    if category.Some? {
      response := GetCategoryResources(store.categories, store.resources, category.value);
    } else {
      response := GetAllResources(store);
    }
  }
}
