/** How the pieces fit: every call the classifier in app/api/chat/route.ts
    produces names a function of the registry in lib/functions.ts, with
    arguments of the declared types, runs without error, and becomes a
    history entry that components/chat-interface.tsx tags for a dedicated
    view of components/web-viewer.tsx. */
module Dispatch {
  import opened Wrappers
  import opened Text
  import opened Types
  import opened Functions
  import opened ChatRoute
  import opened ChatInterface
  import opened WebViewer

  /** The tag each intent's entries carry. */
  function IntentTag(i: Intent): Tag {
    match i
    case SearchIntent => Search
    case FilterIntent => Filter
    case CompareIntent => Chart
    case DetailsIntent => Product
  }

  lemma FilterArgsConform(lower: string)
    ensures ArgsConform(FilterCall(PriceFilters(lower) + BrandFilter(lower)).arguments,
                        Registry[1].parameters)
  {
    var filters := PriceFilters(lower) + BrandFilter(lower);
    var fields := ApplyFilterFields;
    assert fields[0].name == "minPrice" && fields[1].name == "maxPrice" && fields[3].name == "brand";
    forall k | k in filters
      ensures exists i :: 0 <= i < |fields| && fields[i].name == k && PrimAccepts(fields[i].ftype, filters[k])
    {
      if k == "minPrice" {
        assert PrimAccepts(fields[0].ftype, filters[k]);
      } else if k == "maxPrice" {
        assert PrimAccepts(fields[1].ftype, filters[k]);
      } else {
        assert k == "brand";
        assert PrimAccepts(fields[3].ftype, filters[k]);
      }
    }
    assert ParamAccepts(Registry[1].parameters[0].ptype, Obj(filters));
  }

  /** Every call the classifier produces names a registered function and
      passes arguments of the types that function declares, which is the
      one the message's intent selects. */
  lemma ClassifiedCallsConform(message: string)
    requires Classify(message).Some?
    ensures Find(Registry, Classify(message).value.name).Some?
    ensures ArgsConform(Classify(message).value.arguments,
                        Find(Registry, Classify(message).value.name).value.parameters)
    ensures IntentOf(Lower(message)).Some? &&
      ResultType(Classify(message).value.name) == IntentTag(IntentOf(Lower(message)).value)
  {
    var lower := Lower(message);
    var c := Classify(message).value;
    RegistryContents(c.name);
    match IntentOf(lower).value
    case SearchIntent =>
      assert Find(Registry, c.name).value == Registry[0];
      assert Registry[0].parameters[0].name == "query";
      assert Registry[0].parameters[1].name == "filters";
      assert ParamAccepts(Registry[0].parameters[0].ptype, c.arguments["query"]);
      assert ParamAccepts(Registry[0].parameters[1].ptype, c.arguments["filters"]);
    case FilterIntent =>
      assert Find(Registry, c.name).value == Registry[1];
      FilterArgsConform(lower);
    case CompareIntent =>
      assert Find(Registry, c.name).value == Registry[3];
      assert ParamAccepts(Registry[3].parameters[0].ptype, c.arguments["productIds"]);
    case DetailsIntent =>
      assert Find(Registry, c.name).value == Registry[2];
      assert ParamAccepts(Registry[2].parameters[0].ptype, c.arguments["productId"]);
  }

  /** The executor a classified call reaches succeeds on its arguments. */
  lemma ClassifiedCallRuns(message: string)
    requires Classify(message).Some?
    ensures ExecuteFunction(Classify(message).value.name, Classify(message).value.arguments).Success?
  {
    var c := Classify(message).value;
    match IntentOf(Lower(message)).value
    case SearchIntent =>
      FindByActionName(SearchProducts);
    case FilterIntent =>
      FindByActionName(ApplyFilters);
      assert "filters" in c.arguments;
    case CompareIntent =>
      FindByActionName(CompareProducts);
    case DetailsIntent =>
      FindByActionName(GetProductDetails);
  }

  /** A classified call never fails: its entry is tagged for the intent's
      own view, never the error or the generic view, and a search entry's
      title quotes the query. */
  lemma ClassifiedCallsSucceed(message: string, id: string, timestamp: int)
    requires Classify(message).Some?
    ensures ExecuteFunction(Classify(message).value.name, Classify(message).value.arguments).Success?
    ensures Outcome(Classify(message).value, id, timestamp).tag == IntentTag(IntentOf(Lower(message)).value)
    ensures DisplayFor(Outcome(Classify(message).value, id, timestamp).tag) !in {ErrorResult, GenericResult}
    ensures IntentOf(Lower(message)) == Some(SearchIntent) ==>
      Outcome(Classify(message).value, id, timestamp).title == "Búsqueda: " + QueryOf(Lower(message))
  {
    ClassifiedCallsConform(message);
    ClassifiedCallRuns(message);
  }
}
