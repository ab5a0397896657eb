/** app/api/chat/route.ts without its HTTP handler: the keyword classifier
    `detectFunctionCall`, which turns a user message into at most one
    function call, and `simulateAssistantResponse`, which picks the canned
    reply by a second chain over the same keywords. */
module ChatRoute {
  import opened Wrappers
  import opened Text
  import opened Types

  // ---------------------------------------------------------------------
  // Classification, stated declaratively
  // ---------------------------------------------------------------------

  /** The four recognised intents, in priority order. */
  datatype Intent = SearchIntent | FilterIntent | CompareIntent | DetailsIntent

  /** The first trigger group the lower-cased message contains. */
  function IntentOf(lower: string): Option<Intent> {
    if Contains(lower, "buscar") then Some(SearchIntent)
    else if Contains(lower, "filtrar") || Contains(lower, "filtro") then Some(FilterIntent)
    else if Contains(lower, "comparar") then Some(CompareIntent)
    else if Contains(lower, "detalles") || Contains(lower, "producto") then Some(DetailsIntent)
    else None
  }

  /** The lower-cased message with its first "buscar" removed, trimmed. */
  function SearchTerm(lower: string): string {
    Trim(ReplaceFirst(lower, "buscar", ""))
  }

  /** The `query` argument: the search term, or "productos" when it is empty. */
  function QueryOf(lower: string): (q: string)
    ensures q != ""
    ensures SearchTerm(lower) != "" ==> q == SearchTerm(lower)
  {
    var term := SearchTerm(lower);
    if term == "" then "productos" else term
  }

  /** The price keys of the filter record. */
  function PriceFilters(lower: string): map<string, Value> {
    if !Contains(lower, "precio") then map[]
    else if Contains(lower, "menor") then map["maxPrice" := Num(100)]
    else if Contains(lower, "mayor") then map["minPrice" := Num(100)]
    else map["minPrice" := Num(50), "maxPrice" := Num(200)]
  }

  /** The brand key of the filter record. */
  function BrandFilter(lower: string): map<string, Value> {
    if Contains(lower, "marca") then map["brand" := Str("Nike")] else map[]
  }

  function SearchCall(query: string): (c: FunctionCall)
    ensures c.arguments.Keys == {"query", "filters"}
  {
    FunctionCall("search_products", map["query" := Str(query), "filters" := Obj(map[])])
  }

  function FilterCall(filters: map<string, Value>): (c: FunctionCall)
    ensures c.arguments.Keys == {"filters"}
  {
    FunctionCall("apply_filters", map["filters" := Obj(filters)])
  }

  const CompareCall := FunctionCall("compare_products", map["productIds" := Nums([1, 2, 3])])

  const DetailsCall := FunctionCall("get_product_details", map["productId" := Num(1)])

  /** The function call for a message: the specification of
      `DetectFunctionCall`. */
  function Classify(message: string): Option<FunctionCall> {
    var lower := Lower(message);
    match IntentOf(lower)
    case None => None
    case Some(SearchIntent) => Some(SearchCall(QueryOf(lower)))
    case Some(FilterIntent) => Some(FilterCall(PriceFilters(lower) + BrandFilter(lower)))
    case Some(CompareIntent) => Some(CompareCall)
    case Some(DetailsIntent) => Some(DetailsCall)
  }

  // ---------------------------------------------------------------------
  // detectFunctionCall
  // ---------------------------------------------------------------------

  /** The filter record of a filter request, assigned key by key. A map
      has no key order, so the insertion order JavaScript keeps for the
      record's keys is not modelled. */
  method BuildFilters(messageLower: string) returns (filters: map<string, Value>)
    ensures filters == PriceFilters(messageLower) + BrandFilter(messageLower)
  {
    filters := map[];

    if Contains(messageLower, "precio") {
      if Contains(messageLower, "menor") {
        filters := filters["maxPrice" := Num(100)];
      } else if Contains(messageLower, "mayor") {
        filters := filters["minPrice" := Num(100)];
      } else {
        filters := filters["minPrice" := Num(50)];
        filters := filters["maxPrice" := Num(200)];
      }
    }
    assert filters == PriceFilters(messageLower);

    if Contains(messageLower, "marca") {
      filters := filters["brand" := Str("Nike")];
      assert filters == PriceFilters(messageLower) + map["brand" := Str("Nike")];
    } else {
      assert filters == PriceFilters(messageLower) + map[];
    }
  }

  /** Tests the triggers in order on the lower-cased message; for a filter
      request it builds the filter record key by key. */
  method DetectFunctionCall(message: string) returns (call: Option<FunctionCall>)
    ensures call == Classify(message)
  {
    var messageLower := Lower(message);

    if Contains(messageLower, "buscar") {
      var query := Trim(ReplaceFirst(messageLower, "buscar", ""));
      return Some(SearchCall(if query == "" then "productos" else query));
    }

    if Contains(messageLower, "filtrar") || Contains(messageLower, "filtro") {
      var filters := BuildFilters(messageLower);
      return Some(FilterCall(filters));
    }

    if Contains(messageLower, "comparar") {
      return Some(CompareCall);
    }

    if Contains(messageLower, "detalles") || Contains(messageLower, "producto") {
      return Some(DetailsCall);
    }

    return None;
  }

  // ---------------------------------------------------------------------
  // Properties of the classification
  // ---------------------------------------------------------------------

  /** Classification ignores ASCII case. */
  lemma ClassifyIgnoresCase(message: string)
    ensures Classify(Lower(message)) == Classify(message)
  {
    LowerIdempotent(message);
  }

  /** No call exactly when the message holds none of the trigger words. */
  lemma ClassifyNoneIffNoTrigger(message: string)
    ensures Classify(message).None? <==>
      forall w :: w in ["buscar", "filtrar", "filtro", "comparar", "detalles", "producto"] ==>
        !Contains(Lower(message), w)
  {
  }

  /** "buscar" wins over every other trigger; the query is the trimmed
      remainder (or "productos") and the filters are empty. */
  lemma ClassifySearch(message: string)
    requires Contains(Lower(message), "buscar")
    ensures Classify(message).Some?
    ensures Classify(message).value.name == "search_products"
    ensures Classify(message).value.arguments.Keys == {"query", "filters"}
    ensures Classify(message).value.arguments["filters"] == Obj(map[])
    ensures var q := Classify(message).value.arguments["query"];
      && q.Str? && q.s != ""
      && (SearchTerm(Lower(message)) == "" ==> q.s == "productos")
      && (SearchTerm(Lower(message)) != "" ==> q.s == SearchTerm(Lower(message)))
  {
    assert Classify(message) == Some(SearchCall(QueryOf(Lower(message))));
  }

  /** The query never starts or ends with white space and holds no
      upper-case letter. */
  lemma QueryIsTrimmedLowerCase(message: string)
    ensures var q := QueryOf(Lower(message));
      && !IsSpace(q[0]) && !IsSpace(q[|q| - 1])
      && forall i :: 0 <= i < |q| ==> !IsUpper(q[i])
  {
    var lower := Lower(message);
    var removed := ReplaceFirst(lower, "buscar", "");
    assert forall i :: 0 <= i < |removed| ==> !IsUpper(removed[i]) by {
      if Contains(lower, "buscar") {
        ReplaceFirstSplits(lower, "buscar", "");
      }
    }
    TrimKeepsCase(removed);
    TrimIsSlice(removed);
  }

  /** Without "buscar", "filtrar" or "filtro" give an `apply_filters` call
      whose record is built by the price and brand rules: "menor" wins over
      "mayor", price alone gives the 50..200 window, "marca" adds the brand,
      and no other key ever appears. */
  lemma ClassifyFilter(message: string)
    requires !Contains(Lower(message), "buscar")
    requires Contains(Lower(message), "filtrar") || Contains(Lower(message), "filtro")
    ensures Classify(message).Some?
    ensures Classify(message).value.name == "apply_filters"
    ensures Classify(message).value.arguments.Keys == {"filters"}
    ensures Classify(message).value.arguments["filters"].Obj?
    ensures var f := Classify(message).value.arguments["filters"].fields;
      var m := Lower(message);
      && f.Keys <= {"minPrice", "maxPrice", "brand"}
      && ("maxPrice" in f <==> Contains(m, "precio") && (Contains(m, "menor") || !Contains(m, "mayor")))
      && ("maxPrice" in f ==> f["maxPrice"] == Num(if Contains(m, "menor") then 100 else 200))
      && ("minPrice" in f <==> Contains(m, "precio") && !Contains(m, "menor"))
      && ("minPrice" in f ==> f["minPrice"] == Num(if Contains(m, "mayor") then 100 else 50))
      && ("brand" in f <==> Contains(m, "marca"))
      && ("brand" in f ==> f["brand"] == Str("Nike"))
  {
  }

  /** "comparar" (after the search and filter triggers) compares the
      products 1, 2 and 3. */
  lemma ClassifyCompare(message: string)
    requires IntentOf(Lower(message)) == Some(CompareIntent)
    ensures !Contains(Lower(message), "buscar") && !Contains(Lower(message), "filtrar")
    ensures !Contains(Lower(message), "filtro") && Contains(Lower(message), "comparar")
    ensures Classify(message) == Some(FunctionCall("compare_products", map["productIds" := Nums([1, 2, 3])]))
  {
  }

  /** "detalles" or "producto", last in priority, ask for product 1. */
  lemma ClassifyDetails(message: string)
    requires IntentOf(Lower(message)) == Some(DetailsIntent)
    ensures !Contains(Lower(message), "buscar") && !Contains(Lower(message), "filtrar")
    ensures !Contains(Lower(message), "filtro") && !Contains(Lower(message), "comparar")
    ensures Contains(Lower(message), "detalles") || Contains(Lower(message), "producto")
    ensures Classify(message) == Some(FunctionCall("get_product_details", map["productId" := Num(1)]))
  {
  }

  /** The example from the quick suggestions: the query is the lower-cased
      remainder of the message. */
  lemma SearchExample()
    ensures Classify("Buscar zapatillas Nike") == Some(SearchCall("zapatillas nike"))
    ensures SimulateAssistantResponse([Message("1", User, "Buscar zapatillas Nike", None)]) ==
      SearchReply("zapatillas nike")
  {
    ExampleLowered();
    ExampleTerm();
    assert Contains("buscar zapatillas nike", "buscar");
  }

  lemma ExampleLowered()
    ensures Lower("Buscar zapatillas Nike") == "buscar zapatillas nike"
  {
    assert LowerChar('B') == 'b' && LowerChar('N') == 'n';
  }

  lemma ExampleTerm()
    ensures Contains("buscar zapatillas nike", "buscar")
    ensures SearchTerm("buscar zapatillas nike") == "zapatillas nike"
  {
    ExampleRemoved();
    ExampleTrimmed();
  }

  lemma ExampleRemoved()
    ensures Contains("buscar zapatillas nike", "buscar")
    ensures ReplaceFirst("buscar zapatillas nike", "buscar", "") == " zapatillas nike"
  {
    var lower := "buscar zapatillas nike";
    assert OccursAt(lower, "buscar", 0);
    assert lower[6..] == " zapatillas nike";
  }

  lemma ExampleTrimmed()
    ensures Trim(" zapatillas nike") == "zapatillas nike"
  {
    var removed := " zapatillas nike";
    assert IsSpace(removed[0]) && !IsSpace(removed[1..][0]);
    assert TrimStart(removed) == "zapatillas nike";
    assert TrimEnd("zapatillas nike") == "zapatillas nike";
  }

  // ---------------------------------------------------------------------
  // simulateAssistantResponse
  // ---------------------------------------------------------------------

  const FilterReply := "He aplicado los filtros solicitados." + " Aquí están los resultados filtrados."

  const CompareReply := "He preparado una comparación" + " de los productos solicitados." +
    " Puedes ver los detalles lado a lado."

  const DetailsReply := "Aquí tienes los detalles completos" + " del producto solicitado."

  const GenericReply := "Puedo ayudarte a buscar productos," + " aplicar filtros, ver detalles o" +
    " comparar productos. ¿Qué te gustaría hacer?"

  function SearchReply(term: string): string {
    "Estoy buscando \"" + term + "\" para ti. Aquí tienes los resultados."
  }

  /** The reply to the last message of the conversation, chosen by its own
      chain of keyword tests. The conversation always holds the message
      being answered. */
  function SimulateAssistantResponse(messages: seq<Message>): (reply: string)
    requires |messages| > 0
    ensures var lower := Lower(messages[|messages| - 1].content);
      && (Contains(lower, "buscar") ==> reply == SearchReply(SearchTerm(lower)))
      && (!Contains(lower, "buscar") ==>
            reply in {FilterReply, CompareReply, DetailsReply, GenericReply})
  {
    var userMessage := Lower(messages[|messages| - 1].content);
    if Contains(userMessage, "buscar") then
      SearchReply(Trim(ReplaceFirst(userMessage, "buscar", "")))
    else if Contains(userMessage, "filtrar") || Contains(userMessage, "filtro") then
      FilterReply
    else if Contains(userMessage, "comparar") then
      CompareReply
    else if Contains(userMessage, "detalles") || Contains(userMessage, "producto") then
      DetailsReply
    else
      GenericReply
  }

  /** The name of the function each intent calls. */
  function IntentName(i: Intent): string {
    match i
    case SearchIntent => "search_products"
    case FilterIntent => "apply_filters"
    case CompareIntent => "compare_products"
    case DetailsIntent => "get_product_details"
  }

  /** The reply of each branch. */
  function ReplyFor(i: Intent, term: string): string {
    match i
    case SearchIntent => SearchReply(term)
    case FilterIntent => FilterReply
    case CompareIntent => CompareReply
    case DetailsIntent => DetailsReply
  }

  /** The two chains agree: the reply is the generic sentence exactly when
      no function is called, and otherwise the function called and the
      sentence returned belong to the same branch. */
  lemma ReplyAgreesWithClassifier(messages: seq<Message>)
    requires |messages| > 0
    ensures var content := messages[|messages| - 1].content;
      var lower := Lower(content);
      && (SimulateAssistantResponse(messages) == GenericReply <==> Classify(content).None?)
      && (Classify(content).Some? ==>
            && IntentOf(lower).Some?
            && Classify(content).value.name == IntentName(IntentOf(lower).value)
            && SimulateAssistantResponse(messages) == ReplyFor(IntentOf(lower).value, SearchTerm(lower)))
  {
    var content := messages[|messages| - 1].content;
    var lower := Lower(content);
    var reply := SimulateAssistantResponse(messages);
    assert GenericReply[0] == 'P';
    match IntentOf(lower)
    case None =>
      assert reply == GenericReply && Classify(content).None?;
    case Some(SearchIntent) =>
      assert reply == SearchReply(SearchTerm(lower)) && reply[0] == 'E';
      assert Classify(content) == Some(SearchCall(QueryOf(lower)));
    case Some(FilterIntent) =>
      assert reply == FilterReply && reply[0] == 'H';
      assert Classify(content) == Some(FilterCall(PriceFilters(lower) + BrandFilter(lower)));
    case Some(CompareIntent) =>
      assert reply == CompareReply && reply[0] == 'H';
      assert Classify(content) == Some(CompareCall);
    case Some(DetailsIntent) =>
      assert reply == DetailsReply && reply[0] == 'A';
      assert Classify(content) == Some(DetailsCall);
  }

  /** The search reply quotes the same term that becomes the query, except
      for a bare "buscar": then the reply quotes the empty string while the
      query falls back to "productos". */
  lemma SearchReplyQuotesQuery(messages: seq<Message>)
    requires |messages| > 0
    requires Contains(Lower(messages[|messages| - 1].content), "buscar")
    ensures var content := messages[|messages| - 1].content;
      var q := Classify(content).value.arguments["query"].s;
      && (SearchTerm(Lower(content)) != "" ==> SimulateAssistantResponse(messages) == SearchReply(q))
      && (SearchTerm(Lower(content)) == "" ==>
            q == "productos" && SimulateAssistantResponse(messages) == SearchReply(""))
  {
  }
}
