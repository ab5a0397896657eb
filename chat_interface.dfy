/** components/chat-interface.tsx without its rendering: how a function
    call is run and wrapped into exactly one history entry, the two
    switches that name and tag the entry, and when the send button is
    disabled. */
module ChatInterface {
  import opened Wrappers
  import opened Text
  import opened Types
  import opened Functions
  import opened Page

  // ---------------------------------------------------------------------
  // getFunctionResultType and getFunctionTitle
  // ---------------------------------------------------------------------

  /** `getFunctionResultType`: the tag of a result, chosen by the name. */
  function ResultType(name: string): (t: Tag)
    ensures name == "search_products" <==> t == Search
    ensures name == "apply_filters" <==> t == Filter
    ensures name == "get_product_details" <==> t == Product
    ensures name == "compare_products" <==> t == Chart
    ensures t != Error
  {
    match name
    case "search_products" => Search
    case "apply_filters" => Filter
    case "get_product_details" => Product
    case "compare_products" => Chart
    case _ => List
  }

  /** `getFunctionTitle`: the title of a result, from the name and the
      arguments. A name the registry does not know is quoted in the title. */
  function Title(name: string, args: Args): (t: string)
    ensures Find(Registry, name).None? ==> t == "Resultado de " + name
  {
    RegistryContents(name);
    match name
    case "search_products" => "Búsqueda: " + Stringify(Get(args, "query"))
    case "apply_filters" => "Resultados filtrados"
    case "get_product_details" => "Detalles del producto #" + Stringify(Get(args, "productId"))
    case "compare_products" => "Comparación de productos"
    case _ => "Resultado de " + name
  }

  /** Each registered name gets its own title, and the title of a search
      or a detail view quotes its argument. */
  lemma TitleCases(name: string, args: Args)
    ensures name == "search_products" ==>
      Title(name, args) == "Búsqueda: " + Stringify(Get(args, "query"))
    ensures name == "get_product_details" ==>
      Title(name, args) == "Detalles del producto #" + Stringify(Get(args, "productId"))
    ensures name == "apply_filters" ==> Title(name, args) == "Resultados filtrados"
    ensures name == "compare_products" ==> Title(name, args) == "Comparación de productos"
    ensures Find(Registry, name).None? ==> Title(name, args) == "Resultado de " + name
  {
    RegistryContents(name);
  }

  /** The detail title tells products apart: two numeric product ids give
      the same title only when they are the same id. */
  lemma DetailTitlesDistinct(a: int, b: int)
    requires Title("get_product_details", map["productId" := Num(a)]) ==
             Title("get_product_details", map["productId" := Num(b)])
    ensures a == b
  {
    var prefix := "Detalles del producto #";
    var ta := Title("get_product_details", map["productId" := Num(a)]);
    assert ta == prefix + IntToString(a);
    assert ta[|prefix|..] == IntToString(a);
    IntToStringInjective(a, b);
  }

  // ---------------------------------------------------------------------
  // handleFunctionCall, as a value
  // ---------------------------------------------------------------------

  /** The error entry: tag "error", title "Error en <name>", the message as
      its payload. */
  function ErrorEntry(name: string, message: string, id: string, timestamp: int): (r: FunctionResult)
    ensures r.tag == Error && r.data == ErrorData(message)
  {
    FunctionResult(id, Error, "Error en " + name, ErrorData(message), timestamp)
  }

  /** The one history entry a function call produces: the executor's output
      tagged and titled by the name when it succeeds, an error entry
      carrying the error's message when it throws. The clock-derived `id`
      and `timestamp` are parameters. */
  function Outcome(call: FunctionCall, id: string, timestamp: int): (r: FunctionResult)
    ensures r.id == id && r.timestamp == timestamp
    ensures ExecuteFunction(call.name, call.arguments).Success? ==>
      && r.tag == ResultType(call.name)
      && r.title == Title(call.name, call.arguments)
      && r.data == ExecuteFunction(call.name, call.arguments).value
    ensures ExecuteFunction(call.name, call.arguments).Failure? ==>
      && r.tag == Error
      && r.title == "Error en " + call.name
      && r.data == ErrorData(ExecuteFunction(call.name, call.arguments).error)
  {
    match ExecuteFunction(call.name, call.arguments)
    case Success(data) =>
      FunctionResult(id, ResultType(call.name), Title(call.name, call.arguments), data, timestamp)
    case Failure(message) => ErrorEntry(call.name, message, id, timestamp)
  }

  /** An entry is an error entry exactly when the call failed, and the tag
      of every entry matches the shape of its payload. */
  lemma OutcomeWellTagged(call: FunctionCall, id: string, timestamp: int)
    ensures Outcome(call, id, timestamp).tag == Error <==>
      ExecuteFunction(call.name, call.arguments).Failure?
    ensures WellTagged(Outcome(call, id, timestamp))
  {
    var name := call.name;
    RegistryContents(name);
    if f :| Find(Registry, name) == Some(f) {
      assert ActionName(f.execute) == name by {
        var i :| 0 <= i < |Registry| && Registry[i] == f;
      }
    }
  }

  /** No call ever produces a "list" entry: the names the tag switch does
      not know are the names the lookup does not find, and those fail. */
  lemma NeverList(call: FunctionCall, id: string, timestamp: int)
    ensures Outcome(call, id, timestamp).tag != List
  {
    RegistryContents(call.name);
  }

  // ---------------------------------------------------------------------
  // The send button
  // ---------------------------------------------------------------------

  /** `isLoading || isExecutingFunction || !input.trim()`: the send button
      is disabled exactly while a reply is loading, while a function runs,
      or when the input is only white space. */
  function SubmitDisabled(isLoading: bool, isExecutingFunction: bool, input: string): (disabled: bool)
    ensures disabled <==> isLoading || isExecutingFunction || AllSpace(input)
  {
    TrimEmptyIffAllSpace(input);
    isLoading || isExecutingFunction || Trim(input) == ""
  }

  // ---------------------------------------------------------------------
  // The chat panel
  // ---------------------------------------------------------------------

  class ChatPanel {
    var isExecutingFunction: bool
    var isLoading: bool
    var input: string

    /** The panel as first rendered: idle, with an empty input. */
    constructor ()
      ensures !isExecutingFunction && !isLoading && input == ""
    {
      isExecutingFunction := false;
      isLoading := false;
      input := "";
    }

    /** Awaiting `executeFunction`; it may only run while the panel shows
        that a function is executing. */
    method RunExecutor(name: string, args: Args) returns (r: Result<Data, string>)
      requires isExecutingFunction
      ensures r == ExecuteFunction(name, args)
    {
      r := ExecuteFunction(name, args);
    }

    /** `handleFunctionCall`: sets the executing flag, runs the function,
        hands exactly one entry, success or error, to `onAddFunctionResult`
        (the page's history), and clears the flag on both paths. */
    method HandleFunctionCall(call: FunctionCall, id: string, timestamp: int, page: Session)
      modifies this, page
      ensures page.functionResults == old(page.functionResults) + [Outcome(call, id, timestamp)]
      ensures page.currentSite == old(page.currentSite)
      ensures !isExecutingFunction
      ensures isLoading == old(isLoading) && input == old(input)
    {
      isExecutingFunction := true;

      var result := RunExecutor(call.name, call.arguments);
      match result {
        case Success(data) =>
          var functionResult := FunctionResult(
            id, ResultType(call.name), Title(call.name, call.arguments), data, timestamp);
          page.AddFunctionResult(functionResult);
        case Failure(message) =>
          page.AddFunctionResult(ErrorEntry(call.name, message, id, timestamp));
      }

      isExecutingFunction := false;
    }
  }
}
