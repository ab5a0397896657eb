/** The shapes of lib/types.ts: function results with their six-value tag,
    chat messages with an optional function call, and the registry entry of
    an available function. The untyped parts of the source (`data: any`,
    `Record<string, any>`) get datatypes of their own. */
module Types {
  import opened Wrappers
  import opened Text

  // ---------------------------------------------------------------------
  // Argument values (`Record<string, any>`)
  // ---------------------------------------------------------------------

  /** A value an argument record can hold: an integer, a string, an array
      of integers or a nested record. */
  datatype Value =
    | Num(n: int)
    | Str(s: string)
    | Nums(ns: seq<int>)
    | Obj(fields: map<string, Value>)

  type Args = map<string, Value>

  /** Reading a property; an absent one is `undefined`. */
  function Get(args: Args, key: string): (r: Option<Value>)
    ensures r.Some? <==> key in args
    ensures r.Some? ==> r.value == args[key]
  {
    if key in args then Some(args[key]) else None
  }

  /** Array.prototype.toString: the elements' numerals joined by commas. */
  function JoinNums(ns: seq<int>): string {
    if ns == [] then ""
    else if |ns| == 1 then IntToString(ns[0])
    else JoinNums(ns[..|ns| - 1]) + "," + IntToString(ns[|ns| - 1])
  }

  /** What a template literal `${v}` (or `String(v)`) prints for a property
      value; `None` is `undefined`. */
  function Stringify(v: Option<Value>): string {
    match v
    case None => "undefined"
    case Some(Num(n)) => IntToString(n)
    case Some(Str(s)) => s
    case Some(Nums(ns)) => JoinNums(ns)
    case Some(Obj(_)) => "[object Object]"
  }

  // ---------------------------------------------------------------------
  // Messages (lib/types.ts:11-19)
  // ---------------------------------------------------------------------

  datatype FunctionCall = FunctionCall(name: string, arguments: Args)

  datatype Role = User | Assistant | System

  datatype Message = Message(id: string, role: Role, content: string, functionCall: Option<FunctionCall>)

  // ---------------------------------------------------------------------
  // Function results (lib/types.ts:2-8)
  // ---------------------------------------------------------------------

  /** The `type` field of a result. */
  datatype Tag = Search | Filter | Product | List | Chart | Error

  /** A JavaScript number that may have become NaN. */
  datatype Number = Finite(r: real) | NaN

  /** A product as listed by a search or a filter. */
  datatype Item = Item(id: int, name: string, price: real, rating: real, image: string)

  /** A named specification line, such as Material or Peso. */
  datatype Spec = Spec(name: string, value: string)

  /** A product of a comparison; its specifications are an object in the
      source, whose keys keep their insertion order. */
  datatype ComparedProduct = ComparedProduct(
    id: int, name: string, price: real, rating: real, specifications: seq<Spec>, image: string)

  /** The payload of a result, one variant per kind of executor output. */
  datatype Data =
    | SearchData(total: int, page: int, totalPages: int, products: seq<Item>)
    | FilterData(total: int, page: int, totalPages: int, appliedFilters: Value, sortBy: string,
                 products: seq<Item>)
    | DetailData(id: Option<Value>, name: string, price: Number, rating: real, reviews: int,
                 description: string, specifications: seq<Spec>, images: seq<string>)
    | ComparisonData(compared: seq<ComparedProduct>)
    | ErrorData(error: string)

  /** A result shown in the viewer. The clock-derived `id` and `timestamp`
      are supplied by the caller. */
  datatype FunctionResult = FunctionResult(id: string, tag: Tag, title: string, data: Data, timestamp: int)

  /** The tag of a result matches the shape of its payload; a `list`
      result may carry anything. */
  predicate WellTagged(r: FunctionResult) {
    match r.tag
    case Search => r.data.SearchData?
    case Filter => r.data.FilterData?
    case Product => r.data.DetailData?
    case Chart => r.data.ComparisonData?
    case Error => r.data.ErrorData?
    case List => true
  }

  // ---------------------------------------------------------------------
  // Available functions (lib/types.ts:22-27)
  // ---------------------------------------------------------------------

  /** The declared type of a primitive parameter or record property. */
  datatype Prim = StringType | NumberType | EnumType(options: seq<string>)

  datatype Field = Field(name: string, ftype: Prim)

  /** The declared type of a top-level parameter. */
  datatype ParamType = Scalar(prim: Prim) | NumberArray | Record(fields: seq<Field>)

  datatype Param = Param(name: string, description: string, ptype: ParamType)

  /** Which `execute` routine an entry carries. */
  datatype Action = SearchProducts | ApplyFilters | GetProductDetails | CompareProducts

  datatype AvailableFunction = AvailableFunction(
    name: string, description: string, parameters: seq<Param>, execute: Action)

  predicate PrimAccepts(p: Prim, v: Value) {
    match p
    case StringType => v.Str?
    case NumberType => v.Num?
    case EnumType(options) => v.Str? && v.s in options
  }

  predicate ParamAccepts(t: ParamType, v: Value) {
    match t
    case Scalar(p) => PrimAccepts(p, v)
    case NumberArray => v.Nums?
    case Record(fields) =>
      v.Obj? &&
      forall k :: k in v.fields ==>
        exists i :: 0 <= i < |fields| && fields[i].name == k && PrimAccepts(fields[i].ftype, v.fields[k])
  }

  /** Every argument is a declared parameter and has the declared type (the
      source declares these schemas but never checks them). */
  predicate ArgsConform(args: Args, params: seq<Param>) {
    forall k :: k in args ==>
      exists i :: 0 <= i < |params| && params[i].name == k && ParamAccepts(params[i].ptype, args[k])
  }
}
