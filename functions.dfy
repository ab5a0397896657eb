/** lib/functions.ts: the fixed registry of four available functions, their
    mock executors (without the simulated delays) and `executeFunction`,
    which looks a function up by name and runs it. */
module Functions {
  import opened Wrappers
  import opened Text
  import opened Types

  // ---------------------------------------------------------------------
  // The registry
  // ---------------------------------------------------------------------

  const SearchFilterFields: seq<Field> := [
    Field("minPrice", NumberType), Field("maxPrice", NumberType),
    Field("category", StringType), Field("brand", StringType)]

  const ApplyFilterFields: seq<Field> := [
    Field("minPrice", NumberType), Field("maxPrice", NumberType),
    Field("category", StringType), Field("brand", StringType),
    Field("rating", NumberType),
    Field("sort", EnumType(["price_asc", "price_desc", "rating", "newest"]))]

  const Registry: seq<AvailableFunction> := [
    AvailableFunction(
      "search_products", "Busca productos en el sitio web actual",
      [Param("query", "Término de búsqueda", Scalar(StringType)),
       Param("filters", "Filtros opcionales para la búsqueda", Record(SearchFilterFields))],
      SearchProducts),
    AvailableFunction(
      "apply_filters", "Aplica filtros a los resultados actuales",
      [Param("filters", "Filtros para aplicar", Record(ApplyFilterFields))],
      ApplyFilters),
    AvailableFunction(
      "get_product_details", "Obtiene detalles de un producto específico",
      [Param("productId", "ID del producto", Scalar(NumberType))],
      GetProductDetails),
    AvailableFunction(
      "compare_products", "Compara varios productos",
      [Param("productIds", "IDs de los productos a comparar", NumberArray)],
      CompareProducts)]

  /** The name each routine is registered under. */
  function ActionName(a: Action): string {
    match a
    case SearchProducts => "search_products"
    case ApplyFilters => "apply_filters"
    case GetProductDetails => "get_product_details"
    case CompareProducts => "compare_products"
  }

  /** `Array.prototype.find` by name: the first entry with that name. */
  function Find(fs: seq<AvailableFunction>, name: string): (r: Option<AvailableFunction>)
    ensures r.None? <==> forall i :: 0 <= i < |fs| ==> fs[i].name != name
    ensures r.Some? ==>
      exists i :: 0 <= i < |fs| && fs[i] == r.value && r.value.name == name &&
        (forall j :: 0 <= j < i ==> fs[j].name != name)
  {
    if fs == [] then None
    else if fs[0].name == name then Some(fs[0])
    else
      var r := Find(fs[1..], name);
      assert r.Some? ==>
        exists i :: 1 <= i < |fs| && fs[i] == r.value && r.value.name == name &&
          (forall j :: 0 <= j < i ==> fs[j].name != name) by {
        if r.Some? {
          var i :| 0 <= i < |fs[1..]| && fs[1..][i] == r.value && r.value.name == name &&
            forall j :: 0 <= j < i ==> fs[1..][j].name != name;
          assert fs[i + 1] == r.value;
          forall j | 0 <= j < i + 1 ensures fs[j].name != name {
            if j > 0 { assert fs[j] == fs[1..][j - 1]; }
          }
        }
      }
      r
  }

  /** The registry holds exactly four functions with distinct names, each
      paired with its own routine, and a lookup finds a function exactly when
      its name is one of the four. */
  lemma RegistryContents(name: string)
    ensures |Registry| == 4
    ensures forall i, j :: 0 <= i < j < |Registry| ==> Registry[i].name != Registry[j].name
    ensures forall i :: 0 <= i < |Registry| ==> ActionName(Registry[i].execute) == Registry[i].name
    ensures Find(Registry, name).Some? <==>
      name in {"search_products", "apply_filters", "get_product_details", "compare_products"}
    ensures Find(Registry, name).Some? ==> Find(Registry, name).value.name == name
  {
    assert Registry[0].name == "search_products" && Registry[1].name == "apply_filters";
    assert Registry[2].name == "get_product_details" && Registry[3].name == "compare_products";
    assert "search_products"[0] == 's' && "apply_filters"[0] == 'a';
    assert "get_product_details"[0] == 'g' && "compare_products"[0] == 'c';
  }

  /** Looking up a registered routine's name finds that routine. */
  lemma FindByActionName(a: Action)
    ensures Find(Registry, ActionName(a)).Some?
    ensures Find(Registry, ActionName(a)).value.execute == a
  {
    RegistryContents(ActionName(a));
  }

  /** The TypeError a property read on `undefined` throws. */
  function ReadOfUndefined(property: string): string {
    "Cannot read properties of undefined" + " (reading '" + property + "')"
  }

  // ---------------------------------------------------------------------
  // search_products
  // ---------------------------------------------------------------------

  const ListImage := "/placeholder.svg?height=100&width=100"

  /** The five suffixes appended to the query, in result order. */
  const SearchSuffixes: seq<string> := [" Premium", " Standard", " Basic", " Pro", " Ultra"]

  function SearchProductsExec(args: Args): (d: Data)
    ensures d.SearchData? && d.total == 128 && d.page == 1 && d.totalPages == 13
    ensures |d.products| == 5
    ensures forall i :: 0 <= i < 5 ==>
      d.products[i].id == i + 1 &&
      d.products[i].name == Stringify(Get(args, "query")) + SearchSuffixes[i]
  {
    var query := Stringify(Get(args, "query"));
    SearchData(128, 1, 13, [
      Item(1, query + " Premium", 129.99, 4.5, ListImage),
      Item(2, query + " Standard", 79.99, 4.2, ListImage),
      Item(3, query + " Basic", 49.99, 3.8, ListImage),
      Item(4, query + " Pro", 199.99, 4.7, ListImage),
      Item(5, query + " Ultra", 249.99, 4.9, ListImage)])
  }

  // ---------------------------------------------------------------------
  // apply_filters
  // ---------------------------------------------------------------------

  /** Reading a property of the `filters` argument; only a record has the
      properties that matter here. */
  function FilterField(filters: Value, key: string): Option<Value> {
    if filters.Obj? && key in filters.fields then Some(filters.fields[key]) else None
  }

  /** The label for `filters.sort`. */
  function SortLabel(sort: Option<Value>): (caption: string)
    ensures sort == Some(Str("price_asc")) ==> caption == "precio ascendente"
    ensures sort == Some(Str("price_desc")) ==> caption == "precio descendente"
    ensures sort == Some(Str("rating")) ==> caption == "mejor valorados"
    ensures sort !in {Some(Str("price_asc")), Some(Str("price_desc")), Some(Str("rating"))} ==>
      caption == "más recientes"
  {
    if sort == Some(Str("price_asc")) then "precio ascendente"
    else if sort == Some(Str("price_desc")) then "precio descendente"
    else if sort == Some(Str("rating")) then "mejor valorados"
    else "más recientes"
  }

  /** The three known sort keys get distinct labels, and every other value,
      including none, reads "más recientes". */
  lemma SortLabelCases(sort: Option<Value>)
    ensures SortLabel(sort) == "más recientes" <==>
      sort !in {Some(Str("price_asc")), Some(Str("price_desc")), Some(Str("rating"))}
    ensures SortLabel(Some(Str("price_asc"))) != SortLabel(Some(Str("price_desc")))
    ensures SortLabel(Some(Str("price_asc"))) != SortLabel(Some(Str("rating")))
    ensures SortLabel(Some(Str("price_desc"))) != SortLabel(Some(Str("rating")))
  {
    assert "precio ascendente"[7] != "precio descendente"[7];
    assert "precio ascendente"[0] != "más recientes"[0];
    assert "precio descendente"[0] != "más recientes"[0];
    assert "mejor valorados"[1] != "más recientes"[1];
  }

  /** `filters.minPrice || 59.99`: a non-zero number, or else 59.99. */
  function PriceBase(minPrice: Option<Value>): (base: real)
    ensures minPrice.Some? && minPrice.value.Num? && minPrice.value.n != 0 ==>
      base == minPrice.value.n as real
    ensures !(minPrice.Some? && minPrice.value.Num? && minPrice.value.n != 0) ==> base == 59.99
  {
    match minPrice
    case Some(Num(n)) => if n != 0 then n as real else 59.99
    case _ => 59.99
  }

  /** Fails like the source when there is no `filters` argument, whose
      `sort` property it reads. */
  function ApplyFiltersExec(args: Args): (r: Result<Data, string>)
    ensures r.Failure? <==> "filters" !in args
    ensures r.Success? ==>
      var base := PriceBase(FilterField(args["filters"], "minPrice"));
      && r.value.FilterData?
      && r.value.total == 42 && r.value.page == 1 && r.value.totalPages == 5
      && r.value.appliedFilters == args["filters"]
      && r.value.sortBy == SortLabel(FilterField(args["filters"], "sort"))
      && |r.value.products| == 4
      && forall i :: 0 <= i < 4 ==>
           r.value.products[i].id == i + 1 && r.value.products[i].price == base + 20.0 * i as real
  {
    match Get(args, "filters")
    case None => Failure(ReadOfUndefined("sort"))
    case Some(filters) =>
      var base := PriceBase(FilterField(filters, "minPrice"));
      Success(FilterData(42, 1, 5, filters, SortLabel(FilterField(filters, "sort")), [
        Item(1, "Producto Filtrado 1", base, 4.5, ListImage),
        Item(2, "Producto Filtrado 2", base + 20.0, 4.2, ListImage),
        Item(3, "Producto Filtrado 3", base + 40.0, 4.8, ListImage),
        Item(4, "Producto Filtrado 4", base + 60.0, 4.0, ListImage)]))
  }

  // ---------------------------------------------------------------------
  // get_product_details
  // ---------------------------------------------------------------------

  const DetailImage := "/placeholder.svg?height=300&width=300"

  const DetailDescription :=
    "Este es un producto de alta calidad con características premium. Incluye garantía de 2 años y envío gratuito."

  /** `99.99 + productId * 10`, NaN unless the id is a number. */
  function DetailPrice(productId: Option<Value>): (price: Number)
    ensures price.Finite? <==> productId.Some? && productId.value.Num?
    ensures price.Finite? ==> price.r == 99.99 + 10.0 * productId.value.n as real
  {
    match productId
    case Some(Num(n)) => Finite(99.99 + 10.0 * n as real)
    case _ => NaN
  }

  function GetProductDetailsExec(args: Args): (d: Data)
    ensures d.DetailData? && d.id == Get(args, "productId")
    ensures d.name == "Producto Detallado " + Stringify(Get(args, "productId"))
    ensures d.rating == 4.5 && d.reviews == 128
    ensures |d.specifications| == 4 && d.specifications[0] == Spec("Material", "Aluminio")
    ensures |d.images| == 3
    ensures d.price == DetailPrice(Get(args, "productId"))
    ensures ("productId" in args && args["productId"].Num?) ==>
      d.price == Finite(99.99 + 10.0 * args["productId"].n as real)
    ensures !("productId" in args && args["productId"].Num?) ==> d.price == NaN
  {
    var productId := Get(args, "productId");
    DetailData(
      productId, "Producto Detallado " + Stringify(productId), DetailPrice(productId), 4.5, 128,
      DetailDescription,
      [Spec("Material", "Aluminio"), Spec("Dimensiones", "10 x 15 x 5 cm"),
       Spec("Peso", "250g"), Spec("Color", "Negro")],
      [DetailImage, DetailImage, DetailImage])
  }

  // ---------------------------------------------------------------------
  // compare_products
  // ---------------------------------------------------------------------

  /** JavaScript's `%`: the remainder takes the sign of the dividend. */
  function JsRem(a: int, b: int): (r: int)
    requires b > 0
    ensures a >= 0 ==> 0 <= r < b && r == a % b
    ensures a < 0 ==> -b < r <= 0 && r == -((-a) % b)
  {
    if a >= 0 then a % b else -((-a) % b)
  }

  /** The dividend is a multiple of the divisor plus `JsRem`; with the
      remainder's sign and bound stated by `JsRem`, this makes it the
      remainder of division truncated toward zero. */
  lemma JsRemTruncates(a: int, b: int)
    requires b > 0
    ensures exists q: int :: a == b * q + JsRem(a, b)
  {
    if a >= 0 {
      assert a == b * (a / b) + a % b;
    } else {
      var p := (-a) / b;
      assert -a == b * p + (-a) % b;
      assert a == b * (-p) + JsRem(a, b);
    }
  }

  function MaterialFor(id: int): string {
    if JsRem(id, 2) == 0 then "Aluminio" else "Plástico"
  }

  function ColorFor(id: int): string {
    if JsRem(id, 3) == 0 then "Negro" else if JsRem(id, 3) == 1 then "Blanco" else "Azul"
  }

  function WarrantyFor(id: int): string {
    if JsRem(id, 2) == 0 then "2 años" else "1 año"
  }

  /** The comparison entry made for one id. Its rating, `(4 + (id % 10) / 10)`
      printed with one decimal in the source, is kept as the exact real. */
  function CompareEntry(id: int): (p: ComparedProduct) {
    ComparedProduct(
      id, "Producto " + IntToString(id), 99.99 + 10.0 * id as real,
      (40 + JsRem(id, 10)) as real / 10.0,
      [Spec("Material", MaterialFor(id)), Spec("Dimensiones", "10 x 15 x 5 cm"),
       Spec("Peso", IntToString(200 + id * 50) + "g"), Spec("Color", ColorFor(id)),
       Spec("Garantía", WarrantyFor(id))],
      ListImage)
  }

  /** The specifications of a comparison entry follow the id: aluminium and
      a two-year warranty exactly for even ids, the colour by the id's
      remainder modulo 3, and a weight of 200 + 50·id grams. */
  lemma CompareEntrySpecs(id: int)
    ensures CompareEntry(id).id == id
    ensures |CompareEntry(id).specifications| == 5
    ensures CompareEntry(id).specifications[0].name == "Material"
    ensures CompareEntry(id).specifications[4].name == "Garantía"
    ensures (CompareEntry(id).specifications[0].value == "Aluminio") <==> id % 2 == 0
    ensures (CompareEntry(id).specifications[4].value == "2 años") <==> id % 2 == 0
    ensures id % 2 != 0 ==>
      && CompareEntry(id).specifications[0] == Spec("Material", "Plástico")
      && CompareEntry(id).specifications[4] == Spec("Garantía", "1 año")
    ensures CompareEntry(id).specifications[3] ==
      Spec("Color", if JsRem(id, 3) == 0 then "Negro" else if JsRem(id, 3) == 1 then "Blanco" else "Azul")
    ensures CompareEntry(id).specifications[2] == Spec("Peso", IntToString(200 + 50 * id) + "g")
    ensures id >= 0 ==> (CompareEntry(id).specifications[3].value ==
      if id % 3 == 0 then "Negro" else if id % 3 == 1 then "Blanco" else "Azul")
  {
    assert "Aluminio"[0] != "Plástico"[0];
    assert "2 años"[0] != "1 año"[0];
    assert JsRem(id, 2) == 0 <==> id % 2 == 0;
  }

  /** `productIds.map(...)`; fails like the source when there is no array to
      map over. */
  function CompareProductsExec(args: Args): (r: Result<Data, string>)
    ensures r.Success? <==> Get(args, "productIds").Some? && Get(args, "productIds").value.Nums?
    ensures r.Success? ==>
      var ids := args["productIds"].ns;
      && r.value.ComparisonData?
      && |r.value.compared| == |ids|
      && forall i :: 0 <= i < |ids| ==> r.value.compared[i] == CompareEntry(ids[i])
  {
    match Get(args, "productIds")
    case None => Failure(ReadOfUndefined("map"))
    case Some(Nums(ids)) =>
      Success(ComparisonData(seq(|ids|, i requires 0 <= i < |ids| => CompareEntry(ids[i]))))
    case Some(_) => Failure("productIds.map is not a function")
  }

  /** One product per id, in the order of the ids. */
  lemma CompareKeepsOrder(ids: seq<int>, i: int)
    requires 0 <= i < |ids|
    ensures CompareProductsExec(map["productIds" := Nums(ids)]).Success?
    ensures CompareProductsExec(map["productIds" := Nums(ids)]).value.compared[i].id == ids[i]
  {
    CompareEntrySpecs(ids[i]);
  }

  // ---------------------------------------------------------------------
  // executeFunction
  // ---------------------------------------------------------------------

  /** Runs one routine on its arguments. */
  function Execute(a: Action, args: Args): Result<Data, string> {
    match a
    case SearchProducts => Success(SearchProductsExec(args))
    case ApplyFilters => ApplyFiltersExec(args)
    case GetProductDetails => Success(GetProductDetailsExec(args))
    case CompareProducts => CompareProductsExec(args)
  }

  function NotFoundMessage(name: string): string {
    "Función \"" + name + "\" no encontrada"
  }

  /** `executeFunction`: an unknown name fails with the not-found message;
      otherwise the routine's outcome, success or error, is passed on
      unchanged. */
  function ExecuteFunction(name: string, args: Args): (r: Result<Data, string>)
    ensures Find(Registry, name).None? ==> r == Failure(NotFoundMessage(name))
    ensures Find(Registry, name).Some? ==> r == Execute(Find(Registry, name).value.execute, args)
  {
    match Find(Registry, name)
    case None => Failure(NotFoundMessage(name))
    case Some(f) => Execute(f.execute, args)
  }

  /** Only names outside the registry fail with the not-found message, and
      a registered name runs the routine registered under it. */
  lemma ExecuteFunctionDispatch(name: string, args: Args)
    ensures forall a: Action :: ActionName(a) == name ==> ExecuteFunction(name, args) == Execute(a, args)
  {
    forall a: Action | ActionName(a) == name ensures ExecuteFunction(name, args) == Execute(a, args) {
      FindByActionName(a);
    }
  }

  /** No routine ever fails with the not-found message, so that message
      marks exactly the unknown names. */
  lemma NotFoundOnlyForUnknownNames(name: string, args: Args)
    ensures ExecuteFunction(name, args) == Failure(NotFoundMessage(name)) <==> Find(Registry, name).None?
  {
    if f :| Find(Registry, name) == Some(f) {
      var m := NotFoundMessage(name);
      assert m[0] == 'F';
      var r := Execute(f.execute, args);
      match f.execute
      case ApplyFilters =>
        assert ReadOfUndefined("sort")[0] == 'C';
      case CompareProducts =>
        assert ReadOfUndefined("map")[0] == 'C';
        assert "productIds.map is not a function"[0] == 'p';
      case _ =>
    }
  }
}
