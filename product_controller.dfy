/**
 * The product handlers and their routes
 * (cmd/delivery/controllers/productController/productController.go).
 *
 * Each handler parses its inputs, calls the product store (the use case in
 * between only forwards each call), and writes one response. The store's
 * faults are parameters, one per query the call issues.
 */
module ProductController {
  import opened Wrappers
  import opened Failures
  import opened Entity
  import opened Dto
  import opened Pagination
  import opened Strconv
  import opened Http
  import opened Middleware
  import opened ProductRepository

  /** Every role may read the catalogue. */
  const ReaderRoles: seq<string> := ["customer", "reseller", "admin"]
  /** Only resellers and admins may search by stock or change products. */
  const StaffRoles: seq<string> := ["reseller", "admin"]

  const NotFound := "Product not found"
  const NoneFound := "Products not found"
  const InvalidId := "Invalid product ID"

  /**
   * The list handler's page and size: an unparsable value reads as 0, and 0
   * becomes the default (1 and 10); any other value, negative ones included,
   * is used as it is.
   */
  function ListPaging(r: Request): (p: (int, int))
    ensures p.0 != 0 && p.1 != 0
    ensures AtoiValue(Query(r, "page")) != 0 ==> p.0 == AtoiValue(Query(r, "page"))
    ensures AtoiValue(Query(r, "size")) != 0 ==> p.1 == AtoiValue(Query(r, "size"))
    ensures AtoiValue(Query(r, "page")) == 0 ==> p.0 == 1
    ensures AtoiValue(Query(r, "size")) == 0 ==> p.1 == 10
  {
    var page := AtoiValue(Query(r, "page"));
    var size := AtoiValue(Query(r, "size"));
    (if page == 0 then 1 else page, if size == 0 then 10 else size)
  }

  /** The routes `Route` registers under a group prefix. */
  function Routes(prefix: string): seq<Http.Route>
  {
    [ Http.Route(GET, prefix + GetProductsList, Some(ReaderRoles), ListProducts),
      Http.Route(GET, prefix + GetProducts, Some(ReaderRoles), GetProduct),
      Http.Route(GET, prefix + GetProductsByStocks, Some(StaffRoles), ProductsByStock),
      Http.Route(POST, prefix + PostProducts, Some(StaffRoles), CreateProduct),
      Http.Route(PUT, prefix + PutProducts, Some(StaffRoles), UpdateProduct),
      Http.Route(DELETE, prefix + DelProducts, Some(StaffRoles), DeleteProduct) ]
  }

  class ProductController {
    const store: ProductStore
    const rg: RouterGroup

    constructor (store: ProductStore, rg: RouterGroup)
      ensures this.store == store && this.rg == rg
    {
      this.store := store;
      this.rg := rg;
    }

    /**
     * Lists one page. A store error is 500; an empty page is 404 even when
     * the table has rows; otherwise the page and its descriptor.
     */
    method GetAllHandler(ctx: Context, countFault: Fault, fetchFault: Fault)
      modifies ctx
      ensures var (page, size) := ListPaging(ctx.request);
        var window := Window(store.rows, Offset(page, size), size);
        && (countFault.Some? ==> ctx.Responded(StatusInternalServerError, ErrorBody(countFault.value)))
        && (countFault.None? && fetchFault.Some? ==>
              ctx.Responded(StatusInternalServerError, ErrorBody(fetchFault.value)))
        && (countFault.None? && fetchFault.None? && window == [] ==>
              ctx.Responded(StatusNotFound, ErrorBody(NoneFound)))
        && (countFault.None? && fetchFault.None? && window != [] ==>
              ctx.Responded(StatusOK, PagedBody("Ok", ProductList(Responses(window)), PagingOf(page, size, |store.rows|))))
    {
      var page := AtoiValue(Query(ctx.request, "page"));
      var size := AtoiValue(Query(ctx.request, "size"));
      if page == 0 {
        page := 1;
      }
      if size == 0 {
        size := 10;
      }
      var products, paging, err := store.FindAll(page, size, countFault, fetchFault);
      if err.Some? {
        ctx.SendError(StatusInternalServerError, Message(err.value));
        return;
      }
      if |products.value| == 0 {
        ctx.SendError(StatusNotFound, NoneFound);
        return;
      }
      ctx.SendPaged(ProductList(products.value), paging, "Ok");
    }

    /**
     * One product. An identifier that is not an unsigned decimal is 400 before
     * the store is asked; an absent product, or identifier 0, is 404; any other
     * store error is 500.
     */
    method GetByIDHandler(ctx: Context, fault: Fault)
      modifies ctx
      ensures var parsed := ParseUint64(Param(ctx.request, "id"));
        && (!parsed.Num? ==> ctx.Responded(StatusBadRequest, ErrorBody(InvalidId)))
        && (parsed.Num? && fault.Some? ==> ctx.Responded(StatusInternalServerError, ErrorBody(fault.value)))
        && (parsed.Num? && fault.None? && (parsed.value == 0 || store.Row(parsed.value).None?) ==>
              ctx.Responded(StatusNotFound, ErrorBody(NotFound)))
        && (parsed.Num? && fault.None? && parsed.value != 0 && store.Row(parsed.value).Some? ==>
              ctx.Responded(StatusOK, SingleBody("Ok", ProductData(ProductResponse(store.Row(parsed.value).value)))))
    {
      var parsed := ParseUint64(Param(ctx.request, "id"));
      if !parsed.Num? {
        ctx.SendError(StatusBadRequest, InvalidId);
        return;
      }
      ParseUintAcceptsExactlyDecimals(Param(ctx.request, "id"));
      var id: nat := parsed.value;
      var res := store.FindByID(id, fault);
      if res.err.Some? {
        if res.err.value == RecordNotFound {
          ctx.SendError(StatusNotFound, NotFound);
        } else {
          ctx.SendError(StatusInternalServerError, Message(res.err.value));
        }
        return;
      }
      if res.value.id == 0 {
        ctx.SendError(StatusNotFound, NotFound);
        return;
      }
      ctx.SendSingle("Ok", ProductData(res.value));
    }

    /**
     * The products with a given stock. A stock Atoi refuses (syntax or range)
     * is 400; a store error 500; no match 404.
     */
    method GetByStockHandler(ctx: Context, fault: Fault)
      modifies ctx
      ensures var parsed := Atoi(Param(ctx.request, "stock"));
        && (!parsed.Num? ==> ctx.Responded(StatusBadRequest, ErrorBody("Invalid stock value")))
        && (parsed.Num? && fault.Some? ==> ctx.Responded(StatusInternalServerError, ErrorBody(fault.value)))
        && (parsed.Num? && fault.None? && WithStock(store.rows, parsed.value) == [] ==>
              ctx.Responded(StatusNotFound, ErrorBody(NoneFound)))
        && (parsed.Num? && fault.None? && WithStock(store.rows, parsed.value) != [] ==>
              ctx.Responded(StatusOK, SingleBody("Ok", ProductList(Responses(WithStock(store.rows, parsed.value))))))
    {
      var parsed := Atoi(Param(ctx.request, "stock"));
      if !parsed.Num? {
        ctx.SendError(StatusBadRequest, "Invalid stock value");
        return;
      }
      var products, err := store.FindByStock(parsed.value, fault);
      if err.Some? {
        ctx.SendError(StatusInternalServerError, Message(err.value));
        return;
      }
      if |products.value| == 0 {
        ctx.SendError(StatusNotFound, NoneFound);
        return;
      }
      ctx.SendSingle("Ok", ProductList(products.value));
    }

    /** Creates a product from the decoded body; a body that does not decode is 400 and stores nothing. */
    method CreateHandler(ctx: Context, payload: Binding<Product>, insertFault: Fault, reloadFault: Fault)
      requires store.Valid()
      modifies ctx, store
      ensures store.Valid()
      ensures payload.Malformed? ==>
        && ctx.Responded(StatusBadRequest, ErrorBody(payload.message))
        && store.rows == old(store.rows) && store.nextId == old(store.nextId)
      ensures payload.Decoded? && insertFault.Some? ==>
        && ctx.Responded(StatusInternalServerError, ErrorBody(insertFault.value))
        && store.rows == old(store.rows) && store.nextId == old(store.nextId)
      ensures payload.Decoded? && insertFault.None? ==>
        && store.rows == old(store.rows) + [payload.value.(id := old(store.nextId))]
        && store.nextId == old(store.nextId) + 1
        && (reloadFault.Some? ==> ctx.Responded(StatusInternalServerError, ErrorBody(reloadFault.value)))
        && (reloadFault.None? ==>
              ctx.Responded(StatusOK, SingleBody("Product created successfully",
                                                 ProductData(ProductResponse(payload.value.(id := old(store.nextId)))))))
    {
      if payload.Malformed? {
        ctx.SendError(StatusBadRequest, payload.message);
        return;
      }
      var created, err := store.Create(payload.value, insertFault, reloadFault);
      if err.Some? {
        ctx.SendError(StatusInternalServerError, Message(err.value));
        return;
      }
      ctx.SendSingle("Product created successfully", ProductData(created));
    }

    /**
     * Updates a product. The identifier is checked before the body; an absent
     * product is 404 and changes nothing; any other store error is 500.
     */
    method UpdateHandler(ctx: Context, payload: Binding<Product>,
                         lookupFault: Fault, updateFault: Fault, reloadFault: Fault)
      requires store.Valid()
      modifies ctx, store
      ensures store.Valid() && store.nextId == old(store.nextId)
      ensures var parsed := ParseUint64(Param(ctx.request, "id"));
        && (!parsed.Num? ==> ctx.Responded(StatusBadRequest, ErrorBody(InvalidId)) && store.rows == old(store.rows))
        && (parsed.Num? && payload.Malformed? ==>
              ctx.Responded(StatusBadRequest, ErrorBody("Invalid request payload")) && store.rows == old(store.rows))
        && (parsed.Num? && payload.Decoded? && lookupFault.Some? ==>
              ctx.Responded(StatusInternalServerError, ErrorBody(lookupFault.value)) && store.rows == old(store.rows))
        && (parsed.Num? && payload.Decoded? && lookupFault.None? && old(store.Row(parsed.value)).None? ==>
              ctx.Responded(StatusNotFound, ErrorBody(NotFound)) && store.rows == old(store.rows))
        && (parsed.Num? && payload.Decoded? && lookupFault.None? && old(store.Row(parsed.value)).Some? ==>
              var i := IndexOf(old(store.rows), parsed.value).value;
              var updated := Merged(old(store.rows)[i], payload.value);
              && (updateFault.Some? ==>
                    ctx.Responded(StatusInternalServerError, ErrorBody(updateFault.value)) && store.rows == old(store.rows))
              && (updateFault.None? ==>
                    && store.rows == old(store.rows)[i := updated]
                    && ctx.Responded(StatusOK, SingleBody("Product updated successfully", ProductData(
                         ProductResponse(if reloadFault.Some? then updated.(users := []) else updated))))))
    {
      var parsed := ParseUint64(Param(ctx.request, "id"));
      if !parsed.Num? {
        ctx.SendError(StatusBadRequest, InvalidId);
        return;
      }
      ParseUintAcceptsExactlyDecimals(Param(ctx.request, "id"));
      var id: nat := parsed.value;
      if payload.Malformed? {
        ctx.SendError(StatusBadRequest, "Invalid request payload");
        return;
      }
      var product, err := store.UpdateByID(id, payload.value, lookupFault, updateFault, reloadFault);
      if err.Some? {
        if err.value == RecordNotFound {
          ctx.SendError(StatusNotFound, NotFound);
        } else {
          ctx.SendError(StatusInternalServerError, Message(err.value));
        }
        return;
      }
      ctx.SendSingle("Product updated successfully", ProductData(product));
    }

    /**
     * Deletes a product after checking that it exists: an absent product is
     * 404 and the delete is never issued.
     */
    method DeleteHandler(ctx: Context, existsFault: Fault, deleteFault: Fault)
      requires store.Valid()
      modifies ctx, store
      ensures store.Valid() && store.nextId == old(store.nextId)
      ensures var parsed := ParseUint64(Param(ctx.request, "id"));
        && (!parsed.Num? ==> ctx.Responded(StatusBadRequest, ErrorBody(InvalidId)) && store.rows == old(store.rows))
        && (parsed.Num? && existsFault.Some? ==>
              ctx.Responded(StatusInternalServerError, ErrorBody(ExistsCheckFailed + existsFault.value))
              && store.rows == old(store.rows))
        && (parsed.Num? && existsFault.None? && old(store.Row(parsed.value)).None? ==>
              ctx.Responded(StatusNotFound, ErrorBody(NotFound)) && store.rows == old(store.rows))
        && (parsed.Num? && existsFault.None? && old(store.Row(parsed.value)).Some? && deleteFault.Some? ==>
              ctx.Responded(StatusInternalServerError, ErrorBody(deleteFault.value)) && store.rows == old(store.rows))
        && (parsed.Num? && existsFault.None? && old(store.Row(parsed.value)).Some? && deleteFault.None? ==>
              ctx.Responded(StatusOK, SuccessBody("Product deleted successfully"))
              && store.rows == WithoutId(old(store.rows), parsed.value))
    {
      var parsed := ParseUint64(Param(ctx.request, "id"));
      if !parsed.Num? {
        ctx.SendError(StatusBadRequest, InvalidId);
        return;
      }
      ParseUintAcceptsExactlyDecimals(Param(ctx.request, "id"));
      var id: nat := parsed.value;
      var found := store.ProductExists(id, existsFault);
      if found.err.Some? {
        ctx.SendError(StatusInternalServerError, Message(found.err.value));
        return;
      }
      if !found.value {
        ctx.SendError(StatusNotFound, NotFound);
        return;
      }
      var err := store.DeleteByID(id, deleteFault);
      if err.Some? {
        ctx.SendError(StatusInternalServerError, Message(err.value));
        return;
      }
      ctx.SendSuccess("Product deleted successfully");
    }

    /** Registers the six product routes with their role gates. */
    method Route()
      modifies rg
      ensures rg.routes == old(rg.routes) + Routes(rg.prefix)
    {
      rg.Handle(GET, GetProductsList, Some(ReaderRoles), ListProducts);
      rg.Handle(GET, GetProducts, Some(ReaderRoles), GetProduct);
      rg.Handle(GET, GetProductsByStocks, Some(StaffRoles), ProductsByStock);
      rg.Handle(POST, PostProducts, Some(StaffRoles), CreateProduct);
      rg.Handle(PUT, PutProducts, Some(StaffRoles), UpdateProduct);
      rg.Handle(DELETE, DelProducts, Some(StaffRoles), DeleteProduct);
    }
  }

  // ---- Properties of the handlers and the route table ----

  /** A missing or unparsable page or size gets its default. */
  lemma ListPagingDefaults(r: Request)
    ensures Atoi(Query(r, "page")).SyntaxError? ==> ListPaging(r).0 == 1
    ensures Atoi(Query(r, "size")).SyntaxError? ==> ListPaging(r).1 == 10
    ensures "page" !in r.query && "size" !in r.query ==> ListPaging(r) == (1, 10)
  {
    EmptyParsesAsZero();
  }

  /** A negative page is passed on unchanged while an unparsable size becomes 10. */
  lemma ListPagingKeepsNegatives(r: Request)
    requires Query(r, "page") == "-2" && Query(r, "size") == "abc"
    ensures ListPaging(r) == (-2, 10)
  {
    AtoiOfDecimal(-2);
    assert Decimal(2) == "2";
    assert "-" + Decimal(2) == "-2";
    assert DigitRun("abc") == 0;
    assert Atoi("abc") == SyntaxError;
  }

  /**
   * A list request past the last page is 404 although the table has rows:
   * with 25 products and size 10, page 4 is empty.
   */
  lemma PastLastPageIsEmpty(rows: seq<Product>)
    requires |rows| == 25
    ensures Window(rows, Offset(4, 10), 10) == []
    ensures PagingOf(4, 10, |rows|).totalRows == 25
  {
    OffsetExact(4, 10);
    TwentyFiveRowsMakeThreePages();
    PageBeyondLastIsEmpty(rows, 4, 10);
  }

  /**
   * Every product route has a gate; customers may only list and read
   * products, resellers and admins may do everything, and the "user" role
   * may do nothing here.
   */
  lemma RouteRoles(prefix: string)
    ensures forall route | route in Routes(prefix) ::
      && route.allowed.Some?
      && ("customer" in route.allowed.value <==> route.endpoint == ListProducts || route.endpoint == GetProduct)
      && "reseller" in route.allowed.value && "admin" in route.allowed.value
      && "user" !in route.allowed.value
  {
  }

  /** A customer's valid token is refused with 403 on the stock, create, update and delete routes. */
  lemma CustomerForbiddenOnStaffRoutes(prefix: string, route: Http.Route, authorization: string,
                                       cookie: Option<string>, parse: TokenParser)
    requires route in Routes(prefix)
    requires route.endpoint != ListProducts && route.endpoint != GetProduct
    requires TokenOf(authorization, cookie).Some?
    requires parse(TokenOf(authorization, cookie).value).err.None?
    requires parse(TokenOf(authorization, cookie).value).value.role == Some("customer")
    ensures route.allowed.Some?
    ensures Decide(authorization, cookie, parse, route.allowed.value).verdict == Denied(StatusForbidden, "Invalid role")
  {
    RouteRoles(prefix);
    ParsedTokenOutcomes(authorization, cookie, parse, route.allowed.value);
  }
}
