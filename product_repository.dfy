/**
 * The product repository (cmd/repository/productRepository.go) over an
 * in-memory table.
 *
 * The table holds the visible products in insertion order; the store gives
 * each new row the next identifier, so identifiers increase along the table
 * and table order is also identifier order. Each query the Go code sends to
 * the database takes a `Fault`: whether that query fails is decided outside
 * this code.
 */
module ProductRepository {
  import opened Wrappers
  import opened Failures
  import opened Entity
  import opened Dto
  import opened Pagination
  import Table

  function ProductId(p: Product): int
  {
    p.id
  }

  /** Identifiers increase along the table, as auto-increment assigns them. */
  predicate IdsIncreasing(rows: seq<Product>)
  {
    Table.Increasing(rows, ProductId)
  }

  /** The responses for a list of products, one per product, in the same order. */
  function Responses(ps: seq<Product>): seq<ProductWithUsers>
  {
    seq(|ps|, i requires 0 <= i < |ps| => ProductResponse(ps[i]))
  }

  /** The position of the row with this identifier. */
  function IndexOf(rows: seq<Product>, id: nat): Option<nat>
  {
    Table.IndexOf(rows, ProductId, id)
  }

  /** `Where("stock = ?", stock)`: the rows with that stock, in table order. */
  function WithStock(rows: seq<Product>, stock: int): (r: seq<Product>)
    ensures |r| <= |rows|
    ensures forall k :: 0 <= k < |r| ==> r[k].stock == stock
  {
    if |rows| == 0 then []
    else if rows[0].stock == stock then [rows[0]] + WithStock(rows[1..], stock)
    else WithStock(rows[1..], stock)
  }

  /** The table after deleting by identifier. */
  function WithoutId(rows: seq<Product>, id: nat): (r: seq<Product>)
    ensures |r| <= |rows|
    ensures forall k :: 0 <= k < |r| ==> r[k].id != id
  {
    if |rows| == 0 then []
    else if rows[0].id == id then WithoutId(rows[1..], id)
    else [rows[0]] + WithoutId(rows[1..], id)
  }

  /**
   * `Updates(payload)` on a stored product, for the four fields a product
   * payload carries: name, description, stock and price. A payload field left
   * at its zero value keeps the stored value; a non-zero one replaces it. The
   * stored identifier, timestamps and users are kept.
   */
  function Merged(stored: Product, payload: Product): (r: Product)
    ensures r.id == stored.id && r.users == stored.users
    ensures r.createdAt == stored.createdAt && r.updatedAt == stored.updatedAt && r.deletedAt == stored.deletedAt
  {
    stored.(
      name := if payload.name != "" then payload.name else stored.name,
      description := if payload.description != "" then payload.description else stored.description,
      stock := if payload.stock != 0 then payload.stock else stored.stock,
      price := if payload.price != 0.0 then payload.price else stored.price)
  }

  const ExistsCheckFailed := "failed to check if product exists: "

  class ProductStore {
    var rows: seq<Product>
    var nextId: nat

    ghost predicate Valid()
      reads this
    {
      && IdsIncreasing(rows)
      && (forall k :: 0 <= k < |rows| ==> 1 <= rows[k].id < nextId)
      && nextId >= 1
    }

    constructor ()
      ensures Valid() && rows == []
    {
      rows, nextId := [], 1;
    }

    /** The stored product with this identifier, if any. */
    function Row(id: nat): (r: Option<Product>)
      reads this
      ensures r.Some? <==> exists k :: 0 <= k < |rows| && rows[k].id == id
      ensures r.Some? ==> r.value in rows && r.value.id == id
    {
      var i := IndexOf(rows, id);
      if i.Some? then Some(rows[i.value]) else None
    }

    /**
     * One page of products, with the paging descriptor. A failing count or
     * fetch gives no list and the zero descriptor.
     */
    method FindAll(page: int, size: int, countFault: Fault, fetchFault: Fault)
      returns (products: Option<seq<ProductWithUsers>>, paging: Paging, err: Option<Error>)
      requires size != 0
      ensures countFault.Some? ==>
        products.None? && paging == ZeroPaging && err == FaultError(countFault)
      ensures countFault.None? && fetchFault.Some? ==>
        products.None? && paging == ZeroPaging && err == FaultError(fetchFault)
      ensures countFault.None? && fetchFault.None? ==>
        && err.None?
        && products == Some(Responses(Window(rows, Offset(page, size), size)))
        && paging == PagingOf(page, size, |rows|)
    {
      var offset := Offset(page, size);
      if countFault.Some? {
        return None, ZeroPaging, FaultError(countFault);
      }
      var total := |rows|;
      if fetchFault.Some? {
        return None, ZeroPaging, FaultError(fetchFault);
      }
      var fetched := Window(rows, offset, size);
      var out := new ProductWithUsers[|fetched|];
      for i := 0 to |fetched|
        invariant forall k :: 0 <= k < i ==> out[k] == ProductResponse(fetched[k])
      {
        out[i] := ConvertProductToResponse(fetched[i]);
      }
      assert out[..] == Responses(fetched);
      products := Some(out[..]);
      paging := Paging(page, size, total, TotalPages(total, size));
      err := None;
    }

    /** The products with exactly this stock, in table order, each converted. */
    method FindByStock(stock: int, fault: Fault) returns (products: Option<seq<ProductWithUsers>>, err: Option<Error>)
      ensures fault.Some? ==> products.None? && err == FaultError(fault)
      ensures fault.None? ==> products == Some(Responses(WithStock(rows, stock))) && err.None?
    {
      if fault.Some? {
        return None, FaultError(fault);
      }
      var found := WithStock(rows, stock);
      var out := new ProductWithUsers[|found|];
      for i := 0 to |found|
        invariant forall k :: 0 <= k < i ==> out[k] == ProductResponse(found[k])
      {
        out[i] := ConvertProductToResponse(found[i]);
      }
      assert out[..] == Responses(found);
      return Some(out[..]), None;
    }

    /**
     * Stores the payload under the next identifier, then reads it back with its
     * users. A failing read-back reports an error although the row is stored.
     */
    method Create(payload: Product, insertFault: Fault, reloadFault: Fault)
      returns (r: ProductWithUsers, err: Option<Error>)
      requires Valid()
      modifies this
      ensures Valid()
      ensures insertFault.Some? ==>
        rows == old(rows) && nextId == old(nextId) && r == EmptyProduct && err == FaultError(insertFault)
      ensures insertFault.None? ==>
        && rows == old(rows) + [payload.(id := old(nextId))]
        && nextId == old(nextId) + 1
        && (reloadFault.Some? ==> r == EmptyProduct && err == FaultError(reloadFault))
        && (reloadFault.None? ==> r == ProductResponse(payload.(id := old(nextId))) && err.None?)
    {
      if insertFault.Some? {
        return EmptyProduct, FaultError(insertFault);
      }
      var stored := payload.(id := nextId);
      rows := rows + [stored];
      nextId := nextId + 1;
      if reloadFault.Some? {
        return EmptyProduct, FaultError(reloadFault);
      }
      r := ConvertProductToResponse(stored);
      err := None;
    }

    /** The product with this identifier and its users, or the not-found error. */
    function FindByID(id: nat, fault: Fault): (r: Fallible<ProductWithUsers>)
      reads this
      ensures fault.Some? ==> r == Fallible(EmptyProduct, FaultError(fault))
      ensures fault.None? && Row(id).None? ==> r == Fallible(EmptyProduct, Some(RecordNotFound))
      ensures fault.None? && Row(id).Some? ==> r == Fallible(ProductResponse(Row(id).value), None)
    {
      if fault.Some? then Fallible(EmptyProduct, FaultError(fault))
      else match Row(id)
        case None => Fallible(EmptyProduct, Some(RecordNotFound))
        case Some(p) => Fallible(ProductResponse(p), None)
    }

    /**
     * Looks the product up, applies the payload, and reads it back with its
     * users. An absent identifier is the not-found error and changes nothing.
     */
    method UpdateByID(id: nat, payload: Product, lookupFault: Fault, updateFault: Fault, reloadFault: Fault)
      returns (r: ProductWithUsers, err: Option<Error>)
      requires Valid()
      modifies this
      ensures Valid() && nextId == old(nextId)
      ensures lookupFault.Some? ==> rows == old(rows) && r == EmptyProduct && err == FaultError(lookupFault)
      ensures lookupFault.None? && old(Row(id)).None? ==>
        rows == old(rows) && r == EmptyProduct && err == Some(RecordNotFound)
      ensures lookupFault.None? && old(Row(id)).Some? && updateFault.Some? ==>
        rows == old(rows) && r == EmptyProduct && err == FaultError(updateFault)
      ensures lookupFault.None? && old(Row(id)).Some? && updateFault.None? ==>
        var i := IndexOf(old(rows), id).value;
        var updated := Merged(old(rows)[i], payload);
        && rows == old(rows)[i := updated]
        && err.None?
        && r == ProductResponse(if reloadFault.Some? then updated.(users := []) else updated)
    {
      if lookupFault.Some? {
        return EmptyProduct, FaultError(lookupFault);
      }
      var i := IndexOf(rows, id);
      if i.None? {
        return EmptyProduct, Some(RecordNotFound);
      }
      var product := rows[i.value].(users := []);  // First without Preload: no users
      if updateFault.Some? {
        return EmptyProduct, FaultError(updateFault);
      }
      var updated := Merged(rows[i.value], payload);
      rows := rows[i.value := updated];
      product := Merged(product, payload);
      if reloadFault.None? {
        product := updated;                        // Preload("Users").First
      }
      r := ConvertProductToResponse(product);
      err := None;
    }

    /** Deletes the row with this identifier; deleting an absent one is no error. */
    method DeleteByID(id: nat, fault: Fault) returns (err: Option<Error>)
      requires Valid()
      modifies this
      ensures Valid() && nextId == old(nextId)
      ensures fault.Some? ==> rows == old(rows) && err == FaultError(fault)
      ensures fault.None? ==> rows == WithoutId(old(rows), id) && err.None?
    {
      if fault.Some? {
        return FaultError(fault);
      }
      WithoutIdKeepsOrder(rows, id);
      rows := WithoutId(rows, id);
      return None;
    }

    /** Whether a product with this identifier exists. */
    function ProductExists(id: nat, fault: Fault): (r: Fallible<bool>)
      reads this
      ensures fault.Some? ==> r == Fallible(false, Some(Failure(ExistsCheckFailed + fault.value)))
      ensures fault.None? ==> r == Fallible(Row(id).Some?, None)
    {
      if fault.Some? then Fallible(false, Some(Failure(ExistsCheckFailed + fault.value)))
      else Fallible(IndexOf(rows, id).Some?, None)
    }
  }

  // ---- Facts about the table operations ----

  /** The stock filter keeps exactly the rows with that stock. */
  lemma {:induction false} WithStockExactly(rows: seq<Product>, stock: int)
    ensures forall p :: p in WithStock(rows, stock) <==> p in rows && p.stock == stock
  {
    if |rows| > 0 {
      WithStockExactly(rows[1..], stock);
      assert rows == [rows[0]] + rows[1..];
    }
  }

  /** The stock filter keeps table order, so identifiers still increase. */
  lemma {:induction false} WithStockKeepsOrder(rows: seq<Product>, stock: int)
    requires IdsIncreasing(rows)
    ensures IdsIncreasing(WithStock(rows, stock))
  {
    if |rows| > 0 {
      WithStockKeepsOrder(rows[1..], stock);
      WithStockExactly(rows[1..], stock);
      var rest := WithStock(rows[1..], stock);
      forall k | 0 <= k < |rest| ensures rows[0].id < rest[k].id {
        assert rest[k] in rows[1..];
      }
    }
  }

  /**
   * An update replaces exactly the non-zero payload fields and keeps the rest;
   * applying the same payload twice changes nothing more, and an all-zero
   * payload changes nothing.
   */
  lemma MergedFields(stored: Product, payload: Product)
    ensures var m := Merged(stored, payload);
      && m.name == (if payload.name == "" then stored.name else payload.name)
      && m.description == (if payload.description == "" then stored.description else payload.description)
      && m.stock == (if payload.stock == 0 then stored.stock else payload.stock)
      && m.price == (if payload.price == 0.0 then stored.price else payload.price)
      && m.id == stored.id && m.createdAt == stored.createdAt && m.updatedAt == stored.updatedAt
      && m.deletedAt == stored.deletedAt && m.users == stored.users
    ensures Merged(Merged(stored, payload), payload) == Merged(stored, payload)
    ensures payload.name == "" && payload.description == "" && payload.stock == 0 && payload.price == 0.0 ==>
      Merged(stored, payload) == stored
  {
  }

  /** Deleting removes exactly the rows with that identifier and keeps the others in order. */
  lemma {:induction false} WithoutIdMembers(rows: seq<Product>, id: nat)
    ensures forall p :: p in WithoutId(rows, id) <==> p in rows && p.id != id
  {
    if |rows| > 0 {
      WithoutIdMembers(rows[1..], id);
      assert rows == [rows[0]] + rows[1..];
    }
  }

  /** Deleting keeps increasing identifiers increasing. */
  lemma {:induction false} WithoutIdKeepsOrder(rows: seq<Product>, id: nat)
    ensures forall p :: p in WithoutId(rows, id) <==> p in rows && p.id != id
    ensures IdsIncreasing(rows) ==> IdsIncreasing(WithoutId(rows, id))
  {
    WithoutIdMembers(rows, id);
    if |rows| > 0 {
      var rest := WithoutId(rows[1..], id);
      WithoutIdKeepsOrder(rows[1..], id);
      if IdsIncreasing(rows) {
        assert IdsIncreasing(rows[1..]) by {
          forall i, j | 0 <= i < j < |rows[1..]| ensures rows[1..][i].id < rows[1..][j].id {
            assert rows[1..][i] == rows[i + 1] && rows[1..][j] == rows[j + 1];
          }
        }
        forall k | 0 <= k < |rest| ensures rows[0].id < rest[k].id {
          assert rest[k] in rows[1..];
        }
      }
    }
  }

  /** With increasing identifiers, deleting an existing row shortens the table by one. */
  lemma {:induction false} DeleteRemovesOne(rows: seq<Product>, id: nat)
    requires IdsIncreasing(rows)
    ensures |WithoutId(rows, id)| == if IndexOf(rows, id).Some? then |rows| - 1 else |rows|
  {
    if |rows| > 0 {
      DeleteRemovesOne(rows[1..], id);
      if rows[0].id == id {
        assert IndexOf(rows[1..], id).None? by {
          forall k | 0 <= k < |rows[1..]| ensures rows[1..][k].id != id {
            assert rows[1..][k] == rows[k + 1];
          }
        }
      }
    }
  }
}
