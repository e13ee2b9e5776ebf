/** The REST handlers of backend/internal/handlers/handlers.go, reduced to
    the decisions they take: which status they answer for which input and
    which fields of the decoded record they overwrite. The JSON decoder is
    an input (`None` when the body does not decode) and every repository
    call is an oracle whose answer is a parameter. */
module Handlers {
  import opened Common
  import opened Types
  import opened Http

  // ---- strconv.Atoi -------------------------------------------------------

  const MaxInt: int := 0x7fff_ffff_ffff_ffff
  const MinInt: int := -0x8000_0000_0000_0000

  predicate IsDigit(c: char)
  {
    '0' <= c <= '9'
  }

  predicate AllDigits(s: string)
  {
    forall k :: 0 <= k < |s| ==> IsDigit(s[k])
  }

  /** The value of a run of decimal digits, read left to right. */
  function DigitsValue(s: string): nat
    requires AllDigits(s)
  {
    if s == [] then 0
    else DigitsValue(s[..|s| - 1]) * 10 + (s[|s| - 1] as int - '0' as int)
  }

  /** `strconv.Atoi` for a 64-bit `int`: an optional sign, then at least one
      decimal digit and nothing else, within the range of the type. */
  function Atoi(s: string): (r: Option<int>)
    ensures r.Some? ==> MinInt <= r.value <= MaxInt
    ensures s == "" ==> r.None?
  {
    var neg := |s| > 0 && s[0] == '-';
    var body := if |s| > 0 && (s[0] == '+' || s[0] == '-') then s[1..] else s;
    if body == [] || !AllDigits(body) then None
    else
      var v := if neg then -(DigitsValue(body) as int) else DigitsValue(body);
      if MinInt <= v <= MaxInt then Some(v) else None
  }

  /** Decimal rendering of a natural number. */
  function ShowNat(n: nat): (s: string)
    ensures AllDigits(s) && |s| >= 1
  {
    if n < 10 then [('0' as int + n) as char]
    else ShowNat(n / 10) + [('0' as int + n % 10) as char]
  }

  /** Decimal rendering of an integer, with a leading `-` when negative. */
  function ShowInt(n: int): string
  {
    if n < 0 then "-" + ShowNat(-n) else ShowNat(n)
  }

  lemma {:induction false} DigitsValueShowNat(n: nat)
    ensures DigitsValue(ShowNat(n)) == n
  {
    if n >= 10 {
      DigitsValueShowNat(n / 10);
      var s := ShowNat(n);
      assert s[..|s| - 1] == ShowNat(n / 10);
    }
  }

  /** Every in-range integer written in decimal parses back to itself. */
  lemma AtoiShowInt(n: int)
    requires MinInt <= n <= MaxInt
    ensures Atoi(ShowInt(n)) == Some(n)
  {
    if n < 0 {
      DigitsValueShowNat(-n);
      assert ShowInt(n)[1..] == ShowNat(-n);
    } else {
      DigitsValueShowNat(n);
      var s := ShowNat(n);
      assert IsDigit(s[0]);
    }
  }

  /** Path segments that are not integers. */
  lemma AtoiRejects()
    ensures Atoi("abc") == None && Atoi("-") == None && Atoi("1.5") == None && Atoi("12 ") == None
  {
    assert !IsDigit("abc"[0]);
    assert !IsDigit("1.5"[1]);
    assert !IsDigit("12 "[2]);
  }

  // ---- Products -----------------------------------------------------------

  /** What `repository.FetchProductByID` returned. */
  datatype ProductFetch = Found(product: Product) | NoRows | QueryFailed

  /** `GetProduct`: the product is looked up by the parsed path id. */
  function GetProduct(idVar: string, fetch: int -> ProductFetch): (reply: Reply<Product>)
    ensures Atoi(idVar).None? ==> reply == HttpError(StatusBadRequest, "Invalid product ID")
    ensures Atoi(idVar).Some? ==> match fetch(Atoi(idVar).value)
      case Found(p) => reply == Json(StatusOK, p)
      case NoRows => reply == HttpError(StatusNotFound, "Product not found")
      case QueryFailed => reply == HttpError(StatusInternalServerError, "Internal Server Error")
  {
    match Atoi(idVar)
    case None => HttpError(StatusBadRequest, "Invalid product ID")
    case Some(id) =>
      match fetch(id)
      case NoRows => HttpError(StatusNotFound, "Product not found")
      case QueryFailed => HttpError(StatusInternalServerError, "Internal Server Error")
      case Found(p) => Json(StatusOK, p)
  }

  /** `CreateProduct`: only name and category are required, and the
      category is not checked against the two valid tags. `insertedId` is
      the id the insert assigned, `None` if it failed. */
  function CreateProduct(decoded: Option<Product>, insertedId: Option<int>): (reply: Reply<Product>)
    ensures reply.Json? <==> decoded.Some? && decoded.value.name != "" && decoded.value.category != "" && insertedId.Some?
    ensures reply.Json? ==> reply == Json(StatusCreated, decoded.value.(id := insertedId.value))
    ensures decoded.Some? && (decoded.value.name == "" || decoded.value.category == "") ==>
      reply == HttpError(StatusBadRequest, "Name and category are required")
  {
    if decoded.None? then HttpError(StatusBadRequest, "Invalid request body")
    else
      var product := decoded.value;
      if product.name == "" || product.category == "" then HttpError(StatusBadRequest, "Name and category are required")
      else if insertedId.None? then HttpError(StatusInternalServerError, "Failed to create product")
      else Json(StatusCreated, product.(id := insertedId.value))
  }

  /** A product whose category is not one of the two tags is still created. */
  lemma CreateProductSkipsCategoryCheck(p: Product, newId: int)
    requires p.name != "" && p.category != "" && !CategoryIsValid(p.category)
    ensures CreateProduct(Some(p), Some(newId)) == Json(StatusCreated, p.(id := newId))
  {
  }

  /** `UpdateProduct`: the id comes from the path and overrides the body's;
      an unparsable id is rejected before the body is read. */
  method UpdateProduct(idVar: string, decoded: Option<Product>, updated: bool) returns (reply: Reply<Product>)
    ensures Atoi(idVar).None? ==> reply == HttpError(StatusBadRequest, "Invalid product ID")
    ensures Atoi(idVar).Some? && decoded.None? ==> reply == HttpError(StatusBadRequest, "Invalid request body")
    ensures reply.Json? <==> Atoi(idVar).Some? && decoded.Some? && updated
    ensures reply.Json? ==> reply == Json(StatusOK, decoded.value.(id := Atoi(idVar).value))
  {
    var id := Atoi(idVar);
    if id.None? {
      return HttpError(StatusBadRequest, "Invalid product ID");
    }
    if decoded.None? {
      return HttpError(StatusBadRequest, "Invalid request body");
    }
    var product := decoded.value;
    product := product.(id := id.value);
    if !updated {
      return HttpError(StatusInternalServerError, "Failed to update product");
    }
    reply := Json(StatusOK, product);
  }

  /** `DeleteProduct`: answers 204 with no body. */
  function DeleteProduct(idVar: string, deleted: bool): (reply: Reply<()>)
    ensures reply == Json(StatusNoContent, ()) <==> Atoi(idVar).Some? && deleted
    ensures Atoi(idVar).None? ==> reply == HttpError(StatusBadRequest, "Invalid product ID")
    ensures Atoi(idVar).Some? && !deleted ==> reply == HttpError(StatusInternalServerError, "Failed to delete product")
  {
    if Atoi(idVar).None? then HttpError(StatusBadRequest, "Invalid product ID")
    else if !deleted then HttpError(StatusInternalServerError, "Failed to delete product")
    else Json(StatusNoContent, ())
  }

  // ---- Feedback -----------------------------------------------------------

  predicate FeedbackComplete(f: Feedback)
  {
    f.name != "" && f.email != "" && f.comment != "" && f.productId.Some? && f.productName != ""
  }

  /** `SubmitFeedback`: required fields first, then the rating range.
      `savedId` is the id the insert assigned, `None` if it failed. */
  function SubmitFeedback(decoded: Option<Feedback>, savedId: Option<int>): (reply: Reply<Feedback>)
    ensures reply.Json? <==> decoded.Some? && FeedbackComplete(decoded.value) &&
                             1 <= decoded.value.rating <= 5 && savedId.Some?
    ensures reply.Json? ==> reply == Json(StatusCreated, decoded.value.(id := savedId.value))
    ensures decoded.Some? && !FeedbackComplete(decoded.value) ==>
      reply == HttpError(StatusBadRequest, "Name, email, comment, product ID, and product name are required")
    ensures decoded.Some? && FeedbackComplete(decoded.value) && !(1 <= decoded.value.rating <= 5) ==>
      reply == HttpError(StatusBadRequest, "Rating must be between 1 and 5")
  {
    if decoded.None? then HttpError(StatusBadRequest, "Invalid request body")
    else
      var f := decoded.value;
      if f.name == "" || f.email == "" || f.comment == "" || f.productId.None? || f.productName == "" then
        HttpError(StatusBadRequest, "Name, email, comment, product ID, and product name are required")
      else if f.rating < 1 || f.rating > 5 then HttpError(StatusBadRequest, "Rating must be between 1 and 5")
      else if savedId.None? then HttpError(StatusInternalServerError, "Failed to save feedback")
      else Json(StatusCreated, f.(id := savedId.value))
  }

  // ---- Orders -------------------------------------------------------------

  /** `CreateOrder`: the body is decoded before the claims are looked at;
      the owner and the status are then overwritten whatever the body said.
      `createdId` is the id the insert assigned, `None` if it failed. */
  method CreateOrder(decoded: Option<Order>, claims: Option<Claims>, createdId: Option<int>) returns (reply: Reply<Order>)
    ensures decoded.None? ==> reply == HttpError(StatusBadRequest, "Invalid request body")
    ensures decoded.Some? && claims.None? ==> reply == HttpError(StatusUnauthorized, "Unauthorized")
    ensures reply.Json? <==> decoded.Some? && claims.Some? && createdId.Some?
    ensures reply.Json? ==>
      reply.code == StatusCreated &&
      reply.body == decoded.value.(id := createdId.value, userId := claims.value.userId, status := Pending)
    ensures reply.Json? ==> IsDocumentedStatus(reply.body.status)
  {
    if decoded.None? {
      return HttpError(StatusBadRequest, "Invalid request body");
    }
    var order := decoded.value;
    if claims.None? {
      return HttpError(StatusUnauthorized, "Unauthorized");
    }
    order := order.(userId := claims.value.userId);
    order := order.(status := Pending);
    if createdId.None? {
      return HttpError(StatusInternalServerError, "Failed to create order");
    }
    order := order.(id := createdId.value);
    reply := Json(StatusCreated, order);
  }

  /** Who may read a user's orders: that user, or an admin. */
  predicate MayReadOrders(claims: Claims, userId: int)
  {
    claims.userId == userId || claims.role == Admin
  }

  /** `GetUserOrders`: `fetch` is the order query for the parsed id. */
  function GetUserOrders(idVar: string, claims: Option<Claims>, fetch: int -> Option<seq<Order>>): (reply: Reply<seq<Order>>)
    ensures Atoi(idVar).None? ==> reply == HttpError(StatusBadRequest, "Invalid user ID")
    ensures Atoi(idVar).Some? && claims.None? ==> reply == HttpError(StatusUnauthorized, "Unauthorized")
    ensures Atoi(idVar).Some? && claims.Some? && !MayReadOrders(claims.value, Atoi(idVar).value) ==>
      reply == HttpError(StatusForbidden, "Forbidden")
    ensures reply.Json? <==>
      Atoi(idVar).Some? && claims.Some? && MayReadOrders(claims.value, Atoi(idVar).value) && fetch(Atoi(idVar).value).Some?
    ensures reply.Json? ==> reply == Json(StatusOK, fetch(Atoi(idVar).value).value)
  {
    match Atoi(idVar)
    case None => HttpError(StatusBadRequest, "Invalid user ID")
    case Some(userId) =>
      if claims.None? then HttpError(StatusUnauthorized, "Unauthorized")
      else if claims.value.userId != userId && claims.value.role != Admin then HttpError(StatusForbidden, "Forbidden")
      else match fetch(userId)
        case None => HttpError(StatusInternalServerError, "Failed to fetch orders")
        case Some(orders) => Json(StatusOK, orders)
  }

  /** A customer can read only the orders filed under their own id. */
  lemma CustomerReadsOnlyOwnOrders(idVar: string, claims: Claims, fetch: int -> Option<seq<Order>>)
    requires claims.role != Admin
    requires GetUserOrders(idVar, Some(claims), fetch).Json?
    ensures Atoi(idVar) == Some(claims.userId)
  {
  }
}
