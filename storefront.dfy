/** Facts that span the client and the backend: what the server's checks
    make of the requests the client actually builds. The order route is
    mounted behind `authMiddleware` (backend/main.go:103-106). */
module Storefront {
  import opened Common
  import opened Types
  import opened Http
  import Store
  import Session
  import Auth
  import Western
  import Handlers

  /** `r.Header.Get("Authorization")`: a missing header reads as "". */
  function HeaderValue(authorization: Option<string>): string
  {
    authorization.GetOr("")
  }

  /** The checkout request carries no credentials, so the order route's
      middleware turns every one of them away before `CreateOrder` runs. */
  lemma CheckoutRequestIsUnauthorized(lines: seq<CartLine>, validate: string -> Option<Claims>)
    ensures Auth.AuthMiddleware(HeaderValue(Store.CheckoutRequest(lines).authorization), validate)
         == Auth.Deny(StatusUnauthorized, "Authorization header required")
  {
  }

  /** The start-up check's header reaches token validation with the stored
      token exactly when that token has no blank in it. */
  lemma StartupHeaderReachesValidation(token: string)
    ensures Auth.ParseAuthHeader(Session.BearerHeader(token)) == Auth.BearerToken(token) <==> ' ' !in token
  {
    Auth.BearerAcceptedIff(Session.BearerHeader(token), token);
  }

  /** A product stored with a misspelt category passes `CreateProduct` and
      then never appears on the western page. */
  lemma MisfiledProductIsHidden(p: Product, newId: int, catalog: seq<Product>)
    requires p.name != "" && p.category == "Western"
    ensures Handlers.CreateProduct(Some(p), Some(newId)).Json?
    ensures p.(id := newId) !in Western.WesternProducts(catalog)
  {
    assert p.category[0] != Types.Western[0];
  }

  /** One checkout against the real order route: the middleware's 401 comes
      back as the response body, the alert shows it, and the cart is kept. */
  method CheckoutAgainstBackend(app: Store.App, validate: string -> Option<Claims>)
    returns (sent: Option<Store.OrderRequest>, alert: Option<string>)
    requires app.Valid()
    requires app.lines != []
    modifies app
    ensures app.Valid()
    ensures app.lines == old(app.lines)
    ensures alert == Some("Checkout failed: " + ErrorBody("Authorization header required"))
  {
    var request := Store.CheckoutRequest(app.lines);
    var gate := Auth.AuthMiddleware(HeaderValue(request.authorization), validate);
    CheckoutRequestIsUnauthorized(app.lines, validate);
    sent, alert := app.Checkout(Store.NotOk(ErrorBody(gate.message)));
  }
}
