/**
 * The storefront's top-level state: the current view, the catalog filters,
 * the product list, the hidden five-click entry to the admin login, order
 * placement, review submission and the admin gate; and the FAQ accordion.
 */
module Catalog {
  import opened Wrappers
  import opened Text
  import opened Types
  import opened Price
  import opened Seqs
  import Auth

  datatype View = ShopView | CheckoutView | ConfirmationView | ProfileView | AdminLoginView | AdminPanelView

  /** What the page renders: the age gate and the intro come before any view. */
  datatype Screen = AgeGate | Intro | AdminLoginScreen | AdminPanelScreen | Main(view: View)

  /** The filters of the product list; a filter that is null or "" is unset. */
  datatype Filters = Filters(category: Option<string>, brand: Option<string>, ceiling: int)

  predicate Unset(f: Option<string>) {
    f.None? || f.value == []
  }

  /** `name.toUpperCase().includes(brand.toUpperCase())` */
  predicate BrandMatch(name: string, brand: string) {
    Contains(Upper(name), Upper(brand))
  }

  /**
   * A product passes when the category filter is unset or equal to its
   * category, the brand filter is unset or found in its name ignoring case,
   * and its price reads as a number no greater than the ceiling (NaN never
   * compares as smaller).
   */
  predicate Passes(p: Product, f: Filters) {
    && (Unset(f.category) || p.category == f.category.value)
    && (Unset(f.brand) || BrandMatch(p.name, f.brand.value))
    && PriceValue(p.price).Some? && PriceValue(p.price).value <= f.ceiling
  }

  /** `products.filter(...)`: the passing products, in catalog order. */
  function FilterProducts(ps: seq<Product>, f: Filters): (r: seq<Product>)
    ensures forall p :: p in r <==> p in ps && Passes(p, f)
    ensures IsSubsequence(r, ps)
  {
    if ps == [] then []
    else
      var rest := FilterProducts(ps[1..], f);
      assert ps == [ps[0]] + ps[1..];
      if Passes(ps[0], f) then [ps[0]] + rest else rest
  }

  /** A product whose price does not parse is never listed, whatever the filters. */
  lemma UnparseableNeverListed(ps: seq<Product>, f: Filters, p: Product)
    requires PriceValue(p.price).None?
    ensures p !in FilterProducts(ps, f)
  {
  }

  /** With no category or brand filter and a ceiling at or above every price, each parseable product is listed. */
  lemma OpenFiltersListParseable(ps: seq<Product>, ceiling: int)
    requires forall p :: p in ps && PriceValue(p.price).Some? ==> PriceValue(p.price).value <= ceiling
    ensures forall p :: p in ps && PriceValue(p.price).Some? ==> p in FilterProducts(ps, Filters(None, None, ceiling))
  {
  }

  /** Filtering twice with the same filters is filtering once. */
  lemma {:induction false} FilterIdempotent(ps: seq<Product>, f: Filters)
    ensures FilterProducts(FilterProducts(ps, f), f) == FilterProducts(ps, f)
  {
    if ps != [] {
      FilterIdempotent(ps[1..], f);
    }
  }

  /** `products.find(p => p.id === id)` */
  function FindById(ps: seq<Product>, id: int): (r: Option<nat>)
    ensures r.Some? ==> r.value < |ps| && ps[r.value].id == id
    ensures r.Some? ==> forall j :: 0 <= j < r.value ==> ps[j].id != id
    ensures r.None? ==> forall j :: 0 <= j < |ps| ==> ps[j].id != id
  {
    if ps == [] then None
    else if ps[0].id == id then Some(0)
    else
      var rest := FindById(ps[1..], id);
      if rest.None? then None else Some(rest.value + 1)
  }

  /** The product with `review` in front of its reviews (a missing list counts as empty). */
  function WithReview(p: Product, review: Review): (r: Product)
    ensures ReviewsOf(r) == [review] + ReviewsOf(p)
    ensures r == p.(reviews := r.reviews)
  {
    p.(reviews := Some([review] + ReviewsOf(p)))
  }

  /**
   * `products.map(p => p.id === id ? updated : p)`: every entry with the id
   * becomes `updated`, the others stay.
   */
  function ReplaceById(ps: seq<Product>, id: int, updated: Product): (r: seq<Product>)
    ensures |r| == |ps|
    ensures forall i :: 0 <= i < |ps| ==> r[i] == if ps[i].id == id then updated else ps[i]
  {
    seq(|ps|, i requires 0 <= i < |ps| => if ps[i].id == id then updated else ps[i])
  }

  /**
   * With unique ids, adding a review puts it in front of exactly that
   * product's reviews and leaves every other product as it was.
   */
  lemma AddReviewPrepends(ps: seq<Product>, id: int, review: Review)
    requires UniqueIds(ps)
    requires FindById(ps, id).Some?
    ensures var k := FindById(ps, id).value;
            var r := ReplaceById(ps, id, WithReview(ps[k], review));
            && ReviewsOf(r[k]) == [review] + ReviewsOf(ps[k])
            && r[k] == ps[k].(reviews := r[k].reviews)
            && forall i :: 0 <= i < |ps| && i != k ==> r[i] == ps[i]
  {
  }

  /** The number of FAQ entries. */
  const FaqCount := 6

  /** The FAQ accordion: at most one entry is open, the first one initially. */
  class Faq {
    var openIndex: Option<nat>

    predicate Valid()
      reads this
    {
      openIndex.Some? ==> openIndex.value < FaqCount
    }

    predicate IsOpen(i: nat)
      reads this
    {
      openIndex == Some(i)
    }

    constructor()
      ensures openIndex == Some(0) && Valid()
    {
      openIndex := Some(0);
    }

    /** `handleToggle(index)`: the open entry closes, any other entry opens alone. */
    method Toggle(index: nat)
      requires Valid() && index < FaqCount
      modifies this
      ensures Valid()
      ensures forall i: nat :: IsOpen(i) <==> i == index && !old(IsOpen(index))
    {
      openIndex := if openIndex == Some(index) then None else Some(index);
    }
  }

  /** The clicks that open the admin login. */
  const SecretClicks := 5

  /** The application's own state (the cart and the session live elsewhere). */
  class Storefront {
    var ageVerified: bool
    var showIntro: bool
    var view: View
    var clickCount: nat
    var clickTimerArmed: bool
    var categoryFilter: Option<string>
    var brandFilter: Option<string>
    var priceFilter: int
    var products: seq<Product>
    var orderId: Option<string>
    var adminAuthenticated: bool

    /** The click counter stays below five, and at most one of category and brand is set. */
    predicate Valid()
      reads this
    {
      && clickCount < SecretClicks
      && !(categoryFilter.Some? && brandFilter.Some?)
      && (view == ConfirmationView ==> orderId.Some?)
    }

    function CurrentFilters(): Filters
      reads this
    {
      Filters(categoryFilter, brandFilter, priceFilter)
    }

    /** The products the shop lists. */
    function Visible(): (r: seq<Product>)
      reads this
      ensures forall p :: p in r <==> p in products && Passes(p, CurrentFilters())
    {
      FilterProducts(products, CurrentFilters())
    }

    /** Start-up: the age gate is skipped when it was passed before; the price ceiling is 4000. */
    constructor(ageVerifiedBefore: bool)
      ensures ageVerified == ageVerifiedBefore && showIntro == !ageVerifiedBefore
      ensures view == ShopView && clickCount == 0 && !clickTimerArmed
      ensures categoryFilter == None && brandFilter == None && priceFilter == 4000
      ensures products == [] && orderId == None && !adminAuthenticated
      ensures Valid()
    {
      ageVerified := ageVerifiedBefore;
      showIntro := !ageVerifiedBefore;
      view := ShopView;
      clickCount := 0;
      clickTimerArmed := false;
      categoryFilter := None;
      brandFilter := None;
      priceFilter := 4000;
      products := [];
      orderId := None;
      adminAuthenticated := false;
    }

    /**
     * `handleWhatsAppSecretClick`: the fifth click in a row opens the admin
     * login and resets the count; any other click counts and re-arms the
     * two-second reset.
     */
    method SecretClick()
      requires Valid()
      modifies this
      ensures Valid()
      ensures old(clickCount) + 1 == SecretClicks ==> view == AdminLoginView && clickCount == 0 && !clickTimerArmed
      ensures old(clickCount) + 1 < SecretClicks ==> view == old(view) && clickCount == old(clickCount) + 1 && clickTimerArmed
      ensures categoryFilter == old(categoryFilter) && brandFilter == old(brandFilter) && priceFilter == old(priceFilter)
      ensures products == old(products) && orderId == old(orderId) && adminAuthenticated == old(adminAuthenticated)
      ensures ageVerified == old(ageVerified) && showIntro == old(showIntro)
    {
      var newCount := clickCount + 1;
      if newCount == SecretClicks {
        view := AdminLoginView;
        clickCount := 0;
        clickTimerArmed := false;
      } else {
        clickCount := newCount;
        clickTimerArmed := true;
      }
    }

    /** The two-second timer fires: the count goes back to zero. */
    method ClickTimeout()
      requires Valid() && clickTimerArmed
      modifies this
      ensures Valid()
      ensures clickCount == 0 && !clickTimerArmed
      ensures view == old(view) && categoryFilter == old(categoryFilter) && brandFilter == old(brandFilter)
      ensures priceFilter == old(priceFilter) && products == old(products) && orderId == old(orderId)
      ensures adminAuthenticated == old(adminAuthenticated)
      ensures ageVerified == old(ageVerified) && showIntro == old(showIntro)
    {
      clickCount := 0;
      clickTimerArmed := false;
    }

    /** `handleFilterChange`: setting one of category and brand clears the other. */
    method SetCategory(value: string)
      requires Valid()
      modifies this
      ensures Valid()
      ensures categoryFilter == Some(value) && brandFilter == None
      ensures view == old(view) && priceFilter == old(priceFilter) && products == old(products)
      ensures clickCount == old(clickCount) && clickTimerArmed == old(clickTimerArmed)
      ensures orderId == old(orderId) && adminAuthenticated == old(adminAuthenticated)
      ensures ageVerified == old(ageVerified) && showIntro == old(showIntro)
    {
      categoryFilter := Some(value);
      brandFilter := None;
    }

    method SetBrand(value: string)
      requires Valid()
      modifies this
      ensures Valid()
      ensures brandFilter == Some(value) && categoryFilter == None
      ensures view == old(view) && priceFilter == old(priceFilter) && products == old(products)
      ensures clickCount == old(clickCount) && clickTimerArmed == old(clickTimerArmed)
      ensures orderId == old(orderId) && adminAuthenticated == old(adminAuthenticated)
      ensures ageVerified == old(ageVerified) && showIntro == old(showIntro)
    {
      brandFilter := Some(value);
      categoryFilter := None;
    }

    /**
     * `fetchProducts`: the first read of the store, or, when it comes back
     * empty, the read after seeding; a read or a seeding that throws is
     * logged and leaves the list as it was. `None` stands for a thrown read.
     */
    method LoadProducts(first: Option<seq<Product>>, afterSeed: Option<seq<Product>>)
      requires Valid()
      modifies this
      ensures Valid()
      ensures first.Some? && first.value != [] ==> products == first.value
      ensures first.Some? && first.value == [] && afterSeed.Some? ==> products == afterSeed.value
      ensures first.None? || (first.value == [] && afterSeed.None?) ==> products == old(products)
      ensures categoryFilter == old(categoryFilter) && brandFilter == old(brandFilter) && priceFilter == old(priceFilter)
      ensures view == old(view) && orderId == old(orderId)
      ensures clickCount == old(clickCount) && clickTimerArmed == old(clickTimerArmed)
      ensures adminAuthenticated == old(adminAuthenticated)
      ensures ageVerified == old(ageVerified) && showIntro == old(showIntro)
    {
      if first.Some? {
        if first.value != [] {
          products := first.value;
        } else if afterSeed.Some? {
          products := afterSeed.value;
        }
      }
    }

    /** The price slider. */
    method SetPriceCeiling(value: int)
      requires Valid()
      modifies this
      ensures Valid()
      ensures priceFilter == value
      ensures categoryFilter == old(categoryFilter) && brandFilter == old(brandFilter)
      ensures view == old(view) && products == old(products) && orderId == old(orderId)
      ensures clickCount == old(clickCount) && clickTimerArmed == old(clickTimerArmed)
      ensures adminAuthenticated == old(adminAuthenticated)
      ensures ageVerified == old(ageVerified) && showIntro == old(showIntro)
    {
      priceFilter := value;
    }

    /**
     * `handleViewProduct`: the advisor's product name selects the brand
     * filter, the name's first word, when a product has exactly that name.
     */
    method ViewProduct(productName: string)
      requires Valid()
      modifies this
      ensures Valid()
      ensures (exists p :: p in products && p.name == productName) ==>
        brandFilter == Some(Split(productName, ' ')[0]) && categoryFilter == None
      ensures (forall p :: p in products ==> p.name != productName) ==>
        brandFilter == old(brandFilter) && categoryFilter == old(categoryFilter)
      ensures view == old(view) && priceFilter == old(priceFilter) && products == old(products)
      ensures clickCount == old(clickCount) && clickTimerArmed == old(clickTimerArmed)
      ensures orderId == old(orderId) && adminAuthenticated == old(adminAuthenticated)
      ensures ageVerified == old(ageVerified) && showIntro == old(showIntro)
    {
      var i := 0;
      while i < |products| && products[i].name != productName
        invariant 0 <= i <= |products|
        invariant forall j :: 0 <= j < i ==> products[j].name != productName
      {
        i := i + 1;
      }
      if i < |products| {
        SetBrand(Split(products[i].name, ' ')[0]);
      }
    }

    /**
     * `handlePlaceOrder`: the order takes the cart's lines in order, the
     * cart's total and status Pending; it is added to the user only when
     * someone is signed in; the view becomes the confirmation. The id and
     * the date are passed in.
     */
    method PlaceOrder(session: Auth.Session, newOrderId: string, date: string,
                      name: string, email: string, cart: seq<CartItem>, totalPrice: real)
      returns (order: Order)
      requires Valid() && session.Valid()
      modifies this, session
      ensures Valid() && session.Valid()
      ensures order.id == newOrderId && order.date == date
      ensures order.customerName == name && order.customerEmail == email
      ensures order.items == ItemsFromCart(cart) && order.total == totalPrice && order.status == Pending
      ensures old(session.user).Some? ==> session.user == Some(Auth.WithOrder(old(session.user).value, order))
      ensures old(session.user).None? ==> session.user == None
      ensures session.storage == Auth.Persist(old(session.storage), session.user)
      ensures orderId == Some(newOrderId) && view == ConfirmationView
      ensures products == old(products) && categoryFilter == old(categoryFilter) && brandFilter == old(brandFilter)
      ensures priceFilter == old(priceFilter) && clickCount == old(clickCount) && clickTimerArmed == old(clickTimerArmed)
      ensures adminAuthenticated == old(adminAuthenticated)
      ensures ageVerified == old(ageVerified) && showIntro == old(showIntro)
    {
      orderId := Some(newOrderId);
      order := Order(newOrderId, date, name, email, ItemsFromCart(cart), totalPrice, Pending);
      if session.IsAuthenticated() {
        session.AddOrder(order);
      }
      view := ConfirmationView;
    }

    /** `handleReturnToShop` */
    method ReturnToShop()
      requires Valid()
      modifies this
      ensures Valid()
      ensures view == ShopView && orderId == None
      ensures products == old(products) && categoryFilter == old(categoryFilter) && brandFilter == old(brandFilter)
      ensures priceFilter == old(priceFilter) && clickCount == old(clickCount) && clickTimerArmed == old(clickTimerArmed)
      ensures adminAuthenticated == old(adminAuthenticated)
      ensures ageVerified == old(ageVerified) && showIntro == old(showIntro)
    {
      view := ShopView;
      orderId := None;
    }

    /**
     * `handleAddReview`: the first product with the id gets the review in
     * front of its reviews and is sent to the store; when the store accepts
     * it, every product with that id is replaced by it. An unknown id sends
     * nothing, and a refused write changes nothing.
     */
    method AddReview(productId: int, review: Review, storeAccepts: bool) returns (written: Option<Product>)
      requires Valid()
      modifies this
      ensures Valid()
      ensures FindById(old(products), productId).None? ==> written == None && products == old(products)
      ensures FindById(old(products), productId).Some? ==>
        written == Some(WithReview(old(products)[FindById(old(products), productId).value], review))
      ensures written.Some? && storeAccepts ==> products == ReplaceById(old(products), productId, written.value)
      ensures written.Some? && !storeAccepts ==> products == old(products)
      ensures view == old(view) && categoryFilter == old(categoryFilter) && brandFilter == old(brandFilter)
      ensures priceFilter == old(priceFilter) && clickCount == old(clickCount) && clickTimerArmed == old(clickTimerArmed)
      ensures orderId == old(orderId) && adminAuthenticated == old(adminAuthenticated)
      ensures ageVerified == old(ageVerified) && showIntro == old(showIntro)
    {
      match FindById(products, productId)
      case None =>
        written := None;
      case Some(k) =>
        var updated := WithReview(products[k], review);
        written := Some(updated);
        if storeAccepts {
          products := ReplaceById(products, productId, updated);
        }
    }

    /** `handleAdminLogin`: only user "admin" with password "admin" opens the panel; otherwise an alert. */
    method AdminLogin(user: string, pass: string) returns (rejected: bool)
      requires Valid()
      modifies this
      ensures Valid()
      ensures rejected <==> !(user == "admin" && pass == "admin")
      ensures !rejected ==> adminAuthenticated && view == AdminPanelView
      ensures rejected ==> adminAuthenticated == old(adminAuthenticated) && view == old(view)
      ensures products == old(products) && categoryFilter == old(categoryFilter) && brandFilter == old(brandFilter)
      ensures priceFilter == old(priceFilter) && clickCount == old(clickCount) && clickTimerArmed == old(clickTimerArmed)
      ensures orderId == old(orderId)
      ensures ageVerified == old(ageVerified) && showIntro == old(showIntro)
    {
      if user == "admin" && pass == "admin" {
        adminAuthenticated := true;
        view := AdminPanelView;
        rejected := false;
      } else {
        rejected := true;
      }
    }

    /** `handleAdminLogout` */
    method AdminLogout()
      requires Valid()
      modifies this
      ensures Valid()
      ensures !adminAuthenticated && view == ShopView
      ensures products == old(products) && categoryFilter == old(categoryFilter) && brandFilter == old(brandFilter)
      ensures priceFilter == old(priceFilter) && clickCount == old(clickCount) && clickTimerArmed == old(clickTimerArmed)
      ensures orderId == old(orderId)
      ensures ageVerified == old(ageVerified) && showIntro == old(showIntro)
    {
      adminAuthenticated := false;
      view := ShopView;
    }

    /** `handleAgeVerify` (the flag is also kept in local storage, not modelled) */
    method VerifyAge()
      requires Valid()
      modifies this
      ensures Valid()
      ensures ageVerified && showIntro == old(showIntro) && view == old(view)
      ensures products == old(products) && categoryFilter == old(categoryFilter) && brandFilter == old(brandFilter)
      ensures priceFilter == old(priceFilter) && clickCount == old(clickCount) && clickTimerArmed == old(clickTimerArmed)
      ensures orderId == old(orderId) && adminAuthenticated == old(adminAuthenticated)
    {
      ageVerified := true;
    }

    /** `handleIntroFinish` */
    method FinishIntro()
      requires Valid()
      modifies this
      ensures Valid()
      ensures !showIntro && ageVerified == old(ageVerified) && view == old(view)
      ensures products == old(products) && categoryFilter == old(categoryFilter) && brandFilter == old(brandFilter)
      ensures priceFilter == old(priceFilter) && clickCount == old(clickCount) && clickTimerArmed == old(clickTimerArmed)
      ensures orderId == old(orderId) && adminAuthenticated == old(adminAuthenticated)
    {
      showIntro := false;
    }

    /**
     * Rendering: the age gate, then the intro, then the admin screens; the
     * admin panel view without an admin login falls back to the login.
     */
    method Render() returns (screen: Screen)
      requires Valid()
      modifies this
      ensures Valid()
      ensures !ageVerified ==> screen == AgeGate
      ensures ageVerified && showIntro ==> screen == Intro
      ensures ageVerified && !showIntro && old(view) == AdminLoginView ==> screen == AdminLoginScreen
      ensures ageVerified && !showIntro && old(view) == AdminPanelView && adminAuthenticated ==> screen == AdminPanelScreen
      ensures screen == AdminPanelScreen ==> adminAuthenticated && view == AdminPanelView
      ensures ageVerified && !showIntro && old(view) == AdminPanelView && !adminAuthenticated ==>
        screen == AdminLoginScreen && view == AdminLoginView
      ensures ageVerified && !showIntro && old(view) != AdminPanelView && old(view) != AdminLoginView ==>
        screen == Main(old(view))
      ensures !(ageVerified && !showIntro && old(view) == AdminPanelView && !adminAuthenticated) ==> view == old(view)
      ensures products == old(products) && categoryFilter == old(categoryFilter) && brandFilter == old(brandFilter)
      ensures priceFilter == old(priceFilter) && clickCount == old(clickCount) && clickTimerArmed == old(clickTimerArmed)
      ensures orderId == old(orderId) && adminAuthenticated == old(adminAuthenticated)
      ensures ageVerified == old(ageVerified) && showIntro == old(showIntro)
    {
      if !ageVerified {
        return AgeGate;
      }
      if showIntro {
        return Intro;
      }
      if view == AdminLoginView {
        return AdminLoginScreen;
      }
      if view == AdminPanelView && adminAuthenticated {
        return AdminPanelScreen;
      }
      if view == AdminPanelView && !adminAuthenticated {
        view := AdminLoginView;
        return AdminLoginScreen;
      }
      return Main(view);
    }
  }
}
