/**
 * The storefront's use of the language model: the product list written
 * into the prompts, the advisor's recommendations, and the upsell
 * suggestion with the window that offers it. The model itself is not
 * modelled: its reply (text, missing text or an exception) and the result
 * of `JSON.parse` on that text are parameters.
 */
module Gemini {
  import opened Wrappers
  import opened Text
  import opened Types
  import opened Seqs
  import Gateway
  import Reviews

  // ---------------------------------------------------------------------------
  // The product list of the prompts

  /** "- name (Categoría: c, Precio: p, Features: f1, f2, Imagen: url)" */
  function ProductLine(p: Product): (line: string)
    ensures line == "- " + p.name + " (Categoría: " + p.category + ", Precio: " + p.price +
                    ", Features: " + Join(p.features, ", ") + ", Imagen: " + p.imageUrl + ")"
    ensures |line| >= 2 && line[..2] == "- "
  {
    "- " + p.name + " (Categoría: " + p.category + ", Precio: " + p.price +
    ", Features: " + Join(p.features, ", ") + ", Imagen: " + p.imageUrl + ")"
  }

  function ProductLines(ps: seq<Product>): (lines: seq<string>)
    ensures |lines| == |ps|
    ensures forall i :: 0 <= i < |ps| ==> lines[i] == ProductLine(ps[i])
  {
    seq(|ps|, i requires 0 <= i < |ps| => ProductLine(ps[i]))
  }

  /** The lines joined by newlines. */
  function ProductList(ps: seq<Product>): string {
    Join(ProductLines(ps), "\n")
  }

  /** No line break in any text field the line is made of. */
  predicate SingleLineFields(p: Product) {
    '\n' !in p.name && '\n' !in p.category && '\n' !in p.price && '\n' !in p.imageUrl &&
    forall k :: 0 <= k < |p.features| ==> '\n' !in p.features[k]
  }

  lemma LineHasNoBreak(p: Product)
    requires SingleLineFields(p)
    ensures '\n' !in ProductLine(p)
  {
    JoinLacks(p.features, ", ", '\n');
  }

  /**
   * The prompt's product list reads back line by line: with no line break
   * inside the fields, splitting it on newlines gives one line per product,
   * in catalog order.
   */
  lemma ProductListSplits(ps: seq<Product>)
    requires ps != []
    requires forall i :: 0 <= i < |ps| ==> SingleLineFields(ps[i])
    ensures Split(ProductList(ps), '\n') == ProductLines(ps)
  {
    var lines := ProductLines(ps);
    forall i | 0 <= i < |lines| ensures '\n' !in lines[i] {
      LineHasNoBreak(ps[i]);
    }
    SplitJoin(lines, '\n');
  }

  // ---------------------------------------------------------------------------
  // What the model gives back

  /** `generateContent`'s outcome: a response whose `text` may be missing, or an exception. */
  datatype LlmReply = Replied(text: Option<string>) | CallFailed(message: string)

  /** A value or the message of the error it was replaced by. */
  datatype Fetched<T> = Fetched(value: T) | FetchFailed(message: string)

  const AdvisorUnavailable: string :=
    "Hubo un problema al contactar a nuestro asesor de IA. Por favor, inténtalo de nuevo más tarde."

  /**
   * `getVapingRecommendation`'s result. The parsed text is None when it is
   * not an array. A missing or empty text, text that does not parse, a
   * value that is not an array and an empty array are all errors, and every
   * error reaches the caller as the same message.
   */
  function VapingRecommendation(reply: LlmReply, parse: string -> Gateway.Decoded<Option<seq<Recommendation>>>)
    : (r: Fetched<seq<Recommendation>>)
    ensures r.Fetched? <==>
      reply.Replied? && Gateway.Truthy(reply.text) && parse(reply.text.value).Decoded? &&
      parse(reply.text.value).value.Some? && |parse(reply.text.value).value.value| > 0
    ensures r.Fetched? ==> r.value == parse(reply.text.value).value.value && |r.value| > 0
    ensures r.FetchFailed? ==> r.message == AdvisorUnavailable
  {
    if reply.CallFailed? || !Gateway.Truthy(reply.text) then FetchFailed(AdvisorUnavailable)
    else
      match parse(reply.text.value)
      case Undecodable(_) => FetchFailed(AdvisorUnavailable)
      case Decoded(v) =>
        if v.None? || |v.value| == 0 then FetchFailed(AdvisorUnavailable) else Fetched(v.value)
  }

  // ---------------------------------------------------------------------------
  // The upsell suggestion

  /** The products the suggestion may come from: those whose name no cart line has, in catalog order. */
  function UpsellCandidates(cartNames: seq<string>, ps: seq<Product>): (r: seq<Product>)
    ensures forall p :: p in r <==> p in ps && p.name !in cartNames
    ensures IsSubsequence(r, ps)
  {
    Filter(ps, (p: Product) => p.name !in cartNames)
  }

  const EmptyCartText: string := "El carrito está vacío"

  /** `names.join(', ') || 'El carrito está vacío'` */
  function CartText(names: seq<string>): (t: string)
    ensures t != []
    ensures Join(names, ", ") != [] ==> t == Join(names, ", ")
    ensures Join(names, ", ") == [] ==> t == EmptyCartText
  {
    var joined := Join(names, ", ");
    if joined != [] then joined else EmptyCartText
  }

  /** An empty cart is described as empty; a cart whose first name is not empty is listed by name. */
  lemma CartTextCases(names: seq<string>)
    ensures names == [] ==> CartText(names) == EmptyCartText
    ensures names != [] && names[0] != [] ==> CartText(names) == Join(names, ", ")
  {
    if names != [] {
      JoinStartsWithFirst(names, ", ");
    }
  }

  /** A text that means "no suggestion": missing, empty, blank, or "{}" once trimmed. */
  predicate NoSuggestionText(text: Option<string>) {
    !Gateway.Truthy(text) || Trim(text.value) == "{}" || Trim(text.value) == []
  }

  /** `getUpsellSuggestion`'s result and whether the model was asked at all. */
  datatype Upsell = Upsell(asked: bool, suggestion: Option<Recommendation>)

  /**
   * `getUpsellSuggestion`. With no candidate the model is not asked and the
   * result is null. Otherwise the reply gives a suggestion only when its
   * text is not empty, blank or "{}", parses, and names a product; every
   * other outcome, exceptions included, is null, so the call never fails.
   * A field the parsed object lacks is read as "".
   */
  function UpsellSuggestion(cartNames: seq<string>, ps: seq<Product>, reply: LlmReply,
                            parse: string -> Gateway.Decoded<Recommendation>): (r: Upsell)
    ensures r.asked <==> UpsellCandidates(cartNames, ps) != []
    ensures r.suggestion.Some? <==>
      r.asked && reply.Replied? && !NoSuggestionText(reply.text) &&
      parse(reply.text.value).Decoded? && parse(reply.text.value).value.productName != []
    ensures r.suggestion.Some? ==> r.suggestion.value == parse(reply.text.value).value
  {
    if UpsellCandidates(cartNames, ps) == [] then Upsell(false, None)
    else if reply.CallFailed? || NoSuggestionText(reply.text) then Upsell(true, None)
    else
      match parse(reply.text.value)
      case Undecodable(_) => Upsell(true, None)
      case Decoded(rec) => Upsell(true, if rec.productName != [] then Some(rec) else None)
  }

  /** The names of the cart's products, as the window passes them. */
  function CartNames(cart: seq<CartItem>): (names: seq<string>)
    ensures |names| == |cart|
    ensures forall i :: 0 <= i < |cart| ==> names[i] == cart[i].product.name
  {
    seq(|cart|, i requires 0 <= i < |cart| => cart[i].product.name)
  }

  /** `allProducts.find(p => p.name === name)`; an undefined name matches nothing. */
  function FindByName(ps: seq<Product>, name: Option<string>): (r: Option<Product>)
    ensures name.None? ==> r.None?
    ensures r.Some? ==> name.Some? && r.value.name == name.value && r.value in ps
    ensures r.None? && name.Some? ==> forall k :: 0 <= k < |ps| ==> ps[k].name != name.value
  {
    if name.None? || ps == [] then None
    else if ps[0].name == name.value then Some(ps[0])
    else FindByName(ps[1..], name)
  }

  /** The product found is the first one with the name: products later in the list with the same name are never chosen. */
  lemma {:induction false} FindByNameFirst(ps: seq<Product>, k: nat, name: string)
    requires k < |ps| && ps[k].name == name
    requires forall j :: 0 <= j < k ==> ps[j].name != name
    ensures FindByName(ps, Some(name)) == Some(ps[k])
  {
    if k > 0 {
      FindByNameFirst(ps[1..], k - 1, name);
    }
  }

  /** The name the window's accept button looks up: `suggestion?.productName`. */
  function SuggestedName(suggestion: Option<Recommendation>): Option<string> {
    if suggestion.Some? then Some(suggestion.value.productName) else None
  }

  /**
   * The accept button: the first product named as suggested goes to the
   * cart, if there is one, and the window closes either way.
   */
  function AcceptActions(ps: seq<Product>, suggestion: Option<Recommendation>): (actions: seq<Reviews.Action>)
    ensures |actions| >= 1 && actions[|actions| - 1] == Reviews.CloseWindow
    ensures FindByName(ps, SuggestedName(suggestion)).None? ==> actions == [Reviews.CloseWindow]
    ensures FindByName(ps, SuggestedName(suggestion)).Some? ==>
      actions == [Reviews.Cart(AddToCart(FindByName(ps, SuggestedName(suggestion)).value)), Reviews.CloseWindow]
  {
    match FindByName(ps, SuggestedName(suggestion))
    case None => [Reviews.CloseWindow]
    case Some(p) => [Reviews.Cart(AddToCart(p)), Reviews.CloseWindow]
  }

  /** A suggested name no product has adds nothing to the cart. */
  lemma UnknownSuggestionAddsNothing(ps: seq<Product>, rec: Recommendation)
    requires forall k :: 0 <= k < |ps| ==> ps[k].name != rec.productName
    ensures AcceptActions(ps, Some(rec)) == [Reviews.CloseWindow]
  {
  }

  /** The upsell window. */
  class UpsellModal {
    var suggestion: Option<Recommendation>
    var loading: bool

    constructor()
      ensures suggestion == None && loading
    {
      suggestion := None;
      loading := true;
    }

    /**
     * The fetch effect: it runs only when there are products, asks for a
     * suggestion with the cart's product names and shows the result.
     */
    method Fetch(cart: seq<CartItem>, allProducts: seq<Product>, reply: LlmReply,
                 parse: string -> Gateway.Decoded<Recommendation>)
      modifies this
      ensures allProducts == [] ==> suggestion == old(suggestion) && loading == old(loading)
      ensures allProducts != [] ==>
        !loading && suggestion == UpsellSuggestion(CartNames(cart), allProducts, reply, parse).suggestion
    {
      if |allProducts| > 0 {
        loading := true;
        var result := UpsellSuggestion(CartNames(cart), allProducts, reply, parse);
        suggestion := result.suggestion;
        loading := false;
      }
    }

    /** The suggestion's details are shown once loaded, and only when a product has the suggested name. */
    predicate ShowsDetails(allProducts: seq<Product>)
      reads this
    {
      !loading && suggestion.Some? && FindByName(allProducts, SuggestedName(suggestion)).Some?
    }
  }
}
