/**
 * The server-side "orders" collection, keyed by order id. The payment
 * handler writes whole orders; the webhook writes only a status field with
 * merge semantics, so a status can land on an id that holds no order yet.
 */
module Orders {
  import opened Wrappers
  import opened Types

  /** A stored order document: a whole order, or a status field alone. */
  datatype OrderDoc = Full(order: Order) | StatusOnly(status: OrderStatus)

  function StatusOf(d: OrderDoc): OrderStatus {
    match d
    case Full(o) => o.status
    case StatusOnly(s) => s
  }

  /**
   * `setDoc(ref, { status }, { merge: true })`: the document under `id` gets
   * status `s`, every other field of a stored order stays, and every other
   * document is untouched.
   */
  function WithStatus(docs: map<string, OrderDoc>, id: string, s: OrderStatus): (r: map<string, OrderDoc>)
    ensures r.Keys == docs.Keys + {id}
    ensures StatusOf(r[id]) == s
    ensures id in docs && docs[id].Full? ==> r[id] == Full(docs[id].order.(status := s))
    ensures id !in docs || docs[id].StatusOnly? ==> r[id] == StatusOnly(s)
    ensures forall k :: k in docs && k != id ==> r[k] == docs[k]
  {
    if id in docs && docs[id].Full? then docs[id := Full(docs[id].order.(status := s))]
    else docs[id := StatusOnly(s)]
  }

  /** Writing the same status twice leaves the collection as writing it once. */
  lemma WithStatusIdempotent(docs: map<string, OrderDoc>, id: string, s: OrderStatus)
    ensures WithStatus(WithStatus(docs, id, s), id, s) == WithStatus(docs, id, s)
  {
    var once := WithStatus(docs, id, s);
    if id in docs && docs[id].Full? {
      assert once[id].order == docs[id].order.(status := s);
      assert once[id].order.(status := s) == once[id].order;
    }
  }

  /** The collection, updated in place by the serverless handlers. */
  class OrderStore {
    var docs: map<string, OrderDoc>

    constructor(initial: map<string, OrderDoc>)
      ensures docs == initial
    {
      docs := initial;
    }

    /** `setDoc(doc(db, "orders", order.id), order)`: the whole order replaces the document. */
    method SetOrder(order: Order)
      modifies this
      ensures docs == old(docs)[order.id := Full(order)]
    {
      docs := docs[order.id := Full(order)];
    }

    /** `updateOrderStatusInFirestore(id, s)`: a merge write of the status alone. */
    method SetStatus(id: string, s: OrderStatus)
      modifies this
      ensures docs == WithStatus(old(docs), id, s)
    {
      docs := WithStatus(docs, id, s);
    }
  }
}
