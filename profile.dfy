/**
 * The account page: the profile editor (a working copy of the user, saved
 * through the session with a short "saving / saved" status cycle) and the
 * purchase history (newest first, one order expanded at a time).
 */
module Profile {
  import opened Wrappers
  import opened Types
  import opened Price
  import opened Seqs
  import Auth

  /** An edit in the profile form: a text field, the currency select, or a new avatar image as a data URL. */
  datatype Input = NameInput(name: string) | EmailInput(email: string) | CurrencyInput(currency: Currency) | AvatarInput(dataUrl: string)

  /** `setEditedUser(prev => ({ ...prev, [name]: value }))`: only the edited field changes. */
  function ApplyInput(u: User, input: Input): (r: User)
    ensures input.NameInput? ==> r == u.(name := input.name)
    ensures input.EmailInput? ==> r == u.(email := input.email)
    ensures input.CurrencyInput? ==> r == u.(currency := Some(input.currency))
    ensures input.AvatarInput? ==> r == u.(avatar := Some(input.dataUrl))
    ensures OrdersOf(r) == OrdersOf(u)
  {
    match input
    case NameInput(n) => u.(name := n)
    case EmailInput(e) => u.(email := e)
    case CurrencyInput(c) => u.(currency := Some(c))
    case AvatarInput(d) => u.(avatar := Some(d))
  }

  /** The whole edited user passed to `updateUser`: every field is supplied. */
  function FullPatch(u: User): (p: Auth.UserPatch)
    ensures p.name == Some(u.name) && p.email == Some(u.email) && p.avatar == Some(u.avatar)
    ensures p.currency == Some(u.currency) && p.orders == Some(u.orders)
  {
    Auth.UserPatch(Some(u.name), Some(u.email), Some(u.avatar), Some(u.currency), Some(u.orders))
  }

  /** Saving the whole edited user makes it the session's user, whatever was there. */
  lemma SaveReplacesUser(current: User, edited: User)
    ensures Auth.Merge(current, FullPatch(edited)) == edited
  {
  }

  datatype SaveStatus = Idle | Saving | Saved

  /** The profile editor, with the two timers of a save as explicit events. */
  class ProfileEditor {
    var editedUser: User
    var saveStatus: SaveStatus
    /** Armed one-second timers, each of which will show "saved". */
    var savedTimers: nat
    /** Armed two-second timers, each of which will return to idle. */
    var idleTimers: nat

    constructor(user: User)
      ensures editedUser == user && saveStatus == Idle && savedTimers == 0 && idleTimers == 0
    {
      editedUser := user;
      saveStatus := Idle;
      savedTimers := 0;
      idleTimers := 0;
    }

    method Edit(input: Input)
      modifies this
      ensures editedUser == ApplyInput(old(editedUser), input)
      ensures saveStatus == old(saveStatus) && savedTimers == old(savedTimers) && idleTimers == old(idleTimers)
    {
      editedUser := ApplyInput(editedUser, input);
    }

    /**
     * `handleSave` as intended: status "saving", the edited user handed to
     * `updateUser`, a one-second timer armed, and the same editor kept on
     * screen for the timers to update.
     */
    method Save(session: Auth.Session)
      modifies this, session
      ensures saveStatus == Saving && savedTimers == old(savedTimers) + 1 && idleTimers == old(idleTimers)
      ensures editedUser == old(editedUser)
      ensures old(session.user).Some? ==> session.user == Some(editedUser)
      ensures old(session.user).None? ==> session.user == None
      ensures session.storage == Auth.Persist(old(session.storage), session.user)
    {
      saveStatus := Saving;
      session.UpdateUser(FullPatch(editedUser));
      if old(session.user).Some? {
        SaveReplacesUser(old(session.user).value, editedUser);
      }
      savedTimers := savedTimers + 1;
    }

    /**
     * `handleSave` as the page runs it. The editor component is declared
     * inside the page's render, and the page reads the session, so the
     * session change that `updateUser` makes renders the page with a new
     * editor type: the editor is replaced by a fresh one, idle and holding
     * the saved user. The armed timer belongs to the replaced editor and
     * changes nothing shown.
     */
    method SaveAsWritten(session: Auth.Session)
      requires session.user.Some?
      modifies this, session
      ensures session.user == Some(old(editedUser))
      ensures session.storage == Auth.Persist(old(session.storage), session.user)
      ensures editedUser == session.user.value
      ensures saveStatus == Idle && savedTimers == 0 && idleTimers == 0
    {
      saveStatus := Saving;
      session.UpdateUser(FullPatch(editedUser));
      SaveReplacesUser(old(session.user).value, editedUser);
      // the page renders again and mounts a new editor
      editedUser := session.user.value;
      saveStatus := Idle;
      savedTimers := 0;
      idleTimers := 0;
    }

    /** The one-second timer fires: "saved" is shown and a two-second timer is armed. */
    method SavedTimerFires()
      requires savedTimers > 0
      modifies this
      ensures saveStatus == Saved && savedTimers == old(savedTimers) - 1 && idleTimers == old(idleTimers) + 1
      ensures editedUser == old(editedUser)
    {
      saveStatus := Saved;
      savedTimers := savedTimers - 1;
      idleTimers := idleTimers + 1;
    }

    /** The two-second timer fires: back to idle. */
    method IdleTimerFires()
      requires idleTimers > 0
      modifies this
      ensures saveStatus == Idle && idleTimers == old(idleTimers) - 1 && savedTimers == old(savedTimers)
      ensures editedUser == old(editedUser)
    {
      saveStatus := Idle;
      idleTimers := idleTimers - 1;
    }
  }

  /** As intended, one save from an idle editor goes idle, saving, saved, idle, with no timer left. */
  method SaveCycle(editor: ProfileEditor, session: Auth.Session) returns (seen: seq<SaveStatus>)
    requires editor.saveStatus == Idle && editor.savedTimers == 0 && editor.idleTimers == 0
    modifies editor, session
    ensures seen == [Idle, Saving, Saved, Idle]
    ensures editor.saveStatus == Idle && editor.savedTimers == 0 && editor.idleTimers == 0
  {
    seen := [editor.saveStatus];
    editor.Save(session);
    seen := seen + [editor.saveStatus];
    editor.SavedTimerFires();
    seen := seen + [editor.saveStatus];
    editor.IdleTimerFires();
    seen := seen + [editor.saveStatus];
  }

  /**
   * One save from an idle editor, as the page runs it: the status shown
   * goes from idle to idle, and neither "saving" nor "saved" is ever shown,
   * because no timer of the editor on screen is armed.
   */
  method SaveCycleAsWritten(editor: ProfileEditor, session: Auth.Session) returns (seen: seq<SaveStatus>)
    requires editor.saveStatus == Idle && editor.savedTimers == 0 && editor.idleTimers == 0
    requires session.user.Some?
    modifies editor, session
    ensures seen == [Idle, Idle]
    ensures Saving !in seen && Saved !in seen
    ensures editor.savedTimers == 0 && editor.idleTimers == 0
  {
    seen := [editor.saveStatus];
    editor.SaveAsWritten(session);
    seen := seen + [editor.saveStatus];
  }

  /** The purchases tab: the empty-history notice, or the orders listed newest first. */
  datatype History = NoPurchases | Listed(orders: seq<Order>)

  function HistoryOf(u: User): (h: History)
    ensures h == NoPurchases <==> OrdersOf(u) == []
    ensures h.Listed? ==> h.orders == Reverse(OrdersOf(u))
  {
    if OrdersOf(u) == [] then NoPurchases else Listed(Reverse(OrdersOf(u)))
  }

  /** The order added last is listed first, and the earlier ones follow newest first. */
  lemma NewestFirst(u: User, order: Order)
    ensures HistoryOf(Auth.WithOrder(u, order)) == Listed([order] + Reverse(OrdersOf(u)))
  {
    var all := OrdersOf(u) + [order];
    var r := Reverse(all);
    assert forall k :: 0 <= k < |r| ==> r[k] == ([order] + Reverse(OrdersOf(u)))[k];
  }

  /** A line of an order's details: the price read as the catalog page reads it, times the quantity. */
  function DetailAmount(item: OrderItem): Option<real> {
    LineAmount(UnitPrice(item.product.price), item.quantity)
  }

  /** For a catalog-formatted price the details show the amount times the quantity. */
  lemma DetailAmountOfFormat(item: OrderItem, n: nat)
    requires item.product.price == FormatPrice(n) && n < 1_000_000
    ensures DetailAmount(item) == LineAmount(Some(n as real), item.quantity)
  {
    UnitPriceOfFormat(n);
  }

  /** The purchase list's expanded order. */
  class PurchasesHistory {
    var expandedOrderId: Option<string>

    constructor()
      ensures expandedOrderId == None
    {
      expandedOrderId := None;
    }

    predicate IsExpanded(id: string)
      reads this
    {
      expandedOrderId == Some(id)
    }

    /** `toggleOrderDetails(id)`: the expanded order collapses; any other order expands alone. */
    method Toggle(id: string)
      modifies this
      ensures forall k :: IsExpanded(k) <==> k == id && !old(IsExpanded(id))
    {
      expandedOrderId := if expandedOrderId == Some(id) then None else Some(id);
    }
  }
}
