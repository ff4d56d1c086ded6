/**
 * The moderation panel of the admin dashboard: a list of pending listings
 * held in the page, which the admin approves, rejects with a reason, or
 * moves to another category. The list is rendered as cards, with a
 * counter of pending listings and a message when none are left.
 */
module AdminDashboard {
  import opened Base
  import opened Strings

  /** An entry of `pendingIAs`. */
  datatype PendingIa = PendingIa(
    id: int,
    name: string,
    description: string,
    url: string,
    category: string,
    categoryId: int,
    user: string,
    date: string)

  /** An entry of `categories`. */
  datatype CategoryOption = CategoryOption(id: int, name: string)

  /** The categories the panel offers. */
  const Categories: seq<CategoryOption> := [
    CategoryOption(1, "Diseño"),
    CategoryOption(2, "Programación"),
    CategoryOption(3, "Educación"),
    CategoryOption(4, "Negocios y Gestión"),
    CategoryOption(5, "Salud"),
    CategoryOption(6, "Seguridad"),
    CategoryOption(7, "Ciencia"),
    CategoryOption(8, "Arte"),
    CategoryOption(9, "Tecnología")
  ]

  // ---------------------------------------------------------------------
  // lookups on the list

  /** `findIndex(ia => ia.id === id)`: the first position holding `id`, if any. */
  function FindIndex(s: seq<PendingIa>, id: Option<int>): (r: Option<nat>)
    ensures r.Some? ==> r.value < |s| && Some(s[r.value].id) == id
    ensures r.Some? ==> forall k :: 0 <= k < r.value ==> Some(s[k].id) != id
    ensures r.None? <==> forall k :: 0 <= k < |s| ==> Some(s[k].id) != id
  {
    if s == [] then None
    else if Some(s[0].id) == id then Some(0)
    else
      match FindIndex(s[1..], id)
      case None => None
      case Some(k) => Some(k + 1)
  }

  /** `categories.find(cat => cat.id === id)`. */
  function FindCategory(cats: seq<CategoryOption>, id: Option<int>): (r: Option<CategoryOption>)
    ensures r.Some? ==> r.value in cats && Some(r.value.id) == id
    ensures r.None? <==> forall k :: 0 <= k < |cats| ==> Some(cats[k].id) != id
  {
    if cats == [] then None
    else if Some(cats[0].id) == id then Some(cats[0])
    else FindCategory(cats[1..], id)
  }

  /** With distinct ids, looking up an entry's id finds that entry. */
  lemma {:induction false} FindCategoryOfMember(cats: seq<CategoryOption>, i: nat)
    requires i < |cats|
    requires forall j, k :: 0 <= j < k < |cats| ==> cats[j].id != cats[k].id
    ensures FindCategory(cats, Some(cats[i].id)) == Some(cats[i])
    decreases |cats|
  {
    if i > 0 {
      assert cats[0].id != cats[i].id;
      assert cats[1..][i - 1] == cats[i];
      FindCategoryOfMember(cats[1..], i - 1);
    }
  }

  /** Every id from 1 to 9 names a category, the one at position `id - 1`. */
  lemma KnownCategories(id: int)
    requires 1 <= id <= 9
    ensures FindCategory(Categories, Some(id)) == Some(Categories[id - 1])
  {
    assert forall j :: 0 <= j < |Categories| ==> Categories[j].id == j + 1;
    FindCategoryOfMember(Categories, id - 1);
  }

  /** `splice(i, 1)`: the element at `i` is dropped and the rest keep their order. */
  function RemoveAt(s: seq<PendingIa>, i: nat): (r: seq<PendingIa>)
    requires i < |s|
    ensures |r| == |s| - 1
    ensures forall k :: 0 <= k < i ==> r[k] == s[k]
    ensures forall k :: i <= k < |r| ==> r[k] == s[k + 1]
    ensures multiset(r) + multiset{s[i]} == multiset(s)
  {
    assert s == s[..i] + [s[i]] + s[i + 1..];
    s[..i] + s[i + 1..]
  }

  /** How many entries carry `id`. */
  function CountId(s: seq<PendingIa>, id: int): nat {
    if s == [] then 0 else (if s[0].id == id then 1 else 0) + CountId(s[1..], id)
  }

  /** Removing position `i` drops exactly one entry: those with another id are all still there. */
  lemma {:induction false} CountIdRemoveAt(s: seq<PendingIa>, i: nat, id: int)
    requires i < |s|
    ensures CountId(RemoveAt(s, i), id) == CountId(s, id) - (if s[i].id == id then 1 else 0)
    decreases |s|
  {
    var r := RemoveAt(s, i);
    if i > 0 {
      var rest := RemoveAt(s[1..], i - 1);
      assert r[0] == s[0] && r[1..] == rest;
      CountIdRemoveAt(s[1..], i - 1, id);
      assert CountId(r, id) == (if s[0].id == id then 1 else 0) + CountId(rest, id);
    } else {
      assert r == s[1..];
    }
  }

  // ---------------------------------------------------------------------
  // rendering

  /** What the panel shows: the card list or the no-pending message, the cards, and the counter. */
  datatype View = View(listShown: bool, noPendingShown: bool, cards: seq<PendingIa>, pendingCount: int)

  /** The panel agrees with the list: the counter and the cards are the list's, the message shows exactly when it is empty. */
  predicate Shows(v: View, pending: seq<PendingIa>) {
    && v.pendingCount == |pending|
    && (v.noPendingShown <==> pending == [])
    && (v.listShown <==> pending != [])
    && (pending != [] ==> v.cards == pending)
  }

  /**
   * `renderPendingIAs` as written: an empty list hides the cards and shows
   * the message, but returns before the counter is written, so the counter
   * keeps whatever it showed before.
   */
  function RenderAsWritten(v: View, pending: seq<PendingIa>): (r: View)
    ensures pending == [] ==> r == v.(listShown := false, noPendingShown := true)
    ensures pending != [] ==> Shows(r, pending)
  {
    if pending == [] then v.(listShown := false, noPendingShown := true)
    else View(true, false, pending, |pending|)
  }

  /** Approving the last pending listing leaves the counter at 1 beside the no-pending message. */
  lemma RenderAsWrittenStaleCount(last: PendingIa, v: View)
    requires Shows(v, [last])
    ensures RenderAsWritten(v, RemoveAt([last], 0)).pendingCount == 1
    ensures RenderAsWritten(v, RemoveAt([last], 0)).noPendingShown
    ensures !Shows(RenderAsWritten(v, RemoveAt([last], 0)), RemoveAt([last], 0))
  {
    assert RemoveAt([last], 0) == [];
  }

  /** `renderPendingIAs` with the counter written on both paths: the panel then always shows the list. */
  function Render(v: View, pending: seq<PendingIa>): (r: View)
    ensures Shows(r, pending)
    ensures pending == [] ==> r.cards == v.cards
  {
    if pending == [] then View(false, true, v.cards, 0)
    else View(true, false, pending, |pending|)
  }

  /**
   * What the page as written keeps true: a non-empty list is shown with
   * its count; for an empty one the cards are hidden and the message
   * shows, whatever the counter says.
   */
  predicate ShowsAsWritten(v: View, pending: seq<PendingIa>) {
    && (pending != [] ==> Shows(v, pending))
    && (pending == [] ==> !v.listShown && v.noPendingShown)
  }

  /**
   * The page's render and the corrected one agree on a non-empty list;
   * on an empty one they differ in the counter alone, which the page
   * leaves as it was.
   */
  lemma RenderAsWrittenVersusRender(v: View, pending: seq<PendingIa>)
    ensures ShowsAsWritten(RenderAsWritten(v, pending), pending) && ShowsAsWritten(Render(v, pending), pending)
    ensures pending != [] ==> RenderAsWritten(v, pending) == Render(v, pending)
    ensures pending == [] ==> RenderAsWritten(v, pending) == Render(v, pending).(pendingCount := v.pendingCount)
  {
  }

  // ---------------------------------------------------------------------
  // the panel

  class Panel {
    var pendingIAs: seq<PendingIa>
    var currentIAId: Option<int>
    var view: View
    var rejectModalOpen: bool
    var rejectReason: string
    var categoryModalOpen: bool
    var selectedCategory: Option<int>

    /** The panel shows the list as the page's render leaves it. */
    predicate Valid()
      reads this
    {
      ShowsAsWritten(view, pendingIAs)
    }

    /**
     * The page once loaded: the list is rendered over the view the page
     * starts with; an empty list leaves the initial counter in place.
     */
    constructor (pending: seq<PendingIa>, initial: View)
      ensures Valid()
      ensures pendingIAs == pending && currentIAId.None? && view == RenderAsWritten(initial, pending)
      ensures pending == [] ==> view.pendingCount == initial.pendingCount
      ensures !rejectModalOpen && !categoryModalOpen && rejectReason == "" && selectedCategory.None?
    {
      pendingIAs := pending;
      currentIAId := None;
      view := RenderAsWritten(initial, pending);
      rejectModalOpen, rejectReason := false, "";
      categoryModalOpen, selectedCategory := false, None;
    }

    /**
     * `approveIA(id)`, with the answer to the confirmation dialog: when
     * confirmed and present, the first entry with `id` is removed and the
     * list is rendered again. Approving the last entry leaves the counter
     * as it was.
     */
    method ApproveIA(id: int, confirmed: bool)
      requires Valid()
      modifies this`pendingIAs, this`view
      ensures Valid()
      ensures !confirmed || FindIndex(old(pendingIAs), Some(id)).None? ==>
        pendingIAs == old(pendingIAs) && view == old(view)
      ensures confirmed && FindIndex(old(pendingIAs), Some(id)).Some? ==>
        && pendingIAs == RemoveAt(old(pendingIAs), FindIndex(old(pendingIAs), Some(id)).value)
        && CountId(pendingIAs, id) == CountId(old(pendingIAs), id) - 1
        && view == RenderAsWritten(old(view), pendingIAs)
        && (pendingIAs == [] ==> view.pendingCount == old(view.pendingCount))
    {
      if confirmed {
        var index := FindIndex(pendingIAs, Some(id));
        if index.Some? {
          CountIdRemoveAt(pendingIAs, index.value, id);
          pendingIAs := RemoveAt(pendingIAs, index.value);
          view := RenderAsWritten(view, pendingIAs);
        }
      }
    }

    /** `openRejectModal(id)`: remembers the listing and opens the modal with an empty reason. */
    method OpenRejectModal(id: int)
      modifies this`currentIAId, this`rejectModalOpen, this`rejectReason
      ensures currentIAId == Some(id) && rejectModalOpen && rejectReason == ""
    {
      currentIAId := Some(id);
      rejectModalOpen := true;
      rejectReason := "";
    }

    /** `closeRejectModal`: closes the modal and forgets the listing. */
    method CloseRejectModal()
      modifies this`rejectModalOpen, this`currentIAId
      ensures !rejectModalOpen && currentIAId.None?
    {
      rejectModalOpen := false;
      currentIAId := None;
    }

    /**
     * `confirmReject`: a blank reason changes nothing. Otherwise the first
     * entry with the remembered id is removed and the modal closes; with
     * no such entry nothing changes.
     */
    method ConfirmReject()
      requires Valid()
      modifies this`pendingIAs, this`view, this`rejectModalOpen, this`currentIAId
      ensures Valid()
      ensures Trim(rejectReason) == "" || FindIndex(old(pendingIAs), old(currentIAId)).None? ==>
        pendingIAs == old(pendingIAs) && currentIAId == old(currentIAId)
        && view == old(view) && rejectModalOpen == old(rejectModalOpen)
      ensures Trim(rejectReason) != "" && FindIndex(old(pendingIAs), old(currentIAId)).Some? ==>
        && pendingIAs == RemoveAt(old(pendingIAs), FindIndex(old(pendingIAs), old(currentIAId)).value)
        && view == RenderAsWritten(old(view), pendingIAs)
        && (pendingIAs == [] ==> view.pendingCount == old(view.pendingCount))
        && currentIAId.None? && !rejectModalOpen
    {
      var reason := Trim(rejectReason);
      if reason != "" {
        RemoveCurrent();
      }
    }

    /** The part of `confirmReject` past the reason check: the remembered entry, if present, is removed and the modal closes. */
    method RemoveCurrent()
      requires Valid()
      modifies this`pendingIAs, this`view, this`rejectModalOpen, this`currentIAId
      ensures Valid()
      ensures FindIndex(old(pendingIAs), old(currentIAId)).None? ==>
        pendingIAs == old(pendingIAs) && currentIAId == old(currentIAId)
        && view == old(view) && rejectModalOpen == old(rejectModalOpen)
      ensures FindIndex(old(pendingIAs), old(currentIAId)).Some? ==>
        && pendingIAs == RemoveAt(old(pendingIAs), FindIndex(old(pendingIAs), old(currentIAId)).value)
        && view == RenderAsWritten(old(view), pendingIAs)
        && (pendingIAs == [] ==> view.pendingCount == old(view.pendingCount))
        && currentIAId.None? && !rejectModalOpen
    {
      var index := FindIndex(pendingIAs, currentIAId);
      if index.Some? {
        var rest := RemoveAt(pendingIAs, index.value);
        pendingIAs := rest;
        view := RenderAsWritten(view, rest);
        rejectModalOpen := false;
        currentIAId := None;
      }
    }

    /**
     * `openCategoryModal(id)`: remembers the listing, empties the select,
     * then fills it with every category, marking the listing's, and opens
     * the modal. The select is modelled by the value it holds: `None` once
     * emptied. For an id not in the list, reading its category throws
     * (`thrown`) on the first option, so the select stays empty and the
     * modal stays closed. When no option is marked, a single-choice
     * select holds its first option.
     */
    method OpenCategoryModal(id: int) returns (thrown: bool)
      modifies this`currentIAId, this`categoryModalOpen, this`selectedCategory
      ensures currentIAId == Some(id)
      ensures thrown <==> FindIndex(pendingIAs, Some(id)).None?
      ensures thrown ==> categoryModalOpen == old(categoryModalOpen) && selectedCategory.None?
      ensures !thrown ==>
        && categoryModalOpen
        && var ia := pendingIAs[FindIndex(pendingIAs, Some(id)).value];
           && (FindCategory(Categories, Some(ia.categoryId)).Some? ==> selectedCategory == Some(ia.categoryId))
           && (FindCategory(Categories, Some(ia.categoryId)).None? ==> selectedCategory == Some(Categories[0].id))
    {
      currentIAId := Some(id);
      var index := FindIndex(pendingIAs, Some(id));
      selectedCategory := None;
      if index.None? {
        return true;
      }
      var ia := pendingIAs[index.value];
      selectedCategory := if FindCategory(Categories, Some(ia.categoryId)).Some? then Some(ia.categoryId) else Some(Categories[0].id);
      categoryModalOpen := true;
      thrown := false;
    }

    /** `closeCategoryModal`: closes the modal and forgets the listing. */
    method CloseCategoryModal()
      modifies this`categoryModalOpen, this`currentIAId
      ensures !categoryModalOpen && currentIAId.None?
    {
      categoryModalOpen := false;
      currentIAId := None;
    }

    /**
     * `confirmChangeCategory` with the parsed select value (`None` for
     * NaN): when both the remembered listing and the category exist, the
     * listing's category id and name become the chosen one's and the
     * modal closes; otherwise nothing changes.
     */
    method ConfirmChangeCategory(newCategoryId: Option<int>)
      requires Valid()
      modifies this`pendingIAs, this`view, this`categoryModalOpen, this`currentIAId
      ensures Valid()
      ensures |pendingIAs| == |old(pendingIAs)|
      ensures FindIndex(old(pendingIAs), old(currentIAId)).None? || FindCategory(Categories, newCategoryId).None? ==>
        pendingIAs == old(pendingIAs) && view == old(view)
        && categoryModalOpen == old(categoryModalOpen) && currentIAId == old(currentIAId)
      ensures FindIndex(old(pendingIAs), old(currentIAId)).Some? && FindCategory(Categories, newCategoryId).Some? ==>
        var i := FindIndex(old(pendingIAs), old(currentIAId)).value;
        var cat := FindCategory(Categories, newCategoryId).value;
        && pendingIAs[i] == old(pendingIAs)[i].(categoryId := cat.id, category := cat.name)
        && (forall k :: 0 <= k < |pendingIAs| && k != i ==> pendingIAs[k] == old(pendingIAs)[k])
        && Shows(view, pendingIAs)
        && !categoryModalOpen && currentIAId.None?
    {
      var index := FindIndex(pendingIAs, currentIAId);
      var category := FindCategory(Categories, newCategoryId);
      if index.Some? && category.Some? {
        var ia := pendingIAs[index.value];
        pendingIAs := pendingIAs[index.value := ia.(categoryId := category.value.id, category := category.value.name)];
        view := RenderAsWritten(view, pendingIAs);
        CloseCategoryModal();
      }
    }
  }
}
