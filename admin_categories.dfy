/**
 * The admin categories page: how it turns a thrown value into a toast text,
 * its page number with Previous/Next, the pagination controls it shows for a
 * reply's `meta`, and the single selected-category slot with its three dialogs.
 */
module AdminCategories {
  import opened Common
  import opened Categories
  import opened CategoryHooks

  /** A JavaScript value, kept only as precisely as truthiness needs. */
  datatype JsValue = Undefined | Null | Bool(b: bool) | Num(n: int) | Str(s: string) | Obj(handle: nat)

  predicate Truthy(v: JsValue) {
    match v
    case Bool(b) => b
    case Num(n) => n != 0
    case Str(s) => s != ""
    case Obj(_) => true
    case _ => false
  }

  /** JavaScript's `a || b`. */
  function Or(a: JsValue, b: JsValue): JsValue {
    if Truthy(a) then a else b
  }

  /** `error.response.data` of an HTTP error: validation details, a message and an error text. */
  datatype ErrorBody = ErrorBody(details: Option<seq<JsValue>>, message: JsValue, error: JsValue)

  datatype ErrorResponse = ErrorResponse(data: Option<ErrorBody>)

  /** A thrown value: the HTTP client's `response` when there was one, and the `message` of the error. */
  datatype Thrown = Thrown(response: Option<ErrorResponse>, message: JsValue)

  /** `new Error(message)` as thrown by a hook's request body: no response, only a message. */
  function HookError(message: string): Thrown {
    Thrown(None, Str(message))
  }

  /** `error?.response?.data`: absent as soon as one link of the chain is absent. */
  function Body(error: Option<Thrown>): Option<ErrorBody> {
    if error.Some? && error.value.response.Some? then error.value.response.value.data else None
  }

  /** `error?.response?.data?.details?.[0]` */
  function FirstDetail(error: Option<Thrown>): JsValue {
    var body := Body(error);
    if body.Some? && body.value.details.Some? && |body.value.details.value| > 0
    then body.value.details.value[0] else Undefined
  }

  function BodyMessage(error: Option<Thrown>): JsValue {
    if Body(error).Some? then Body(error).value.message else Undefined
  }

  function BodyError(error: Option<Thrown>): JsValue {
    if Body(error).Some? then Body(error).value.error else Undefined
  }

  function ExceptionMessage(error: Option<Thrown>): JsValue {
    if error.Some? then error.value.message else Undefined
  }

  /**
   * `extractApiError(error, fallback)`, the chain of `||` exactly as written:
   * the result is truthy or is the fallback, so a non-empty fallback makes it
   * never empty, null or undefined.
   */
  function ExtractApiError(error: Option<Thrown>, fallback: string): (r: JsValue)
    ensures Truthy(r) || r == Str(fallback)
    ensures fallback != "" ==> Truthy(r)
  {
    Or(Or(Or(Or(FirstDetail(error), BodyMessage(error)), BodyError(error)), ExceptionMessage(error)), Str(fallback))
  }

  /** The places `extractApiError` looks, in order of precedence. */
  function Candidates(error: Option<Thrown>): seq<JsValue> {
    [FirstDetail(error), BodyMessage(error), BodyError(error), ExceptionMessage(error)]
  }

  /** The position of the first truthy value of `vs`, or `|vs|` when there is none. */
  function FirstTruthyIndex(vs: seq<JsValue>): (i: nat)
    ensures i <= |vs|
    ensures forall j :: 0 <= j < i ==> !Truthy(vs[j])
    ensures i < |vs| ==> Truthy(vs[i])
  {
    if vs == [] then 0
    else if Truthy(vs[0]) then 0
    else 1 + FirstTruthyIndex(vs[1..])
  }

  /**
   * `extractApiError` returns the first truthy candidate in the order
   * details[0], message, error, exception message, and the fallback when
   * none is truthy; a missing link anywhere in the chain is just skipped.
   */
  lemma ExtractIsFirstTruthy(error: Option<Thrown>, fallback: string)
    ensures var cs := Candidates(error); var i := FirstTruthyIndex(cs);
      ExtractApiError(error, fallback) == if i < |cs| then cs[i] else Str(fallback)
  {
    var cs := Candidates(error);
    assert cs[1..][1..][1..][1..] == [];
  }

  /** An error thrown by a category hook is shown with its own message. */
  lemma HookErrorShowsItsMessage(message: string, fallback: string)
    requires message != ""
    ensures ExtractApiError(Some(HookError(message)), fallback) == Str(message)
  {
  }

  /** What the client got back for a mutation request: an envelope, or a transport error it threw. */
  datatype Reply<T> = Replied(envelope: Envelope<T>) | Failed(thrown: Thrown)

  /** A toast the page shows after a handler. */
  datatype Toast = NoToast | SuccessToast(text: string) | ErrorToast(error: JsValue)

  const PerPage := 10
  const CreateFailedText := "Failed to create category"
  const UpdateFailedText := "Failed to update category"
  const DeleteFailedText := "Failed to delete category"

  /** The pagination bar: hidden, or the page label and which of Previous/Next are disabled. */
  datatype Controls = Hidden | Shown(currentPage: int, totalPages: int, previousDisabled: bool, nextDisabled: bool)

  /** The bar appears only with more than one page; Previous is off on page 1 and Next on the last page. */
  function PaginationControls(meta: Option<PageMeta>): (c: Controls)
    ensures c.Shown? <==> meta.Some? && meta.value.totalPages > 1
    ensures c.Shown? ==> c.currentPage == meta.value.currentPage && c.totalPages == meta.value.totalPages
    ensures c.Shown? ==> (c.previousDisabled <==> meta.value.currentPage == 1)
    ensures c.Shown? ==> (c.nextDisabled <==> meta.value.currentPage == meta.value.totalPages)
  {
    match meta
    case Some(m) =>
      if m.totalPages > 1 then Shown(m.currentPage, m.totalPages, m.currentPage == 1, m.currentPage == m.totalPages)
      else Hidden
    case None => Hidden
  }

  /** On the first of three pages Previous is disabled and Next is enabled. */
  lemma FirstOfThreePages()
    ensures PaginationControls(Some(PageMeta(1, 3))) == Shown(1, 3, true, false)
  {
  }

  /** The page component's state. */
  class Page {
    var page: int
    var isCreateOpen: bool
    var isEditOpen: bool
    var isDeleteOpen: bool
    var selected: Option<Category>

    /** The page number never drops below 1. */
    ghost predicate Valid()
      reads this
    {
      page >= 1
    }

    constructor ()
      ensures Valid() && page == 1
      ensures !isCreateOpen && !isEditOpen && !isDeleteOpen && selected == None
    {
      page := 1;
      isCreateOpen, isEditOpen, isDeleteOpen := false, false, false;
      selected := None;
    }

    /** The key under which the current page of categories is fetched. */
    function CurrentListKey(): (k: QueryKey)
      reads this
      ensures |k| == 3 && k[..1] == AllKey && k[1] == KeyNumber(page) && k[2] == KeyNumber(PerPage)
    {
      ListKey(Some(page), Some(PerPage))
    }

    /** Previous: `setPage(p => Math.max(p - 1, 1))`. */
    method Previous()
      requires Valid()
      modifies this`page
      ensures Valid()
      ensures page == if old(page) > 1 then old(page) - 1 else 1
    {
      page := if page - 1 > 1 then page - 1 else 1;
    }

    /** Next: `setPage(p => p + 1)`. */
    method Next()
      requires Valid()
      modifies this`page
      ensures Valid()
      ensures page == old(page) + 1
    {
      page := page + 1;
    }

    method OpenCreate()
      modifies this`isCreateOpen
      ensures isCreateOpen
    {
      isCreateOpen := true;
    }

    method CloseCreate()
      modifies this`isCreateOpen
      ensures !isCreateOpen
    {
      isCreateOpen := false;
    }

    method CloseEdit()
      modifies this`isEditOpen
      ensures !isEditOpen
    {
      isEditOpen := false;
    }

    method CloseDelete()
      modifies this`isDeleteOpen
      ensures !isDeleteOpen
    {
      isDeleteOpen := false;
    }

    /** The table's edit action: selects the row's category and opens the edit dialog. */
    method OnEdit(c: Category)
      modifies this`selected, this`isEditOpen
      ensures selected == Some(c) && isEditOpen
    {
      selected := Some(c);
      isEditOpen := true;
    }

    /** The table's delete action: selects the row's category and opens the confirmation. */
    method OnDelete(c: Category)
      modifies this`selected, this`isDeleteOpen
      ensures selected == Some(c) && isDeleteOpen
    {
      selected := Some(c);
      isDeleteOpen := true;
    }

    /**
     * `handleCreate`: `reply` is the server's answer to the submitted payload.
     * Success closes the create modal; a failure leaves it as it was and shows
     * the extracted error. `invalidated` is the cache keys the mutation named.
     */
    method HandleCreate(reply: Reply<Category>) returns (toast: Toast, invalidated: set<QueryKey>)
      modifies this`isCreateOpen
      ensures reply.Replied? && CreateMutation(reply.envelope).result.Ok? ==>
        !isCreateOpen && toast == SuccessToast("Category created") && invalidated == {AllKey}
      ensures !(reply.Replied? && CreateMutation(reply.envelope).result.Ok?) ==>
        && isCreateOpen == old(isCreateOpen) && invalidated == {}
        && toast == ErrorToast(ExtractApiError(
             if reply.Failed? then Some(reply.thrown) else Some(HookError(CreateMutation(reply.envelope).result.message)),
             CreateFailedText))
    {
      var mutation: Mutation<Category>;
      if reply.Failed? {
        toast := ErrorToast(ExtractApiError(Some(reply.thrown), CreateFailedText));
        invalidated := {};
        return;
      }
      mutation := CreateMutation(reply.envelope);
      invalidated := mutation.invalidated;
      if mutation.result.Err? {
        toast := ErrorToast(ExtractApiError(Some(HookError(mutation.result.message)), CreateFailedText));
        return;
      }
      toast := SuccessToast("Category created");
      isCreateOpen := false;
    }

    /**
     * `handleUpdate`: nothing at all happens without a selected category;
     * otherwise the selected id is sent, and success closes the edit dialog and
     * clears the selection while a failure leaves both as they were.
     */
    method HandleUpdate(reply: Reply<Category>) returns (sentId: Option<nat>, toast: Toast, invalidated: set<QueryKey>)
      modifies this`isEditOpen, this`selected
      ensures old(selected).None? ==>
        sentId == None && toast == NoToast && invalidated == {}
        && selected == None && isEditOpen == old(isEditOpen)
      ensures old(selected).Some? ==> sentId == Some(old(selected).value.id)
      ensures old(selected).Some? && reply.Replied? && reply.envelope.success ==>
        && selected == None && !isEditOpen && toast == SuccessToast("Category updated")
        && invalidated == {AllKey, DetailKey(old(selected).value.id)}
      ensures old(selected).Some? && reply.Failed? ==>
        && selected == old(selected) && isEditOpen == old(isEditOpen) && invalidated == {}
        && toast == ErrorToast(ExtractApiError(Some(reply.thrown), UpdateFailedText))
      ensures old(selected).Some? && reply.Replied? && !reply.envelope.success ==>
        && selected == old(selected) && isEditOpen == old(isEditOpen) && invalidated == {}
        && toast == ErrorToast(Str(CategoryHooks.UpdateFailed))
    {
      if selected.None? {
        return None, NoToast, {};
      }
      var id := selected.value.id;
      sentId := Some(id);
      if reply.Failed? {
        toast := ErrorToast(ExtractApiError(Some(reply.thrown), UpdateFailedText));
        invalidated := {};
        return;
      }
      var mutation := UpdateMutation(id, reply.envelope);
      invalidated := mutation.invalidated;
      if mutation.result.Err? {
        toast := ErrorToast(ExtractApiError(Some(HookError(mutation.result.message)), UpdateFailedText));
        return;
      }
      toast := SuccessToast("Category updated");
      isEditOpen := false;
      selected := None;
    }

    /**
     * `handleDelete`: nothing at all happens without a selected category;
     * otherwise the selected id is sent, and success closes the confirmation and
     * clears the selection while a failure leaves both as they were.
     */
    method HandleDelete(reply: Reply<bool>) returns (sentId: Option<nat>, toast: Toast, invalidated: set<QueryKey>)
      modifies this`isDeleteOpen, this`selected
      ensures old(selected).None? ==>
        sentId == None && toast == NoToast && invalidated == {}
        && selected == None && isDeleteOpen == old(isDeleteOpen)
      ensures old(selected).Some? ==> sentId == Some(old(selected).value.id)
      ensures old(selected).Some? && reply.Replied? && reply.envelope.success ==>
        && selected == None && !isDeleteOpen && toast == SuccessToast("Category deleted")
        && invalidated == {AllKey}
      ensures old(selected).Some? && reply.Failed? ==>
        && selected == old(selected) && isDeleteOpen == old(isDeleteOpen) && invalidated == {}
        && toast == ErrorToast(ExtractApiError(Some(reply.thrown), DeleteFailedText))
      ensures old(selected).Some? && reply.Replied? && !reply.envelope.success ==>
        && selected == old(selected) && isDeleteOpen == old(isDeleteOpen) && invalidated == {}
        && toast == ErrorToast(Str(CategoryHooks.DeleteFailed))
    {
      if selected.None? {
        return None, NoToast, {};
      }
      sentId := Some(selected.value.id);
      if reply.Failed? {
        toast := ErrorToast(ExtractApiError(Some(reply.thrown), DeleteFailedText));
        invalidated := {};
        return;
      }
      var mutation := DeleteMutation(reply.envelope);
      invalidated := mutation.invalidated;
      if mutation.result.Err? {
        toast := ErrorToast(ExtractApiError(Some(HookError(mutation.result.message)), DeleteFailedText));
        return;
      }
      toast := SuccessToast("Category deleted");
      isDeleteOpen := false;
      selected := None;
    }
  }
}
