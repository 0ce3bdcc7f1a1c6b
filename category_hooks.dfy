/**
 * The category data hooks: how each query and mutation unwraps the server's
 * `{ success, data, message }` envelope, and which cache keys it names.
 * The cache library itself (storage, prefix matching, staleness) is not modelled;
 * a mutation reports the keys it passes to `invalidateQueries`.
 */
module CategoryHooks {
  import opened Common
  import opened Categories

  /** The uniform reply of the HTTP client. */
  datatype Envelope<T> = Envelope(success: bool, data: Option<T>, message: Option<string>)

  /** One element of a query key: the resource name or a number. */
  datatype KeyPart = KeyText(text: string) | KeyNumber(number: int)

  type QueryKey = seq<KeyPart>

  /** `CATEGORY_KEYS.all` */
  const AllKey: QueryKey := [KeyText("categories")]

  /** `CATEGORY_KEYS.detail(id)` */
  function DetailKey(id: int): (k: QueryKey)
    ensures |k| == 2 && AllKey <= k && k[1] == KeyNumber(id)
  {
    [KeyText("categories"), KeyNumber(id)]
  }

  /** The key of `useCategories(page, perPage)`; an omitted argument takes its default 1 or 10. */
  function ListKey(page: Option<int>, perPage: Option<int>): (k: QueryKey)
    ensures |k| == 3 && k[..1] == AllKey
    ensures k[1] == KeyNumber(page.GetOr(1)) && k[2] == KeyNumber(perPage.GetOr(10))
  {
    [KeyText("categories"), KeyNumber(page.GetOr(1)), KeyNumber(perPage.GetOr(10))]
  }

  const ListFallback := "Failed to fetch categories"
  const GetFallback := "Failed to fetch category"
  const CreateFallback := "Failed to create category"
  const UpdateFailed := "Update failed"
  const DeleteFailed := "Delete failed"

  /** A message that JavaScript treats as true: present and not the empty string. */
  predicate HasMessage<T>(env: Envelope<T>) {
    env.message.Some? && env.message.value != ""
  }

  /**
   * The guard shared by the list, get and create request bodies: throw unless
   * the reply succeeded and carries data; the error text is the server's message
   * when it has one and the operation's fallback otherwise.
   */
  function UnwrapData<T>(env: Envelope<T>, fallback: string): (r: Result<T>)
    ensures r.Ok? <==> env.success && env.data.Some?
    ensures r.Ok? ==> r.value == env.data.value
    ensures r.Err? && HasMessage(env) ==> r.message == env.message.value
    ensures r.Err? && !HasMessage(env) ==> r.message == fallback
  {
    if !env.success || env.data.None? then
      Err(if HasMessage(env) then env.message.value else fallback)
    else
      Ok(env.data.value)
  }

  /** `useCategories`: the body of a page of categories. */
  function ListQuery(env: Envelope<CategoryPage>): (r: Result<CategoryPage>)
    ensures r.Ok? <==> env.success && env.data.Some?
    ensures r.Ok? ==> r.value == env.data.value
    ensures r.Err? ==> r.message == if HasMessage(env) then env.message.value else ListFallback
  {
    UnwrapData(env, ListFallback)
  }

  /** `useCategory`: one category. */
  function GetQuery(env: Envelope<Category>): (r: Result<Category>)
    ensures r.Ok? <==> env.success && env.data.Some?
    ensures r.Ok? ==> r.value == env.data.value
    ensures r.Err? ==> r.message == if HasMessage(env) then env.message.value else GetFallback
  {
    UnwrapData(env, GetFallback)
  }

  /** `useCategory` runs its query only for a truthy id, so id 0 never fetches. */
  function DetailEnabled(id: int): (enabled: bool)
    ensures enabled <==> id != 0
  {
    id != 0
  }

  /** What a settled mutation produced and which keys its `onSuccess` invalidated. */
  datatype Mutation<T> = Mutation(result: Result<T>, invalidated: set<QueryKey>)

  /** `useCreateCategory` */
  function CreateMutation(env: Envelope<Category>): (m: Mutation<Category>)
    ensures m.result.Ok? <==> env.success && env.data.Some?
    ensures m.result.Ok? ==> m.result.value == env.data.value
    ensures m.result.Err? ==> m.result.message == if HasMessage(env) then env.message.value else CreateFallback
    ensures m.invalidated == if m.result.Ok? then {AllKey} else {}
  {
    var r := UnwrapData(env, CreateFallback);
    Mutation(r, if r.Ok? then {AllKey} else {})
  }

  /**
   * `useUpdateCategory`: only `success` is checked; a successful reply without
   * data still succeeds (with an absent category), and the server's message is ignored.
   */
  function UpdateMutation(id: int, env: Envelope<Category>): (m: Mutation<Option<Category>>)
    ensures m.result.Ok? <==> env.success
    ensures m.result.Ok? ==> m.result.value == env.data
    ensures m.result.Err? ==> m.result.message == UpdateFailed
    ensures m.invalidated == if env.success then {AllKey, DetailKey(id)} else {}
  {
    if !env.success then Mutation(Err(UpdateFailed), {})
    else Mutation(Ok(env.data), {AllKey, DetailKey(id)})
  }

  /** `useDeleteCategory`: only `success` is checked and the result is `true`. */
  function DeleteMutation<T>(env: Envelope<T>): (m: Mutation<bool>)
    ensures m.result.Ok? <==> env.success
    ensures m.result.Ok? ==> m.result.value
    ensures m.result.Err? ==> m.result.message == DeleteFailed
    ensures m.invalidated == if env.success then {AllKey} else {}
  {
    if !env.success then Mutation(Err(DeleteFailed), {})
    else Mutation(Ok(true), {AllKey})
  }

  /** Every error a category hook throws has a non-empty message. */
  lemma ErrorsHaveText(env: Envelope<Category>, page: Envelope<CategoryPage>, id: int)
    ensures ListQuery(page).Err? ==> ListQuery(page).message != ""
    ensures GetQuery(env).Err? ==> GetQuery(env).message != ""
    ensures CreateMutation(env).result.Err? ==> CreateMutation(env).result.message != ""
    ensures UpdateMutation(id, env).result.Err? ==> UpdateMutation(id, env).result.message != ""
    ensures DeleteMutation(env).result.Err? ==> DeleteMutation(env).result.message != ""
  {
  }

  /**
   * Update accepts every reply that create accepts and more: a successful reply
   * without data fails create but not update.
   */
  lemma UpdateMoreLenientThanCreate(id: int, env: Envelope<Category>)
    ensures CreateMutation(env).result.Ok? ==> UpdateMutation(id, env).result.Ok?
    ensures env.success && env.data.None? ==>
      CreateMutation(env).result.Err? && UpdateMutation(id, env).result == Ok(None)
  {
  }

  /**
   * Every successful mutation invalidates the `all` key, a failed one invalidates
   * nothing, and update names no detail key but its own id's.
   */
  lemma InvalidationOnlyOnSuccess(id: int, other: int, env: Envelope<Category>)
    ensures CreateMutation(env).result.Ok? <==> AllKey in CreateMutation(env).invalidated
    ensures UpdateMutation(id, env).result.Ok? <==> AllKey in UpdateMutation(id, env).invalidated
    ensures DeleteMutation(env).result.Ok? <==> AllKey in DeleteMutation(env).invalidated
    ensures DetailKey(other) in UpdateMutation(id, env).invalidated <==> env.success && other == id
  {
  }

  /** The list and detail keys all start with the `all` key. */
  lemma AllKeyIsPrefix(page: Option<int>, perPage: Option<int>, id: int)
    ensures AllKey <= ListKey(page, perPage)
    ensures AllKey <= DetailKey(id)
    ensures AllKey != DetailKey(id)
  {
  }
}
