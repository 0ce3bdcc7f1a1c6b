/**
 * The category create/edit form: its field state, the synchronous name and
 * description (slug) validation, the change and submit handlers, the image
 * picker and the parent-category picker.
 */
module CategoryForm {
  import opened Common
  import opened Text
  import opened Categories

  const NameRequired := "Name is required"
  const NameTooShort := "Name must be at least 2 characters"
  const NameTooLong := "Name cannot exceed 50 characters"
  const SlugRequired := "Description is required"

  const MinNameLength := 2
  const MaxNameLength := 50

  /** The keys of the form state (and of its error map). */
  datatype Field = Name | Slug | ParentId | IsActive

  /** The value stored under one key of the form state. */
  datatype FieldValue = TextValue(text: string) | ParentValue(parent: Option<nat>) | FlagValue(flag: bool)

  /** One call of `handleChange(key, value)`, with the value typed by its key. */
  datatype Change =
    | SetName(name: string)
    | SetSlug(slug: string)
    | SetParent(parent: Option<nat>)
    | SetActive(active: bool)

  function FieldOf(c: Change): Field {
    match c
    case SetName(_) => Name
    case SetSlug(_) => Slug
    case SetParent(_) => ParentId
    case SetActive(_) => IsActive
  }

  function ValueOf(c: Change): FieldValue {
    match c
    case SetName(n) => TextValue(n)
    case SetSlug(s) => TextValue(s)
    case SetParent(p) => ParentValue(p)
    case SetActive(a) => FlagValue(a)
  }

  /** `form[key]` */
  function Get(f: CategoryFields, k: Field): FieldValue {
    match k
    case Name => TextValue(f.name)
    case Slug => TextValue(f.slug)
    case ParentId => ParentValue(f.parentId)
    case IsActive => FlagValue(f.isActive)
  }

  /** `{ ...prev, [key]: value }`: the named key takes the new value, every other key keeps its old one. */
  function Apply(f: CategoryFields, c: Change): (r: CategoryFields)
    ensures Get(r, FieldOf(c)) == ValueOf(c)
    ensures forall k :: k != FieldOf(c) ==> Get(r, k) == Get(f, k)
  {
    match c
    case SetName(n) => f.(name := n)
    case SetSlug(s) => f.(slug := s)
    case SetParent(p) => f.(parentId := p)
    case SetActive(a) => f.(isActive := a)
  }

  /** The form's starting state: the edited category's fields, or blanks, no parent and active in create mode. */
  function InitialFields(initialData: Option<Category>): (f: CategoryFields)
    ensures initialData.None? ==> f == CategoryFields("", "", None, true)
    ensures initialData.Some? ==>
      && f.name == initialData.value.name && f.slug == initialData.value.slug
      && f.parentId == initialData.value.parentId && f.isActive == initialData.value.isActive
  {
    match initialData
    case None => CategoryFields("", "", None, true)
    case Some(c) => CategoryFields(c.name, c.slug, c.parentId, c.isActive)
  }

  /** The name rule: required, then at least 2 and at most 50 characters once trimmed. */
  function NameError(name: string): (r: Option<string>)
    ensures r.None? <==> MinNameLength <= |Trim(name)| <= MaxNameLength
    ensures r == Some(NameRequired) <==> Trim(name) == []
    ensures r.Some? ==> r.value in {NameRequired, NameTooShort, NameTooLong}
  {
    var t := Trim(name);
    if t == [] then Some(NameRequired)
    else if |t| < MinNameLength then Some(NameTooShort)
    else if |t| > MaxNameLength then Some(NameTooLong)
    else None
  }

  /** The description (slug) rule: required once trimmed. */
  function SlugError(slug: string): (r: Option<string>)
    ensures r.Some? <==> Trim(slug) == []
    ensures r.Some? ==> r.value == SlugRequired
  {
    if Trim(slug) == [] then Some(SlugRequired) else None
  }

  /** Each name outcome in terms of the input: blank, too short, too long, or accepted. */
  lemma NameRules(name: string)
    ensures NameError(name) == Some(NameRequired) <==> IsBlank(name)
    ensures NameError(name) == Some(NameTooShort) <==> !IsBlank(name) && |Trim(name)| < 2
    ensures NameError(name) == Some(NameTooLong) <==> |Trim(name)| > 50
    ensures NameError(name) == None <==> 2 <= |Trim(name)| <= 50
  {
    TrimEmptyIffBlank(name);
  }

  /** A description is rejected exactly when it is blank, and then with the one message. */
  lemma SlugRule(slug: string)
    ensures SlugError(slug).Some? <==> IsBlank(slug)
    ensures SlugError(slug).Some? ==> SlugError(slug).value == SlugRequired
  {
    TrimEmptyIffBlank(slug);
  }

  /** The error map `validate` builds: one entry per failing rule and nothing else. */
  function ComputeErrors(f: CategoryFields): (e: map<Field, string>)
    ensures e.Keys <= {Name, Slug}
    ensures Name in e <==> NameError(f.name).Some?
    ensures Slug in e <==> SlugError(f.slug).Some?
    ensures e == map[] <==> NameError(f.name) == None && SlugError(f.slug) == None
    ensures Name in e ==> e[Name] == NameError(f.name).value
    ensures Slug in e ==> e[Slug] == SlugRequired
  {
    var withName := if NameError(f.name).Some? then map[Name := NameError(f.name).value] else map[];
    if SlugError(f.slug).Some? then withName[Slug := SlugError(f.slug).value] else withName
  }

  /** The form is valid exactly when the trimmed name has 2 to 50 characters and the description is not blank. */
  lemma ValidIff(f: CategoryFields)
    ensures ComputeErrors(f) == map[] <==> 2 <= |Trim(f.name)| <= 50 && !IsBlank(f.slug)
  {
    NameRules(f.name);
    SlugRule(f.slug);
  }

  /**
   * The parent picker: every loaded category except, in edit mode, the one
   * being edited, so a category is never offered as its own parent.
   */
  function ParentOptions(categories: seq<Category>, editing: Option<Category>): (r: seq<Category>)
    ensures |r| <= |categories|
    ensures forall c :: c in r <==> c in categories && (editing.None? || c.id != editing.value.id)
    ensures editing.None? ==> r == categories
  {
    if categories == [] then []
    else
      var rest := ParentOptions(categories[1..], editing);
      if editing.None? || categories[0].id != editing.value.id then [categories[0]] + rest else rest
  }

  /**
   * Filtering keeps the loaded order and any repeated entries: the picker of
   * a concatenation is the concatenation of the pickers.
   */
  lemma {:induction false} ParentOptionsConcat(a: seq<Category>, b: seq<Category>, editing: Option<Category>)
    ensures ParentOptions(a + b, editing) == ParentOptions(a, editing) + ParentOptions(b, editing)
  {
    if a == [] {
      assert a + b == b;
    } else {
      assert (a + b)[0] == a[0];
      assert (a + b)[1..] == a[1..] + b;
      ParentOptionsConcat(a[1..], b, editing);
    }
  }

  /** A single category is offered exactly when it is not the one being edited. */
  lemma ParentOptionsSingle(c: Category, editing: Option<Category>)
    ensures ParentOptions([c], editing) == (if editing.None? || c.id != editing.value.id then [c] else [])
  {
  }

  /** The list reply as the form receives it: a bare array, a `{ data, meta }` page, or nothing yet. */
  datatype ListResponse = AsArray(items: seq<Category>) | AsPage(page: CategoryPage)

  /** The categories in whatever shape the list reply has; none while it is absent. */
  function NormalizeCategories(response: Option<ListResponse>): (r: seq<Category>)
    ensures response.None? ==> r == []
    ensures response.Some? && response.value.AsArray? ==> r == response.value.items
    ensures response.Some? && response.value.AsPage? ==> r == response.value.page.data
  {
    match response
    case None => []
    case Some(AsArray(items)) => items
    case Some(AsPage(page)) => page.data
  }

  /** The `value` attribute of a parent option: the category id rendered in decimal. */
  function OptionValue(c: Category): string {
    Decimal(c.id)
  }

  /** The picker's change handler: the empty option means no parent, any other option its numeric id. */
  function ParseParentChoice(value: string): (r: Option<nat>)
    requires value == "" || IsDecimal(value)
    ensures r.None? <==> value == ""
  {
    if value == "" then None else Some(DecimalValue(value))
  }

  /** Choosing a category's option sets `parent_id` to that category's id; the empty option clears it. */
  lemma ParentChoiceRoundTrip(c: Category)
    ensures ParseParentChoice(OptionValue(c)) == Some(c.id)
    ensures ParseParentChoice("") == None
  {
    DecimalRoundTrip(c.id);
  }

  /** The form component's local state. */
  class Form {
    const initialData: Option<Category>
    var form: CategoryFields
    var errors: map<Field, string>
    var image: Option<ImageFile>
    var preview: Option<string>

    constructor (initialData: Option<Category>)
      ensures this.initialData == initialData
      ensures form == InitialFields(initialData)
      ensures errors == map[] && image == None
      ensures preview == if initialData.Some? then initialData.value.image else None
    {
      this.initialData := initialData;
      form := InitialFields(initialData);
      errors := map[];
      image := None;
      preview := if initialData.Some? then initialData.value.image else None;
    }

    /** `validate`: rebuilds the error map from scratch, replacing the old one, and reports whether it is empty. */
    method Validate() returns (ok: bool)
      modifies this`errors
      ensures errors == ComputeErrors(form)
      ensures ok <==> errors == map[]
    {
      ghost var nameError, slugError := NameError(form.name), SlugError(form.slug);
      var next: map<Field, string> := map[];
      var name := Trim(form.name);
      if name == [] {
        next := next[Name := NameRequired];
      } else if |name| < MinNameLength {
        next := next[Name := NameTooShort];
      } else if |name| > MaxNameLength {
        next := next[Name := NameTooLong];
      }
      assert next == if nameError.Some? then map[Name := nameError.value] else map[];
      ghost var withName := next;
      if Trim(form.slug) == [] {
        next := next[Slug := SlugRequired];
      }
      assert next == if slugError.Some? then withName[Slug := slugError.value] else withName;
      errors := next;
      ok := |next| == 0;
      assert ok <==> next == map[] by {
        if next != map[] {
          var k :| k in next;
          assert k in next.Keys;
        }
      }
    }

    /** `handleChange(key, value)`: sets that one field and clears that one field's error. */
    method HandleChange(c: Change)
      modifies this`form, this`errors
      ensures form == Apply(old(form), c)
      ensures errors == old(errors) - {FieldOf(c)}
    {
      form := Apply(form, c);
      errors := errors - {FieldOf(c)};
    }

    /**
     * `handleSubmit`: validates, then hands the untrimmed fields and the current
     * image to the submit callback exactly once; an invalid form submits nothing.
     * The returned value is the callback's argument, or None when it is not called.
     */
    method HandleSubmit() returns (submitted: Option<CategoryPayload>)
      modifies this`errors
      ensures errors == ComputeErrors(form)
      ensures submitted.Some? <==> ComputeErrors(form) == map[]
      ensures submitted.Some? ==> submitted.value == CategoryPayload(form, image)
    {
      var ok := Validate();
      if !ok {
        return None;
      }
      submitted := Some(CategoryPayload(form, image));
    }

    /**
     * `handleImageChange`: the first chosen file becomes the image and its object
     * URL the preview; an empty selection changes nothing. `objectUrl` stands for
     * what the browser's `URL.createObjectURL` returns for that file.
     */
    method HandleImageChange(files: seq<ImageFile>, objectUrl: string)
      modifies this`image, this`preview
      ensures files == [] ==> image == old(image) && preview == old(preview)
      ensures files != [] ==> image == Some(files[0]) && preview == Some(objectUrl)
    {
      if files == [] {
        return;
      }
      image := Some(files[0]);
      preview := Some(objectUrl);
    }

    /** The options this form's parent picker lists for the loaded list reply. */
    function ParentChoices(response: Option<ListResponse>): (r: seq<Category>)
      ensures forall c :: c in r ==> initialData.None? || c.id != initialData.value.id
    {
      ParentOptions(NormalizeCategories(response), initialData)
    }
  }
}
