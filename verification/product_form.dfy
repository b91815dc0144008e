/**
 * The first step of the admin "new product" form: tag entry, the validity rule that enables
 * "Save & continue", the media types the admin may pick, the "Add" button for a new category
 * and the payload sent to `POST /product/`.
 */
module ProductForm {
  import opened Wrappers
  import opened JsStrings

  /** One entry of a select list: the stored value and the label shown. */
  datatype SelectOption = SelectOption(value: string, labelText: string)

  /** The keys of `mediaOptions`, in the order `Object.keys` lists them. */
  const MediaKeys: seq<string> := ["image", "video", "audio"]

  /** `mediaOptions[key]` for one of the three keys. */
  function MediaOption(key: string): SelectOption
  {
    SelectOption(key, if key == "image" then "Image" else if key == "video" then "Video" else "Audio")
  }

  /** `keys.filter(k => allowed.includes(k)).map(k => mediaOptions[k])`. */
  function FilterMedia(keys: seq<string>, allowed: seq<string>): (r: seq<SelectOption>)
    ensures |r| <= |keys|
    ensures forall i :: 0 <= i < |r| ==> r[i].value in keys && r[i].value in allowed && r[i] == MediaOption(r[i].value)
  {
    if |keys| == 0 then []
    else
      var rest := FilterMedia(keys[1..], allowed);
      if keys[0] in allowed then [MediaOption(keys[0])] + rest else rest
  }

  /** `[mediaOptions[key]]` when the admin may use `key`, else nothing. */
  function IfAllowed(key: string, allowed: seq<string>): seq<SelectOption>
  {
    if key in allowed then [MediaOption(key)] else []
  }

  /**
   * The media options offered to an admin: image, video and audio in that fixed order, each
   * present exactly when the admin's `mediaType` list includes it. Without a `mediaType` the list stays empty.
   */
  function AllowedMediaOptions(userMediaType: Option<seq<string>>): (r: seq<SelectOption>)
    ensures userMediaType.None? ==> r == []
    ensures userMediaType.Some? ==>
              var allowed := userMediaType.value;
              r == IfAllowed("image", allowed) + IfAllowed("video", allowed) + IfAllowed("audio", allowed)
  {
    match userMediaType
    case None => []
    case Some(allowed) =>
      var keys := MediaKeys;
      assert keys[1..] == ["video", "audio"] && keys[1..][1..] == ["audio"] && keys[1..][1..][1..] == [];
      assert FilterMedia(["audio"], allowed) == IfAllowed("audio", allowed);
      assert FilterMedia(["video", "audio"], allowed) == IfAllowed("video", allowed) + IfAllowed("audio", allowed);
      FilterMedia(keys, allowed)
  }

  /**
   * `CustomMenu` offers "Add" for the typed text exactly when it is not blank after trimming and
   * no listed option has the same label ignoring case.
   */
  function ShowAddButton(searchValue: string, options: seq<SelectOption>): (r: bool)
    ensures r <==> Trim(searchValue) != ""
                   && forall i :: 0 <= i < |options| ==> ToLower(options[i].labelText) != ToLower(searchValue)
  {
    var isExisting := exists i :: 0 <= i < |options| && ToLower(options[i].labelText) == ToLower(searchValue);
    var isSearching := |searchValue| > 0;
    isSearching && !isExisting && Trim(searchValue) != ""
  }

  /** Upper-casing keeps every character's whitespace status, so blank text stays blank. */
  lemma UpperKeepsBlank(s: string)
    ensures Trim(ToUpper(s)) == "" <==> Trim(s) == ""
  {
    var u := ToUpper(s);
    assert (forall k :: 0 <= k < |u| ==> IsJsWhitespace(u[k])) <==> (forall k :: 0 <= k < |s| ==> IsJsWhitespace(s[k])) by {
      forall k | 0 <= k < |s| ensures IsJsWhitespace(u[k]) <==> IsJsWhitespace(s[k]) {
        assert u[k] == UpperChar(s[k]);
      }
    }
    TrimEmptyIff(s);
    TrimEmptyIff(u);
  }

  /** The "Add" decision ignores the case of what is typed. */
  lemma ShowAddButtonIgnoresCase(searchValue: string, options: seq<SelectOption>)
    ensures ShowAddButton(ToUpper(searchValue), options) == ShowAddButton(searchValue, options)
  {
    LowerOfUpper(searchValue);
    UpperKeepsBlank(searchValue);
  }

  /** Once a category with the typed label is listed, "Add" is no longer offered for that text. */
  lemma NoAddAfterAdding(searchValue: string, options: seq<SelectOption>, created: SelectOption)
    requires created.labelText == searchValue
    ensures !ShowAddButton(searchValue, options + [created])
  {
    assert (options + [created])[|options|] == created;
  }

  /** The labels of the selected categories, in selection order. */
  function Labels(cats: seq<SelectOption>): (r: seq<string>)
    ensures |r| == |cats|
    ensures forall i :: 0 <= i < |cats| ==> r[i] == cats[i].labelText
  {
    if |cats| == 0 then [] else [cats[0].labelText] + Labels(cats[1..])
  }

  /** The body of `POST /product/`. */
  datatype ProductPayload = ProductPayload(uuid: string, slug: string, title: string, description: string,
                                           mediaType: string, category: seq<string>, tags: seq<string>)

  /** What the server answers to `POST /field/category`: its status and the stored category. */
  datatype CategoryReply = CategoryReply(status: int, category: SelectOption)

  /** Tags as `handleTagKeyDown` stores them: each trimmed and not blank. */
  predicate TagsOk(tags: seq<string>)
  {
    forall i :: 0 <= i < |tags| ==> tags[i] != "" && Trim(tags[i]) == tags[i]
  }

  /** Appending the trimmed, non-blank input keeps the tags well formed. */
  lemma AppendTrimmedTag(tags: seq<string>, input: string)
    requires TagsOk(tags) && Trim(input) != ""
    ensures TagsOk(tags + [Trim(input)])
  {
    TrimIdempotent(input);
    var t := tags + [Trim(input)];
    forall i | 0 <= i < |t|
      ensures t[i] != "" && Trim(t[i]) == t[i]
    {
      if i < |tags| {
        assert t[i] == tags[i];
      }
    }
  }

  class ProductForm {
    var title: string
    var description: string
    var mediaType: string
    var tags: seq<string>
    var tagInput: string
    var selectedCategories: seq<SelectOption>
    var availableCategories: seq<SelectOption>
    var availableMediaOptions: seq<SelectOption>

    /** Every stored tag is trimmed and not blank. */
    predicate Valid()
      reads this
    {
      TagsOk(tags)
    }

    constructor ()
      ensures Valid()
      ensures title == "" && description == "" && mediaType == "" && tags == [] && tagInput == ""
      ensures selectedCategories == [] && availableCategories == [] && availableMediaOptions == []
    {
      title, description, mediaType := "", "", "";
      tags, tagInput := [], "";
      selectedCategories, availableCategories, availableMediaOptions := [], [], [];
    }

    /**
     * `handleTagKeyDown`: Enter with non-blank input appends the trimmed input to the end of
     * `tags` (duplicates kept) and clears the input; any other key, or blank input, changes nothing.
     */
    method HandleTagKeyDown(key: string)
      requires Valid()
      modifies this`tags, this`tagInput
      ensures Valid()
      ensures key == "Enter" && Trim(old(tagInput)) != "" ==>
                tags == old(tags) + [Trim(old(tagInput))] && tagInput == ""
      ensures !(key == "Enter" && Trim(old(tagInput)) != "") ==>
                tags == old(tags) && tagInput == old(tagInput)
    {
      if key == "Enter" {
        var trimmed := Trim(tagInput);
        if trimmed != "" {
          AppendTrimmedTag(tags, tagInput);
          tags := tags + [trimmed];
          tagInput := "";
        }
      }
    }

    /** `handleCategoryChange`: the select's new value replaces the selection. */
    method HandleCategoryChange(newValue: seq<SelectOption>)
      modifies this`selectedCategories
      ensures selectedCategories == newValue
    {
      selectedCategories := newValue;
    }

    /**
     * `handleAddCategory` once the request has settled: a 201 reply appends the stored category
     * to both the offered and the selected categories; any other reply, or a failed request, changes nothing.
     */
    method HandleAddCategory(reply: Option<CategoryReply>)
      modifies this`availableCategories, this`selectedCategories
      ensures reply.Some? && reply.value.status == 201 ==>
                availableCategories == old(availableCategories) + [reply.value.category]
                && selectedCategories == old(selectedCategories) + [reply.value.category]
      ensures !(reply.Some? && reply.value.status == 201) ==>
                availableCategories == old(availableCategories) && selectedCategories == old(selectedCategories)
    {
      if reply.Some? && reply.value.status == 201 {
        availableCategories := availableCategories + [reply.value.category];
        selectedCategories := selectedCategories + [reply.value.category];
      }
    }

    /**
     * `getCategories` once the request has settled: the server's categories, as id/name options,
     * replace the offered ones; a failed request only logs and leaves them as they were.
     */
    method GetCategories(reply: Option<seq<SelectOption>>)
      modifies this`availableCategories
      ensures reply.Some? ==> availableCategories == reply.value
      ensures reply.None? ==> availableCategories == old(availableCategories)
    {
      if reply.Some? {
        availableCategories := reply.value;
      }
    }

    /** The effect run when the admin is known: the media options it may pick from. */
    method OnUserLoaded(userMediaType: Option<seq<string>>)
      modifies this`availableMediaOptions
      ensures userMediaType.Some? ==> availableMediaOptions == AllowedMediaOptions(userMediaType)
      ensures userMediaType.None? ==> availableMediaOptions == old(availableMediaOptions)
    {
      if userMediaType.Some? {
        availableMediaOptions := AllowedMediaOptions(userMediaType);
      }
    }

    /**
     * `isFormValid`: title, description and media type are filled in, the first tag is not
     * empty and a category is selected. Under the tag invariant the tag condition is "some tag".
     */
    function IsFormValid(): (r: bool)
      reads this
      ensures r ==> |tags| > 0 && |selectedCategories| > 0 && title != "" && description != "" && mediaType != ""
      ensures Valid() ==>
                (r <==> title != "" && description != "" && mediaType != "" && |tags| > 0 && |selectedCategories| > 0)
    {
      title != "" && description != "" && mediaType != "" && |tags| > 0 && tags[0] != ""
      && |selectedCategories| > 0
    }

    /**
     * `handleNext`'s payload; `uuid` and `slug` come from the uuid and slugify libraries. The
     * payload of a valid form names at least one category, each by its label in selection order,
     * and at least one tag, every tag trimmed and not blank.
     */
    function NextPayload(uuid: string, slug: string): (p: ProductPayload)
      reads this
      ensures Valid() && IsFormValid() ==>
                |p.category| >= 1 && |p.category| == |selectedCategories|
                && (forall i :: 0 <= i < |p.category| ==> p.category[i] == selectedCategories[i].labelText)
                && |p.tags| >= 1 && TagsOk(p.tags)
                && p.title != "" && p.description != "" && p.mediaType != ""
      ensures p.category == Labels(selectedCategories) && p.tags == tags
      ensures p.title == title && p.description == description && p.mediaType == mediaType
      ensures p.uuid == uuid && p.slug == slug
    {
      ProductPayload(uuid, slug, title, description, mediaType, Labels(selectedCategories), tags)
    }
  }
}
