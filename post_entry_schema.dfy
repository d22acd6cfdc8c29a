/**
 * The shared schema of a dream entry: a story of 100 to 1000 characters, a
 * title of any text, an `anonymous` flag that defaults to false, unchecked
 * images, and at least one category.
 */
module PostEntrySchema {
  import opened Wrappers
  import opened Schema

  const StoryTooShort: string := "Muy corto, contanos algo interesante, minimo 100 carácteres."
  const StoryTooLong: string := "Muy largooo, máximo 1000 caracteres"
  const NoCategory: string := "Al menos elegí una"

  datatype PostEntry = PostEntry(story: string, title: string, anonymous: bool, imagenes: Value, idCategory: seq<string>)

  predicate StoryValid(v: Value)
  {
    v.Str? && 100 <= |v.s| <= 1000
  }

  /** Any string, the empty one included. */
  predicate TitleValid(v: Value)
  {
    v.Str?
  }

  predicate AnonymousValid(v: Value)
  {
    v.Undefined? || v.Bool?
  }

  predicate CategoriesValid(v: Value)
  {
    v.Arr? && |v.items| >= 1 && AllStrings(v.items)
  }

  function StoryField(v: Value): (r: Result<string, seq<Issue>>)
    ensures r.Success? <==> StoryValid(v)
    ensures r.Success? ==> r.value == v.s
    ensures r.Failure? ==> r.error != []
    ensures v.Str? && |v.s| < 100 ==> r == Failure([Rule("story", StoryTooShort)])
    ensures v.Str? && |v.s| > 1000 ==> r == Failure([Rule("story", StoryTooLong)])
  {
    LengthField("story", v, 100, StoryTooShort, 1000, StoryTooLong)
  }

  /** Parsing an entry object: every field is checked and all issues are reported together. */
  function ParsePostEntry(obj: map<string, Value>): (r: Result<PostEntry, seq<Issue>>)
    ensures r.Success? <==>
              StoryValid(Field(obj, "story")) && TitleValid(Field(obj, "title")) &&
              AnonymousValid(Field(obj, "anonymous")) && CategoriesValid(Field(obj, "idCategory"))
    ensures r.Success? ==>
              r.value.story == Field(obj, "story").s && r.value.title == Field(obj, "title").s &&
              r.value.anonymous == (Field(obj, "anonymous") == Bool(true)) &&
              r.value.imagenes == Field(obj, "imagenes") &&
              r.value.idCategory == StringsOf(Field(obj, "idCategory").items)
    ensures r.Failure? ==> r.error != []
    ensures Field(obj, "idCategory") == Arr([]) ==> r.Failure? && Rule("idCategory", NoCategory) in r.error
  {
    var story := StoryField(Field(obj, "story"));
    var title := StringField("title", Field(obj, "title"), []);
    var anonymous := BooleanField("anonymous", Field(obj, "anonymous"), false);
    var categories := StringArrayField("idCategory", Field(obj, "idCategory"), 1, NoCategory);
    if story.Success? && title.Success? && anonymous.Success? && categories.Success? then
      Success(PostEntry(story.value, title.value, anonymous.value, Field(obj, "imagenes"), categories.value))
    else
      Failure(IssuesOf(story) + IssuesOf(title) + IssuesOf(anonymous) + IssuesOf(categories))
  }

  /** An entry with every other field valid: only the story's length decides, at 100 and 1000 inclusive. */
  lemma StoryBounds(story: string, title: string, categories: seq<string>)
    requires |categories| >= 1
    ensures var entry := map["story" := Str(story), "title" := Str(title), "idCategory" := Arr(Strings(categories))];
      ParsePostEntry(entry).Success? <==> 100 <= |story| <= 1000
    ensures |story| == 99 ==>
              ParsePostEntry(map["story" := Str(story)]).Failure? &&
              Rule("story", StoryTooShort) in ParsePostEntry(map["story" := Str(story)]).error
    ensures |story| == 1001 ==>
              ParsePostEntry(map["story" := Str(story)]).Failure? &&
              Rule("story", StoryTooLong) in ParsePostEntry(map["story" := Str(story)]).error
  {
  }

  /** An absent `anonymous` parses as false. */
  lemma AnonymousDefaultsToFalse(obj: map<string, Value>)
    requires "anonymous" !in obj
    requires ParsePostEntry(obj).Success?
    ensures !ParsePostEntry(obj).value.anonymous
  {
  }
}
