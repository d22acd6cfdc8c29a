# Dream journal front end: form rules, tag toggling and the listing key

This project models the logic inside the dream-journal web front end ("sueños"):

- the **public listing hook**, which derives the request key (also the cache key) from the
  selected category filters and wraps the HTTP call so that every failure becomes one fixed error;
- the **category chip**, which appends or filters out its value in the form's tag list and shows
  as checked when the list holds the value;
- the **post-a-dream form**: which chosen images become previews (a count gate of three, a size
  test with JavaScript's operator precedence), removing a preview, its own text schema, the add
  button's disable rule, and the handlers that return the form to its defaults;
- the **sign-up form**: its schema (nickname length, e-mail, password pattern, confirmation length,
  equality of the two passwords), the live password checklist, and the submit handler's state;
- the **shared entry schema** (story length, title, `anonymous` with a default, at least one category).

Files:

| file | module | models |
|---|---|---|
| wrappers.dfy | `Wrappers` | `Option`, `Result` |
| schema.dfy | `Schema` | the validation library's rules the schemas use: JavaScript values, issues, string length checks, arrays of strings, booleans with a default |
| lists.dfy | `Lists` | `xs.filter(x => x !== v)`, shared by the chip and the preview list |
| use_suenios.dfy | `UseSuenios` | src/customHooks/useSuenios.ts |
| checkbox_tag.dfy | `CheckboxTag` | src/components/CheckboxTag.tsx |
| post_suenio.dfy | `PostSuenio` | src/components/PostSuenio.tsx (pure rules, and class `PostSuenioForm` for the component's state) |
| registro.dfy | `Registro` | src/components/Registro.tsx (schema, pattern, checklist, and class `RegistroForm`) |
| post_entry_schema.dfy | `PostEntrySchema` | src/utils/formulSchemas/postSuenio.ts |

Modelling choices:

- Strings are `seq<char>`. Lengths count characters; the library and JavaScript count UTF-16 code units.
- A schema result is `Success(value)` or `Failure(issues)`, with a non-empty issue list. The issues
  come in declaration order. A value of the wrong type gives `InvalidType(path)`, and the field's
  other checks are skipped. A failed rule gives `Rule(path, message)` with the schema's own message.
  The fields of the sign-up form are always strings, so the object-level password-equality
  refinement runs even when a field rule fails. The validation library does this for objects whose
  fields have the right types.
- The e-mail rule belongs to the library and its grammar is not visible here. It is the parameter
  `isEmail: string -> bool`.
- The password pattern `/^(?=.*[0-9])(?=.*[!@#$%^&*()?]).{8,}$/` is modelled piece by piece: the two
  lookaheads, then `.{8,}$`. In JavaScript `.` does not match `\n`, `\r`, U+2028 or U+2029.
  `Registro.PasswordPatternMeaning` proves that the pattern means: at least eight characters, no
  line terminator, a digit and a special character.
- Each chosen file is an `ImageFile(url, width, height)`. An image is tested when it loads, and the
  model runs these tests one after the other in file order.
- `archivosParaSubir` ranges over undefined, `null`, the empty array and a file list. An empty array
  is truthy in JavaScript. So a submit after "Borrar" still clears the two warning flags.
- As the code stands, the preview list can hold five entries. The count gate reads the list's
  length before any image loads. With two previews shown, a selection of three acceptable images is
  allowed, and all three are added (`PostSuenio.FivePreviews`). The add button is disabled only at
  exactly three. The class invariant `PostSuenioForm.Valid` is therefore `|imagePreview| <= 5`. This bound rests on the model finishing a selection's image loads before the next selection. In the component, a second selection made before the first one's images load sees the old length and could pass five.
- The request key uses the code's gate `length > 1`. A single selected filter therefore uses the
  same key as no filter (`UseSuenios.ShortSelectionIsLatest`). The key is a function of the selection
  alone, so equal selections give equal keys.

## Model

| member | source | states |
|---|---|---|
| `UseSuenios.ShortSelectionIsLatest` | src/customHooks/useSuenios.ts:46 | a selection of zero or one filter gives "/public/latest_posts", which is read back as the latest-posts endpoint; [x] and [] share one key |
| `UseSuenios.RequestKey` | src/customHooks/useSuenios.ts:46 | the key is "/public/latest_posts" exactly when fewer than two filters are selected; two or more filters give "/public/filter_post/" followed by the comma-joined filters in selection order |
| `UseSuenios.KeyRoundTrip` | src/customHooks/useSuenios.ts:46 | for two or more comma-free filters, splitting the key's suffix on "," gives back the selection |
| `UseSuenios.KeyInjective` | src/customHooks/useSuenios.ts:46 | distinct selections of two or more comma-free filters have distinct keys, so they never share a cache entry |
| `UseSuenios.SplitJoin` | src/customHooks/useSuenios.ts:46 | `split(",")` inverts `join(",")` on a non-empty list of comma-free strings |
| `UseSuenios.Join` | src/customHooks/useSuenios.ts:46 | `join(",")` of no filters is the empty string, of one filter that filter, and of n comma-free filters a string holding exactly n-1 commas |
| `UseSuenios.SplitCommaFree` | src/customHooks/useSuenios.ts:46 | splitting a comma-free string gives that one string |
| `UseSuenios.SplitAfterPiece` | src/customHooks/useSuenios.ts:46 | splitting w + "," + t, with w comma-free, gives w followed by the pieces of t |
| `UseSuenios.Fetch` | src/customHooks/useSuenios.ts:30-37 | the fetcher succeeds exactly when the call gave a response, and returns its data; every failure gives "Failed to fetch data" |
| `UseSuenios.FetchForgetsCause` | src/customHooks/useSuenios.ts:34-35 | two different causes of failure give the same error |
| `CheckboxTag.IsChecked` | src/components/CheckboxTag.tsx:22-24 | the chip shows checked exactly when its value occurs at least once in the field's list |
| `CheckboxTag.Check` | src/components/CheckboxTag.tsx:29-30 | checking appends v: the old list is a prefix, the length grows by one, the last element is v, and v occurs once more than before (no dedup) |
| `CheckboxTag.Uncheck` | src/components/CheckboxTag.tsx:31 | unchecking leaves no v, and every other value occurs as often as before |
| `CheckboxTag.HandleCheckbox` | src/components/CheckboxTag.tsx:26-33 | after a change event the chip's checked state equals the event's `checked`; checking grows the list by one, unchecking never grows it |
| `CheckboxTag.UncheckKeepsOrder` | src/components/CheckboxTag.tsx:31 | unchecking distributes over concatenation, so the remaining values keep their relative order |
| `CheckboxTag.UncheckIdempotent` | src/components/CheckboxTag.tsx:31 | unchecking twice equals unchecking once |
| `CheckboxTag.CheckThenUncheck` | src/components/CheckboxTag.tsx:23-31 | if v is not selected (the chip shows unchecked), checking then unchecking v restores the list |
| `Lists.RemoveAll` | src/components/PostSuenio.tsx:247-248 | the filtered list never grows, holds no v, and holds only elements of the input |
| `Lists.RemoveAllConcat` | src/components/PostSuenio.tsx:247-248 | removal distributes over concatenation, so the other entries keep their order |
| `Lists.RemoveAllCounts` | src/components/CheckboxTag.tsx:31 | removal keeps the count of every other value and leaves none of v |
| `Lists.RemoveAllAbsent` | src/components/CheckboxTag.tsx:31 | removing a value that is not there changes nothing |
| `Lists.RemoveAllIdempotent` | src/components/PostSuenio.tsx:247-248 | removing twice equals removing once |
| `PostSuenio.SizeAccepted` | src/components/PostSuenio.tsx:64-67 | the size test rejects an image exactly when both width and height exceed 1200 px; any image at most 1200 px high passes; every image within 500..1200 on both sides passes |
| `PostSuenio.SizeRuleLooserThanHint` | src/components/PostSuenio.tsx:64-67 | images of 5000 x 10 and 10 x 10 pixels pass the test, although the hint's "500px mínimo, 1200px máximo" excludes them |
| `PostSuenio.SelectionGate` | src/components/PostSuenio.tsx:49-52 | the count-exceeded branch is taken exactly when three or more previews are shown or four or more files are chosen; images are processed exactly when a file list of at most three comes with fewer than three previews; nothing happens only without a file list |
| `PostSuenio.AcceptedUrls` | src/components/PostSuenio.tsx:64-68 | the URLs the load handlers add, in file order; never more than there are files |
| `PostSuenio.SizeFlagAfter` | src/components/PostSuenio.tsx:64-73 | after the images load, the wrong-size flag is set exactly when the last image is over 1200 px on both sides; an earlier rejected image is forgotten; with no image the flag is unchanged |
| `PostSuenio.AcceptedUrlsMembers` | src/components/PostSuenio.tsx:64-68 | a URL is added to the previews exactly when some accepted image carries it |
| `PostSuenio.AcceptedUrlsNonEmpty` | src/components/PostSuenio.tsx:64-70 | some preview is added (and the file list stored) exactly when some image is accepted |
| `PostSuenio.LowImagesAllAccepted` | src/components/PostSuenio.tsx:64-68 | when every image is at most 1200 px high, all of them are previewed, in file order |
| `PostSuenio.LoadStep` | src/components/PostSuenio.tsx:60-73 | one more loaded image appends its URL if accepted, sets the wrong-size flag to its own verdict, and counts towards "some image accepted" |
| `PostSuenio.PostSuenioSchema` | src/components/PostSuenio.tsx:79-86 | the form's schema accepts exactly a string `texto` of 20 to 1200 characters and `tags` that is an array of strings; `imagenes` is unconstrained |
| `PostSuenio.FormValuesValid` | src/components/PostSuenio.tsx:79-86 | for the values the form holds, the schema accepts exactly when the text has 20 to 1200 characters, and the parsed value equals them |
| `PostSuenio.AddImageDisabled` | src/components/PostSuenio.tsx:186 | whenever the add button is disabled, every selection takes the count-exceeded branch; with more than three previews it is enabled again |
| `PostSuenio.PostSuenioForm.constructor` | src/components/PostSuenio.tsx:35-41 | the form starts with no previews, both flags cleared, no files, and the default values "", null, [] |
| `PostSuenio.PostSuenioForm.ChooseImages` | src/components/PostSuenio.tsx:43-77 | four or more files, or three or more previews already shown: only the count flag is set. Otherwise the flag is cleared and the accepted images' URLs are appended in order. The wrong-size flag then holds the last image's verdict, and the file list is stored if any image is accepted. The preview list never exceeds five |
| `PostSuenio.PostSuenioForm.LoadImages` | src/components/PostSuenio.tsx:56-75 | the loop over the files appends exactly the accepted images' URLs to the previews and changes nothing but the previews, the wrong-size flag and the stored files |
| `PostSuenio.PostSuenioForm.RemovePreview` | src/components/PostSuenio.tsx:246-249 | removing URL u deletes every preview equal to u, keeps the rest, and changes nothing else |
| `PostSuenio.PostSuenioForm.OnSubmitLogin` | src/components/PostSuenio.tsx:110-126 | the submit handler clears both flags when the stored files are truthy (including the empty array), and resets the values to "", null, [] |
| `PostSuenio.PostSuenioForm.SubmitSucceeded` | src/components/PostSuenio.tsx:102-108 | after a successful submit the values are the defaults, the previews are empty and the stored files are null |
| `PostSuenio.PostSuenioForm.ResetForm` | src/components/PostSuenio.tsx:128-131 | "Borrar" restores the default values, empties the previews and stores the empty array |
| `PostSuenio.PostSuenioForm.Submit` | src/components/PostSuenio.tsx:102-126 | pressing "Enviar" runs the handler and the success effect exactly when the text has 20 to 1200 characters; otherwise nothing changes |
| `PostSuenio.FivePreviews` | src/components/PostSuenio.tsx:49-52 | two previews plus a selection of three acceptable images leave five previews, the add button enabled and no count warning |
| `Schema.CheckIssues` | src/components/Registro.tsx:32-35 | a string's checks report no issue exactly when all hold, and each failed check reports its own message |
| `Schema.LengthField` | src/utils/formulSchemas/postSuenio.ts:4-7 | a string with `.min`/`.max` is accepted exactly when its length lies between them; a non-string is a type error; a too-short or too-long string reports the corresponding message |
| `Schema.StringField` | src/utils/formulSchemas/postSuenio.ts:8 | `z.string()` with its checks: a non-string gives the single issue `InvalidType`; a string is accepted exactly when every check holds and parses to itself; a failing string carries the checks' own issues |
| `Schema.IssuesOf` | src/utils/formulSchemas/postSuenio.ts:3-12 | a field contributes no issue to its object's list exactly when it parsed (a failure always carries its issues) |
| `Schema.StringArrayField` | src/utils/formulSchemas/postSuenio.ts:11 | an array rule is met exactly by an array of strings of at least the minimum length, and parses to those strings; a too-short array reports the rule's message |
| `Schema.BooleanField` | src/utils/formulSchemas/postSuenio.ts:9 | a boolean with a default accepts undefined (giving the default) or a boolean, and nothing else |
| `Schema.ElementIssues` | src/components/PostSuenio.tsx:85 | an array's elements report no issue exactly when all are strings |
| `Schema.Strings` | src/components/PostSuenio.tsx:85 | a list of strings, handed over as an array value, is an array of strings that parses back to the same list |
| `PostEntrySchema.StoryField` | src/utils/formulSchemas/postSuenio.ts:4-7 | the story is accepted exactly when it is a string of 100 to 1000 characters; shorter and longer stories report their own messages |
| `PostEntrySchema.ParsePostEntry` | src/utils/formulSchemas/postSuenio.ts:3-12 | an entry is accepted exactly when every field rule holds (story length, title a string, anonymous absent or boolean, idCategory a non-empty array of strings); the parsed anonymous is false unless it was true; `idCategory: []` reports "Al menos elegí una" |
| `PostEntrySchema.StoryBounds` | src/utils/formulSchemas/postSuenio.ts:4-7 | with the other fields valid, an entry is accepted exactly when its story has 100 to 1000 characters; a story of 99 fails with the minimum message, one of 1001 with the maximum message |
| `PostEntrySchema.AnonymousDefaultsToFalse` | src/utils/formulSchemas/postSuenio.ts:9 | an accepted entry without `anonymous` parses with anonymous false |
| `Registro.AnyAtLeastToEndMeaning` | src/components/Registro.tsx:39 | `.{n,}$` matches exactly a string of at least n characters without a line terminator |
| `Registro.LookaheadMeaning` | src/components/Registro.tsx:39 | a lookahead `(?=.*[k])` implies the class occurs, and for a string without line terminators it holds exactly when the class occurs |
| `Registro.PasswordPattern` | src/components/Registro.tsx:39 | a password the pattern accepts has at least 8 characters, no line terminator, a digit and one of `!@#$%^&*()?` |
| `Registro.PasswordPatternMeaning` | src/components/Registro.tsx:37-39 | the password pattern accepts exactly the strings of at least 8 characters, with no line terminator, a digit and one of `!@#$%^&*()?` |
| `Registro.NickNameIssues` | src/components/Registro.tsx:32-35 | the nickname reports no issue exactly when its length is 4 to 15, with the minimum or maximum message otherwise |
| `Registro.PasswordIssues` | src/components/Registro.tsx:37-39 | the password reports no issue exactly when it is strong, and otherwise the single message "Ver requerimientos" |
| `Registro.ConfirmIssues` | src/components/Registro.tsx:40 | the confirmation reports no issue exactly when it has at least 8 characters |
| `Registro.RegistroIssues` | src/components/Registro.tsx:30-45 | with every field rule met, the only possible issue is "Las contraseñas no coinciden", reported exactly when the passwords differ; no issue at all exactly when the fields are valid and equal |
| `Registro.ValidateRegistro` | src/components/Registro.tsx:30-45 | the sign-up schema accepts exactly valid fields with equal passwords and returns the values unchanged; with valid fields it fails with the mismatch message alone exactly when the passwords differ |
| `Registro.RejectsBadFields` | src/components/Registro.tsx:30-45 | "abc", "bad", "x", "x" is rejected with the nickname, e-mail, password and confirmation messages |
| `Registro.AcceptsGoodEntry` | src/components/Registro.tsx:30-45 | "validname", "a@b.com", "Abcdefg1!" twice is accepted when the e-mail test accepts "a@b.com" |
| `Registro.LengthItem` | src/components/Registro.tsx:160-166 | the length item is green exactly when at least 8 characters are typed (`length > 7`); never before typing |
| `Registro.LetterItem` | src/components/Registro.tsx:167-175 | the letter item is green only once something is typed, and then exactly when a Latin letter occurs |
| `Registro.DigitItem` | src/components/Registro.tsx:176-182 | the digit item is never green before typing (the text "undefined" has no digit), and afterwards exactly when a digit occurs |
| `Registro.SpecialItem` | src/components/Registro.tsx:183-189 | the special-character item is never green before typing, and afterwards exactly when one of `!@#$%^&*()?` occurs |
| `Registro.ChecklistBeforeTyping` | src/components/Registro.tsx:160-189 | before anything is typed no checklist item is green, although the text "undefined" that the digit and special tests see holds letters |
| `Registro.ChecklistMatchesSchema` | src/components/Registro.tsx:160-189 | for a password without line terminators, the schema pattern holds exactly when the length, digit and special-character items are green |
| `Registro.LetterItemNotRequired` | src/components/Registro.tsx:167-175 | "12345678!" passes the pattern while the letter item stays grey |
| `Registro.RegistroForm.constructor` | src/components/Registro.tsx:62-64 | the form starts with no confirmation, not loading, and the empty error |
| `Registro.RegistroForm.EnterValues` | src/components/Registro.tsx:102-142 | typing into the registered inputs sets the form values and nothing else |
| `Registro.RegistroForm.BeginSubmit` | src/components/Registro.tsx:68-69 | submitting first clears the error and sets loading |
| `Registro.RegistroForm.FinishSubmit` | src/components/Registro.tsx:70-85 | a 201 response ends loading, resets the values and sets confirmEmail; another response changes nothing; an HTTP-client error ends loading, clears confirmEmail and stores the response body as the error; any other error ends loading and clears confirmEmail |
| `Registro.RegistroForm.Submit` | src/components/Registro.tsx:67-85 | with values the schema rejects nothing changes. Otherwise loading stays on exactly when the response is not 201. A 201 response confirms and resets the values; another response keeps confirmEmail and the values; a thrown error leaves confirmEmail false and the values as they were. An error text is shown exactly when an HTTP-client error carries a non-empty body |

## Left out

- The fetching library's caching, deduplication and revalidation, and the HTTP calls themselves (useSuenios.ts:41-46, Registro.tsx:71). They are third-party code and network I/O. The call's outcome is an input to `UseSuenios.Fetch` and `Registro.RegistroForm.FinishSubmit`.
- The filter store, which is not part of this model. The selection is the argument of `UseSuenios.RequestKey`.
- Image decoding (`new Image()`, `URL.createObjectURL`) and the asynchrony of the load callbacks (PostSuenio.tsx:57-60). The callbacks can finish in any order and interleave with other events. The model runs them in file order, one after the other.
- The library's e-mail grammar (Registro.tsx:36). It is the `isEmail` parameter.
- Resolver wiring, error-message display, the confetti, the loader component, `console` logging, and all markup and styling.
- `Registro.RegistroForm.FinishSubmit`: an HTTP-client error's response body is modelled as an optional string. The source stores whatever the body holds, and `undefined` when there is no response.
- `Registro.RegistroForm.FinishSubmit`: `reset()` at Registro.tsx:74 is modelled as returning the four values to empty strings. The form declares no default values.
- The chip wiring at PostSuenio.tsx:269-275 passes no `value` prop. So the input carries the browser's default value "on", and every chip appends "on" to the tags (CheckboxTag.tsx:27,43). `field.value.includes(undefined)` is then false, so no chip ever shows checked (CheckboxTag.tsx:23). The model leaves this wiring out: the chip's value is a parameter of `CheckboxTag.HandleCheckbox` and `CheckboxTag.IsChecked`.
- `PostSuenio.PostSuenioForm.ChooseImages`: the file input's handler first calls the form library's `onChange(e)` (PostSuenio.tsx:207), which stores the file name the browser reports in the form value `imagenes`. This write is not modelled, so the method keeps `imagenes` unchanged. Nothing reads that value: the schema's `imagenes` is `z.any()` (PostSuenio.tsx:84), and the submit handler reads only `texto` and `tags` (PostSuenio.tsx:111).
- The profile-edit page (src/app/perfilConf/editar/page.tsx) is page rendering, cookie removal and a router refresh. It is not modelled.
- UTF-16 code units: lengths are counted in Dafny characters. They differ for characters outside the Basic Multilingual Plane.
