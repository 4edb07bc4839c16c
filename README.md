# django-rest-scaffold: the `rest_scaffold` template tag in Dafny

The `rest_scaffold` template tag configures the `div` that the front-end
script `rest-scaffold.js` takes over. It does four things:

- It resolves a model reference against Django's app registry (`get_model`).
  The reference is a model name, optionally scoped to an app label, or a
  model class.
- It parses the comma-separated `fields`, `exclude_from_form` and
  `exclude_from_table` options (`comma_parse`).
- It projects the model's fields into a list of field configurations.
- It assembles the configuration record: titles, subtitle, primary key, REST
  URL, passthrough keyword options and the CSRF token.

The model replaces Django's registry with an explicit value. A `Registry` is
a sequence of apps. Each app has a label and an ordered list of models, and
each model has its fields in declaration order. The tag itself is modelled
twice:

- `TemplateTag.Scaffold` is a function, and it is the specification.
- `TemplateTag.RestScaffold` is a method with the source's loop, proved equal
  to that function.

`get_model` is modelled the same way: `Registry.Resolve` is the function and
`Registry.GetModel` is the method with the search loop.

Modules, one per file:

| file | module | what it models |
|---|---|---|
| `wrappers.dfy` | `Wrappers` | `Option` |
| `ascii.dfy` | `Ascii` | `str.lower` and `str.title`, restricted to ASCII |
| `comma_list.dfy` | `CommaList` | `comma_parse`: split on commas, drop empty pieces |
| `posix_path.dfy` | `PosixPath` | POSIX `os.path.join`, without normalisation |
| `field_ids.dfy` | `FieldIds` | the per-field DOM id `rest-scaffold-field-<n>` |
| `registry.dfy` | `Registry` | apps, models and fields; `get_model` and its five error outcomes |
| `scaffold.dfy` | `TemplateTag` | field projection, record assembly, the tag as function and as method |
| `scaffold_examples.dfy` | `ScaffoldExamples` | the repository's unit tests, restated on a registry with `contenttypes` and `auth` |

The source and the tests disagree in one place, and the model follows the
source:

- The tests pass `api_root="/api"`, but the tag's parameter is `api_url`.
  So `api_root` ends up in `**kwargs` and is copied into the record
  unchanged.
- The URL is then built from the default empty `api_url`, which gives
  `/auth/user` and `/auth/group`. The tests expect `/api/auth/user` and
  `/api/auth/group`.
- `ScaffoldExamples.UserWithApp`, `ScaffoldExamples.GroupWithoutApp` and
  `ScaffoldExamples.GroupWithModelObject` prove what the code produces.

The tests for a bad app and for a bad model in an app only check that some
error is returned (`assertTrue` with the message as the failure text). The
examples prove the exact message the code returns.

The tag has no code for a `choices` option, an `apiType` option or a URL
override, so the model has none. A passthrough `url` keyword option does
replace the computed URL, as any passthrough option replaces a computed key,
and that is modelled.

## Model

| member | source | states |
|---|---|---|
| `Ascii.Lower` | rest_scaffold/templatetags/rest_scaffold.py:26 | lower-casing keeps the length and maps every character through `LowerChar` (only `A`-`Z` change) |
| `Ascii.TitleFrom` | rest_scaffold/templatetags/rest_scaffold.py:93 | title-casing keeps the length, keeps every character up to case (same lowered form, same casedness), and makes a leading letter upper-case iff it does not follow a cased character |
| `Ascii.Title` | rest_scaffold/templatetags/rest_scaffold.py:93-95 | a title has the same length and the same lowered form as the original, and starts with an upper-case letter when the original starts with a letter |
| `Ascii.TitleAt` | rest_scaffold/templatetags/rest_scaffold.py:93 | position by position, `title()` only changes the case of letters, leaves other characters unchanged, and a letter is upper-case exactly when it starts a word (it is first, or follows an uncased character) |
| `Ascii.TitleIdempotent` | rest_scaffold/templatetags/rest_scaffold.py:93-95 | title-casing a title-cased string changes nothing |
| `Ascii.TitleLowerWord` | rest_scaffold/templatetags/rest_scaffold.py:93-95 | a lower-case word (a verbose name such as "users") is title-cased by raising its first letter only |
| `CommaList.Split` | rest_scaffold/templatetags/rest_scaffold.py:45 | splitting on commas gives at least one piece, and no piece contains a comma |
| `CommaList.JoinSplit` | rest_scaffold/templatetags/rest_scaffold.py:45 | joining the pieces with commas gives back the original string |
| `CommaList.SplitJoin` | rest_scaffold/templatetags/rest_scaffold.py:45 | splitting a comma-join of comma-free pieces gives back those pieces |
| `CommaList.NonEmpty` | rest_scaffold/templatetags/rest_scaffold.py:45 | the filtered list holds only non-empty members of the input, and every non-empty member of the input |
| `CommaList.CommaParse` | rest_scaffold/templatetags/rest_scaffold.py:44-45 | every parsed name is non-empty and comma-free, and a string is parsed out iff it is a non-empty piece of the split |
| `CommaList.CommaParseDropsEmpty` | rest_scaffold/templatetags/rest_scaffold.py:44-45 | parsing a comma-join gives exactly the non-empty pieces, in order |
| `CommaList.CommaParseJoin` | rest_scaffold/templatetags/rest_scaffold.py:44-45 | a list of non-empty, comma-free names survives a comma-join and a parse unchanged |
| `PosixPath.JoinStep` | rest_scaffold/templatetags/rest_scaffold.py:98 | a rooted component replaces the path; any other component extends it, keeping the path as a prefix |
| `PosixPath.Join` | rest_scaffold/templatetags/rest_scaffold.py:98 | a joined path ends with its last component, and a join that starts at a rooted path stays rooted |
| `PosixPath.JoinResets` | rest_scaffold/templatetags/rest_scaffold.py:98 | a rooted component discards everything joined before it |
| `FieldIds.Decimal` | rest_scaffold/templatetags/rest_scaffold.py:68 | the numeral of a natural number is non-empty and made of decimal digits |
| `FieldIds.DecimalRoundTrip` | rest_scaffold/templatetags/rest_scaffold.py:68 | reading the numeral back gives the number |
| `FieldIds.FieldId` | rest_scaffold/templatetags/rest_scaffold.py:68 | a field id is the prefix `rest-scaffold-field-` followed by at least one decimal digit and nothing else |
| `FieldIds.FieldIdInjective` | rest_scaffold/templatetags/rest_scaffold.py:67-68 | two field ids are equal iff the field identities are equal |
| `Registry.Message` | rest_scaffold/templatetags/rest_scaffold.py:29-41 | every error message is a non-empty string, so the error record is truthy |
| `Registry.MessageInjective` | rest_scaffold/templatetags/rest_scaffold.py:29-41 | the five error messages are pairwise distinct: equal messages mean the same failure |
| `Registry.AllModels` | rest_scaffold/templatetags/rest_scaffold.py:33 | the installed models are exactly the models of the registry's apps |
| `Registry.ModelIndex` | rest_scaffold/templatetags/rest_scaffold.py:33-35 | the search stops at the first model whose lower-cased name equals the lower-cased key; it returns the length when none matches |
| `Registry.AppIndex` | rest_scaffold/templatetags/rest_scaffold.py:25 | the app lookup stops at the first app with exactly that label; it returns the length (a lookup error) when none has it |
| `Registry.Resolve` | rest_scaffold/templatetags/rest_scaffold.py:20-41 | a resolved model is installed, matches a name reference case-insensitively, and is the model itself for a type reference |
| `Registry.ResolveGlobalName` | rest_scaffold/templatetags/rest_scaffold.py:31-36 | without an app, a name resolves to `m` iff `m` is the first installed model, in registration order, whose name matches; the result is "model not found" iff no installed model matches |
| `Registry.ResolveInApp` | rest_scaffold/templatetags/rest_scaffold.py:22-30 | with an app, the result is "app not found" iff no app has that label; otherwise only the first app with that label is searched, it resolves to its first match, and the result is "model not found in that app" iff none of its models matches |
| `Registry.ResolveNonString` | rest_scaffold/templatetags/rest_scaffold.py:37-41 | a model type resolves to itself iff installed and to "model not installed" otherwise, whatever the app; any other reference gives "model is not the proper type" |
| `Registry.FirstMatch` | rest_scaffold/templatetags/rest_scaffold.py:25-27 | the search loop with early return finds the same position as `ModelIndex` |
| `Registry.GetModel` | rest_scaffold/templatetags/rest_scaffold.py:20-41 | the loop-based lookup returns exactly `Resolve`'s result, errors included |
| `TemplateTag.WidgetAttrs` | rest_scaffold/templatetags/rest_scaffold.py:69-74 | the render attributes carry the field's id, and `size` is 10 iff the widget is a select; it is absent otherwise |
| `TemplateTag.FieldConfigOf` | rest_scaffold/templatetags/rest_scaffold.py:65-89 | a field configuration has the field's name and id; `html` is present iff the field has a form field, and is then that widget rendered with these attributes; the title is the verbose name, or the name when there is none; `on_form` is present, and false, iff the name is in the parsed form exclusions (likewise `on_table`) |
| `TemplateTag.SelectedByFieldsString` | rest_scaffold/templatetags/rest_scaffold.py:54-63 | in terms of the raw `fields` string, a field is kept iff it is not a reverse relation and either the string has no non-empty piece or one of its comma-separated pieces is the field name |
| `TemplateTag.ProjectFields` | rest_scaffold/templatetags/rest_scaffold.py:60-90 | the field list is no longer than the field declarations, and each of its entries is the configuration of some kept field |
| `TemplateTag.KeptIndices` | rest_scaffold/templatetags/rest_scaffold.py:62-64 | the kept positions are exactly the non-reverse fields that are listed (or all of them when the list is empty), each once, in increasing order |
| `TemplateTag.ProjectFieldsAt` | rest_scaffold/templatetags/rest_scaffold.py:60-90 | the field list has one entry per kept position, and its k-th entry is the configuration of the k-th kept field, in declaration order |
| `TemplateTag.FilterOrderIrrelevant` | rest_scaffold/templatetags/rest_scaffold.py:54-63 | two `fields` lists holding the same names, in any order or multiplicity, give the same field list |
| `TemplateTag.ExclusionsOnlySetFlags` | rest_scaffold/templatetags/rest_scaffold.py:86-90 | exclusion lists never add, remove or reorder fields; they change only the `on_form`/`on_table` flags |
| `TemplateTag.FieldIdsDistinct` | rest_scaffold/templatetags/rest_scaffold.py:67-68 | fields with distinct identities get pairwise distinct ids in one field list |
| `TemplateTag.Subtitle` | rest_scaffold/templatetags/rest_scaffold.py:94 | the subtitle is the app label, then " / ", then the model's class name |
| `TemplateTag.Url` | rest_scaffold/templatetags/rest_scaffold.py:98 | the URL always starts with `/` and ends with the lower-cased model name |
| `TemplateTag.UrlForm` | rest_scaffold/templatetags/rest_scaffold.py:98 | for a non-empty, slash-free app label and a slash-free model name: an empty `api_url` gives `/app/model`; a relative `api_url` gets a leading `/`; a rooted one is kept; after an `api_url` ending in `/` no second `/` is added, whether it is relative or rooted |
| `TemplateTag.Record` | rest_scaffold/templatetags/rest_scaffold.py:92-98 | the computed record has exactly the keys title, subtitle, recordTitle, pkField, fields and url |
| `TemplateTag.AddCsrf` | rest_scaffold/templatetags/rest_scaffold.py:101-103 | adding the token adds the key `csrfToken` iff the token is non-empty, with the token as its value, and leaves every other key and value unchanged |
| `TemplateTag.MergeThenCsrf` | rest_scaffold/templatetags/rest_scaffold.py:99-103 | after merging the passthrough options over the record and adding the token, each key holds the token, else the passthrough value, else the computed value |
| `TemplateTag.Scaffold` | rest_scaffold/templatetags/rest_scaffold.py:54-57 | the tag returns an error record iff the model does not resolve, and its message is the message of that resolution error |
| `TemplateTag.ScaffoldConfiguration` | rest_scaffold/templatetags/rest_scaffold.py:92-103 | for a resolved model, the keys are the computed ones, the passthrough ones and `csrfToken` iff the token is truthy; passthrough values override computed ones; a truthy token overrides a passthrough `csrfToken`; the field list is the projection of the model's fields; title, subtitle, recordTitle, pkField and url are computed from the model unless overridden |
| `TemplateTag.RestScaffold` | rest_scaffold/templatetags/rest_scaffold.py:49-104 | the tag's loop, building each field entry key by key, returns exactly `Scaffold`'s result |
| `ScaffoldExamples.UserWithApp` | rest_scaffold/tests.py:19-47 | for `"user"` in `"auth"` with `fields="id,username"`, the record has "Users", "auth / User", "User", "id", the token, fields [id, username], `api_root` passed through, and url "/auth/user" (where the test expects "/api/auth/user") |
| `ScaffoldExamples.GroupWithoutApp` | rest_scaffold/tests.py:49-76 | `"group"` without an app resolves across all apps; url "/auth/group", subtitle "auth / Group", fields [id, name] |
| `ScaffoldExamples.GroupWithModelObject` | rest_scaffold/tests.py:78-105 | the `Group` model type gives the same url, subtitle and fields as its name |
| `ScaffoldExamples.GroupConfiguration` | rest_scaffold/tests.py:64-70 | any reference resolving to `Group` yields the titles, pk field, url, token and field names the group tests check |
| `ScaffoldExamples.BadModel` | rest_scaffold/tests.py:107-112 | `"xyz"` without an app gives "model not found" |
| `ScaffoldExamples.BadModelObject` | rest_scaffold/tests.py:114-119 | the abstract base `Model`, not installed, gives "model not installed" |
| `ScaffoldExamples.BadModelType` | rest_scaffold/tests.py:121-126 | a reference that is neither a string nor a model type gives "model is not the proper type" |
| `ScaffoldExamples.BadApp` | rest_scaffold/tests.py:128-133 | the app `"xyz"` gives exactly "app not found" |
| `ScaffoldExamples.BadModelInApp` | rest_scaffold/tests.py:135-140 | `"xyz"` in `"auth"` gives exactly "model not found in that app" |

## Left out

- HTML rendering: the widget's `render` is Django code. It is a parameter of the model (`Renderer`). The model states only which attributes it receives and that its result becomes `html`.
- Object identity: CPython's `id(f)` is a memory address. Each field carries an injected `oid`. Distinct ids are proved only under the assumption that distinct fields have distinct `oid`s.
- JSON serialisation and key order: `json.dumps` and the `{'configuration': ...}` wrapper are left out. The configuration is a map from keys to values, so key order is not modelled.
- Template registration (`@register.inclusion_tag`) and the template context: the context is reduced to its optional `csrf_token`, rendered as a string.
- Unicode case rules: `Ascii.Lower` and `Ascii.Title` change only ASCII letters, while Python's `lower` and `title` follow Unicode.
- Django's app registry: `apps.get_app_config`, `apps.get_models` and the `LookupError` exception are replaced by a registry value and a `Resolution` result. Django forbids two apps with the same label; the model does not assume this and takes the first app with the label.
- Class identity: a model class is identified by its value. Two models with equal names, labels and fields count as the same class.
- `**kwargs` values: they are taken from a small `Value` type (text, number, boolean, null, field list), not from arbitrary Python objects.
- Python binds the tag's named parameters (`context`, `model`, `app`, `api_url`, `fields`, `exclude_from_form`, `exclude_from_table`), so they never reach `**kwargs`. The model states this as a precondition on the passthrough map.
- An exception raised by a field's `formfield()` other than `AttributeError`, and one raised by `render`, are left out.
- The views, URL configuration, the delay middleware and packaging of the repository are outside the tag and are not part of this model.
