/**
  The `rest_scaffold` template tag: resolve the model, project its fields
  into field configurations, and assemble the configuration record
  (titles, primary key, URL, passthrough options, CSRF token).
 */
module TemplateTag {
  import opened Wrappers
  import opened Ascii
  import opened CommaList
  import opened PosixPath
  import opened FieldIds
  import opened Registry

  /** The attributes handed to the widget renderer: the DOM id, and `size` for a select widget. */
  datatype RenderAttrs = RenderAttrs(id: string, size: Option<int>)

  /** Django's widget rendering (widget, field name, attributes; no value) to HTML, taken as a parameter. */
  type Renderer = (Widget, string, RenderAttrs) -> string

  /** One entry of the `fields` list; `onForm`/`onTable` None means the key is absent. */
  datatype FieldConfig = FieldConfig(
    name: string,
    id: string,
    html: Option<string>,
    title: string,
    onForm: Option<bool>,
    onTable: Option<bool>)

  /** A value of the configuration record (what `json.dumps` receives). */
  datatype Value =
    | Text(s: string)
    | Number(n: int)
    | Boolean(b: bool)
    | Null
    | FieldList(configs: seq<FieldConfig>)

  type Config = map<string, Value>

  /** What the tag returns: `get_model`'s error record, or the configuration. */
  datatype TagResult = ErrorRecord(error: string) | Configuration(config: Config)

  /** Names bound to the tag's own parameters; Python never puts them in `**kwargs`. */
  const NamedParameters: set<string> :=
    {"context", "model", "app", "api_url", "fields", "exclude_from_form", "exclude_from_table"}

  /** The keys the tag computes itself. */
  const ComputedKeys: set<string> := {"title", "subtitle", "recordTitle", "pkField", "fields", "url"}

  /** The render attributes of a field: its DOM id, and a `size` of 10 for a select widget only. */
  function WidgetAttrs(w: Widget, id: string): (a: RenderAttrs)
    ensures a.id == id
    ensures a.size == Some(10) <==> w.isSelect
    ensures !w.isSelect ==> a.size == None
  {
    RenderAttrs(id, if w.isSelect then Some(10) else None)
  }

  /** A field survives the loop's filters: not a reverse relation, and listed in `fields` when that list is non-empty. */
  predicate Selected(f: Field, wanted: seq<string>)
  {
    !f.isReverse && (wanted == [] || f.name in wanted)
  }

  /**
    Selection in terms of the `fields` string itself: a field is kept iff it
    is not a reverse relation and either the string names no field at all
    (it is empty or only commas) or one of its comma-separated pieces is the
    field's name.
   */
  lemma SelectedByFieldsString(f: Field, fields: string)
    ensures Selected(f, CommaParse(fields)) <==>
            !f.isReverse && ((forall p :: p in Split(fields) ==> p == "") || (f.name != "" && f.name in Split(fields)))
  {
    var wanted := CommaParse(fields);
    if wanted != [] {
      assert wanted[0] in wanted;
    }
  }

  /** The `field_opts` record built for one field. */
  function FieldConfigOf(f: Field, excludeFromForm: string, excludeFromTable: string, render: Renderer): (c: FieldConfig)
    ensures c.name == f.name && c.id == FieldId(f.oid)
    ensures c.html.Some? <==> f.formField.Some?
    ensures f.formField.Some? ==>
              c.html.value == render(f.formField.value.widget, f.name, WidgetAttrs(f.formField.value.widget, c.id))
    ensures f.verboseName.Some? ==> c.title == f.verboseName.value
    ensures f.verboseName.None? ==> c.title == f.name
    ensures c.onForm != Some(true) && (c.onForm.Some? <==> f.name in CommaParse(excludeFromForm))
    ensures c.onTable != Some(true) && (c.onTable.Some? <==> f.name in CommaParse(excludeFromTable))
  {
    var id := FieldId(f.oid);
    FieldConfig(
      f.name,
      id,
      match f.formField
      case None => None
      case Some(ff) => Some(render(ff.widget, f.name, WidgetAttrs(ff.widget, id))),
      match f.verboseName
      case None => f.name
      case Some(v) => v,
      if f.name in CommaParse(excludeFromForm) then Some(false) else None,
      if f.name in CommaParse(excludeFromTable) then Some(false) else None)
  }

  /** `config_fields` after the loop has gone over the fields `fs`. */
  function ProjectFields(fs: seq<Field>, wanted: seq<string>, excludeFromForm: string, excludeFromTable: string,
                         render: Renderer): (out: seq<FieldConfig>)
    ensures |out| <= |fs|
    ensures forall c :: c in out ==>
              exists j :: 0 <= j < |fs| && Selected(fs[j], wanted) && c == FieldConfigOf(fs[j], excludeFromForm, excludeFromTable, render)
    decreases |fs|
  {
    if fs == [] then []
    else
      var init := ProjectFields(fs[..|fs| - 1], wanted, excludeFromForm, excludeFromTable, render);
      var f := fs[|fs| - 1];
      assert forall j :: 0 <= j < |fs| - 1 ==> fs[..|fs| - 1][j] == fs[j];
      if Selected(f, wanted) then init + [FieldConfigOf(f, excludeFromForm, excludeFromTable, render)] else init
  }

  /** The positions of the selected fields of `fs`: all of them, each once, in increasing order. */
  function KeptIndices(fs: seq<Field>, wanted: seq<string>): (idx: seq<nat>)
    ensures forall k :: 0 <= k < |idx| ==> idx[k] < |fs| && Selected(fs[idx[k]], wanted)
    ensures forall k1, k2 :: 0 <= k1 < k2 < |idx| ==> idx[k1] < idx[k2]
    ensures forall j :: 0 <= j < |fs| && Selected(fs[j], wanted) ==> j in idx
    decreases |fs|
  {
    if fs == [] then []
    else
      var init := KeptIndices(fs[..|fs| - 1], wanted);
      if Selected(fs[|fs| - 1], wanted) then init + [|fs| - 1] else init
  }

  /**
    The output field list is the selected fields in declaration order: its
    k-th entry is the configuration of the k-th selected field.
   */
  lemma {:induction false} ProjectFieldsAt(fs: seq<Field>, wanted: seq<string>, excludeFromForm: string,
                                           excludeFromTable: string, render: Renderer)
    ensures var out := ProjectFields(fs, wanted, excludeFromForm, excludeFromTable, render);
            var idx := KeptIndices(fs, wanted);
            |out| == |idx| &&
            forall k :: 0 <= k < |out| ==> out[k] == FieldConfigOf(fs[idx[k]], excludeFromForm, excludeFromTable, render)
    decreases |fs|
  {
    if fs != [] {
      var init := fs[..|fs| - 1];
      ProjectFieldsAt(init, wanted, excludeFromForm, excludeFromTable, render);
      forall j | 0 <= j < |init| ensures init[j] == fs[j] { }
    }
  }

  /** The order and duplicates of the `fields` list do not matter, only which names it holds. */
  lemma {:induction false} FilterOrderIrrelevant(fs: seq<Field>, w1: seq<string>, w2: seq<string>,
                                                 excludeFromForm: string, excludeFromTable: string, render: Renderer)
    requires forall x :: x in w1 <==> x in w2
    ensures ProjectFields(fs, w1, excludeFromForm, excludeFromTable, render) ==
            ProjectFields(fs, w2, excludeFromForm, excludeFromTable, render)
    decreases |fs|
  {
    if fs != [] {
      assert w1 != [] ==> w1[0] in w2;
      assert w2 != [] ==> w2[0] in w1;
      FilterOrderIrrelevant(fs[..|fs| - 1], w1, w2, excludeFromForm, excludeFromTable, render);
    }
  }

  /**
    Exclusion lists never remove a field: whatever they hold, the same fields
    come out in the same order, differing only in `on_form`/`on_table`.
   */
  lemma ExclusionsOnlySetFlags(fs: seq<Field>, wanted: seq<string>, form1: string, table1: string,
                               form2: string, table2: string, render: Renderer)
    ensures var o1 := ProjectFields(fs, wanted, form1, table1, render);
            var o2 := ProjectFields(fs, wanted, form2, table2, render);
            |o1| == |o2| &&
            forall k :: 0 <= k < |o1| ==> o1[k].(onForm := None, onTable := None) == o2[k].(onForm := None, onTable := None)
  {
    ProjectFieldsAt(fs, wanted, form1, table1, render);
    ProjectFieldsAt(fs, wanted, form2, table2, render);
  }

  /** Fields with distinct identities get distinct DOM ids in one projection. */
  lemma FieldIdsDistinct(fs: seq<Field>, wanted: seq<string>, excludeFromForm: string, excludeFromTable: string,
                         render: Renderer)
    requires forall i, j :: 0 <= i < j < |fs| ==> fs[i].oid != fs[j].oid
    ensures var out := ProjectFields(fs, wanted, excludeFromForm, excludeFromTable, render);
            forall k1, k2 :: 0 <= k1 < k2 < |out| ==> out[k1].id != out[k2].id
  {
    var out := ProjectFields(fs, wanted, excludeFromForm, excludeFromTable, render);
    var idx := KeptIndices(fs, wanted);
    ProjectFieldsAt(fs, wanted, excludeFromForm, excludeFromTable, render);
    forall k1, k2 | 0 <= k1 < k2 < |out| ensures out[k1].id != out[k2].id {
      FieldIdInjective(fs[idx[k1]].oid, fs[idx[k2]].oid);
    }
  }

  /** The subtitle: the model's app label and class name, separated by " / ". */
  function Subtitle(m: Model): (r: string)
    ensures |r| == |m.appLabel| + 3 + |m.name|
    ensures r[..|m.appLabel|] == m.appLabel
    ensures r[|m.appLabel|..|m.appLabel| + 3] == " / "
    ensures r[|m.appLabel| + 3..] == m.name
  {
    m.appLabel + " / " + m.name
  }

  /**
    The REST endpoint: `/`, `api_url`, the app label and the lower-cased class
    name, joined as POSIX paths. It always starts with `/` and ends with the
    lower-cased class name.
   */
  function Url(apiUrl: string, m: Model): (u: string)
    ensures IsRooted(u)
    ensures |Lower(m.name)| <= |u| && u[|u| - |Lower(m.name)|..] == Lower(m.name)
  {
    Join("/", [apiUrl, m.appLabel, Lower(m.name)])
  }

  /**
    The URL for an app label and model name without slashes (Python
    identifiers, as Django requires): one `/` between components, a leading
    `/` added to a relative `api_url`, an absolute one kept, and no
    separator added after an `api_url` that already ends in `/`.
   */
  lemma UrlForm(apiUrl: string, m: Model)
    requires m.appLabel != "" && '/' !in m.appLabel && '/' !in m.name
    ensures apiUrl == "" ==> Url(apiUrl, m) == "/" + m.appLabel + "/" + Lower(m.name)
    ensures apiUrl != "" && !IsRooted(apiUrl) && !EndsInSlash(apiUrl) ==>
              Url(apiUrl, m) == "/" + apiUrl + "/" + m.appLabel + "/" + Lower(m.name)
    ensures apiUrl != "" && !IsRooted(apiUrl) && EndsInSlash(apiUrl) ==>
              Url(apiUrl, m) == "/" + apiUrl + m.appLabel + "/" + Lower(m.name)
    ensures IsRooted(apiUrl) && !EndsInSlash(apiUrl) ==>
              Url(apiUrl, m) == apiUrl + "/" + m.appLabel + "/" + Lower(m.name)
    ensures IsRooted(apiUrl) && EndsInSlash(apiUrl) ==>
              Url(apiUrl, m) == apiUrl + m.appLabel + "/" + Lower(m.name)
  {
    UrlSteps(apiUrl, m);
    assert '/' !in Lower(m.name) by {
      forall i | 0 <= i < |m.name| ensures Lower(m.name)[i] != '/' {
        assert m.name[i] in m.name;
      }
    }
    ThreeSteps(apiUrl, m.appLabel, Lower(m.name));
  }

  /** The three join steps of the URL, for a slash-free, non-empty app label and a slash-free name. */
  lemma ThreeSteps(apiUrl: string, appLabel: string, name: string)
    requires appLabel != "" && '/' !in appLabel && '/' !in name
    ensures var u := JoinStep(JoinStep(JoinStep("/", apiUrl), appLabel), name);
            && (apiUrl == "" ==> u == "/" + appLabel + "/" + name)
            && (apiUrl != "" && !IsRooted(apiUrl) && !EndsInSlash(apiUrl) ==> u == "/" + apiUrl + "/" + appLabel + "/" + name)
            && (apiUrl != "" && !IsRooted(apiUrl) && EndsInSlash(apiUrl) ==> u == "/" + apiUrl + appLabel + "/" + name)
            && (IsRooted(apiUrl) && !EndsInSlash(apiUrl) ==> u == apiUrl + "/" + appLabel + "/" + name)
            && (IsRooted(apiUrl) && EndsInSlash(apiUrl) ==> u == apiUrl + appLabel + "/" + name)
  {
    var p1 := JoinStep("/", apiUrl);
    var p2 := JoinStep(p1, appLabel);
    assert !IsRooted(appLabel) by { assert appLabel[0] in appLabel; }
    assert !IsRooted(name) by {
      if |name| > 0 { assert name[0] in name; }
    }
    assert p2 == if EndsInSlash(p1) then p1 + appLabel else p1 + "/" + appLabel;
    assert p2[|p2| - 1] == appLabel[|appLabel| - 1];
    assert !EndsInSlash(p2) by {
      assert appLabel[|appLabel| - 1] in appLabel;
    }
    assert JoinStep(p2, name) == p2 + "/" + name;
    if apiUrl != "" && !IsRooted(apiUrl) {
      assert p1 == "/" + apiUrl;
      assert EndsInSlash(p1) == EndsInSlash(apiUrl) by {
        assert p1[|p1| - 1] == apiUrl[|apiUrl| - 1];
      }
    }
  }

  /** The URL is three join steps from the root. */
  lemma UrlSteps(apiUrl: string, m: Model)
    ensures Url(apiUrl, m) == JoinStep(JoinStep(JoinStep("/", apiUrl), m.appLabel), Lower(m.name))
  {
    var ps := [apiUrl, m.appLabel, Lower(m.name)];
    assert ps[..2][..1] == [apiUrl] && ps[..2] == [apiUrl, m.appLabel];
    var p1 := JoinStep("/", apiUrl);
    var p2 := JoinStep(p1, m.appLabel);
    assert Join("/", ps[..2][..1]) == p1 by {
      assert ps[..2][..1][..0] == [];
    }
    assert Join("/", ps[..2]) == p2;
    assert Join("/", ps) == JoinStep(p2, Lower(m.name));
  }

  /** The record `r` before the CSRF token is added, without `**kwargs`. */
  function Record(m: Model, apiUrl: string, configs: seq<FieldConfig>): (r: Config)
    ensures r.Keys == ComputedKeys
  {
    map[
      "title" := Text(Title(m.verboseNamePlural)),
      "subtitle" := Text(Subtitle(m)),
      "recordTitle" := Text(Title(m.verboseName)),
      "pkField" := Text(m.pkName),
      "fields" := FieldList(configs),
      "url" := Text(Url(apiUrl, m))]
  }

  /** The context's CSRF token is present and non-empty (Python truthiness of a string or None). */
  predicate Truthy(token: Option<string>)
  {
    token.Some? && token.value != ""
  }

  /** The record with `csrfToken` set to the token when the token is truthy, unchanged otherwise. */
  function AddCsrf(r: Config, token: Option<string>): (r': Config)
    ensures r'.Keys == r.Keys + (if Truthy(token) then {"csrfToken"} else {})
    ensures Truthy(token) ==> r'["csrfToken"] == Text(token.value)
    ensures forall k :: k in r && !(k == "csrfToken" && Truthy(token)) ==> r'[k] == r[k]
  {
    if Truthy(token) then r["csrfToken" := Text(token.value)] else r
  }

  /** The `rest_scaffold` tag: `get_model`'s error record, or the configuration record for the resolved model. */
  function Scaffold(reg: Registry, csrfToken: Option<string>, model: Ref, app: string, apiUrl: string,
                    fields: string, excludeFromForm: string, excludeFromTable: string,
                    kwargs: Config, render: Renderer): (r: TagResult)
    requires kwargs.Keys !! NamedParameters
    ensures r.ErrorRecord? <==> Resolve(reg, model, app).Failed?
    ensures r.ErrorRecord? ==> r.error == Message(Resolve(reg, model, app).error)
  {
    var wanted := CommaParse(fields);
    match Resolve(reg, model, app)
    case Failed(e) => ErrorRecord(Message(e))
    case Found(m) =>
      var configs := ProjectFields(m.fields, wanted, excludeFromForm, excludeFromTable, render);
      Configuration(AddCsrf(Record(m, apiUrl, configs) + kwargs, csrfToken))
  }

  /** Passthrough options merged over the record, then the token added: which value each key ends up with. */
  lemma MergeThenCsrf(rec: Config, kwargs: Config, token: Option<string>)
    ensures var c := AddCsrf(rec + kwargs, token);
            && c.Keys == rec.Keys + kwargs.Keys + (if Truthy(token) then {"csrfToken"} else {})
            && (Truthy(token) ==> c["csrfToken"] == Text(token.value))
            && (forall k :: k in kwargs && !(k == "csrfToken" && Truthy(token)) ==> c[k] == kwargs[k])
            && (forall k :: k in rec && k !in kwargs && !(k == "csrfToken" && Truthy(token)) ==> c[k] == rec[k])
  {
  }

  /**
    A resolved model yields a configuration whose keys are the computed ones,
    the passthrough ones and `csrfToken` when the token is truthy; passthrough
    values override computed ones, and the token overrides a passthrough
    `csrfToken`.
   */
  lemma ScaffoldConfiguration(reg: Registry, csrfToken: Option<string>, model: Ref, app: string, apiUrl: string,
                              fields: string, excludeFromForm: string, excludeFromTable: string,
                              kwargs: Config, render: Renderer, m: Model)
    requires kwargs.Keys !! NamedParameters
    requires Resolve(reg, model, app) == Found(m)
    ensures var r := Scaffold(reg, csrfToken, model, app, apiUrl, fields, excludeFromForm, excludeFromTable, kwargs, render);
            r.Configuration? &&
            var c := r.config;
            && c.Keys == ComputedKeys + kwargs.Keys + (if Truthy(csrfToken) then {"csrfToken"} else {})
            && (Truthy(csrfToken) ==> c["csrfToken"] == Text(csrfToken.value))
            && (forall k :: k in kwargs && !(k == "csrfToken" && Truthy(csrfToken)) ==> c[k] == kwargs[k])
            && c["fields"] == FieldList(ProjectFields(m.fields, CommaParse(fields), excludeFromForm, excludeFromTable, render))
            && ("title" !in kwargs ==> c["title"] == Text(Title(m.verboseNamePlural)))
            && ("subtitle" !in kwargs ==> c["subtitle"] == Text(m.appLabel + " / " + m.name))
            && ("recordTitle" !in kwargs ==> c["recordTitle"] == Text(Title(m.verboseName)))
            && ("pkField" !in kwargs ==> c["pkField"] == Text(m.pkName))
            && ("url" !in kwargs ==> c["url"] == Text(Url(apiUrl, m)))
  {
    var configs := ProjectFields(m.fields, CommaParse(fields), excludeFromForm, excludeFromTable, render);
    var rec := Record(m, apiUrl, configs);
    MergeThenCsrf(rec, kwargs, csrfToken);
    assert Scaffold(reg, csrfToken, model, app, apiUrl, fields, excludeFromForm, excludeFromTable, kwargs, render) ==
           Configuration(AddCsrf(rec + kwargs, csrfToken));
  }

  /** The `rest_scaffold` tag, building the field list with a loop over the model's fields. */
  method RestScaffold(reg: Registry, csrfToken: Option<string>, model: Ref, app: string, apiUrl: string,
                      fields: string, excludeFromForm: string, excludeFromTable: string,
                      kwargs: Config, render: Renderer) returns (r: TagResult)
    requires kwargs.Keys !! NamedParameters
    ensures r == Scaffold(reg, csrfToken, model, app, apiUrl, fields, excludeFromForm, excludeFromTable, kwargs, render)
  {
    var wanted := CommaParse(fields);
    var resolved := GetModel(reg, model, app);
    if resolved.Failed? {
      return ErrorRecord(Message(resolved.error));
    }
    var m := resolved.model;
    var configFields: seq<FieldConfig> := [];
    var mf := m.fields;
    var i := 0;
    while i < |mf|
      invariant i <= |mf|
      invariant configFields == ProjectFields(mf[..i], wanted, excludeFromForm, excludeFromTable, render)
    {
      var f := mf[i];
      assert mf[..i + 1][..i] == mf[..i];
      if !f.isReverse && (wanted == [] || f.name in wanted) {
        var id := FieldId(f.oid);
        var html: Option<string> := None;
        if f.formField.Some? {
          var widget := f.formField.value.widget;
          var size: Option<int> := None;
          if widget.isSelect {
            size := Some(10);
          }
          html := Some(render(widget, f.name, RenderAttrs(id, size)));
        }
        var title := if f.verboseName.Some? then f.verboseName.value else f.name;
        var onForm: Option<bool> := None;
        if f.name in CommaParse(excludeFromForm) {
          onForm := Some(false);
        }
        var onTable: Option<bool> := None;
        if f.name in CommaParse(excludeFromTable) {
          onTable := Some(false);
        }
        configFields := configFields + [FieldConfig(f.name, id, html, title, onForm, onTable)];
      }
      i := i + 1;
    }
    assert mf[..i] == mf;
    var config := Record(m, apiUrl, configFields) + kwargs;
    if Truthy(csrfToken) {
      config := config["csrfToken" := Text(csrfToken.value)];
    }
    return Configuration(config);
  }
}
