/**
  The app/model registry that `get_model` searches, as an explicit value, and
  `get_model` itself: resolving a model reference (a name, optionally scoped
  to an app, or a model type) to a registered model or to an error record.
 */
module Registry {
  import opened Wrappers
  import opened Ascii

  /** A form widget; `isSelect` says whether it is a `Select` (or a subclass). */
  datatype Widget = Widget(isSelect: bool, kind: string)

  /** The form field `f.formfield()` returns. */
  datatype FormField = FormField(widget: Widget)

  /**
    One entry of `model._meta.get_fields()`. `verboseName` is None when the
    field has no `verbose_name` attribute, `formField` is None when
    `formfield()` is missing or returns None, and `oid` stands for `id(f)`.
   */
  datatype Field = Field(
    name: string,
    isReverse: bool,
    verboseName: Option<string>,
    formField: Option<FormField>,
    oid: nat)

  /** A model class with the parts of `_meta` the tag reads. */
  datatype Model = Model(
    name: string,
    appLabel: string,
    verboseName: string,
    verboseNamePlural: string,
    pkName: string,
    fields: seq<Field>)

  /** An installed app: its label and its models in registration order. */
  datatype App = App(appLabel: string, models: seq<Model>)

  type Registry = seq<App>

  /** What can be passed as `model`: a string, a model class, or anything else. */
  datatype Ref = Str(s: string) | ModelType(m: Model) | Other

  datatype LookupError =
    | AppNotFound
    | ModelNotFoundInApp
    | ModelNotFound
    | ModelNotInstalled
    | NotProperType

  datatype Resolution = Found(model: Model) | Failed(error: LookupError)

  /** The `error` string of the record `get_model` returns for each failure. */
  function Message(e: LookupError): (r: string)
    ensures r != ""
  {
    match e
    case AppNotFound => "app not found"
    case ModelNotFoundInApp => "model not found in that app"
    case ModelNotFound => "model not found"
    case ModelNotInstalled => "model not installed"
    case NotProperType => "model is not the proper type"
  }

  /** Distinct failures have distinct messages, so the error record tells which lookup failed. */
  lemma MessageInjective(e1: LookupError, e2: LookupError)
    ensures Message(e1) == Message(e2) <==> e1 == e2
  {
    if e1 != e2 {
      assert |Message(e1)| != |Message(e2)|;
    }
  }

  /** `apps.get_models()`: every installed model, app by app, in registration order. */
  function AllModels(reg: Registry): (ms: seq<Model>)
    ensures forall a, m :: a in reg && m in a.models ==> m in ms
    ensures forall m :: m in ms ==> exists a :: a in reg && m in a.models
  {
    if reg == [] then [] else reg[0].models + AllModels(reg[1..])
  }

  /** The model's class name equals `key` once both are lower-cased. */
  predicate NameMatches(m: Model, key: string)
  {
    Lower(m.name) == Lower(key)
  }

  /** Position of the first model in `ms` whose name matches `key` case-insensitively; `|ms|` if none does. */
  function ModelIndex(ms: seq<Model>, key: string): (i: nat)
    ensures i <= |ms|
    ensures forall j :: 0 <= j < i ==> !NameMatches(ms[j], key)
    ensures i < |ms| ==> NameMatches(ms[i], key)
  {
    if ms == [] then 0
    else if NameMatches(ms[0], key) then 0
    else 1 + ModelIndex(ms[1..], key)
  }

  /** `apps.get_app_config(appLabel)`: position of the app with that label; `|reg|` (a LookupError) if none. */
  function AppIndex(reg: Registry, appLabel: string): (i: nat)
    ensures i <= |reg|
    ensures forall j :: 0 <= j < i ==> reg[j].appLabel != appLabel
    ensures i < |reg| ==> reg[i].appLabel == appLabel
  {
    if reg == [] then 0
    else if reg[0].appLabel == appLabel then 0
    else 1 + AppIndex(reg[1..], appLabel)
  }

  /** `get_model(model, app)`. */
  function Resolve(reg: Registry, model: Ref, app: string): (r: Resolution)
    ensures r.Found? ==> r.model in AllModels(reg)
    ensures r.Found? && model.Str? ==> NameMatches(r.model, model.s)
    ensures r.Found? && model.ModelType? ==> r.model == model.m
  {
    match model
    case Str(key) =>
      if app != "" then
        var a := AppIndex(reg, app);
        if a == |reg| then Failed(AppNotFound)
        else
          var ms := reg[a].models;
          var i := ModelIndex(ms, key);
          if i < |ms| then Found(ms[i]) else Failed(ModelNotFoundInApp)
      else
        var ms := AllModels(reg);
        var i := ModelIndex(ms, key);
        if i < |ms| then Found(ms[i]) else Failed(ModelNotFound)
    case ModelType(m) =>
      if m in AllModels(reg) then Found(m) else Failed(ModelNotInstalled)
    case Other =>
      Failed(NotProperType)
  }

  /** `ms[i]` is the first model of `ms` whose name matches `key` without regard to case. */
  predicate FirstMatchAt(ms: seq<Model>, key: string, i: int)
  {
    0 <= i < |ms| && NameMatches(ms[i], key) && forall j :: 0 <= j < i ==> !NameMatches(ms[j], key)
  }

  /**
    A name with no app resolves to the first installed model, in global
    registration order, whose name matches case-insensitively; it fails
    with "model not found" exactly when no installed model matches.
   */
  lemma ResolveGlobalName(reg: Registry, key: string, m: Model)
    ensures Resolve(reg, Str(key), "") == Found(m) <==>
            exists i :: FirstMatchAt(AllModels(reg), key, i) && AllModels(reg)[i] == m
    ensures Resolve(reg, Str(key), "") == Failed(ModelNotFound) <==>
            forall n :: n in AllModels(reg) ==> !NameMatches(n, key)
  {
    var ms := AllModels(reg);
    var i := ModelIndex(ms, key);
    assert Resolve(reg, Str(key), "") == if i < |ms| then Found(ms[i]) else Failed(ModelNotFound);
    if i < |ms| {
      assert FirstMatchAt(ms, key, i);
    }
    if exists k :: FirstMatchAt(ms, key, k) && ms[k] == m {
      var k :| FirstMatchAt(ms, key, k) && ms[k] == m;
      assert k == i;
    }
  }

  /**
    A name scoped to an app: "app not found" when no app has that label;
    otherwise only that app's models are searched, the first match wins, and
    "model not found in that app" means none of that app's models matches.
   */
  lemma ResolveInApp(reg: Registry, key: string, app: string, m: Model)
    requires app != ""
    ensures Resolve(reg, Str(key), app) == Failed(AppNotFound) <==>
            forall a :: a in reg ==> a.appLabel != app
    ensures forall a :: 0 <= a < |reg| && reg[a].appLabel == app && (forall b :: 0 <= b < a ==> reg[b].appLabel != app) ==>
              (Resolve(reg, Str(key), app) == Found(m) <==>
                 exists i :: FirstMatchAt(reg[a].models, key, i) && reg[a].models[i] == m) &&
              (Resolve(reg, Str(key), app) == Failed(ModelNotFoundInApp) <==>
                 forall n :: n in reg[a].models ==> !NameMatches(n, key))
  {
    var a := AppIndex(reg, app);
    if a < |reg| {
      var ms := reg[a].models;
      var i := ModelIndex(ms, key);
      assert Resolve(reg, Str(key), app) == if i < |ms| then Found(ms[i]) else Failed(ModelNotFoundInApp);
      if i < |ms| {
        assert FirstMatchAt(ms, key, i);
      }
      if exists k :: FirstMatchAt(ms, key, k) && ms[k] == m {
        var k :| FirstMatchAt(ms, key, k) && ms[k] == m;
        assert k == i;
      }
    }
  }

  /**
    A model type resolves to itself when it is installed and to "model not
    installed" otherwise (the app argument plays no part); anything that is
    neither a string nor a model type is "not the proper type".
   */
  lemma ResolveNonString(reg: Registry, model: Ref, app: string)
    requires !model.Str?
    ensures model.ModelType? ==>
              (Resolve(reg, model, app) == Found(model.m) <==> model.m in AllModels(reg)) &&
              (Resolve(reg, model, app) == Failed(ModelNotInstalled) <==> model.m !in AllModels(reg))
    ensures model.Other? ==> Resolve(reg, model, app) == Failed(NotProperType)
  {
  }

  /** The search loop of `get_model`: the first model whose name matches `key`, or `|ms|`. */
  method FirstMatch(ms: seq<Model>, key: string) returns (i: nat)
    ensures i == ModelIndex(ms, key)
  {
    var lowerKey := Lower(key);
    i := 0;
    while i < |ms|
      invariant i <= |ms|
      invariant forall j :: 0 <= j < i ==> !NameMatches(ms[j], key)
    {
      if Lower(ms[i].name) == lowerKey {
        return;
      }
      i := i + 1;
    }
  }

  /** `get_model(model, app)`, searching with a loop as the template tag does. */
  method GetModel(reg: Registry, model: Ref, app: string) returns (r: Resolution)
    ensures r == Resolve(reg, model, app)
  {
    match model
    case Str(key) =>
      if app != "" {
        var a := AppIndex(reg, app);
        if a == |reg| {
          return Failed(AppNotFound);
        }
        var ms := reg[a].models;
        var i := FirstMatch(ms, key);
        if i < |ms| {
          return Found(ms[i]);
        }
        return Failed(ModelNotFoundInApp);
      } else {
        var ms := AllModels(reg);
        var i := FirstMatch(ms, key);
        if i < |ms| {
          return Found(ms[i]);
        }
        return Failed(ModelNotFound);
      }
    case ModelType(m) =>
      if m !in AllModels(reg) {
        return Failed(ModelNotInstalled);
      }
      return Found(m);
    case Other =>
      return Failed(NotProperType);
  }
}
