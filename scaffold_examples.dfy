/**
  The repository's unit tests, restated on a small registry with the
  `contenttypes` and `auth` apps of a default Django project.
 */
module ScaffoldExamples {
  import opened Wrappers
  import opened Ascii
  import opened CommaList
  import opened PosixPath
  import opened Registry
  import opened TemplateTag

  const TextInput := Widget(false, "TextInput")
  const PasswordInput := Widget(false, "PasswordInput")
  const SelectMultiple := Widget(true, "SelectMultiple")

  const ContentType := Model("ContentType", "contenttypes", "content type", "content types", "id", [
    Field("id", false, Some("ID"), None, 1),
    Field("app_label", false, Some("app label"), Some(FormField(TextInput)), 2),
    Field("model", false, Some("python model class name"), Some(FormField(TextInput)), 3)])

  const Permission := Model("Permission", "auth", "permission", "permissions", "id", [
    Field("group", true, None, None, 10),
    Field("id", false, Some("ID"), None, 11),
    Field("name", false, Some("name"), Some(FormField(TextInput)), 12)])

  const Group := Model("Group", "auth", "group", "groups", "id", [
    Field("user", true, None, None, 20),
    Field("id", false, Some("ID"), None, 21),
    Field("name", false, Some("name"), Some(FormField(TextInput)), 22),
    Field("permissions", false, Some("permissions"), Some(FormField(SelectMultiple)), 23)])

  const User := Model("User", "auth", "user", "users", "id", [
    Field("logentry", true, None, None, 30),
    Field("id", false, Some("ID"), None, 31),
    Field("password", false, Some("password"), Some(FormField(PasswordInput)), 32),
    Field("username", false, Some("username"), Some(FormField(TextInput)), 33),
    Field("email", false, Some("email address"), Some(FormField(TextInput)), 34),
    Field("groups", false, Some("groups"), Some(FormField(SelectMultiple)), 35)])

  const AuthRegistry: Registry := [
    App("contenttypes", [ContentType]),
    App("auth", [Permission, Group, User])]

  /** The abstract base class `django.db.models.Model`: a model type that is not installed. */
  const BaseModel := Model("Model", "", "model", "models", "id", [])

  /** The configuration `c` maps key `k` to `v`. */
  predicate Maps(c: Config, k: string, v: Value)
  {
    k in c && c[k] == v
  }

  /** The `fields` entry of `c` lists field configurations with exactly these names, in this order. */
  predicate ListsFields(c: Config, names: seq<string>)
  {
    "fields" in c && c["fields"].FieldList? && Names(c["fields"].configs) == names
  }

  function Names(cs: seq<FieldConfig>): (ns: seq<string>)
    ensures |ns| == |cs|
  {
    if cs == [] then [] else [cs[0].name] + Names(cs[1..])
  }

  lemma LowerUser()
    ensures Lower("User") == "user" && Lower("user") == "user"
  {
    var r := Lower("User");
    assert r[0] == 'u' && r[1] == 's' && r[2] == 'e' && r[3] == 'r';
    var q := Lower("user");
    assert q[0] == 'u' && q[1] == 's' && q[2] == 'e' && q[3] == 'r';
  }

  /** The record titles of the two models the tests use. */
  lemma AuthTitles()
    ensures Title("users") == "Users" && Title("user") == "User"
    ensures Title("groups") == "Groups" && Title("group") == "Group"
  {
    TitleLowerWord("users");
    TitleLowerWord("user");
    TitleLowerWord("groups");
    TitleLowerWord("group");
  }

  lemma ParseIdUsername()
    ensures CommaParse("id,username") == ["id", "username"]
  {
    assert JoinComma(["id", "username"]) == "id,username" by {
      assert ["id", "username"][1..] == ["username"];
    }
    CommaParseJoin(["id", "username"]);
  }

  lemma AuthIsSecondApp()
    ensures AppIndex(AuthRegistry, "auth") == 1
  {
    assert AuthRegistry[0].appLabel != "auth";
    assert AuthRegistry[1..][0].appLabel == "auth";
  }

  lemma UserIsThirdAuthModel()
    ensures ModelIndex(AuthRegistry[1].models, "user") == 2
  {
    var ms := AuthRegistry[1].models;
    assert ms == [Permission, Group, User];
    LowerUser();
    assert !NameMatches(ms[0], "user") by {
      assert |Lower(ms[0].name)| == 10;
    }
    assert !NameMatches(ms[1], "user") by {
      assert |Lower(ms[1].name)| == 5;
    }
    assert NameMatches(ms[2], "user");
    assert ms[1..][1..] == [User];
  }

  lemma ResolveUser()
    ensures Resolve(AuthRegistry, Str("user"), "auth") == Found(User)
  {
    AuthIsSecondApp();
    UserIsThirdAuthModel();
  }

  /**
    The configuration the tests inspect, for any model `m` the reference
    resolves to, with the tests' CSRF token, an empty `api_url` and the
    passthrough `api_root`.
   */
  lemma TestConfiguration(reg: Registry, model: Ref, app: string, fields: string, render: Renderer, m: Model, lowered: string)
    requires Resolve(reg, model, app) == Found(m)
    requires m.appLabel != "" && '/' !in m.appLabel && '/' !in m.name && Lower(m.name) == lowered
    ensures var r := Scaffold(reg, Some("example_csrf_token"), model, app, "",
                              fields, "", "", map["api_root" := Text("/api")], render);
            && r.Configuration?
            && Maps(r.config, "title", Text(Title(m.verboseNamePlural)))
            && Maps(r.config, "subtitle", Text(m.appLabel + " / " + m.name))
            && Maps(r.config, "recordTitle", Text(Title(m.verboseName)))
            && Maps(r.config, "pkField", Text(m.pkName))
            && Maps(r.config, "url", Text("/" + m.appLabel + "/" + lowered))
            && Maps(r.config, "api_root", Text("/api"))
            && Maps(r.config, "csrfToken", Text("example_csrf_token"))
            && Maps(r.config, "fields", FieldList(ProjectFields(m.fields, CommaParse(fields), "", "", render)))
  {
    var kwargs := map["api_root" := Text("/api")];
    assert kwargs.Keys == {"api_root"};
    ScaffoldConfiguration(reg, Some("example_csrf_token"), model, app, "", fields, "", "", kwargs, render, m);
    UrlForm("", m);
  }

  /**
    `test_user_with_app`, as the code behaves: `api_root` is not a parameter
    of the tag, so it is passed through and the URL is built from the empty
    `api_url`, giving "/auth/user" where the test expects "/api/auth/user".
   */
  lemma UserWithApp(render: Renderer)
    ensures var r := Scaffold(AuthRegistry, Some("example_csrf_token"), Str("user"), "auth", "",
                              "id,username", "", "", map["api_root" := Text("/api")], render);
            && r.Configuration?
            && Maps(r.config, "title", Text("Users"))
            && Maps(r.config, "subtitle", Text("auth / User"))
            && Maps(r.config, "recordTitle", Text("User"))
            && Maps(r.config, "pkField", Text("id"))
            && Maps(r.config, "url", Text("/auth/user"))
            && Maps(r.config, "api_root", Text("/api"))
            && Maps(r.config, "csrfToken", Text("example_csrf_token"))
            && ListsFields(r.config, ["id", "username"])
  {
    ResolveUser();
    ParseIdUsername();
    UserConfiguration(AuthRegistry, "id,username", render);
  }

  /** The configuration of `test_user_with_app` on any registry where "user" in "auth" is `User`. */
  lemma UserConfiguration(reg: Registry, fields: string, render: Renderer)
    requires Resolve(reg, Str("user"), "auth") == Found(User)
    requires CommaParse(fields) == ["id", "username"]
    ensures var r := Scaffold(reg, Some("example_csrf_token"), Str("user"), "auth", "",
                              fields, "", "", map["api_root" := Text("/api")], render);
            && r.Configuration?
            && Maps(r.config, "title", Text("Users"))
            && Maps(r.config, "subtitle", Text("auth / User"))
            && Maps(r.config, "recordTitle", Text("User"))
            && Maps(r.config, "pkField", Text("id"))
            && Maps(r.config, "url", Text("/auth/user"))
            && Maps(r.config, "api_root", Text("/api"))
            && Maps(r.config, "csrfToken", Text("example_csrf_token"))
            && ListsFields(r.config, ["id", "username"])
  {
    UserUrlParts();
    TestConfiguration(reg, Str("user"), "auth", fields, render, User, "user");
    AuthTitles();
    UserSubtitle();
    UserIdUsername(render);
  }

  /** The parts `User`'s URL is built from, and the URL they make. */
  lemma UserUrlParts()
    ensures User.appLabel != "" && '/' !in User.appLabel && '/' !in User.name && Lower(User.name) == "user"
    ensures "/" + User.appLabel + "/" + "user" == "/auth/user"
  {
    LowerUser();
  }

  lemma UserSubtitle()
    ensures User.appLabel + " / " + User.name == "auth / User"
  {
  }

  lemma UserIdUsername(render: Renderer)
    ensures Names(ProjectFields(User.fields, ["id", "username"], "", "", render)) == ["id", "username"]
  {
    var fs := User.fields;
    var w := ["id", "username"];
    var c1 := FieldConfigOf(fs[1], "", "", render);
    var c3 := FieldConfigOf(fs[3], "", "", render);
    assert fs[..1][..0] == [];
    assert ProjectFields(fs[..1], w, "", "", render) == [];
    assert fs[..2][..1] == fs[..1];
    assert ProjectFields(fs[..2], w, "", "", render) == [c1];
    assert fs[..3][..2] == fs[..2];
    assert ProjectFields(fs[..3], w, "", "", render) == [c1];
    assert fs[..4][..3] == fs[..3];
    assert ProjectFields(fs[..4], w, "", "", render) == [c1, c3];
    assert fs[..5][..4] == fs[..4];
    assert ProjectFields(fs[..5], w, "", "", render) == [c1, c3];
    assert fs[..6][..5] == fs[..5];
    assert fs[..6] == fs;
    assert ProjectFields(fs, w, "", "", render) == [c1, c3];
    assert [c1, c3][1..] == [c3];
  }

  lemma LowerGroup()
    ensures Lower("Group") == "group" && Lower("group") == "group"
  {
    var r := Lower("Group");
    assert r[0] == 'g' && r[1] == 'r' && r[2] == 'o' && r[3] == 'u' && r[4] == 'p';
    var q := Lower("group");
    assert q[0] == 'g' && q[1] == 'r' && q[2] == 'o' && q[3] == 'u' && q[4] == 'p';
  }

  lemma AllAuthModels()
    ensures AllModels(AuthRegistry) == [ContentType, Permission, Group, User]
  {
    var reg := AuthRegistry;
    assert reg[1..][1..] == [];
    assert AllModels(reg[1..]) == [Permission, Group, User] + [];
    assert AllModels(reg) == [ContentType] + ([Permission, Group, User] + []);
  }

  lemma GroupIsThirdModel()
    ensures ModelIndex([ContentType, Permission, Group, User], "group") == 2
  {
    var ms := [ContentType, Permission, Group, User];
    assert NameMatches(Group, "group") by {
      LowerGroup();
    }
    assert ModelIndex(ms[2..], "group") == 0;
    assert !NameMatches(Permission, "group") by {
      assert |Lower(Permission.name)| != |Lower("group")|;
    }
    assert ms[1..][1..] == ms[2..];
    assert ModelIndex(ms[1..], "group") == 1;
    assert !NameMatches(ContentType, "group") by {
      assert |Lower(ContentType.name)| != |Lower("group")|;
    }
  }

  /** With no app, the first installed model named "group" is found. */
  lemma ResolveGroupByName()
    ensures Resolve(AuthRegistry, Str("group"), "") == Found(Group)
  {
    AllAuthModels();
    GroupIsThirdModel();
  }

  /** An installed model type resolves to itself. */
  lemma ResolveGroupByType()
    ensures Resolve(AuthRegistry, ModelType(Group), "") == Found(Group)
  {
    AllAuthModels();
  }

  lemma ParseIdName()
    ensures CommaParse("id,name") == ["id", "name"]
  {
    assert JoinComma(["id", "name"]) == "id,name" by {
      assert ["id", "name"][1..] == ["name"];
    }
    CommaParseJoin(["id", "name"]);
  }

  lemma GroupIdName(render: Renderer)
    ensures Names(ProjectFields(Group.fields, ["id", "name"], "", "", render)) == ["id", "name"]
  {
    var fs := Group.fields;
    var w := ["id", "name"];
    var c1 := FieldConfigOf(fs[1], "", "", render);
    var c2 := FieldConfigOf(fs[2], "", "", render);
    assert fs[..1][..0] == [];
    assert ProjectFields(fs[..1], w, "", "", render) == [];
    assert fs[..2][..1] == fs[..1];
    assert ProjectFields(fs[..2], w, "", "", render) == [c1];
    assert fs[..3][..2] == fs[..2];
    assert ProjectFields(fs[..3], w, "", "", render) == [c1, c2];
    assert fs[..4][..3] == fs[..3];
    assert fs[..4] == fs;
    assert ProjectFields(fs, w, "", "", render) == [c1, c2];
    assert [c1, c2][1..] == [c2];
  }

  /** The parts `Group`'s URL is built from, and the URL they make. */
  lemma GroupUrlParts()
    ensures Group.appLabel != "" && '/' !in Group.appLabel && '/' !in Group.name && Lower(Group.name) == "group"
    ensures "/" + Group.appLabel + "/" + "group" == "/auth/group"
  {
    LowerGroup();
  }

  lemma GroupSubtitle()
    ensures Group.appLabel + " / " + Group.name == "auth / Group"
  {
  }

  /** The configuration of the two `Group` tests, for any reference that resolves to `Group`. */
  lemma GroupConfiguration(reg: Registry, model: Ref, fields: string, render: Renderer)
    requires Resolve(reg, model, "") == Found(Group)
    requires CommaParse(fields) == ["id", "name"]
    ensures var r := Scaffold(reg, Some("example_csrf_token"), model, "", "",
                              fields, "", "", map["api_root" := Text("/api")], render);
            && r.Configuration?
            && Maps(r.config, "title", Text("Groups"))
            && Maps(r.config, "subtitle", Text("auth / Group"))
            && Maps(r.config, "recordTitle", Text("Group"))
            && Maps(r.config, "pkField", Text("id"))
            && Maps(r.config, "url", Text("/auth/group"))
            && Maps(r.config, "csrfToken", Text("example_csrf_token"))
            && ListsFields(r.config, ["id", "name"])
  {
    GroupUrlParts();
    TestConfiguration(reg, model, "", fields, render, Group, "group");
    AuthTitles();
    GroupSubtitle();
    GroupIdName(render);
  }

  /** `test_group_without_app`: the model named "group", looked up across all apps. */
  lemma GroupWithoutApp(render: Renderer)
    ensures var r := Scaffold(AuthRegistry, Some("example_csrf_token"), Str("group"), "", "",
                              "id,name", "", "", map["api_root" := Text("/api")], render);
            && r.Configuration?
            && Maps(r.config, "url", Text("/auth/group"))
            && Maps(r.config, "subtitle", Text("auth / Group"))
            && ListsFields(r.config, ["id", "name"])
  {
    ResolveGroupByName();
    ParseIdName();
    GroupConfiguration(AuthRegistry, Str("group"), "id,name", render);
  }

  /** `test_group_with_model_object`: the model class itself, passed in place of its name. */
  lemma GroupWithModelObject(render: Renderer)
    ensures var r := Scaffold(AuthRegistry, Some("example_csrf_token"), ModelType(Group), "", "",
                              "id,name", "", "", map["api_root" := Text("/api")], render);
            && r.Configuration?
            && Maps(r.config, "url", Text("/auth/group"))
            && Maps(r.config, "subtitle", Text("auth / Group"))
            && ListsFields(r.config, ["id", "name"])
  {
    ResolveGroupByType();
    ParseIdName();
    GroupConfiguration(AuthRegistry, ModelType(Group), "id,name", render);
  }

  lemma NoAuthModelNamedXyz()
    ensures ModelIndex([Permission, Group, User], "xyz") == 3
  {
    var ms := [Permission, Group, User];
    assert !NameMatches(User, "xyz") by {
      assert |Lower(User.name)| != |Lower("xyz")|;
    }
    assert ms[2..][1..] == [];
    assert ModelIndex(ms[2..], "xyz") == 1;
    assert !NameMatches(Group, "xyz") by {
      assert |Lower(Group.name)| != |Lower("xyz")|;
    }
    assert ms[1..][1..] == ms[2..];
    assert ModelIndex(ms[1..], "xyz") == 2;
    assert !NameMatches(Permission, "xyz") by {
      assert |Lower(Permission.name)| != |Lower("xyz")|;
    }
  }

  lemma NoModelNamedXyz()
    ensures ModelIndex([ContentType, Permission, Group, User], "xyz") == 4
  {
    var ms := [ContentType, Permission, Group, User];
    NoAuthModelNamedXyz();
    assert ms[1..] == [Permission, Group, User];
    assert !NameMatches(ContentType, "xyz") by {
      assert |Lower(ContentType.name)| != |Lower("xyz")|;
    }
  }

  /** `test_bad_model`: no installed model is named "xyz". */
  lemma BadModel(render: Renderer)
    ensures Scaffold(AuthRegistry, None, Str("xyz"), "", "", "", "", "", map[], render) ==
            ErrorRecord("model not found")
  {
    AllAuthModels();
    NoModelNamedXyz();
    NameNotFound(AuthRegistry, "xyz", render);
  }

  /** A name that matches no installed model, looked up without an app, gives the "model not found" record. */
  lemma NameNotFound(reg: Registry, key: string, render: Renderer)
    requires ModelIndex(AllModels(reg), key) == |AllModels(reg)|
    ensures Scaffold(reg, None, Str(key), "", "", "", "", "", map[], render) == ErrorRecord("model not found")
  {
  }

  /** `test_bad_model_object`: the abstract base `Model` is a model type but not installed. */
  lemma BadModelObject(render: Renderer)
    ensures Scaffold(AuthRegistry, None, ModelType(BaseModel), "", "", "", "", "", map[], render) ==
            ErrorRecord("model not installed")
  {
    AllAuthModels();
    assert BaseModel !in [ContentType, Permission, Group, User] by {
      assert BaseModel.name != ContentType.name && BaseModel.name != Permission.name;
      assert BaseModel.name != Group.name && BaseModel.name != User.name;
    }
    TypeNotInstalled(AuthRegistry, BaseModel, render);
  }

  /** A model type that is not installed gives the "model not installed" record. */
  lemma TypeNotInstalled(reg: Registry, m: Model, render: Renderer)
    requires m !in AllModels(reg)
    ensures Scaffold(reg, None, ModelType(m), "", "", "", "", "", map[], render) == ErrorRecord("model not installed")
  {
  }

  /** `test_bad_model_type`: an integer is neither a string nor a model type. */
  lemma BadModelType(render: Renderer)
    ensures Scaffold(AuthRegistry, None, Other, "", "", "", "", "", map[], render) ==
            ErrorRecord("model is not the proper type")
  {
  }

  /** `test_bad_app`: no app is labelled "xyz" (the test itself only checks that some error is returned). */
  lemma BadApp(render: Renderer)
    ensures Scaffold(AuthRegistry, None, Str("xyz"), "xyz", "", "", "", "", map[], render) ==
            ErrorRecord("app not found")
  {
    assert AppIndex(AuthRegistry, "xyz") == 2 by {
      assert AuthRegistry[1..][1..] == [];
    }
  }

  /** `test_bad_model_in_app`: "auth" has no model named "xyz" (the test only checks that some error is returned). */
  lemma BadModelInApp(render: Renderer)
    ensures Scaffold(AuthRegistry, None, Str("xyz"), "auth", "", "", "", "", map[], render) ==
            ErrorRecord("model not found in that app")
  {
    AuthIsSecondApp();
    NoAuthModelNamedXyz();
    assert AuthRegistry[1].models == [Permission, Group, User];
    assert Resolve(AuthRegistry, Str("xyz"), "auth") == Failed(ModelNotFoundInApp);
  }
}
