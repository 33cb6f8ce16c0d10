/**
 * The interface language of src/app/core/services/language.service.ts:
 * two nested dictionaries, a dot-path lookup that falls back to the key, and
 * the preference kept in `localStorage` under 'app_lang'. The document's
 * `lang` attribute is the field `documentLang`.
 */
module Language {
  import opened Wrappers
  import opened Strings
  import opened Storage

  const LANG_KEY: string := "app_lang"

  datatype Lang = Es | En

  function Code(l: Lang): string
  {
    match l
    case Es => "es"
    case En => "en"
  }

  /** A dictionary value: a text or an object of named members, in declaration order. */
  datatype Json = Str(s: string) | Obj(fields: seq<Field>)
  datatype Field = Field(key: string, value: Json)

  /** JavaScript truthiness: objects always, strings unless empty. */
  predicate Truthy(v: Json)
  {
    v.Obj? || v.s != ""
  }

  /** The member named `k` of a list of members, if any. */
  function Lookup(fields: seq<Field>, k: string): Option<Json>
  {
    if |fields| == 0 then None
    else if fields[0].key == k then Some(fields[0].value)
    else Lookup(fields[1..], k)
  }

  /** One step of the walk: `value && value[k]` must be truthy to go on. */
  function Step(v: Json, k: string): Option<Json>
  {
    if v.Obj? then
      match Lookup(v.fields, k)
      case Some(w) => if Truthy(w) then Some(w) else None
      case None => None
    else None
  }

  /** The value at the end of the path, or `None` as soon as a step fails. */
  function Resolve(v: Json, path: seq<string>): Option<Json>
    decreases path
  {
    if |path| == 0 then Some(v)
    else
      match Step(v, path[0])
      case None => None
      case Some(w) => Resolve(w, path[1..])
  }

  /** The shape of a value: its member names level by level and which texts are truthy. */
  datatype Shape = Leaf(truthy: bool) | Node(keys: seq<string>, kids: seq<Shape>)

  function ShapeOf(v: Json): Shape
  {
    match v
    case Str(s) => Leaf(s != "")
    case Obj(fields) => Node(seq(|fields|, i requires 0 <= i < |fields| => fields[i].key),
                             seq(|fields|, i requires 0 <= i < |fields| => ShapeOf(fields[i].value)))
  }

  lemma {:induction false} LookupSameShape(a: seq<Field>, b: seq<Field>, k: string)
    requires ShapeOf(Obj(a)) == ShapeOf(Obj(b))
    ensures Lookup(a, k).Some? <==> Lookup(b, k).Some?
    ensures Lookup(a, k).Some? ==> ShapeOf(Lookup(a, k).value) == ShapeOf(Lookup(b, k).value)
  {
    assert |a| == |ShapeOf(Obj(a)).keys| == |b|;
    if |a| > 0 {
      assert a[0].key == ShapeOf(Obj(a)).keys[0] == b[0].key;
      assert ShapeOf(a[0].value) == ShapeOf(Obj(a)).kids[0] == ShapeOf(b[0].value);
      if a[0].key != k {
        var sa, sb := ShapeOf(Obj(a[1..])), ShapeOf(Obj(b[1..]));
        assert sa.keys == ShapeOf(Obj(a)).keys[1..];
        assert sb.keys == ShapeOf(Obj(b)).keys[1..];
        assert sa.kids == ShapeOf(Obj(a)).kids[1..];
        assert sb.kids == ShapeOf(Obj(b)).kids[1..];
        LookupSameShape(a[1..], b[1..], k);
      }
    }
  }

  /** Two values of one shape resolve the same paths. */
  lemma {:induction false} ResolveSameShape(a: Json, b: Json, path: seq<string>)
    requires ShapeOf(a) == ShapeOf(b)
    ensures Resolve(a, path).Some? <==> Resolve(b, path).Some?
    decreases path
  {
    if |path| > 0 && a.Obj? {
      assert b.Obj?;
      LookupSameShape(a.fields, b.fields, path[0]);
      var la, lb := Lookup(a.fields, path[0]), Lookup(b.fields, path[0]);
      if la.Some? {
        assert Truthy(la.value) <==> Truthy(lb.value);
        if Step(a, path[0]).Some? {
          ResolveSameShape(la.value, lb.value, path[1..]);
        }
      }
    }
  }

  const ES_AUTH: seq<Field> := [
    Field("login", Str("Iniciar Sesión")),
    Field("register", Str("Crear Cuenta")),
    Field("email", Str("Correo Electrónico")),
    Field("password", Str("Contraseña")),
    Field("forgot_password", Str("¿Olvidaste tu contraseña?")),
    Field("no_account", Str("¿No tienes cuenta?")),
    Field("have_account", Str("¿Ya tienes cuenta?")),
    Field("google_login", Str("Continuar con Google")),
    Field("name", Str("Nombre Completo")),
    Field("confirm_password", Str("Confirmar Contraseña")),
    Field("error_login", Str("Error al iniciar sesión")),
    Field("error_register", Str("Error al registrarse")),
    Field("success_reset", Str("Correo enviado con éxito"))]

  const ES_DASHBOARD: seq<Field> := [
    Field("welcome", Str("Hola")),
    Field("total_balance", Str("Balance Total")),
    Field("total_investment", Str("Inversión Total")),
    Field("diversification", Str("Diversificación")),
    Field("investments", Str("Inversiones")),
    Field("assets", Str("Activos")),
    Field("my_assets", Str("Mis Activos")),
    Field("distribution", Str("Distribución")),
    Field("history", Str("Historial")),
    Field("history_title", Str("Historial de Movimientos")),
    Field("no_history", Str("No hay movimientos recientes.")),
    Field("add_asset", Str("Agregar Activo")),
    Field("logout", Str("Cerrar Sesión")),
    Field("performance", Str("Rendimiento")),
    Field("quantity", Str("Cantidad")),
    Field("value", Str("Valor")),
    Field("price", Str("Precio")),
    Field("empty_portfolio", Str("No tienes activos aún.")),
    Field("start_investing", Str("Comenzar a invertir")),
    Field("based_on", Str("Basado en")),
    Field("buy", Str("Compra")),
    Field("sell", Str("Venta")),
    Field("update", Str("Ajuste")),
    Field("delete", Str("Eliminación"))]

  const ES_PROFILE: seq<Field> := [
    Field("title", Str("Mi Perfil")),
    Field("subtitle", Str("Gestiona tu información personal y cuenta")),
    Field("personal_info", Str("Información Personal")),
    Field("account_stats", Str("Estadísticas de la Cuenta")),
    Field("security", Str("Seguridad y Preferencias")),
    Field("update_success", Str("Perfil actualizado con éxito")),
    Field("joined", Str("Miembro desde")),
    Field("save_changes", Str("Guardar Cambios")),
    Field("change_password", Str("Cambiar Contraseña")),
    Field("language", Str("Idioma de la App")),
    Field("theme", Str("Tema Visual")),
    Field("danger_zone", Str("Zona de Peligro")),
    Field("delete_account", Str("Eliminar Cuenta")),
    Field("security_score", Str("Nivel de Seguridad")),
    Field("verified", Str("Cuenta Verificada"))]

  const ES_COMMON: seq<Field> := [
    Field("loading", Str("Cargando...")),
    Field("save", Str("Guardar")),
    Field("cancel", Str("Cancelar")),
    Field("delete", Str("Eliminar")),
    Field("edit", Str("Editar")),
    Field("search", Str("Buscar")),
    Field("no_data", Str("No hay datos")),
    Field("required", Str("Requerido")),
    Field("invalid_email", Str("Email inválido")),
    Field("min_length", Str("Muy corto")),
    Field("password_pattern", Str("Debe ser más compleja")),
    Field("password_mismatch", Str("No coinciden")),
    Field("success", Str("¡Éxito!")),
    Field("error", Str("Error")),
    Field("theme", Str("Tema")),
    Field("language", Str("Idioma")),
    Field("others", Str("OTROS"))]

  const ES: Json := Obj([
    Field("auth", Obj(ES_AUTH)),
    Field("dashboard", Obj(ES_DASHBOARD)),
    Field("profile", Obj(ES_PROFILE)),
    Field("common", Obj(ES_COMMON))])

  const EN_AUTH: seq<Field> := [
    Field("login", Str("Login")),
    Field("register", Str("Sign Up")),
    Field("email", Str("Email Address")),
    Field("password", Str("Password")),
    Field("forgot_password", Str("Forgot password?")),
    Field("no_account", Str("No account?")),
    Field("have_account", Str("Have an account?")),
    Field("google_login", Str("Continue with Google")),
    Field("name", Str("Full Name")),
    Field("confirm_password", Str("Confirm Password")),
    Field("error_login", Str("Login error")),
    Field("error_register", Str("Sign up error")),
    Field("success_reset", Str("Email sent"))]

  const EN_DASHBOARD: seq<Field> := [
    Field("welcome", Str("Hello")),
    Field("total_balance", Str("Total Balance")),
    Field("total_investment", Str("Total Investment")),
    Field("diversification", Str("Diversification")),
    Field("investments", Str("Investments")),
    Field("assets", Str("Assets")),
    Field("my_assets", Str("My Assets")),
    Field("distribution", Str("Distribution")),
    Field("history", Str("History")),
    Field("history_title", Str("Transaction History")),
    Field("no_history", Str("No recent transactions.")),
    Field("add_asset", Str("Add Asset")),
    Field("logout", Str("Log Out")),
    Field("performance", Str("Performance")),
    Field("quantity", Str("Quantity")),
    Field("value", Str("Value")),
    Field("price", Str("Price")),
    Field("empty_portfolio", Str("No assets yet.")),
    Field("start_investing", Str("Start investing")),
    Field("based_on", Str("Based on")),
    Field("buy", Str("Buy")),
    Field("sell", Str("Sell")),
    Field("update", Str("Update")),
    Field("delete", Str("Delete"))]

  const EN_PROFILE: seq<Field> := [
    Field("title", Str("My Profile")),
    Field("subtitle", Str("Manage your personal information and account")),
    Field("personal_info", Str("Personal Information")),
    Field("account_stats", Str("Account Statistics")),
    Field("security", Str("Security & Preferences")),
    Field("update_success", Str("Profile updated successfully")),
    Field("joined", Str("Member since")),
    Field("save_changes", Str("Save Changes")),
    Field("change_password", Str("Change Password")),
    Field("language", Str("App Language")),
    Field("theme", Str("Visual Theme")),
    Field("danger_zone", Str("Danger Zone")),
    Field("delete_account", Str("Delete Account")),
    Field("security_score", Str("Security Level")),
    Field("verified", Str("Verified Account"))]

  const EN_COMMON: seq<Field> := [
    Field("loading", Str("Loading...")),
    Field("save", Str("Save")),
    Field("cancel", Str("Cancel")),
    Field("delete", Str("Delete")),
    Field("edit", Str("Edit")),
    Field("search", Str("Search")),
    Field("no_data", Str("No data")),
    Field("required", Str("Required")),
    Field("invalid_email", Str("Invalid email")),
    Field("min_length", Str("Too short")),
    Field("password_pattern", Str("Must be complex")),
    Field("password_mismatch", Str("Mismatch")),
    Field("success", Str("Success!")),
    Field("error", Str("Error")),
    Field("theme", Str("Theme")),
    Field("language", Str("Language")),
    Field("others", Str("OTHERS"))]

  const EN: Json := Obj([
    Field("auth", Obj(EN_AUTH)),
    Field("dashboard", Obj(EN_DASHBOARD)),
    Field("profile", Obj(EN_PROFILE)),
    Field("common", Obj(EN_COMMON))])

  function Translations(l: Lang): Json
  {
    match l
    case Es => ES
    case En => EN
  }

  /** The two dictionaries declare the same sections and keys, in the same order, with no empty text. */
  lemma DictionariesAgree()
    ensures ShapeOf(ES) == ShapeOf(EN)
  {
    AuthAgrees();
    DashboardAgrees();
    ProfileAgrees();
    CommonAgrees();
    FieldsAgree(ES.fields, EN.fields);
  }

  lemma AuthAgrees()
    ensures ShapeOf(Obj(ES_AUTH)) == ShapeOf(Obj(EN_AUTH))
  {
    SectionsAgree(ES_AUTH, EN_AUTH);
  }

  lemma DashboardAgrees()
    ensures ShapeOf(Obj(ES_DASHBOARD)) == ShapeOf(Obj(EN_DASHBOARD))
  {
    SectionsAgree(ES_DASHBOARD, EN_DASHBOARD);
  }

  lemma ProfileAgrees()
    ensures ShapeOf(Obj(ES_PROFILE)) == ShapeOf(Obj(EN_PROFILE))
  {
    SectionsAgree(ES_PROFILE, EN_PROFILE);
  }

  lemma CommonAgrees()
    ensures ShapeOf(Obj(ES_COMMON)) == ShapeOf(Obj(EN_COMMON))
  {
    SectionsAgree(ES_COMMON, EN_COMMON);
  }

  /** Two sections of non-empty texts under the same keys have one shape. */
  lemma SectionsAgree(a: seq<Field>, b: seq<Field>)
    requires |a| == |b|
    requires forall i :: 0 <= i < |a| ==> a[i].key == b[i].key
    requires forall i :: 0 <= i < |a| ==> a[i].value.Str? && a[i].value.s != "" && b[i].value.Str? && b[i].value.s != ""
    ensures ShapeOf(Obj(a)) == ShapeOf(Obj(b))
  {
    FieldsAgree(a, b);
  }

  /** Member lists with the same keys and the same shapes member by member have one shape. */
  lemma FieldsAgree(a: seq<Field>, b: seq<Field>)
    requires |a| == |b|
    requires forall i :: 0 <= i < |a| ==> a[i].key == b[i].key && ShapeOf(a[i].value) == ShapeOf(b[i].value)
    ensures ShapeOf(Obj(a)) == ShapeOf(Obj(b))
  {
    assert ShapeOf(Obj(a)).keys == ShapeOf(Obj(b)).keys;
    assert ShapeOf(Obj(a)).kids == ShapeOf(Obj(b)).kids;
  }

  /** A key resolves in one language exactly when it resolves in the other. */
  lemma SameKeysInBothLanguages(key: string)
    ensures Resolve(ES, Split(key, '.')).Some? <==> Resolve(EN, Split(key, '.')).Some?
  {
    DictionariesAgree();
    ResolveSameShape(ES, EN, Split(key, '.'));
  }

  /** `getInitialLanguage`: a stored 'es' or 'en' wins; otherwise the browser's primary subtag decides. */
  function InitialLanguage(stored: Option<string>, browserLanguage: string): (l: Lang)
    ensures stored == Some("es") ==> l == Es
    ensures stored == Some("en") ==> l == En
    ensures stored != Some("es") && stored != Some("en") ==>
              (l == Es <==> Split(browserLanguage, '-')[0] == "es")
  {
    if stored == Some("es") then Es
    else if stored == Some("en") then En
    else if Split(browserLanguage, '-')[0] == "es" then Es
    else En
  }

  class LanguageService {
    var currentLang: Lang
    var documentLang: string
    const storage: LocalStorage

    constructor (storage: LocalStorage, browserLanguage: string)
      ensures this.storage == storage
      ensures currentLang == InitialLanguage(storage.GetItem(LANG_KEY), browserLanguage)
      ensures documentLang == Code(currentLang)
    {
      this.storage := storage;
      var l := InitialLanguage(storage.GetItem(LANG_KEY), browserLanguage);
      currentLang := l;
      documentLang := Code(l);
    }

    /**
     * `translate`: walk the current dictionary along the dot-separated key;
     * the first step that finds nothing truthy gives back the key itself.
     */
    method Translate(key: string) returns (r: Json)
      ensures Resolve(Translations(currentLang), Split(key, '.')).Some? ==>
                r == Resolve(Translations(currentLang), Split(key, '.')).value
      ensures Resolve(Translations(currentLang), Split(key, '.')).None? ==> r == Str(key)
    {
      var keys := Split(key, '.');
      var value := Translations(currentLang);
      var i := 0;
      while i < |keys|
        invariant 0 <= i <= |keys|
        invariant Resolve(Translations(currentLang), keys) == Resolve(value, keys[i..])
      {
        var next := Step(value, keys[i]);
        if next.None? {
          return Str(key);
        }
        assert keys[i..][1..] == keys[i + 1..];
        value := next.value;
        i := i + 1;
      }
      r := value;
    }

    /** `setLanguage`: the signal, the stored preference and the document follow. */
    method SetLanguage(l: Lang)
      modifies this, storage
      ensures currentLang == l && documentLang == Code(l)
      ensures storage.items == old(storage.items)[LANG_KEY := Code(l)]
    {
      currentLang := l;
      storage.SetItem(LANG_KEY, Code(l));
      documentLang := Code(l);
    }
  }

  /** After `setLanguage(l)`, the next start reads `l` back, whatever the browser says. */
  lemma ChoiceSurvivesRestart(items: map<string, string>, l: Lang, browserLanguage: string)
    ensures var after := items[LANG_KEY := Code(l)];
            InitialLanguage(Some(after[LANG_KEY]), browserLanguage) == l
  {
  }
}
