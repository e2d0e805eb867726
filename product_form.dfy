/** The administrator's product form of `src/pages/admin/ProductForm.tsx`: the field
    rules of `validateForm`, the field change handler with its error clearing, and the
    submit handler that creates or updates a product only when the form is valid. */
module ProductForm {
  import opened Wrappers
  import opened Products

  datatype FormData = FormData(
    title: string, description: string, price: real,
    image1: string, image2: string, category: string, material: string, productType: string)

  const InitialForm := FormData("", "", 0.0, "", "", "", "", "")

  /** The names of the form's inputs, which are also the keys of the error map. */
  datatype Field = Title | Description | Price | Image1 | Image2 | Category | Material | Type

  // ---------------------------------------------------------------------------
  // `String.prototype.trim`

  /** ECMAScript white space and line terminators. */
  const Spaces: set<char> := {
    '\t', '\n', '\U{000B}', '\U{000C}', '\r', ' ', '\U{00A0}', '\U{1680}',
    '\U{2000}', '\U{2001}', '\U{2002}', '\U{2003}', '\U{2004}', '\U{2005}', '\U{2006}',
    '\U{2007}', '\U{2008}', '\U{2009}', '\U{200A}', '\U{2028}', '\U{2029}', '\U{202F}',
    '\U{205F}', '\U{3000}', '\U{FEFF}'}

  predicate IsSpace(c: char)
  {
    c in Spaces
  }

  /** How many white-space characters `s` starts with. */
  function LeadingSpace(s: string): (k: nat)
    ensures k <= |s|
    ensures forall i :: 0 <= i < k ==> IsSpace(s[i])
    ensures k < |s| ==> !IsSpace(s[k])
  {
    if s == [] || !IsSpace(s[0]) then 0 else 1 + LeadingSpace(s[1..])
  }

  /** `s.trim()`: drop white space from both ends. */
  function Trim(s: string): (r: string)
    ensures |r| <= |s|
    decreases |s|
  {
    if s != [] && IsSpace(s[0]) then Trim(s[1..])
    else if s != [] && IsSpace(s[|s| - 1]) then Trim(s[..|s| - 1])
    else s
  }

  /** The trimmed text is the piece of the original after its leading white space that
      neither starts nor ends with white space, with only white space after it; it is
      empty exactly when the original is all white space. */
  lemma TrimSpec(s: string)
    ensures LeadingSpace(s) + |Trim(s)| <= |s|
    ensures Trim(s) == s[LeadingSpace(s)..LeadingSpace(s) + |Trim(s)|]
    ensures forall i :: LeadingSpace(s) + |Trim(s)| <= i < |s| ==> IsSpace(s[i])
    ensures Trim(s) != "" ==> !IsSpace(Trim(s)[0]) && !IsSpace(Trim(s)[|Trim(s)| - 1])
    ensures Trim(s) == "" <==> forall i :: 0 <= i < |s| ==> IsSpace(s[i])
  {
    TrimPiece(s);
    TrimEdges(s);
    if Trim(s) != "" {
      assert !IsSpace(s[LeadingSpace(s)]);
    }
  }

  /** `t` is the piece of `s` after its leading white space, with only white space after it. */
  ghost predicate PieceOf(s: string, t: string)
  {
    && LeadingSpace(s) + |t| <= |s|
    && t == s[LeadingSpace(s)..LeadingSpace(s) + |t|]
    && forall i :: LeadingSpace(s) + |t| <= i < |s| ==> IsSpace(s[i])
  }

  /** Where the trimmed text sits in the original, and that only white space follows it. */
  lemma {:induction false} TrimPiece(s: string)
    ensures PieceOf(s, Trim(s))
    decreases |s|
  {
    if s != [] && IsSpace(s[0]) {
      TrimPiece(s[1..]);
      PieceAfterSpace(s);
    } else if s != [] && IsSpace(s[|s| - 1]) {
      TrimPiece(s[..|s| - 1]);
      PieceBeforeSpace(s);
    }
  }

  /** Dropping a leading space moves the piece one place right. */
  lemma PieceAfterSpace(s: string)
    requires s != [] && IsSpace(s[0]) && PieceOf(s[1..], Trim(s[1..]))
    ensures PieceOf(s, Trim(s))
  {
    var t := s[1..];
    var r := Trim(t);
    assert Trim(s) == r;
    var k := LeadingSpace(t);
    assert LeadingSpace(s) == k + 1;
    ShiftPiece(s, t, k, r);
  }

  /** A piece of `t == s[1..]` at `k`, followed by white space, is a piece of `s` at `k + 1`. */
  lemma ShiftPiece(s: string, t: string, k: nat, r: string)
    requires s != [] && t == s[1..] && k + |r| <= |t|
    requires r == t[k..k + |r|]
    requires forall i :: k + |r| <= i < |t| ==> IsSpace(t[i])
    ensures r == s[k + 1..k + 1 + |r|]
    ensures forall i :: k + 1 + |r| <= i < |s| ==> IsSpace(s[i])
  {
    forall i | k + 1 + |r| <= i < |s| ensures IsSpace(s[i]) {
      assert s[i] == t[i - 1];
    }
  }

  /** Dropping a trailing space leaves the piece where it was. */
  lemma PieceBeforeSpace(s: string)
    requires s != [] && !IsSpace(s[0]) && IsSpace(s[|s| - 1]) && PieceOf(s[..|s| - 1], Trim(s[..|s| - 1]))
    ensures PieceOf(s, Trim(s))
  {
    var t := s[..|s| - 1];
    var r := Trim(t);
    assert Trim(s) == r;
    assert LeadingSpace(s) == 0 && LeadingSpace(t) == 0;
    ExtendPiece(s, t, r);
  }

  /** A prefix of `t == s[..|s| - 1]` followed by white space stays so in `s` when the
      last character of `s` is white space too. */
  lemma ExtendPiece(s: string, t: string, r: string)
    requires s != [] && t == s[..|s| - 1] && IsSpace(s[|s| - 1]) && |r| <= |t|
    requires r == t[..|r|]
    requires forall i :: |r| <= i < |t| ==> IsSpace(t[i])
    ensures r == s[..|r|]
    ensures forall i :: |r| <= i < |s| ==> IsSpace(s[i])
  {
    forall i | |r| <= i < |t| ensures IsSpace(s[i]) {
      assert s[i] == t[i];
    }
  }

  /** The trimmed text neither starts nor ends with white space. */
  lemma {:induction false} TrimEdges(s: string)
    ensures Trim(s) != "" ==> !IsSpace(Trim(s)[0]) && !IsSpace(Trim(s)[|Trim(s)| - 1])
    decreases |s|
  {
    if s != [] && IsSpace(s[0]) {
      TrimEdges(s[1..]);
    } else if s != [] && IsSpace(s[|s| - 1]) {
      TrimEdges(s[..|s| - 1]);
    }
  }

  /** `!s.trim()`: the text is empty once trimmed. */
  predicate Blank(s: string)
  {
    |Trim(s)| == 0
  }

  // ---------------------------------------------------------------------------
  // `validateForm`

  // The messages of the error map.
  const TitleRequired := "El título es obligatorio"
  const TitleTooShort := "El título debe tener al menos 3 caracteres"
  const DescriptionRequired := "La descripción es obligatoria"
  const DescriptionTooShort := "La descripción debe tener al menos 10 caracteres"
  const PriceNotPositive := "El precio debe ser mayor a 0"
  const ImageRequired := "La imagen principal es obligatoria"
  const InvalidUrl := "Debe ser una URL válida"
  const CategoryRequired := "La categoría es obligatoria"
  const MaterialRequired := "El material es obligatorio"
  const TypeRequired := "El tipo es obligatorio"

  /** The error one field gets, if any. `isValidUrl` (the `URL` constructor) is a parameter. */
  function Rule(d: FormData, isValidUrl: string -> bool, f: Field): (r: Option<string>)
    ensures f == Title ==> (r.None? <==> |Trim(d.title)| >= 3)
    ensures f == Description ==> (r.None? <==> |Trim(d.description)| >= 10)
    ensures f == Image1 ==> (r.None? <==> !Blank(d.image1) && isValidUrl(d.image1))
    ensures f == Image2 ==> (r.None? <==> Blank(d.image2) || isValidUrl(d.image2))
  {
    match f
    case Title =>
      if Blank(d.title) then Some(TitleRequired)
      else if |Trim(d.title)| < 3 then Some(TitleTooShort)
      else None
    case Description =>
      if Blank(d.description) then Some(DescriptionRequired)
      else if |Trim(d.description)| < 10 then Some(DescriptionTooShort)
      else None
    case Price =>
      if d.price <= 0.0 then Some(PriceNotPositive) else None
    case Image1 =>
      if Blank(d.image1) then Some(ImageRequired)
      else if !isValidUrl(d.image1) then Some(InvalidUrl)
      else None
    case Image2 =>
      if !Blank(d.image2) && !isValidUrl(d.image2) then Some(InvalidUrl) else None
    case Category =>
      if Blank(d.category) then Some(CategoryRequired) else None
    case Material =>
      if Blank(d.material) then Some(MaterialRequired) else None
    case Type =>
      if Blank(d.productType) then Some(TypeRequired) else None
  }

  /** The form passes every rule. */
  predicate Passes(d: FormData, isValidUrl: string -> bool)
  {
    forall f: Field :: Rule(d, isValidUrl, f).None?
  }

  /** One check of `validateForm`: record the field's message when its rule fails. */
  function Note(errors: map<Field, string>, f: Field, rule: Option<string>): map<Field, string>
  {
    if rule.Some? then errors[f := rule.value] else errors
  }

  /** The order in which `validateForm` checks the fields. */
  const CheckOrder: seq<Field> := [Title, Description, Price, Image1, Image2, Category, Material, Type]

  /** Check `fields` in order, starting from the map `acc`. */
  function Collect(d: FormData, isValidUrl: string -> bool, fields: seq<Field>, acc: map<Field, string>): map<Field, string>
    decreases |fields|
  {
    if fields == [] then acc
    else Collect(d, isValidUrl, fields[1..], Note(acc, fields[0], Rule(d, isValidUrl, fields[0])))
  }

  /** Checking distinct fields that are not yet in the map records exactly their errors and
      keeps what was there. */
  lemma {:induction false} CollectSpec(d: FormData, isValidUrl: string -> bool, fields: seq<Field>, acc: map<Field, string>)
    requires forall i, j :: 0 <= i < j < |fields| ==> fields[i] != fields[j]
    requires forall f :: f in fields ==> f !in acc
    ensures var r := Collect(d, isValidUrl, fields, acc);
      && (forall f :: f in r <==> f in acc || (f in fields && Rule(d, isValidUrl, f).Some?))
      && (forall f :: f in acc ==> r[f] == acc[f])
      && (forall f :: f in fields && Rule(d, isValidUrl, f).Some? ==> r[f] == Rule(d, isValidUrl, f).value)
    decreases |fields|
  {
    if fields != [] {
      var f := fields[0];
      var next := Note(acc, f, Rule(d, isValidUrl, f));
      forall g | g in fields[1..] ensures g != f {
        var j :| 0 <= j < |fields[1..]| && fields[1..][j] == g;
        assert fields[j + 1] == g;
      }
      forall i, j | 0 <= i < j < |fields[1..]| ensures fields[1..][i] != fields[1..][j] {
        assert fields[1..][i] == fields[i + 1] && fields[1..][j] == fields[j + 1];
      }
      CollectSpec(d, isValidUrl, fields[1..], next);
      assert forall g :: g in fields <==> g == f || g in fields[1..];
    }
  }

  /** Every field is checked, once. */
  lemma CheckOrderComplete()
    ensures forall i, j :: 0 <= i < j < |CheckOrder| ==> CheckOrder[i] != CheckOrder[j]
    ensures forall f :: f in CheckOrder
  {
    forall f ensures f in CheckOrder {
      match f
      case Title => assert CheckOrder[0] == f;
      case Description => assert CheckOrder[1] == f;
      case Price => assert CheckOrder[2] == f;
      case Image1 => assert CheckOrder[3] == f;
      case Image2 => assert CheckOrder[4] == f;
      case Category => assert CheckOrder[5] == f;
      case Material => assert CheckOrder[6] == f;
      case Type => assert CheckOrder[7] == f;
    }
  }

  /** `validateForm`: check the fields one after another into a fresh error map; the form
      is valid when the map is empty. */
  method ValidateForm(d: FormData, isValidUrl: string -> bool) returns (errors: map<Field, string>, valid: bool)
    ensures forall f :: f in errors <==> Rule(d, isValidUrl, f).Some?
    ensures forall f :: f in errors ==> errors[f] == Rule(d, isValidUrl, f).value
    ensures valid <==> Passes(d, isValidUrl)
    ensures valid <==> errors == map[]
  {
    // `todo` is the fields still to check; checking them from `errors` always yields `all`.
    ghost var all := Collect(d, isValidUrl, CheckOrder, map[]);
    ghost var todo := CheckOrder;
    errors := map[];
    assert todo[0] == Title;
    errors, todo := Note(errors, Title, Rule(d, isValidUrl, Title)), todo[1..];
    assert all == Collect(d, isValidUrl, todo, errors) && todo[0] == Description;
    errors, todo := Note(errors, Description, Rule(d, isValidUrl, Description)), todo[1..];
    assert all == Collect(d, isValidUrl, todo, errors) && todo[0] == Price;
    errors, todo := Note(errors, Price, Rule(d, isValidUrl, Price)), todo[1..];
    assert all == Collect(d, isValidUrl, todo, errors) && todo[0] == Image1;
    errors, todo := Note(errors, Image1, Rule(d, isValidUrl, Image1)), todo[1..];
    assert all == Collect(d, isValidUrl, todo, errors) && todo[0] == Image2;
    errors, todo := Note(errors, Image2, Rule(d, isValidUrl, Image2)), todo[1..];
    assert all == Collect(d, isValidUrl, todo, errors) && todo[0] == Category;
    errors, todo := Note(errors, Category, Rule(d, isValidUrl, Category)), todo[1..];
    assert all == Collect(d, isValidUrl, todo, errors) && todo[0] == Material;
    errors, todo := Note(errors, Material, Rule(d, isValidUrl, Material)), todo[1..];
    assert all == Collect(d, isValidUrl, todo, errors) && todo[0] == Type;
    errors, todo := Note(errors, Type, Rule(d, isValidUrl, Type)), todo[1..];
    assert all == Collect(d, isValidUrl, todo, errors) && todo == [];
    ErrorsSpec(d, isValidUrl, errors);
    valid := |errors| == 0;
  }

  /** The map that checking every field in order produces holds exactly the failing
      fields' messages, and is empty exactly when the form passes. */
  lemma ErrorsSpec(d: FormData, isValidUrl: string -> bool, errors: map<Field, string>)
    requires errors == Collect(d, isValidUrl, CheckOrder, map[])
    ensures forall f :: f in errors <==> Rule(d, isValidUrl, f).Some?
    ensures forall f :: f in errors ==> errors[f] == Rule(d, isValidUrl, f).value
    ensures |errors| == 0 <==> Passes(d, isValidUrl)
    ensures |errors| == 0 <==> errors == map[]
  {
    CheckOrderComplete();
    CollectSpec(d, isValidUrl, CheckOrder, map[]);
    if |errors| != 0 {
      var f :| f in errors;
    }
  }

  /** The rules in the form's own terms: a valid form has a title of at least 3 and a
      description of at least 10 characters once trimmed, a positive price, a non-blank
      valid main image, a second image that is blank or valid, and non-blank category,
      material and type. */
  lemma PassesSpec(d: FormData, isValidUrl: string -> bool)
    ensures Passes(d, isValidUrl) <==>
      && |Trim(d.title)| >= 3
      && |Trim(d.description)| >= 10
      && d.price > 0.0
      && !Blank(d.image1) && isValidUrl(d.image1)
      && (Blank(d.image2) || isValidUrl(d.image2))
      && !Blank(d.category) && !Blank(d.material) && !Blank(d.productType)
  {
    if Passes(d, isValidUrl) {
      assert Rule(d, isValidUrl, Title).None? && Rule(d, isValidUrl, Description).None?;
      assert Rule(d, isValidUrl, Price).None? && Rule(d, isValidUrl, Image1).None?;
      assert Rule(d, isValidUrl, Image2).None? && Rule(d, isValidUrl, Category).None?;
      assert Rule(d, isValidUrl, Material).None? && Rule(d, isValidUrl, Type).None?;
    } else {
      var f: Field :| Rule(d, isValidUrl, f).Some?;
      match f
      case Title =>
      case Description =>
      case Price =>
      case Image1 =>
      case Image2 =>
      case Category =>
      case Material =>
      case Type =>
    }
  }

  /** Which message each required text field gets: the "obligatorio" one exactly when the
      trimmed text is empty, the length one exactly when it is non-empty but short. */
  lemma LengthRulesSpec(d: FormData, isValidUrl: string -> bool)
    ensures Rule(d, isValidUrl, Title) == Some(TitleRequired) <==> Blank(d.title)
    ensures Rule(d, isValidUrl, Title) == Some(TitleTooShort)
            <==> 0 < |Trim(d.title)| < 3
    ensures Rule(d, isValidUrl, Description) == Some(DescriptionRequired) <==> Blank(d.description)
    ensures Rule(d, isValidUrl, Description) == Some(DescriptionTooShort)
            <==> 0 < |Trim(d.description)| < 10
    ensures Rule(d, isValidUrl, Image2).Some? ==> !Blank(d.image2)
  {
  }

  /** Surrounding white space never decides a rule on its own: a title padded with spaces
      is judged as the title itself. */
  lemma PaddedTitle(d: FormData, isValidUrl: string -> bool)
    requires |d.title| > 0 && !IsSpace(d.title[0]) && !IsSpace(d.title[|d.title| - 1])
    ensures Rule(d.(title := " " + d.title + "\t"), isValidUrl, Title) == Rule(d, isValidUrl, Title)
  {
    var t := d.title;
    assert (" " + t + "\t")[1..] == t + "\t";
    assert (t + "\t")[..|t|] == t;
    assert Trim(t + "\t") == Trim(t);
  }

  // ---------------------------------------------------------------------------
  // Field values

  datatype Value = Text(s: string) | Number(x: real)

  function Get(d: FormData, f: Field): Value
  {
    match f
    case Title => Text(d.title)
    case Description => Text(d.description)
    case Price => Number(d.price)
    case Image1 => Text(d.image1)
    case Image2 => Text(d.image2)
    case Category => Text(d.category)
    case Material => Text(d.material)
    case Type => Text(d.productType)
  }

  /** The value an input event stores: the typed text, or for the price `parseFloat(text) || 0`
      (`parseFloat` is a parameter; `None` stands for NaN). */
  function Parsed(f: Field, text: string, parseFloat: string -> Option<real>): (v: Value)
    ensures f == Price <==> v.Number?
    ensures f != Price ==> v == Text(text)
    ensures f == Price && parseFloat(text).None? ==> v == Number(0.0)
  {
    if f == Price then Number(if parseFloat(text).Some? then parseFloat(text).value else 0.0)
    else Text(text)
  }

  /** `{ ...prevData, [name]: value }`. */
  function SetField(d: FormData, f: Field, v: Value): (r: FormData)
    requires (f == Price) == v.Number?
    ensures Get(r, f) == v
    ensures forall g :: g != f ==> Get(r, g) == Get(d, g)
  {
    match f
    case Title => d.(title := v.s)
    case Description => d.(description := v.s)
    case Price => d.(price := v.x)
    case Image1 => d.(image1 := v.s)
    case Image2 => d.(image2 := v.s)
    case Category => d.(category := v.s)
    case Material => d.(material := v.s)
    case Type => d.(productType := v.s)
  }

  /** Two forms with the same field values are the same form. */
  lemma FormExtensional(a: FormData, b: FormData)
    requires forall f :: Get(a, f) == Get(b, f)
    ensures a == b
  {
    assert Get(a, Title) == Get(b, Title) && Get(a, Description) == Get(b, Description);
    assert Get(a, Price) == Get(b, Price) && Get(a, Image1) == Get(b, Image1);
    assert Get(a, Image2) == Get(b, Image2) && Get(a, Category) == Get(b, Category);
    assert Get(a, Material) == Get(b, Material) && Get(a, Type) == Get(b, Type);
  }

  /** Typing into one input twice keeps only the second value, and retyping the current
      text changes nothing. */
  lemma SetFieldLaws(d: FormData, f: Field, v: Value, w: Value)
    requires (f == Price) == v.Number? && (f == Price) == w.Number?
    ensures SetField(SetField(d, f, v), f, w) == SetField(d, f, w)
    ensures SetField(d, f, Get(d, f)) == d
  {
    FormExtensional(SetField(SetField(d, f, v), f, w), SetField(d, f, w));
    FormExtensional(SetField(d, f, Get(d, f)), d);
  }

  /** The product fields the form sends. */
  function ToData(d: FormData): ProductData
  {
    ProductData(d.title, d.description, d.price, d.image1, d.image2, d.category, d.material, d.productType)
  }

  /** `{ ...formData, id: parseInt(id) }`: every form field is sent, so merged into any
      stored product it replaces all of that product's fields, and the id with a parsed one.
      Ids are integers here, so a NaN `parseInt` is sent as no id and the stored id stays;
      the browser would write NaN over it instead. */
  function ToPatch(d: FormData, id: Option<int>): (p: ProductPatch)
    ensures p.id == id
    ensures forall q :: Merge(q, p) == Product(if id.Some? then id.value else q.id, d.title, d.description,
      d.price, d.image1, d.image2, d.category, d.material, d.productType)
  {
    ProductPatch(id, Some(d.title), Some(d.description), Some(d.price), Some(d.image1),
                 Some(d.image2), Some(d.category), Some(d.material), Some(d.productType))
  }

  /** The banner messages of the form page. */
  const LoadProductError := "Error al cargar el producto. Por favor, intenta nuevamente."
  const FormHasErrors := "Por favor, corrige los errores en el formulario"
  const ProductCreated := "Producto creado exitosamente"
  const ProductUpdated := "Producto actualizado exitosamente"

  // ---------------------------------------------------------------------------
  // The page state

  /** The form page: the route id (present when editing), the form, the error map and the
      two banner messages. */
  class ProductFormPage {
    const routeId: Option<string>
    var formData: FormData
    var errors: map<Field, string>
    var error: Option<string>
    var success: Option<string>

    /** `Boolean(id)`: an empty route parameter does not count. */
    predicate IsEditing()
    {
      routeId.Some? && routeId.value != ""
    }

    /** The page for a route id as the router hands it over, decoded: `%2F` in the path
        becomes a `/` in the id. */
    constructor (id: Option<string>)
      ensures routeId == id && formData == InitialForm && errors == map[]
      ensures error == None && success == None
    {
      routeId := id;
      formData := InitialForm;
      errors := map[];
      error, success := None, None;
    }

    /** `fetchProduct` when editing: copy the stored product into the form (`|| ''` and
        `|| 0` change nothing on these types), or show the load error. */
    method FetchProduct(store: ProductStore)
      modifies this`formData, this`error
      ensures !IsEditing() ==> formData == old(formData) && error == old(error)
      ensures IsEditing() ==>
        var found := match ParseInt(routeId.value) case Some(id) => FindById(store.bin, id) case None => None;
        && (found.Some? ==> error == None && formData == FormData(found.value.title, found.value.description,
              found.value.price, found.value.image1, found.value.image2, found.value.category,
              found.value.material, found.value.productType))
        && (found.None? ==> (formData == old(formData)
              && error == Some(LoadProductError)))
    {
      if !IsEditing() {
        return;
      }
      error := None;
      var id := ParseInt(routeId.value);
      if id.None? {
        // `getById(NaN)` finds no product.
        error := Some(LoadProductError);
        return;
      }
      var response := store.GetById(id.value);
      if response.Err? {
        error := Some(LoadProductError);
        return;
      }
      var p := response.value;
      formData := FormData(p.title, p.description, p.price, p.image1, p.image2, p.category, p.material, p.productType);
    }

    /** `handleChange`: store the new value of that one input, and blank that input's
        error if it has a non-empty one; other errors are kept. */
    method HandleChange(f: Field, text: string, parseFloat: string -> Option<real>)
      modifies this`formData, this`errors
      ensures formData == SetField(old(formData), f, Parsed(f, text, parseFloat))
      ensures f in old(errors) && old(errors)[f] != "" ==> errors == old(errors)[f := ""]
      ensures !(f in old(errors) && old(errors)[f] != "") ==> errors == old(errors)
    {
      formData := SetField(formData, f, Parsed(f, text, parseFloat));
      if f in errors && errors[f] != "" {
        errors := errors[f := ""];
      }
    }

    /** `handleSubmit`: validate; an invalid form only shows the errors. A valid one is
        sent with `put` to `/products/<route id>`, carrying `id: parseInt(route id)`, when
        editing, and with `post` otherwise. The product `put` rewrites is the one named by
        the endpoint's last segment, which for a route id holding a `/` is not the id the
        data carries. When the route id does not start with a number the data carries no id
        here, where the browser sends `id: NaN` (see `ToPatch`). */
    method HandleSubmit(store: ProductStore, isValidUrl: string -> bool)
      modifies this`errors, this`error, this`success, store
      ensures forall g :: g in errors <==> Rule(formData, isValidUrl, g).Some?
      ensures forall g :: g in errors ==> errors[g] == Rule(formData, isValidUrl, g).value
      ensures !Passes(formData, isValidUrl) ==>
        store.bin == old(store.bin) && error == Some(FormHasErrors)
        && success == None
      ensures Passes(formData, isValidUrl) && !IsEditing() ==>
        store.bin == old(store.bin) + [WithId(ToData(formData), NewId(old(store.bin)))]
        && success == Some(ProductCreated) && error == None
      ensures Passes(formData, isValidUrl) && IsEditing() ==>
        && var target := PutTarget("/products/" + routeId.value);
        && (target.Some? ==>
              store.bin == MergeMatching(old(store.bin), target.value, ToPatch(formData, ParseInt(routeId.value))))
        && (target.None? ==> store.bin == old(store.bin))
        && success == Some(ProductUpdated) && error == None
      ensures Passes(formData, isValidUrl) && IsEditing() && '/' !in routeId.value && ParseInt(routeId.value).Some? ==>
        var id := ParseInt(routeId.value).value;
        store.bin == MergeMatching(old(store.bin), id, ToPatch(formData, Some(id)))
    {
      error, success := None, None;
      var errs, valid := ValidateForm(formData, isValidUrl);
      errors := errs;
      if !valid {
        error := Some(FormHasErrors);
        return;
      }
      if IsEditing() {
        EditEndpointTargetsRouteId(routeId.value);
        var r := store.Put("/products/" + routeId.value, ToPatch(formData, ParseInt(routeId.value)));
        success := Some(ProductUpdated);
      } else {
        var r := store.Post(ProductsEndpoint, ToData(formData));
        success := Some(ProductCreated);
      }
    }
  }

  /** Editing through the route id `3/4` (the path `/admin/products/edit/3%2F4`) puts to
      product 4 (`SlashedRouteIdTargets`) the form with id 3: product 4 is overwritten and
      stamped with id 3, so it and the product that already had id 3 both carry id 3. */
  lemma SlashedRouteIdDuplicatesId(ps: seq<Product>, d: FormData)
    ensures var r := MergeMatching(ps, 4, ToPatch(d, Some(3)));
      forall k :: 0 <= k < |ps| && (ps[k].id == 3 || ps[k].id == 4) ==> r[k].id == 3
  {
  }

  /** The edit endpoint built from the parsed id rather than the raw route id. */
  function ParsedIdEndpoint(id: int): (r: string)
    ensures StartsWith(r, "/products/")
  {
    "/products/" + IntString(id)
  }

  /** Building the endpoint from the parsed id makes `put` target exactly the id the form
      stamps on the data, so an edit keeps every product's id and can never leave two
      products sharing one. */
  lemma ParsedIdEditKeepsIds(ps: seq<Product>, d: FormData, routeId: string)
    requires ParseInt(routeId).Some?
    ensures PutTarget(ParsedIdEndpoint(ParseInt(routeId).value)) == ParseInt(routeId)
    ensures var id := ParseInt(routeId).value;
      var r := MergeMatching(ps, id, ToPatch(d, Some(id)));
      forall k :: 0 <= k < |ps| ==> r[k].id == ps[k].id
  {
    var id := ParseInt(routeId).value;
    EditEndpointTargetsRouteId(IntString(id));
    ParseIntRoundTrip(id);
  }
}
