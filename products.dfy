/** The product store of `src/services/api.ts`. The remote document is the field
    `bin`; every write reads the whole list from it, transforms the list and
    replaces it. */
module Products {
  import opened Wrappers
  import opened Lists

  datatype Product = Product(
    id: int, title: string, description: string, price: real,
    image1: string, image2: string, category: string, material: string, productType: string)

  /** The fields `post` receives: a product without its id. */
  datatype ProductData = ProductData(
    title: string, description: string, price: real,
    image1: string, image2: string, category: string, material: string, productType: string)

  /** The object `put` spreads over a stored product: each present field overrides. */
  datatype ProductPatch = ProductPatch(
    id: Option<int>, title: Option<string>, description: Option<string>, price: Option<real>,
    image1: Option<string>, image2: Option<string>, category: Option<string>,
    material: Option<string>, productType: Option<string>)

  predicate HasId(ps: seq<Product>, id: int)
  {
    exists i :: 0 <= i < |ps| && ps[i].id == id
  }

  /** `Math.max(...ids)`. */
  function MaxId(ps: seq<Product>): (r: int)
    requires |ps| > 0
    ensures forall i :: 0 <= i < |ps| ==> ps[i].id <= r
    ensures HasId(ps, r)
  {
    if |ps| == 1 then ps[0].id
    else
      var m := MaxId(ps[1..]);
      assert forall i :: 1 <= i < |ps| ==> ps[i].id == ps[1..][i - 1].id;
      if ps[0].id >= m then ps[0].id else m
  }

  /** The id `post` assigns: one more than the largest id, or 1 for an empty list. */
  function NewId(ps: seq<Product>): (r: int)
    ensures forall i :: 0 <= i < |ps| ==> ps[i].id < r
    ensures !HasId(ps, r)
    ensures |ps| == 0 ==> r == 1
    ensures |ps| > 0 ==> HasId(ps, r - 1)
  {
    if |ps| > 0 then MaxId(ps) + 1 else 1
  }

  /** `products.find(p => p.id === id)`. */
  function FindById(ps: seq<Product>, id: int): (r: Option<Product>)
    ensures r.None? <==> !HasId(ps, id)
    ensures r.Some? ==> exists i :: 0 <= i < |ps| && ps[i] == r.value && r.value.id == id
                                    && forall j :: 0 <= j < i ==> ps[j].id != id
  {
    if ps == [] then None
    else if ps[0].id == id then Some(ps[0])
    else
      var r := FindById(ps[1..], id);
      assert forall i :: 1 <= i < |ps| ==> ps[i] == ps[1..][i - 1];
      assert HasId(ps[1..], id) ==> HasId(ps, id);
      assert HasId(ps, id) ==> HasId(ps[1..], id) by {
        if HasId(ps, id) {
          var i :| 0 <= i < |ps| && ps[i].id == id;
          assert ps[1..][i - 1].id == id;
        }
      }
      if r.Some? then
        var i :| 0 <= i < |ps[1..]| && ps[1..][i] == r.value && r.value.id == id
                 && forall j :: 0 <= j < i ==> ps[1..][j].id != id;
        assert ps[i + 1] == r.value && forall j :: 0 <= j < i + 1 ==> ps[j].id != id;
        r
      else r
  }

  /** The patch's value when it carries one, the stored value otherwise. */
  function Pick<T>(given: Option<T>, stored: T): T
  {
    if given.Some? then given.value else stored
  }

  /** `{ ...p, ...data }`: every field the data carries overrides the stored one, every
      field it leaves out is kept. */
  function Merge(p: Product, d: ProductPatch): (r: Product)
    ensures d.id.Some? ==> r.id == d.id.value
    ensures d.id.None? ==> r.id == p.id
    ensures d.title.Some? ==> r.title == d.title.value
    ensures d.title.None? ==> r.title == p.title
    ensures d.description.Some? ==> r.description == d.description.value
    ensures d.description.None? ==> r.description == p.description
    ensures d.price.Some? ==> r.price == d.price.value
    ensures d.price.None? ==> r.price == p.price
    ensures d.image1.Some? ==> r.image1 == d.image1.value
    ensures d.image1.None? ==> r.image1 == p.image1
    ensures d.image2.Some? ==> r.image2 == d.image2.value
    ensures d.image2.None? ==> r.image2 == p.image2
    ensures d.category.Some? ==> r.category == d.category.value
    ensures d.category.None? ==> r.category == p.category
    ensures d.material.Some? ==> r.material == d.material.value
    ensures d.material.None? ==> r.material == p.material
    ensures d.productType.Some? ==> r.productType == d.productType.value
    ensures d.productType.None? ==> r.productType == p.productType
    ensures d == ProductPatch(None, None, None, None, None, None, None, None, None) ==> r == p
  {
    Product(
      Pick(d.id, p.id), Pick(d.title, p.title), Pick(d.description, p.description),
      Pick(d.price, p.price), Pick(d.image1, p.image1), Pick(d.image2, p.image2),
      Pick(d.category, p.category), Pick(d.material, p.material), Pick(d.productType, p.productType))
  }
  /** `products.map(p => p.id === id ? { ...p, ...data } : p)`. */
  function MergeMatching(ps: seq<Product>, id: int, d: ProductPatch): (r: seq<Product>)
    ensures |r| == |ps|
    ensures forall i :: 0 <= i < |ps| ==> r[i] == if ps[i].id == id then Merge(ps[i], d) else ps[i]
  {
    if ps == [] then [] else [if ps[0].id == id then Merge(ps[0], d) else ps[0]] + MergeMatching(ps[1..], id, d)
  }

  /** `products.filter(p => p.id !== id)`. */
  function WithoutId(ps: seq<Product>, id: int): seq<Product>
  {
    Filter(ps, (p: Product) => p.id != id)
  }

  /** The product `post` stores: the data's fields under the given id. */
  function WithId(d: ProductData, id: int): (r: Product)
    ensures r.id == id
    ensures r.title == d.title && r.description == d.description && r.price == d.price
    ensures r.image1 == d.image1 && r.image2 == d.image2
    ensures r.category == d.category && r.material == d.material && r.productType == d.productType
  {
    Product(id, d.title, d.description, d.price, d.image1, d.image2, d.category, d.material, d.productType)
  }

  // ---------------------------------------------------------------------------
  // Endpoints

  predicate StartsWith(s: string, prefix: string)
  {
    |prefix| <= |s| && s[..|prefix|] == prefix
  }

  /** `s.split('/').pop()`: the text after the last `/`, or all of it. */
  function LastSegment(s: string): (r: string)
    ensures |r| <= |s| && '/' !in r && r == s[|s| - |r|..]
    ensures |r| < |s| ==> s[|s| - |r| - 1] == '/'
    ensures '/' !in s ==> r == s
  {
    s[SegmentStart(s)..]
  }

  /** Where the text after the last `/` begins: just past that `/`, or 0 without one. */
  function SegmentStart(s: string): (k: nat)
    ensures k <= |s|
    ensures forall i :: k <= i < |s| ==> s[i] != '/'
    ensures k > 0 ==> s[k - 1] == '/'
  {
    if s == [] then 0
    else if s[|s| - 1] == '/' then |s|
    else SegmentStart(s[..|s| - 1])
  }


  /** The text after a prefix that ends in `/` is the last segment when it holds no `/`. */
  lemma LastSegmentAfterSlash(prefix: string, tail: string)
    requires |prefix| > 0 && prefix[|prefix| - 1] == '/' && '/' !in tail
    ensures LastSegment(prefix + tail) == tail
  {
    var s := prefix + tail;
    var r := LastSegment(s);
    assert s[|prefix|..] == tail;
  }

  function DecimalDigitsPrefix(s: string): (k: nat)
    ensures k <= |s| && forall i :: 0 <= i < k ==> '0' <= s[i] <= '9'
  {
    if s == [] || !('0' <= s[0] <= '9') then 0 else 1 + DecimalDigitsPrefix(s[1..])
  }

  function DigitsValue(s: string): nat
    requires forall i :: 0 <= i < |s| ==> '0' <= s[i] <= '9'
  {
    if s == [] then 0 else DigitsValue(s[..|s| - 1]) * 10 + (s[|s| - 1] as int - '0' as int)
  }

  /** Decimal digits of a non-negative integer, as `${n}` renders them. */
  function Decimal(n: nat): (r: string)
    ensures |r| >= 1
    ensures forall i :: 0 <= i < |r| ==> '0' <= r[i] <= '9'
  {
    if n < 10 then [(n + 48) as char] else Decimal(n / 10) + [(n % 10 + 48) as char]
  }

  /** Reading the digits back gives the number. */
  lemma {:induction false} DecimalRoundTrip(n: nat)
    ensures DigitsValue(Decimal(n)) == n
  {
    if n >= 10 {
      var d := Decimal(n);
      assert d[..|d| - 1] == Decimal(n / 10);
      DecimalRoundTrip(n / 10);
    }
  }

  /** The value of the decimal digits `s` starts with, `None` when it starts with none. */
  function LeadingDigits(s: string): (r: Option<nat>)
    ensures r.None? <==> s == [] || !('0' <= s[0] <= '9')
  {
    var k := DecimalDigitsPrefix(s);
    if k == 0 then None else Some(DigitsValue(s[..k]))
  }

  /** `parseInt(s)` on text without leading blanks or a `0x` prefix: an optional sign and
      the leading decimal digits, `None` (NaN) when there are none. */
  function ParseInt(s: string): (r: Option<int>)
    ensures r.Some? ==> |s| > 0
    ensures r.Some? && r.value < 0 ==> s[0] == '-'
    ensures |s| > 0 && '0' <= s[0] <= '9' ==> r.Some?
  {
    if |s| > 0 && s[0] == '-' then
      match LeadingDigits(s[1..])
      case None => None
      case Some(v) => Some(-(v as int))
    else if |s| > 0 && s[0] == '+' then
      match LeadingDigits(s[1..])
      case None => None
      case Some(v) => Some(v)
    else
      match LeadingDigits(s)
      case None => None
      case Some(v) => Some(v)
  }

  /** `${n}` for an integer: a minus sign before the digits of a negative one. */
  function IntString(n: int): (r: string)
    ensures |r| >= 1 && '/' !in r
  {
    if n < 0 then "-" + Decimal(-n) else Decimal(n)
  }

  /** A string made only of digits is read to its end. */
  lemma {:induction false} DigitsPrefixAll(s: string)
    requires forall i :: 0 <= i < |s| ==> '0' <= s[i] <= '9'
    ensures DecimalDigitsPrefix(s) == |s|
  {
    if s != [] {
      DigitsPrefixAll(s[1..]);
    }
  }

  /** `parseInt(`${n}`)` gives `n` back: ids survive the trip through a URL. */
  lemma ParseIntRoundTrip(n: int)
    ensures ParseInt(IntString(n)) == Some(n)
  {
    var m: nat := if n < 0 then -n else n;
    DecimalRead(m);
    ParseSigned(Decimal(m), m);
  }

  /** The sign decides the sign of the result and the leading digits its magnitude. */
  lemma ParseSigned(body: string, v: nat)
    requires LeadingDigits(body) == Some(v)
    ensures ParseInt(body) == Some(v)
    ensures ParseInt("-" + body) == Some(-(v as int))
    ensures ParseInt("+" + body) == Some(v)
  {
    var minus, plus := "-" + body, "+" + body;
    assert minus[1..] == body;
    assert plus[1..] == body;
  }

  /** The digits of `${m}` are read back as `m`. */
  lemma DecimalRead(m: nat)
    ensures LeadingDigits(Decimal(m)) == Some(m)
  {
    DecimalRoundTrip(m);
    AllDigitsRead(Decimal(m));
  }

  /** The leading digits of a string of digits are all of it. */
  lemma AllDigitsRead(body: string)
    requires |body| >= 1 && forall i :: 0 <= i < |body| ==> '0' <= body[i] <= '9'
    ensures LeadingDigits(body) == Some(DigitsValue(body))
  {
    DigitsPrefixAll(body);
    assert body[..|body|] == body;
  }

  /** The id `put` targets: `parseInt(endpoint.split('/').pop() || '0')`. */
  function PutTarget(endpoint: string): (r: Option<int>)
    ensures LastSegment(endpoint) == "" ==> r == Some(0)
  {
    var segment := LastSegment(endpoint);
    SingleDigitRead("0", 0);
    ParseInt(if segment == "" then "0" else segment)
  }

  const ProductsEndpoint := "/products"

  /** The remote product document, and the operations of the `api` object. */
  class ProductStore {
    var bin: seq<Product>

    constructor (initial: seq<Product>)
      ensures bin == initial
    {
      bin := initial;
    }

    /** `api.get(endpoint)`: only `/products` is served. */
    method Get(endpoint: string) returns (r: Result<seq<Product>>)
      ensures endpoint == ProductsEndpoint ==> r == Ok(bin)
      ensures endpoint != ProductsEndpoint ==> r == Err("Endpoint no encontrado: " + endpoint)
    {
      if endpoint == ProductsEndpoint {
        return Ok(bin);
      }
      return Err("Endpoint no encontrado: " + endpoint);
    }

    /** `api.getById(id)`: the first product with that id; a missing id is an error. */
    method GetById(id: int) returns (r: Result<Product>)
      ensures r.Ok? <==> HasId(bin, id)
      ensures r.Ok? ==> Some(r.value) == FindById(bin, id)
      ensures r.Err? ==> r.message == "Error al obtener el producto"
    {
      var product := FindById(bin, id);
      if product.Some? {
        return Ok(product.value);
      }
      return Err("Error al obtener el producto");
    }

    /** `api.delete(id)`: write back the list without the products carrying that id. */
    method Delete(productId: int) returns (success: bool)
      modifies this
      ensures success && bin == WithoutId(old(bin), productId)
    {
      var current := Get(ProductsEndpoint);
      var products := current.value;
      bin := WithoutId(products, productId);
      success := true;
    }

    /** `api.post(endpoint, data)`: append the data under a fresh id. */
    method Post(endpoint: string, data: ProductData) returns (r: Result<Product>)
      modifies this
      ensures endpoint != ProductsEndpoint ==> r == Err("Endpoint no encontrado: " + endpoint) && bin == old(bin)
      ensures endpoint == ProductsEndpoint ==>
        && r == Ok(WithId(data, NewId(old(bin))))
        && bin == old(bin) + [r.value]
    {
      if endpoint == ProductsEndpoint {
        var current := Get(ProductsEndpoint);
        var products := current.value;
        var newId := NewId(products);
        var newProduct := WithId(data, newId);
        bin := products + [newProduct];
        return Ok(newProduct);
      }
      return Err("Endpoint no encontrado: " + endpoint);
    }

    /** `api.put(endpoint, data)`: merge the data into every product with the targeted id,
        write the list back and answer the first product with that id afterwards (`None`
        stands for `undefined`). */
    method Put(endpoint: string, data: ProductPatch) returns (r: Result<Option<Product>>)
      modifies this
      ensures !StartsWith(endpoint, "/products/") ==> r == Err("Endpoint no encontrado: " + endpoint) && bin == old(bin)
      ensures StartsWith(endpoint, "/products/") && PutTarget(endpoint).None? ==> bin == old(bin) && r == Ok(None)
      ensures StartsWith(endpoint, "/products/") && PutTarget(endpoint).Some? ==>
        var id := PutTarget(endpoint).value;
        && bin == MergeMatching(old(bin), id, data)
        && r == Ok(FindById(bin, id))
    {
      if StartsWith(endpoint, "/products/") {
        var productId := PutTarget(endpoint);
        var current := Get(ProductsEndpoint);
        var products := current.value;
        if productId.None? {
          // NaN equals no id: nothing is merged and `find` answers undefined.
          bin := products;
          return Ok(None);
        }
        var updated := MergeMatching(products, productId.value, data);
        bin := updated;
        return Ok(FindById(updated, productId.value));
      }
      return Err("Endpoint no encontrado: " + endpoint);
    }
  }

  /** `delete` removes exactly the products with that id and keeps the others in order;
      an absent id writes back the same list. */
  lemma WithoutIdSpec(ps: seq<Product>, id: int)
    ensures !HasId(WithoutId(ps, id), id)
    ensures IsSubsequence(WithoutId(ps, id), ps)
    ensures forall p :: multiset(WithoutId(ps, id))[p] == if p.id == id then 0 else multiset(ps)[p]
    ensures !HasId(ps, id) ==> WithoutId(ps, id) == ps
  {
    var keep := (p: Product) => p.id != id;
    FilterKeepsOnlyMatches(ps, keep);
    FilterIsSubsequence(ps, keep);
    FilterCounts(ps, keep);
    if !HasId(ps, id) {
      FilterAllTrue(ps, keep);
    }
    var r := WithoutId(ps, id);
    forall i | 0 <= i < |r| ensures r[i].id != id {
      assert r[i] in r;
    }
  }

  /** When the data keeps the id (or does not carry one), `put` answers the merge of
      the first stored product with that id, and `undefined` when there is none. */
  lemma {:induction false} PutAnswersMerged(ps: seq<Product>, id: int, d: ProductPatch)
    requires d.id.None? || d.id == Some(id)
    ensures FindById(MergeMatching(ps, id, d), id) ==
      if HasId(ps, id) then Some(Merge(FindById(ps, id).value, d)) else None
  {
    if ps != [] {
      var r := MergeMatching(ps, id, d);
      if ps[0].id == id {
        assert r[0] == Merge(ps[0], d) && r[0].id == id;
      } else {
        assert r[0] == ps[0] && r[1..] == MergeMatching(ps[1..], id, d);
        PutAnswersMerged(ps[1..], id, d);
      }
    }
  }

  /** A prefix does not move where the last segment of a text holding a `/` begins. */
  lemma {:induction false} SegmentStartAfterPrefix(p: string, s: string)
    requires '/' in s
    ensures SegmentStart(p + s) == |p| + SegmentStart(s)
    decreases |s|
  {
    var t := p + s;
    if s[|s| - 1] != '/' {
      var shorter := s[..|s| - 1];
      assert '/' in shorter by {
        var i :| 0 <= i < |s| && s[i] == '/';
        assert shorter[i] == '/';
      }
      assert t[..|t| - 1] == p + shorter;
      SegmentStartAfterPrefix(p, shorter);
    }
  }

  /** The endpoint the product form uses for an edit, `/products/<route id>`, targets the
      id `put` reads from the route id's own last segment: the route id itself when it holds
      no `/`, and the text after its last `/` otherwise. */
  lemma EditEndpointTargetsRouteId(routeId: string)
    requires routeId != ""
    ensures StartsWith("/products/" + routeId, "/products/")
    ensures PutTarget("/products/" + routeId) == PutTarget(routeId)
    ensures '/' !in routeId ==> PutTarget("/products/" + routeId) == ParseInt(routeId)
  {
    var endpoint := "/products/" + routeId;
    assert endpoint[..10] == "/products/";
    if '/' in routeId {
      SegmentStartAfterPrefix("/products/", routeId);
      var k := SegmentStart(routeId);
      assert endpoint[10 + k..] == routeId[k..];
    } else {
      LastSegmentAfterSlash("/products/", routeId);
    }
  }

  /** The route id `3/4` puts to `/products/3/4`, which targets product 4, while
      `parseInt` reads 3 from the same text. */
  lemma SlashedRouteIdTargets()
    ensures PutTarget("/products/" + "3/4") == Some(4)
    ensures ParseInt("3/4") == Some(3)
  {
    EditEndpointTargetsRouteId("3/4");
    LastOfThreeFour();
    SingleDigitRead("4", 4);
    assert PutTarget("3/4") == ParseInt("4");
    FirstOfThreeFour();
  }

  lemma LastOfThreeFour()
    ensures LastSegment("3/4") == "4"
  {
    var s := "3/4";
    assert s[..2] == "3/" && s[2] == '4';
    assert SegmentStart("3/") == 2;
    assert s[2..] == "4";
  }

  lemma SingleDigitRead(s: string, v: nat)
    requires |s| == 1 && '0' <= s[0] <= '9' && v == s[0] as int - '0' as int
    ensures ParseInt(s) == Some(v)
  {
    AllDigitsRead(s);
    assert s[..0] == [];
    assert DigitsValue(s) == v;
    ParseSigned(s, v);
  }

  lemma FirstOfThreeFour()
    ensures ParseInt("3/4") == Some(3)
  {
    var s := "3/4";
    assert DecimalDigitsPrefix(s[1..]) == 0;
    assert DecimalDigitsPrefix(s) == 1;
    assert s[..1] == "3";
    SingleDigitRead("3", 3);
    assert LeadingDigits(s) == Some(3);
  }
}
