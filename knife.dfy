/** The knife configuration of `src/pages/CustomKnife.tsx`: the configuration
    record, its price, the one-field update rule, the summary text, the
    engraving placement table and the cart line a finished knife becomes. */
module Knife {
  import opened Wrappers
  import opened Lists
  import Cart
  import Products

  datatype Blade = Blade(material: string, length: string, finish: string)
  datatype Handle = Handle(material: string, color: string, grip: string)
  datatype Engraving = Engraving(text: string, position: string, font: string, color: string)
  datatype Accessories = Accessories(sheath: bool, box: bool, certificate: bool)

  datatype KnifeConfig = KnifeConfig(
    knifeType: string, blade: Blade, handle: Handle,
    engraving: Engraving, accessories: Accessories)

  /** The configuration the page starts from. */
  const DefaultConfig := KnifeConfig(
    "chef",
    Blade("steel", "20cm", "satin"),
    Handle("wood", "walnut", "traditional"),
    Engraving("", "blade", "script", "#000000"),
    Accessories(false, false, true))

  /** The `totalPrice` state before the price effect first runs. */
  const InitialPrice := 450

  /** The six knife types the first wizard step offers. */
  const KnifeTypes := ["chef", "santoku", "paring", "butcher", "bread", "fillet"]

  /** `basePrices[type] || 450`. */
  function BasePrice(knifeType: string): (r: int)
    ensures 320 <= r <= 550
    ensures knifeType !in KnifeTypes ==> r == 450
  {
    match knifeType
    case "chef" => 450
    case "santoku" => 480
    case "paring" => 320
    case "butcher" => 550
    case "bread" => 380
    case "fillet" => 420
    case _ => 450
  }

  function BladeSurcharge(material: string): int
  {
    if material == "damascus" then 200 else if material == "carbon" then 100 else 0
  }

  function HandleSurcharge(material: string): int
  {
    if material == "carbon" then 150 else if material == "bone" then 100 else 0
  }

  /** The price: the base of the type plus one surcharge per priced option. */
  function Price(c: KnifeConfig): (r: int)
    ensures BasePrice(c.knifeType) <= r <= BasePrice(c.knifeType) + 625
    ensures 320 <= r <= 1175
  {
    BasePrice(c.knifeType)
    + BladeSurcharge(c.blade.material)
    + HandleSurcharge(c.handle.material)
    + (if c.engraving.text != "" then 75 else 0)
    + (if c.accessories.sheath then 120 else 0)
    + (if c.accessories.box then 80 else 0)
  }

  /** The price effect: start from the base price and add each extra in turn. */
  method ComputePrice(c: KnifeConfig) returns (price: int)
    ensures price == Price(c)
  {
    price := BasePrice(c.knifeType);
    if c.blade.material == "damascus" { price := price + 200; }
    if c.blade.material == "carbon" { price := price + 100; }
    if c.handle.material == "carbon" { price := price + 150; }
    if c.handle.material == "bone" { price := price + 100; }
    if c.engraving.text != "" { price := price + 75; }
    if c.accessories.sheath { price := price + 120; }
    if c.accessories.box { price := price + 80; }
  }

  /** The default configuration costs exactly the initial price shown. */
  lemma DefaultPriceIsInitial()
    ensures Price(DefaultConfig) == InitialPrice
  {
  }

  /** Example: a butcher knife, damascus blade, bone handle, engraving "X", sheath and certificate. */
  lemma ButcherExample(c: KnifeConfig)
    requires c.knifeType == "butcher" && c.blade.material == "damascus" && c.handle.material == "bone"
    requires c.engraving.text == "X" && c.accessories == Accessories(true, false, true)
    ensures Price(c) == 1045
  {
  }

  /** The options that never change the price: certificate, blade length and finish,
      handle colour and grip, engraving position, font and colour. */
  lemma UnpricedOptions(c: KnifeConfig, certificate: bool, length: string, finish: string,
                        color: string, grip: string, position: string, font: string, inkColor: string)
    ensures Price(c.(accessories := c.accessories.(certificate := certificate))) == Price(c)
    ensures Price(c.(blade := c.blade.(length := length, finish := finish))) == Price(c)
    ensures Price(c.(handle := c.handle.(color := color, grip := grip))) == Price(c)
    ensures Price(c.(engraving := c.engraving.(position := position, font := font, color := inkColor))) == Price(c)
  {
  }

  /** The handle picker's displayed surcharges (steel shows 50). */
  function HandlePickerPrice(material: string): int
  {
    match material
    case "wood" => 0
    case "carbon" => 150
    case "bone" => 100
    case "steel" => 50
    case _ => 0
  }

  /** A steel handle costs the same as a wood one, although the picker displays a surcharge of 50. */
  lemma SteelHandleIsFree(c: KnifeConfig)
    ensures Price(c.(handle := c.handle.(material := "steel"))) == Price(c.(handle := c.handle.(material := "wood")))
    ensures HandlePickerPrice("steel") == 50
  {
  }

  /** The displayed surcharges agree with the price for every other handle material. */
  lemma HandlePickerAgrees(c: KnifeConfig, material: string)
    requires material in ["wood", "carbon", "bone"]
    ensures Price(c.(handle := c.handle.(material := material))) == Price(c.(handle := c.handle.(material := "wood"))) + HandlePickerPrice(material)
  {
  }

  // ---------------------------------------------------------------------------
  // updateConfig

  /** The nested sections of the configuration; `Top` is the empty section name. */
  datatype Section = Top | BladeSection | HandleSection | EngravingSection | AccessoriesSection

  /** Every field of the configuration; the call sites of `updateConfig` pass a subset. */
  datatype Field =
    | KnifeType
    | BladeMaterial | BladeLength | BladeFinish
    | HandleMaterial | HandleColor | HandleGrip
    | EngravingText | EngravingPosition | EngravingFont | EngravingColor
    | Sheath | Box | Certificate

  datatype Value = Text(s: string) | Flag(b: bool)

  function SectionOf(f: Field): Section
  {
    match f
    case KnifeType => Top
    case BladeMaterial | BladeLength | BladeFinish => BladeSection
    case HandleMaterial | HandleColor | HandleGrip => HandleSection
    case EngravingText | EngravingPosition | EngravingFont | EngravingColor => EngravingSection
    case Sheath | Box | Certificate => AccessoriesSection
  }

  /** Accessories take the checkbox's boolean, every other field a string. */
  predicate Fits(f: Field, v: Value)
  {
    if SectionOf(f) == AccessoriesSection then v.Flag? else v.Text?
  }

  /** Reads one leaf of the configuration. */
  function Get(c: KnifeConfig, f: Field): Value
  {
    match f
    case KnifeType => Text(c.knifeType)
    case BladeMaterial => Text(c.blade.material)
    case BladeLength => Text(c.blade.length)
    case BladeFinish => Text(c.blade.finish)
    case HandleMaterial => Text(c.handle.material)
    case HandleColor => Text(c.handle.color)
    case HandleGrip => Text(c.handle.grip)
    case EngravingText => Text(c.engraving.text)
    case EngravingPosition => Text(c.engraving.position)
    case EngravingFont => Text(c.engraving.font)
    case EngravingColor => Text(c.engraving.color)
    case Sheath => Flag(c.accessories.sheath)
    case Box => Flag(c.accessories.box)
    case Certificate => Flag(c.accessories.certificate)
  }

  /** `updateConfig(section, key, value)`: spread the section and override one key. */
  function UpdateConfig(c: KnifeConfig, f: Field, v: Value): (r: KnifeConfig)
    requires Fits(f, v)
    ensures Get(r, f) == v
    ensures forall g :: g != f ==> Get(r, g) == Get(c, g)
    ensures SectionOf(f) != Top ==> r.knifeType == c.knifeType
    ensures SectionOf(f) != BladeSection ==> r.blade == c.blade
    ensures SectionOf(f) != HandleSection ==> r.handle == c.handle
    ensures SectionOf(f) != EngravingSection ==> r.engraving == c.engraving
    ensures SectionOf(f) != AccessoriesSection ==> r.accessories == c.accessories
  {
    match f
    case KnifeType => c.(knifeType := v.s)
    case BladeMaterial => c.(blade := c.blade.(material := v.s))
    case BladeLength => c.(blade := c.blade.(length := v.s))
    case BladeFinish => c.(blade := c.blade.(finish := v.s))
    case HandleMaterial => c.(handle := c.handle.(material := v.s))
    case HandleColor => c.(handle := c.handle.(color := v.s))
    case HandleGrip => c.(handle := c.handle.(grip := v.s))
    case EngravingText => c.(engraving := c.engraving.(text := v.s))
    case EngravingPosition => c.(engraving := c.engraving.(position := v.s))
    case EngravingFont => c.(engraving := c.engraving.(font := v.s))
    case EngravingColor => c.(engraving := c.engraving.(color := v.s))
    case Sheath => c.(accessories := c.accessories.(sheath := v.b))
    case Box => c.(accessories := c.accessories.(box := v.b))
    case Certificate => c.(accessories := c.accessories.(certificate := v.b))
  }

  /** The configuration is determined by its leaves. */
  lemma ConfigExtensional(c: KnifeConfig, d: KnifeConfig)
    requires forall f :: Get(c, f) == Get(d, f)
    ensures c == d
  {
    assert Get(c, KnifeType) == Get(d, KnifeType);
    SameBlade(c, d);
    SameHandle(c, d);
    SameEngraving(c, d);
    SameAccessories(c, d);
  }

  /** A section is determined by its own leaves. */
  lemma SameBlade(c: KnifeConfig, d: KnifeConfig)
    requires Get(c, BladeMaterial) == Get(d, BladeMaterial) && Get(c, BladeLength) == Get(d, BladeLength)
    requires Get(c, BladeFinish) == Get(d, BladeFinish)
    ensures c.blade == d.blade
  {
  }

  lemma SameHandle(c: KnifeConfig, d: KnifeConfig)
    requires Get(c, HandleMaterial) == Get(d, HandleMaterial) && Get(c, HandleColor) == Get(d, HandleColor)
    requires Get(c, HandleGrip) == Get(d, HandleGrip)
    ensures c.handle == d.handle
  {
  }

  lemma SameEngraving(c: KnifeConfig, d: KnifeConfig)
    requires Get(c, EngravingText) == Get(d, EngravingText) && Get(c, EngravingPosition) == Get(d, EngravingPosition)
    requires Get(c, EngravingFont) == Get(d, EngravingFont) && Get(c, EngravingColor) == Get(d, EngravingColor)
    ensures c.engraving == d.engraving
  {
  }

  lemma SameAccessories(c: KnifeConfig, d: KnifeConfig)
    requires Get(c, Sheath) == Get(d, Sheath) && Get(c, Box) == Get(d, Box)
    requires Get(c, Certificate) == Get(d, Certificate)
    ensures c.accessories == d.accessories
  {
  }

  /** Writing back the value a field already holds changes nothing, and a second write
      to the same field overrides the first. */
  lemma UpdateLaws(c: KnifeConfig, f: Field, v: Value, w: Value)
    requires Fits(f, v) && Fits(f, w)
    ensures Fits(f, Get(c, f)) && UpdateConfig(c, f, Get(c, f)) == c
    ensures UpdateConfig(UpdateConfig(c, f, v), f, w) == UpdateConfig(c, f, w)
  {
    assert Fits(f, Get(c, f)) by {
      match f
      case _ =>
    }
    var same := UpdateConfig(c, f, Get(c, f));
    forall g ensures Get(same, g) == Get(c, g) {
    }
    ConfigExtensional(same, c);
    OverrideLaw(c, f, v, w);
  }

  /** A second write to a field overrides the first. */
  lemma OverrideLaw(c: KnifeConfig, f: Field, v: Value, w: Value)
    requires Fits(f, v) && Fits(f, w)
    ensures UpdateConfig(UpdateConfig(c, f, v), f, w) == UpdateConfig(c, f, w)
  {
    var twice, once := UpdateConfig(UpdateConfig(c, f, v), f, w), UpdateConfig(c, f, w);
    forall g ensures Get(twice, g) == Get(once, g) {
    }
    ConfigExtensional(twice, once);
  }

  // ---------------------------------------------------------------------------
  // createCustomSummary

  /** Display names of the chosen accessories, in the order sheath, box, certificate. */
  function AccessoryNames(a: Accessories): (r: seq<string>)
    ensures |r| == 0 <==> !a.sheath && !a.box && !a.certificate
    ensures |r| <= 3
  {
    (if a.sheath then ["Funda de cuero"] else [])
    + (if a.box then ["Caja de presentación"] else [])
    + (if a.certificate then ["Certificado"] else [])
  }

  /** The three leading parts every summary has. */
  function LeadingParts(c: KnifeConfig): seq<string>
  {
    [ "Cuchillo " + c.knifeType,
      "Hoja: " + c.blade.material + " " + c.blade.length,
      "Mango: " + c.handle.material ]
  }

  /** All parts of the summary, before joining. */
  function SummaryParts(c: KnifeConfig): (r: seq<string>)
    ensures 3 <= |r| <= 5 && r[..3] == LeadingParts(c)
  {
    LeadingParts(c)
    + (if c.engraving.text != "" then ["Grabado: \"" + c.engraving.text + "\""] else [])
    + (var names := AccessoryNames(c.accessories);
       if |names| > 0 then ["Incluye: " + Join(names, ", ")] else [])
  }

  /** The summary string of a configuration. */
  function Summary(c: KnifeConfig): (r: string)
    ensures "Cuchillo " + c.knifeType <= r
  {
    Join(SummaryParts(c), " | ")
  }

  /** `createCustomSummary`: push the optional parts onto the leading three, then join. */
  method CreateCustomSummary(c: KnifeConfig) returns (summary: string)
    ensures summary == Summary(c)
  {
    var parts := LeadingParts(c);
    if c.engraving.text != "" {
      parts := parts + ["Grabado: \"" + c.engraving.text + "\""];
    }
    var accessories := AccessoryNames(c.accessories);
    if |accessories| > 0 {
      parts := parts + ["Incluye: " + Join(accessories, ", ")];
    }
    assert parts == SummaryParts(c);
    summary := Join(parts, " | ");
  }

  /** What the summary is made of: the fixed opening, an engraving part exactly when
      there is engraving text, and an accessories part exactly when one is chosen, last. */
  lemma SummaryShape(c: KnifeConfig)
    ensures "Cuchillo " + c.knifeType + " | Hoja: " + c.blade.material + " " + c.blade.length
            + " | Mango: " + c.handle.material <= Summary(c)
    ensures |SummaryParts(c)| == 3 + (if c.engraving.text != "" then 1 else 0)
                                   + (if |AccessoryNames(c.accessories)| > 0 then 1 else 0)
    ensures (|SummaryParts(c)| > 3 && SummaryParts(c)[3] == "Grabado: \"" + c.engraving.text + "\"")
            <==> c.engraving.text != ""
    ensures SummaryParts(c)[|SummaryParts(c)| - 1] == "Incluye: " + Join(AccessoryNames(c.accessories), ", ")
            <==> (c.accessories.sheath || c.accessories.box || c.accessories.certificate)
  {
    SummaryOpening(c);
    var parts := SummaryParts(c);
    var names := AccessoryNames(c.accessories);
    if |names| == 0 {
      var last := parts[|parts| - 1];
      assert last in LeadingParts(c) || last == "Grabado: \"" + c.engraving.text + "\"";
      InclusionPrefixDiffers(c, names, last);
    }
  }

  /** The summary starts with the three leading parts joined. */
  lemma SummaryOpening(c: KnifeConfig)
    ensures "Cuchillo " + c.knifeType + " | Hoja: " + c.blade.material + " " + c.blade.length
            + " | Mango: " + c.handle.material <= Summary(c)
  {
    JoinPrefix(SummaryParts(c), 3, " | ");
    LeadingJoined(c);
  }

  /** The three leading parts joined with ` | `. */
  lemma LeadingJoined(c: KnifeConfig)
    ensures Join(LeadingParts(c), " | ") == "Cuchillo " + c.knifeType + " | Hoja: " + c.blade.material
            + " " + c.blade.length + " | Mango: " + c.handle.material
  {
    var lead := LeadingParts(c);
    JoinThree(lead, " | ");
    var a := "Cuchillo " + c.knifeType + " | Hoja: " + c.blade.material + " " + c.blade.length;
    assert a == lead[0] + " | " + lead[1];
  }

  /** No leading or engraving part starts the way an accessories part does. */
  lemma InclusionPrefixDiffers(c: KnifeConfig, names: seq<string>, part: string)
    requires part in LeadingParts(c) || part == "Grabado: \"" + c.engraving.text + "\""
    ensures part != "Incluye: " + Join(names, ", ")
  {
    var inc := "Incluye: " + Join(names, ", ");
    assert inc[0] == 'I';
    assert |part| > 0 && part[0] != 'I';
  }

  // ---------------------------------------------------------------------------
  // The engraving placement table

  /** Local offset of engraving text placed on the blade, per knife type. */
  function BladeTextAnchor(knifeType: string): (r: (int, int))
    ensures -100 <= r.0 <= -65 && -8 <= r.1 <= 0
    ensures knifeType !in KnifeTypes ==> r == (-90, 0)
  {
    match knifeType
    case "bread" => (-100, -6)
    case "chef" => (-85, -8)
    case "paring" => (-65, 0)
    case "butcher" => (-90, -2)
    case "fillet" => (-100, -3)
    case "santoku" => (-85, -6)
    case _ => (-90, 0)
  }

  /** Where engraving text is drawn: nowhere without text; otherwise on the blade at the
      type's anchor, on the handle at (20, 5), and nowhere for any other position. */
  function EngravingAnchor(c: KnifeConfig): (r: Option<(int, int)>)
    ensures r.Some? <==> c.engraving.text != "" && c.engraving.position in ["blade", "handle"]
    ensures c.engraving.text != "" && c.engraving.position == "handle" ==> r == Some((20, 5))
    ensures c.engraving.text != "" && c.engraving.position == "blade" ==>
      r == Some(BladeTextAnchor(c.knifeType))
  {
    if c.engraving.text == "" then None
    else if c.engraving.position == "blade" then Some(BladeTextAnchor(c.knifeType))
    else if c.engraving.position == "handle" then Some((20, 5))
    else None
  }

  // ---------------------------------------------------------------------------
  // The cart line a finished configuration becomes

  /** `charAt(0).toUpperCase() + slice(1)`, upper-casing only the ASCII letters a–z: any other
      first character (an accented letter such as 'é' included) is kept as it is. The knife
      types it receives are the fixed lower-case ASCII names of the type picker. */
  function Capitalize(s: string): (r: string)
    ensures |r| == |s| && (|s| > 0 ==> r[1..] == s[1..])
    ensures |s| > 0 && 'a' <= s[0] <= 'z' ==> 'A' <= r[0] <= 'Z' && r[0] as int == s[0] as int - 32
  {
    if s == [] then ""
    else if 'a' <= s[0] <= 'z' then [(s[0] as int - 32) as char] + s[1..]
    else s
  }

  const CustomKnifeImage := "https://img.freepik.com/vector-gratis/ilustracion-icono-vector-dibujos-animados-cuchillo-flotante-concepto-icono-objeto-comida-aislado-vector-premium_138676-5784.jpg?semt=ais_hybrid&w=740"

  /** The cart line a configuration becomes, given the price shown and the clock reading. */
  function CustomItem(c: KnifeConfig, price: int, now: nat): (r: Cart.NewItem)
    ensures r.id.Str? && "custom-knife-" <= r.id.s
    ensures r.price == price as real
    ensures r.isCustom == Some(true) && r.customSummary == Some(Summary(c))
    ensures r.title == "Cuchillo " + Capitalize(c.knifeType) + " Personalizado"
  {
    Cart.NewItem(
      Cart.Str("custom-knife-" + Products.Decimal(now)),
      "Cuchillo " + Capitalize(c.knifeType) + " Personalizado",
      price as real, CustomKnifeImage, Some(true), Some(Summary(c)))
  }

  /** Items committed at different instants carry different ids. */
  lemma CustomIdsDistinct(c: KnifeConfig, d: KnifeConfig, p: int, q: int, t1: nat, t2: nat)
    requires t1 != t2
    ensures CustomItem(c, p, t1).id != CustomItem(d, q, t2).id
  {
    var pre := "custom-knife-";
    if CustomItem(c, p, t1).id == CustomItem(d, q, t2).id {
      assert (pre + Products.Decimal(t1))[|pre|..] == Products.Decimal(t1);
      assert (pre + Products.Decimal(t2))[|pre|..] == Products.Decimal(t2);
      Products.DecimalRoundTrip(t1);
      Products.DecimalRoundTrip(t2);
    }
  }
}
