/**
 * The epoxy flooring option catalog: the four materials, the finishes and
 * colours each one offers, and which colours are pre-mixed "base" colours that
 * carry no colour-mixing fee.
 */
module FloorMaterials {
  import opened Wrappers

  datatype MaterialId = TransparentEpoxy | SolidEpoxy | BeanGravel | UrethaneWaterproof

  datatype FinishId = Gloss | SemiGloss | Matte | Natural

  datatype ColorId = Clear | Gray | Green | Blue | Red | Yellow | Black | Beige | White | DarkPearl | Mix

  /**
   * A catalog entry. `baseColors` is absent for materials whose every colour
   * is priced alike; when present, the listed colours need no mixing.
   */
  datatype FloorMaterial = FloorMaterial(
    id: MaterialId,
    name: string,
    description: string,
    allowedFinishes: seq<FinishId>,
    allowedColors: seq<ColorId>,
    baseColors: Option<seq<ColorId>>
  )

  datatype Finish = Finish(name: string, description: string)

  datatype Color = Color(name: string, hex: string)

  /** A finish as offered for a material. */
  datatype FinishOption = FinishOption(id: FinishId, name: string, description: string)

  /** A colour as offered for a material, flagged when it is a base colour. */
  datatype ColorOption = ColorOption(id: ColorId, name: string, hex: string, isBaseColor: bool)

  /** `FLOOR_MATERIALS`, in catalog order. */
  const FloorMaterials: seq<FloorMaterial> := [
    FloorMaterial(TransparentEpoxy, "투명 에폭시 (빈티지)", "콘크리트 질감을 살리는 투명 코팅",
                  [Gloss, SemiGloss, Matte], [Clear], None),
    FloorMaterial(SolidEpoxy, "칼라 에폭시", "단색으로 깔끔하게 마감",
                  [Gloss, SemiGloss, Matte], [Gray, Green, Blue, Red, Yellow, Black], Some([Gray, Green])),
    FloorMaterial(BeanGravel, "콩자갈 바닥", "자연 자갈을 에폭시와 섞어 미장",
                  [Natural], [Beige, White, DarkPearl, Mix], None),
    FloorMaterial(UrethaneWaterproof, "우레탄 방수", "옥상/실외 주차장 방수",
                  [Gloss], [Green, Gray], None)
  ]

  /** `FINISHES`: every finish has an entry. */
  function FinishInfo(f: FinishId): Finish {
    match f
    case Gloss => Finish("유광", "반짝이는 광택")
    case SemiGloss => Finish("반광", "은은한 광택")
    case Matte => Finish("무광", "광택 없음")
    case Natural => Finish("자연 질감", "자갈 본연의 텍스처")
  }

  /** `COLORS`: every colour has an entry. */
  function ColorInfo(c: ColorId): Color {
    match c
    case Clear => Color("투명", "transparent")
    case Gray => Color("회색", "#6B7280")
    case Green => Color("녹색", "#22C55E")
    case White => Color("흰색", "#FFFFFF")
    case Blue => Color("파랑", "#3B82F6")
    case Red => Color("빨강", "#EF4444")
    case Yellow => Color("노랑", "#FACC15")
    case Black => Color("검정", "#1F2937")
    case Beige => Color("베이지", "#D4C4A8")
    case DarkPearl => Color("흑진주", "#2D3748")
    case Mix => Color("믹스", "linear-gradient(135deg, #D4C4A8 25%, #FFFFFF 50%, #2D3748 75%)")
  }

  /** The first entry of `catalog` with the given id. */
  function FindMaterial(catalog: seq<FloorMaterial>, id: MaterialId): (m: Option<FloorMaterial>)
    ensures m.Some? ==> m.value.id == id && m.value in catalog
    ensures m.None? <==> forall i :: 0 <= i < |catalog| ==> catalog[i].id != id
  {
    if |catalog| == 0 then None
    else if catalog[0].id == id then Some(catalog[0])
    else FindMaterial(catalog[1..], id)
  }

  /** `getMaterialById`: the catalog entry of a material; every material has one. */
  function GetMaterialById(id: MaterialId): (m: Option<FloorMaterial>)
    ensures m.Some? && m.value.id == id && m.value in FloorMaterials
  {
    assert FloorMaterials[0].id == TransparentEpoxy && FloorMaterials[1].id == SolidEpoxy;
    assert FloorMaterials[2].id == BeanGravel && FloorMaterials[3].id == UrethaneWaterproof;
    FindMaterial(FloorMaterials, id)
  }

  /** How many entries of `catalog` carry the id. */
  function CountEntries(catalog: seq<FloorMaterial>, id: MaterialId): nat {
    if |catalog| == 0 then 0
    else (if catalog[0].id == id then 1 else 0) + CountEntries(catalog[1..], id)
  }

  /** Each material appears in the catalog exactly once. */
  lemma CatalogEntryUnique(id: MaterialId)
    ensures CountEntries(FloorMaterials, id) == 1
  {
  }

  /** Every base colour of a material is one of its allowed colours. */
  lemma BaseColorsAreAllowed()
    ensures forall i, c ::
              (0 <= i < |FloorMaterials| && FloorMaterials[i].baseColors.Some?
               && c in FloorMaterials[i].baseColors.value)
              ==> c in FloorMaterials[i].allowedColors
  {
  }

  function FinishOptions(finishes: seq<FinishId>): (r: seq<FinishOption>)
    ensures |r| == |finishes|
    ensures forall i :: 0 <= i < |r| ==>
              r[i].id == finishes[i] && r[i].name == FinishInfo(finishes[i]).name
              && r[i].description == FinishInfo(finishes[i]).description
  {
    if |finishes| == 0 then []
    else
      var info := FinishInfo(finishes[0]);
      [FinishOption(finishes[0], info.name, info.description)] + FinishOptions(finishes[1..])
  }

  /** `getFinishesForMaterial`: the material's allowed finishes, in order, named from `FinishInfo`. */
  function GetFinishesForMaterial(id: MaterialId): (r: seq<FinishOption>)
    ensures var allowed := GetMaterialById(id).value.allowedFinishes;
            && |r| == |allowed|
            && forall i :: 0 <= i < |r| ==>
                 r[i].id == allowed[i] && r[i].name == FinishInfo(allowed[i]).name
                 && r[i].description == FinishInfo(allowed[i]).description
  {
    match GetMaterialById(id)
    case None => []
    case Some(m) => FinishOptions(m.allowedFinishes)
  }

  /** Whether `c` is mixed without a fee for a material with the given base list. */
  predicate IsBase(baseColors: Option<seq<ColorId>>, c: ColorId) {
    match baseColors
    case None => true
    case Some(bs) => c in bs
  }

  function ColorOptions(colors: seq<ColorId>, baseColors: Option<seq<ColorId>>): (r: seq<ColorOption>)
    ensures |r| == |colors|
    ensures forall i :: 0 <= i < |r| ==>
              r[i].id == colors[i] && r[i].name == ColorInfo(colors[i]).name
              && r[i].hex == ColorInfo(colors[i]).hex
              && (r[i].isBaseColor <==> baseColors.None? || colors[i] in baseColors.value)
  {
    if |colors| == 0 then []
    else
      var info := ColorInfo(colors[0]);
      [ColorOption(colors[0], info.name, info.hex, IsBase(baseColors, colors[0]))]
      + ColorOptions(colors[1..], baseColors)
  }

  /**
   * `getColorsForMaterial`: the material's allowed colours, in order; a colour
   * is a base colour when it is listed in `baseColors`, and every colour is one
   * when the material has no such list.
   */
  function GetColorsForMaterial(id: MaterialId): (r: seq<ColorOption>)
    ensures var m := GetMaterialById(id).value;
            && |r| == |m.allowedColors|
            && forall i :: 0 <= i < |r| ==>
                 r[i].id == m.allowedColors[i] && r[i].name == ColorInfo(r[i].id).name
                 && r[i].hex == ColorInfo(r[i].id).hex
                 && (m.baseColors.None? ==> r[i].isBaseColor)
                 && (m.baseColors.Some? ==> (r[i].isBaseColor <==> r[i].id in m.baseColors.value))
  {
    match GetMaterialById(id)
    case None => []
    case Some(m) => ColorOptions(m.allowedColors, m.baseColors)
  }

  /**
   * `requiresColorMixingFee`: never for a material without base colours;
   * otherwise exactly for the colours outside its base list.
   */
  function RequiresColorMixingFee(id: MaterialId, c: ColorId): (fee: bool)
    ensures GetMaterialById(id).value.baseColors.None? ==> !fee
    ensures GetMaterialById(id).value.baseColors.Some? ==>
              (fee <==> c !in GetMaterialById(id).value.baseColors.value)
  {
    match GetMaterialById(id)
    case None => false
    case Some(m) =>
      match m.baseColors
      case None => false
      case Some(bs) => c !in bs
  }

  /**
   * The base-colour flag and the mixing fee are complements for every colour
   * of a catalog material: `?? true` and the early `false` make a material
   * without a base list both all-base and fee-free.
   */
  lemma IsBaseIffNoFee(id: MaterialId, c: ColorId)
    requires GetMaterialById(id).Some?
    ensures IsBase(GetMaterialById(id).value.baseColors, c) <==> !RequiresColorMixingFee(id, c)
  {
  }

  /** For every colour a material offers, a fee is due exactly when it is not flagged as a base colour. */
  lemma FeeIffNotBaseColor(id: MaterialId)
    ensures forall o :: o in GetColorsForMaterial(id) ==>
              (RequiresColorMixingFee(id, o.id) <==> !o.isBaseColor)
  {
    var opts := GetColorsForMaterial(id);
    forall o | o in opts ensures RequiresColorMixingFee(id, o.id) <==> !o.isBaseColor {
      var i :| 0 <= i < |opts| && opts[i] == o;
    }
  }

  /** Only the solid (colour) epoxy ever charges for mixing: gray and green are free, the others are not. */
  lemma MixingFeeByMaterial()
    ensures !RequiresColorMixingFee(SolidEpoxy, Gray) && !RequiresColorMixingFee(SolidEpoxy, Green)
    ensures forall c :: c in [Blue, Red, Yellow, Black] ==> RequiresColorMixingFee(SolidEpoxy, c)
    ensures forall id, c :: id != SolidEpoxy ==> !RequiresColorMixingFee(id, c)
  {
  }
}
