/**
 * The material lists of a business type, read from a configuration table, and the
 * Chinese labels of the material type codes.
 */
module MaterialConfig {
  import opened Wrappers

  /** One listed material: its type code, display name and, for required ones, how many copies are needed. */
  datatype MaterialRequirement = MaterialRequirement(kind: string, name: string, minCount: Option<nat>)

  datatype BusinessTypeMaterials = BusinessTypeMaterials(required: seq<MaterialRequirement>, optional: seq<MaterialRequirement>)

  const NoMaterials := BusinessTypeMaterials([], [])

  /** `getRequiredMaterials`, with the configuration's business-type table passed in. */
  function RequiredMaterials(config: map<string, BusinessTypeMaterials>, businessType: string): (r: BusinessTypeMaterials)
    ensures businessType == "" ==> r == NoMaterials
    ensures businessType !in config ==> r == NoMaterials
    ensures businessType != "" && businessType in config ==> r == config[businessType]
  {
    if businessType == "" then NoMaterials
    else if businessType in config then config[businessType]
    else NoMaterials
  }

  const MaterialTypeLabels: map<string, string> := map[
    "BILL_OF_LADING" := "提单",
    "COMMERCIAL_INVOICE" := "商业发票",
    "PACKING_LIST" := "装箱单",
    "CONTRACT" := "合同",
    "CUSTOMS_DECLARATION" := "报关单",
    "BONDED_NOTE" := "核注清单",
    "CERTIFICATE" := "原产地证",
    "OTHER" := "其他"
  ]

  /** `getMaterialTypeLabel`: the label of a known code, the code itself otherwise. */
  function MaterialTypeLabel(code: string): (text: string)
    ensures code in MaterialTypeLabels ==> text == MaterialTypeLabels[code] && text != code
    ensures code !in MaterialTypeLabels ==> text == code
  {
    if code in MaterialTypeLabels && MaterialTypeLabels[code] != "" then MaterialTypeLabels[code] else code
  }

  /** The eight known codes have eight different labels. */
  lemma MaterialTypeLabelsDistinct(a: string, b: string)
    requires a in MaterialTypeLabels && b in MaterialTypeLabels && a != b
    ensures MaterialTypeLabel(a) != MaterialTypeLabel(b)
  {
  }
}
