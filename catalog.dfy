/** The configuration record, the appendix kinds and the static
    integration-topic catalog the form is built from. */
module Catalog {
  import opened Strings

  /** The two administrative appendix forms; `Name` is the enum's string value. */
  datatype AppendixType = PhuLucI | PhuLucIII {
    function Name(): (r: string)
      ensures NoWhitespace(r) && r != ""
    {
      match this
      case PhuLucI => "PHU_LUC_I"
      case PhuLucIII => "PHU_LUC_III"
    }
  }

  /** Everything the user chooses on the form. `selectedIntegrations` is kept in
      the order the topics were ticked. */
  datatype GenerationConfig = GenerationConfig(
    appendixType: AppendixType,
    inputData: string,
    gradeLevel: string,
    schoolName: string,
    departmentName: string,
    teacherName: string,
    subjectName: string,
    academicYear: string,
    selectedIntegrations: seq<string>,
    textbookSeries: string)

  /** A catalog entry, reduced to the label the form and the service show. */
  datatype Topic = Topic(labelText: string)

  /** The integration topics offered as checkboxes, by key. */
  const IntegrationTopics: map<string, Topic> := map[
    "NLS" := Topic("Năng lực số"),
    "AI" := Topic("Trí tuệ nhân tạo (AI)"),
    "THUOC_LA" := Topic("Phòng chống thuốc lá"),
    "TT_HCM" := Topic("Tư tưởng Hồ Chí Minh"),
    "QUYEN_CN" := Topic("Quyền con người"),
    "BDKH" := Topic("Biến đổi khí hậu"),
    "QPAN" := Topic("Quốc phòng – An ninh"),
    "KNS" := Topic("Kỹ năng sống")
  ]

  /** The catalog's keys in the order its entries are listed. */
  const IntegrationKeys: seq<string> := ["NLS", "AI", "THUOC_LA", "TT_HCM", "QUYEN_CN", "BDKH", "QPAN", "KNS"]

  /** The key list names every catalog entry, and nothing else, once. */
  lemma IntegrationKeysListCatalog()
    ensures forall k :: k in IntegrationTopics <==> k in IntegrationKeys
    ensures forall i, j :: 0 <= i < j < |IntegrationKeys| ==> IntegrationKeys[i] != IntegrationKeys[j]
  {
  }

  const TextbookSeries: seq<string> := ["Cánh Diều", "Kết nối tri thức với cuộc sống", "Chân trời sáng tạo", "Khác"]

  const Departments: seq<string> := [
    "Khoa học tự nhiên (KHTN)", "Khoa học xã hội (KHXH)", "Hoạt động giáo dục (HĐGD)",
    "Toán - Lý - Hóa - Sinh", "Văn - Sử - Địa"]

  const AcademicYears: seq<string> := ["2024 - 2025", "2025 - 2026", "2026 - 2027"]

  /** The four grade labels the grade selector offers. */
  const GradeOptions: seq<string> := ["Khối 6 (Mức TC1)", "Khối 7 (Mức TC1)", "Khối 8 (Mức TC2)", "Khối 9 (Mức TC2)"]

  /** The configuration the application starts with. */
  const DefaultConfig: GenerationConfig := GenerationConfig(
    PhuLucIII, "", GradeOptions[0], "", Departments[0], "", "Tin học",
    AcademicYears[0], ["NLS"], TextbookSeries[0])

  /** No key occurs twice. */
  ghost predicate NoDuplicates(s: seq<string>) {
    forall x :: multiset(s)[x] <= 1
  }

  /** Every key names a catalog topic. */
  ghost predicate CatalogKeys(s: seq<string>) {
    forall x :: x in s ==> x in IntegrationKeys
  }

  /** Every selected key names a catalog topic, and none is selected twice. */
  ghost predicate WellFormedSelection(s: seq<string>) {
    NoDuplicates(s) && CatalogKeys(s)
  }
}
