/**
 * The constant tables the request handler reads (app.py, lines 41-132): the
 * option lists of the five dropdowns, in the order the dictionary declares
 * them, the benefit catalogue, and the two rename dictionaries that turn
 * display names into the model's column names.  None of them is ever changed.
 */
module Tables {
  import opened Frames

  /**
   * `dropdown_categories`: an ordered dictionary from category name to the
   * options its dropdown offers.  Labels are kept verbatim, trailing spaces
   * included.
   */
  const DropdownCategories: seq<(string, seq<string>)> := [
    ("Place of Work", [
      "West Vlaanderen",
      "Oost Vlaanderen",
      "Antwerpen",
      "Brussel",
      "Limburg"
    ]),
    ("Degree", [
      "Masters",
      "Lower than Masters",
      "Above Masters"
    ]),
    ("Experience Category", [
      "Entry-Level (0-5 yrs)",
      "Associate (6-10 yrs)",
      "Mid-Level(11-15 yrs)",
      "Senior (16-20 yrs)",
      "Lead (21-25 yrs)",
      "Principal (26-30 yrs)",
      "Director (31-35 yrs)",
      "Executive (36- 40 yrs)"
    ]),
    ("Education", [
      "Industrial engineering",
      "Mechanical engineering ",
      "Civil engineering ",
      "Electrical engineering",
      "Chemical engineering",
      "Bio engineering",
      "Environmental engineering",
      "Other"
    ]),
    ("NACE Category", [
      "Other",
      "C28 - Manufacture of machinery and equipment n.e.c.",
      "C25 - Manufacture of fabricated metal products, except machinery and equipment",
      "C10 - Manufacture of food products",
      "C26 - Manufacture of computer, electronic and optical products",
      "F41 - Construction of buildings",
      "F42 - Civil engineering",
      "C20 - Manufacture of chemicals and chemical products",
      "D35 - Electricity, gas, steam and air conditioning supply",
      "C27 - Manufacture of electrical equipment",
      "F43 - Specialised construction activities",
      "C24 - Manufacture of basic metals",
      "C13 - Manufacture of textiles",
      "C22 - Manufacture of rubber and plastic products",
      "C21 - Manufacture of basic pharmaceutical products and pharmaceutical preparations",
      "C32 - Other manufacturing",
      "C33 - Repair and installation of machinery and equipment",
      "C29 - Manufacture of motor vehicles, trailers and semi-trailers",
      "C19 - Manufacture of coke and refined petroleum products",
      "C16 - Manufacture of products of wood, wood and cork, straw, plaiting materials",
      "E37 - Sewerage",
      "C23 - Manufacture of other non-metallic mineral products",
      "C11 - Manufacture of beverages",
      "C30 - Manufacture of other transport equipment",
      "E38 - Waste collection, treatment and disposal activities; materials recovery",
      "E36 - Water collection, treatment and supply",
      "C31 - Manufacture of furniture",
      "C18 - Printing and reproduction of recorded media",
      "E39 - Remediation activities and other waste management services"
    ])
  ]

  /** `dropdown_categories.keys()`, in declaration order. */
  const CategoryKeys: seq<string> :=
    seq(|DropdownCategories|, i requires 0 <= i < |DropdownCategories| => DropdownCategories[i].0)

  /** `original_columns`: category name to model column name. */
  const OriginalColumns: map<string, string> := map[
    "Place of Work" := "zip_workplace1",
    "Degree" := "degree_category",
    "Experience Category" := "experience_category",
    "Education" := "education",
    "NACE Category" := "nace"
  ]

  /** `benefits`: the catalogue offered by the checklist, in display order. */
  const Benefits: seq<string> := [
    "Car",
    "Fuel Card",
    "Commuting Allowance",
    "Phone",
    "Phone Subscription",
    "Computer",
    "Meal Vouchers",
    "Ecocheques",
    "Hospitalisation Insurance",
    "Group Insurance",
    "13 month",
    "14 month",
    "15 month",
    "Bonus",
    "Commission",
    "Compensation",
    "Discount on Purchase",
    "Telework",
    "Internet",
    "Meals at Company Restaurant",
    "Reimbursement",
    "Gift Vouchers",
    "Stock",
    "Fitness",
    "Tablet",
    "Culture and Sports Vouchers",
    "Ironing"
  ]

  /** `original_benefits`: benefit name to model column name. */
  const OriginalBenefits: map<string, string> := map[
    "Car" := "Benefit_Car",
    "Fuel Card" := "Benefit_Fuel_Card",
    "Commuting Allowance" := "Benefit_Commuting_Allowance",
    "Phone" := "Benefit_Phone",
    "Phone Subscription" := "Benefit_Phone_Subscription",
    "Computer" := "Benefit_Computer",
    "Meal Vouchers" := "Benefit_Meal Vouchers",
    "Ecocheques" := "Benefit_Ecocheques",
    "Hospitalisation Insurance" := "Benefit_Hospitalisation Insurance",
    "Group Insurance" := "Benefit_Group Insurance",
    "13 month" := "Benefit_13 month",
    "14 month" := "Benefit_14 month",
    "15 month" := "Benefit_15 month",
    "Bonus" := "Benefit_Bonus",
    "Commission" := "Benefit_Commission",
    "Compensation" := "Benefit_Compensation",
    "Discount on Purchase" := "Benefit_Discount on Purchase",
    "Telework" := "Benefit_Telework",
    "Internet" := "Benefit_Internet",
    "Meals at Company Restaurant" := "Benefit_Meals at Company Restaurant",
    "Reimbursement" := "Benefit_Reimbursement",
    "Gift Vouchers" := "Benefit_Gift",
    "Stock" := "Benefit_Stock",
    "Fitness" := "Benefit_Fitness",
    "Tablet" := "Benefit_Tablet",
    "Culture and Sports Vouchers" := "Benefit_Culture and Sports Vouchers",
    "Ironing" := "Benefit_Ironing"
  ]

  /**
   * The column list the handler selects before encoding (app.py, lines
   * 231-237): the order in which the encoder and the model expect the row.
   */
  const ModelColumns: seq<string> := [
    "zip_workplace1",
    "degree_category",
    "experience_category",
    "education",
    "nace",
    "Benefit_Car",
    "Benefit_Fuel_Card",
    "Benefit_Commuting_Allowance",
    "Benefit_Phone",
    "Benefit_Phone_Subscription",
    "Benefit_Computer",
    "Benefit_Meal Vouchers",
    "Benefit_Ecocheques",
    "Benefit_Hospitalisation Insurance",
    "Benefit_Group Insurance",
    "Benefit_13 month",
    "Benefit_14 month",
    "Benefit_15 month",
    "Benefit_Bonus",
    "Benefit_Commission",
    "Benefit_Compensation",
    "Benefit_Discount on Purchase",
    "Benefit_Telework",
    "Benefit_Internet",
    "Benefit_Meals at Company Restaurant",
    "Benefit_Reimbursement",
    "Benefit_Gift",
    "Benefit_Stock",
    "Benefit_Fitness",
    "Benefit_Tablet",
    "Benefit_Culture and Sports Vouchers",
    "Benefit_Ironing"
  ]

  /** The dropdowns, and so the handler's category arguments, come in this order. */
  lemma CategoryKeysInOrder()
    ensures CategoryKeys == ["Place of Work", "Degree", "Experience Category", "Education", "NACE Category"]
  {
  }

  /**
   * `original_columns` is defined on exactly the keys of `dropdown_categories`,
   * which are five distinct names, and sends them to five distinct columns:
   * the first five model columns, in key order.
   */
  lemma CategoryRenameTotalAndInjective()
    ensures |CategoryKeys| == 5 && Distinct(CategoryKeys)
    ensures forall k :: k in OriginalColumns <==> k in CategoryKeys
    ensures forall i :: 0 <= i < |CategoryKeys| ==> OriginalColumns[CategoryKeys[i]] == ModelColumns[i]
    ensures Injective(OriginalColumns)
  {
    CategoryKeysDistinct();
    CategoryColumns();
    OriginalColumnsInjective();
  }

  // The parts of the lemma above, proved one by one so that each proof
  // obligation stays small.

  lemma CategoryKeysDistinct()
    ensures |CategoryKeys| == 5 && Distinct(CategoryKeys)
  {
    CategoryKeysInOrder();
  }

  lemma CategoryColumns()
    ensures forall k :: k in OriginalColumns <==> k in CategoryKeys
    ensures forall i :: 0 <= i < |CategoryKeys| ==> OriginalColumns[CategoryKeys[i]] == ModelColumns[i]
  {
    CategoryKeysInOrder();
  }

  lemma OriginalColumnsInjective()
    ensures Injective(OriginalColumns)
  {
  }

  /**
   * `original_benefits` is defined on exactly the 27 distinct names of the
   * catalogue and sends them to pairwise distinct columns: the i-th benefit
   * to the (5 + i)-th model column.  The one irregular entry renames
   * "Gift Vouchers" to "Benefit_Gift".
   */
  lemma BenefitRenameTotalAndInjective()
    ensures |Benefits| == 27 && Distinct(Benefits)
    ensures forall b :: b in OriginalBenefits <==> b in Benefits
    ensures forall i :: 0 <= i < |Benefits| ==> OriginalBenefits[Benefits[i]] == ModelColumns[5 + i]
    ensures Injective(OriginalBenefits)
    ensures OriginalBenefits["Gift Vouchers"] == "Benefit_Gift"
  {
    BenefitColumns();
    ModelColumnsDistinct();
    forall i, j | 0 <= i < j < |Benefits|
      ensures Benefits[i] != Benefits[j]
    {
      assert ModelColumns[5 + i] != ModelColumns[5 + j];
    }
    forall a, b | a in OriginalBenefits && b in OriginalBenefits && a != b
      ensures OriginalBenefits[a] != OriginalBenefits[b]
    {
      var i :| 0 <= i < |Benefits| && Benefits[i] == a;
      var j :| 0 <= j < |Benefits| && Benefits[j] == b;
      assert ModelColumns[5 + i] != ModelColumns[5 + j];
    }
  }

  /**
   * The i-th benefit of the catalogue is a key of `original_benefits`, the
   * keys are nothing but catalogue names, and the i-th benefit is renamed to
   * the (5 + i)-th model column.
   */
  lemma BenefitColumns()
    ensures |Benefits| == 27
    ensures forall b :: b in OriginalBenefits <==> b in Benefits
    ensures forall i :: 0 <= i < |Benefits| ==> OriginalBenefits[Benefits[i]] == ModelColumns[5 + i]
  {
    BenefitColumnsFirstThird();
    BenefitColumnsSecondThird();
    BenefitColumnsLastThird();
  }

  // The correspondence is checked a third of the catalogue at a time, so
  // that each proof obligation stays small.

  lemma BenefitColumnsFirstThird()
    ensures forall i :: 0 <= i < 9 ==> OriginalBenefits[Benefits[i]] == ModelColumns[5 + i]
  {
  }

  lemma BenefitColumnsSecondThird()
    ensures forall i :: 9 <= i < 18 ==> OriginalBenefits[Benefits[i]] == ModelColumns[5 + i]
  {
  }

  lemma BenefitColumnsLastThird()
    ensures forall i :: 18 <= i < 27 ==> OriginalBenefits[Benefits[i]] == ModelColumns[5 + i]
  {
  }

  /** The 32 hard-coded model columns are pairwise distinct. */
  lemma ModelColumnsDistinct()
    ensures |ModelColumns| == 32 && Distinct(ModelColumns)
  {
  }
}
