/** The typed value model: categories of declared value types. */
module ValueModel {

  datatype Category = Money | Decimal | Party | Currency | Evidence | Text | Extension

  function ClassifyValueType(ty: string): Category {
    if ty == "money" then Money
    else if ty == "decimal" || ty == "number" || ty == "int" || ty == "integer" || ty == "uint" then Decimal
    else if ty == "party" then Party
    else if ty == "currency" then Currency
    else if ty == "evidence" then Evidence
    else if ty == "string" then Text
    else Extension
  }

  predicate IsCanonical(c: Category) {
    c != Extension
  }

  predicate IsNumeric(c: Category) {
    c == Money || c == Decimal
  }

  function CategoryName(c: Category): string {
    match c
    case Money => "money"
    case Decimal => "decimal"
    case Party => "party"
    case Currency => "currency"
    case Evidence => "evidence"
    case Text => "string"
    case Extension => "extension"
  }

  function CategoryFromName(name: string): Category {
    if name == "money" then Money
    else if name == "decimal" then Decimal
    else if name == "party" then Party
    else if name == "currency" then Currency
    else if name == "evidence" then Evidence
    else if name == "string" then Text
    else Extension
  }

  /** A category survives the trip through its name. */
  lemma CategoryRoundTrip(c: Category)
    ensures CategoryFromName(CategoryName(c)) == c
  {
  }
}
