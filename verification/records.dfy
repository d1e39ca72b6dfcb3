/** The flat key-to-amount records that every component reads. The source
    passes Python dicts and pandas rows; a missing key reads as a default. */
module Records {

  /** The column names the core reads. `Other` stands for any further column
      a trained model's feature list may name. */
  datatype Field =
    | AnnualSalary
    | Investment80C
    | MedicalInsurance80D
    | HomeLoanInterest24b
    | Donations80G
    | RentPaid
    | Groceries
    | Utilities
    | Entertainment
    | Healthcare
    | TotalDeductions
    | NpsContribution80CCD
    | ExpenseRatio
    | TaxableIncome
    | TaxAmount
    | DeductionRatio
    | DonationRatio
    | RentRatio
    | Age
    | Other(name: string)

  type Row = map<Field, real>

  /** `row.get(f, default)`. */
  function GetOr(row: Row, f: Field, default: real): (v: real)
    ensures f in row ==> v == row[f]
    ensures f !in row ==> v == default
  {
    if f in row then row[f] else default
  }

  /** `row.get(f, 0)`: the usual lookup, where a missing amount counts as zero. */
  function Get(row: Row, f: Field): (v: real)
    ensures f in row ==> v == row[f]
    ensures f !in row ==> v == 0.0
  {
    GetOr(row, f, 0.0)
  }
}
