/** The program's own error kinds and their conversion to `ProgramError`. */
module Errors {
  import opened Solana

  datatype GloweError = InvalidInstruction | NotRentExempt | AccountMismatch

  /** `from as u32`: the variant's position in the declaration. */
  function Discriminant(e: GloweError): (d: nat)
    ensures d < 3
  {
    match e
    case InvalidInstruction => 0
    case NotRentExempt => 1
    case AccountMismatch => 2
  }

  /** `From<GloweError> for ProgramError`: always a custom code, never a built-in error. */
  function ToProgramError(e: GloweError): (r: ProgramError)
    ensures r.Custom? && r.code < 3
  {
    Custom(Discriminant(e))
  }

  /** The three fixed codes. */
  lemma ErrorCodes()
    ensures ToProgramError(InvalidInstruction) == Custom(0)
    ensures ToProgramError(NotRentExempt) == Custom(1)
    ensures ToProgramError(AccountMismatch) == Custom(2)
  {
  }

  /** Distinct errors give distinct codes. */
  lemma ToProgramErrorInjective(a: GloweError, b: GloweError)
    ensures ToProgramError(a) == ToProgramError(b) ==> a == b
  {
  }
}
