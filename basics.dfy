/** Values shared by the whole core: Java string references, the @NotBlank test,
    Long.toString, and the (field, message) pairs Bean Validation reports. */
module Basics {
  import opened Wrappers

  /** A Java `String` reference: `None` stands for `null`. */
  type JString = Option<string>

  /** `@NotBlank` rejects `null` and every string that `String.trim()` empties,
      that is, whose characters are all at most U+0020. */
  predicate IsBlank(s: JString) {
    s.None? || forall i :: 0 <= i < |s.value| ==> s.value[i] <= ' '
  }

  /** Decimal digits of a non-negative number, most significant first. */
  function NatToString(n: nat): string
    decreases n
  {
    if n < 10 then ["0123456789"[n]]
    else NatToString(n / 10) + ["0123456789"[n % 10]]
  }

  /** `Long.toString`: a minus sign for negative values, then the digits. */
  function LongToString(n: int): string {
    if n < 0 then "-" + NatToString(-n) else NatToString(n)
  }

  /** One reported constraint violation: the field (or property path) and its message. */
  datatype FieldError = FieldError(field: string, message: string)
}
