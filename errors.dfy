/** The Python exceptions a generation run can raise. */
module Errors {

  datatype Error =
    | /** `ValueError` from `math.log10` of a count `<= 0`. */
      MathDomainError
    | /** `write_text` into a directory that does not exist. */
      FileNotFoundError
}
