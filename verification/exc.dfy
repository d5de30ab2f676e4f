/**
 * The ways the docstring generator can fail. The first is the package's own
 * `InvalidFormatterError`; the others stand for Python runtime errors that
 * the modelled code can raise on unusual input.
 */
module Exc {

  datatype Failure =
    | InvalidFormatter(name: string)         // unknown style or formatter name
    | AttributeFault(attribute: string)      // `.value` / `.children` / `.group` / `itertools.izip` missing
    | IndexFault                             // list index out of range
    | EmptyMinimum                           // `min()` of an empty list
    | Diverges                               // a `while True` loop that can never break
    | LiteralFault(exception: string)        // `ast.literal_eval` raising anything but `ValueError`
}
