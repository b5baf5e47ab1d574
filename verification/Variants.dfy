/** Some lines of the program plainly do not do what they are for. */
module Variants {

  /** Two readings of such a line: Written follows the text, Intended the evident purpose. */
  datatype Variant = Written | Intended
}
