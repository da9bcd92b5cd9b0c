/** The two variants of the code base: the CommonJS `.js` files and the TypeScript `.ts` files. */
module Variants {

  /** Which of the two variants of a source file is meant. */
  datatype Dialect = CommonJs | TypeScript
}
