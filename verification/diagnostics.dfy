/** Source positions and the semantic errors the front end reports. */
module Diagnostics {

  /** A source position: file, line and column. */
  datatype Position = Position(file: string, line: int, column: int)

  /** A `SemanticException`: a message and the position it is reported at. */
  datatype SemanticError = SemanticError(message: string, pos: Position)
}
