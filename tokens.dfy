// The token model of the scanner: one constructor per lexical category.

module Options {
  datatype Option<+T> = None | Some(value: T)
}

module Tokens {
  import opened Options

  const I64Min: int := -0x8000_0000_0000_0000
  const I64Max: int := 0x7FFF_FFFF_FFFF_FFFF

  /** A signed 64-bit integer, the payload of an integer literal. */
  newtype i64 = x: int | I64Min <= x <= I64Max

  /**
   * The tokens of the language. Literal kinds carry an optional payload:
   * `Some` for a literal occurrence, `None` for the bare type name
   * (`int`, `float`, `string`, `bool`). A floating-point literal keeps its
   * text rather than an f64 value. `NoToken` is the marker for "no token
   * this step"; the scanner never emits it. An identifier carries only its
   * name: the value slot it has in the source is always empty.
   */
  datatype Token =
    | Add | Sub | Div | Mult | Mod
    | IntDiv | Pow
    | Inc | Dec
    | Assign | AddAssign | SubAssign | DivAssign | MultAssign | ModAssign
    | Equal | NotEqual | LessThan | Greater | LessEqual | GreaterEqual
    | And | Or | Not
    | BitAnd | BitOr | BitNot
    | Int(intValue: Option<i64>)
    | Float(floatText: Option<seq<char>>)
    | String(stringValue: Option<string>)
    | Bool(boolValue: Option<bool>)
    | NoToken
    | Var | Const
    | Print | If | Else | ElseIf
    | While | For
    | Function
    | Identifier(name: string)
    | LeftParen | RightParen
    | LeftCurly | RightCurly
    | LeftSquare | RightSquare
    | Colon
}
