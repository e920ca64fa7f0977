/**
 * The parsed shape of an nginx configuration file: an ordered sequence of
 * directives, each with a name, positional parameters and an optional
 * nested block of the same shape.
 */
module Directives {
  import opened Wrappers

  datatype Directive = Directive(name: string, params: seq<string>, block: Block)

  /** The optional `{ ... }` of a directive; `NoBlock` is the parser's nil block. */
  datatype Block = NoBlock | Block(directives: seq<Directive>)

  /** A parsed file; `None` stands for a file that is missing or does not parse. */
  type Parsed = Option<seq<Directive>>

  /** The parser itself is outside the model: it is passed in as a function from file text to tree. */
  type Parser = string -> Parsed
}
