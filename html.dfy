/**
 * The vocabulary the layout engine receives from the HTML tokenizer
 * (golang.org/x/net/html), which is not part of this model: element atoms,
 * attributes and tokens.
 */
module Html {

  /**
   * The element atoms the walker and the style resolver single out.  Every
   * other element (`span`, `a`, ...) and every unrecognised tag name, whose
   * atom is the zero atom, is `Other`: no code path tells them apart.
   */
  datatype Atom =
    | B | Br | Div | Em | H1 | H2 | H3 | H4 | H5 | H6 | Hr | I | Img
    | P | Strong | Style | Title | Tr | Other

  /** An attribute as the tokenizer reports it: key and unescaped value. */
  datatype Attr = Attr(key: string, val: string)

  /** Why the tokenizer stopped: the end of the input or a read failure. */
  datatype TokenError = EOF | ReadFailure(reason: string)

  /**
   * One token.  `Ignored` stands for comment and doctype tokens, which the
   * walker's switch has no case for.  The tokenizer itself is modelled by the
   * finite list of tokens it yields; once that list is exhausted it yields
   * `Err(EOF)`.
   */
  datatype Token =
    | StartTag(tag: Atom, attrs: seq<Attr>)
    | SelfClosing(tag: Atom, attrs: seq<Attr>)
    | EndTag(tag: Atom)
    | Text(data: string)
    | Err(cause: TokenError)
    | Ignored
}
