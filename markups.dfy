/** Values produced by the annotator: span markups, symbol declarations and deferred link sites. */
module Markups {

  datatype Option<T> = None | Some(value: T)

  /** The option as a sequence of zero or one elements. */
  function OptionToSeq<T>(o: Option<T>): (s: seq<T>)
    ensures |s| <= 1
    ensures o.Some? <==> |s| == 1
    ensures o.Some? ==> s[0] == o.value
  {
    match o
    case None => []
    case Some(v) => [v]
  }

  /** A markup over a file's bytes, `[begin, end)`, with its rendering
      attributes: a token's markup has "class" and optionally "id" and
      "href"; an include directive's markup has only "href". The markup's
      tag is not recorded. */
  datatype Markup = Markup(begin: nat, end: nat, attrs: map<string, string>)

  /** A definition as registered in the symbol registry. */
  datatype SymbolDeclaration = SymbolDeclaration(usr: string, fileName: string, lineno: nat, isdef: bool)

  /** A reference site waiting for the definition of `usr`: markup `markupIdx`
      of the document in output slot `slot`, found in file `srcFile`. */
  datatype MissingDefLink = MissingDefLink(slot: nat, markupIdx: nat, srcFile: string, usr: string)
}
