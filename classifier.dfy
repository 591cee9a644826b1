/** The token classifier of annotate.cpp: maps a token's lexical kind, the kind
    of the cursor that owns it and its spelling to a highlight class. */
module Classifier {

  /** libclang's lexical token kinds. */
  datatype TokenKind = Punctuation | Keyword | Identifier | Literal | Comment

  /** The block of libclang's cursor-kind enumeration a kind belongs to.
      clang_isDeclaration, clang_isPreprocessing and clang_isAttribute are
      tests of which block a kind lies in. */
  datatype KindRange =
    | DeclRange | RefRange | ExprRange | StmtRange | AttrRange | PreprocessingRange | OtherRange

  /** The cursor kinds the classifier names, plus `Other` for every other kind,
      which records only the block it lies in. */
  datatype CursorKind =
    // declarations
    | StructDecl | UnionDecl | ClassDecl | EnumDecl | FieldDecl | EnumConstantDecl
    | FunctionDecl | VarDecl | ParmDecl
    | ObjCInterfaceDecl | ObjCCategoryDecl | ObjCProtocolDecl | ObjCPropertyDecl | ObjCIvarDecl
    | ObjCInstanceMethodDecl | ObjCClassMethodDecl | ObjCImplementationDecl
    | TypedefDecl | CXXMethod | Namespace | LinkageSpec | Constructor | Destructor
    | ConversionFunction | TemplateTypeParameter | NonTypeTemplateParameter
    | TemplateTemplateParameter | FunctionTemplate | ClassTemplate
    | ClassTemplatePartialSpecialization | NamespaceAlias | UsingDirective | UsingDeclaration
    | TypeAliasDecl | CXXAccessSpecifier | TypeAliasTemplateDecl
    // references
    | TypeRef
    // expressions
    | IntegerLiteral | FloatingLiteral | ImaginaryLiteral | StringLiteral | CharacterLiteral
    | ObjCStringLiteral | UnaryOperator | BinaryOperator
    // statements
    | LabelStmt
    // preprocessing
    | InclusionDirective
    // any kind not named above
    | Other(range: KindRange)

  function KindRangeOf(k: CursorKind): KindRange {
    match k
    case TypeRef => RefRange
    case IntegerLiteral | FloatingLiteral | ImaginaryLiteral | StringLiteral | CharacterLiteral
      | ObjCStringLiteral | UnaryOperator | BinaryOperator => ExprRange
    case LabelStmt => StmtRange
    case InclusionDirective => PreprocessingRange
    case Other(r) => r
    case StructDecl | UnionDecl | ClassDecl | EnumDecl | FieldDecl | EnumConstantDecl
      | FunctionDecl | VarDecl | ParmDecl
      | ObjCInterfaceDecl | ObjCCategoryDecl | ObjCProtocolDecl | ObjCPropertyDecl | ObjCIvarDecl
      | ObjCInstanceMethodDecl | ObjCClassMethodDecl | ObjCImplementationDecl
      | TypedefDecl | CXXMethod | Namespace | LinkageSpec | Constructor | Destructor
      | ConversionFunction | TemplateTypeParameter | NonTypeTemplateParameter
      | TemplateTemplateParameter | FunctionTemplate | ClassTemplate
      | ClassTemplatePartialSpecialization | NamespaceAlias | UsingDirective | UsingDeclaration
      | TypeAliasDecl | CXXAccessSpecifier | TypeAliasTemplateDecl => DeclRange
  }

  predicate IsDeclaration(k: CursorKind) { KindRangeOf(k) == DeclRange }
  predicate IsPreprocessing(k: CursorKind) { KindRangeOf(k) == PreprocessingRange }
  predicate IsAttribute(k: CursorKind) { KindRangeOf(k) == AttrRange }

  predicate IsOperator(k: CursorKind) { k == BinaryOperator || k == UnaryOperator }

  /** The spelling that marks an include directive's file token as "cpf". */
  const IncludeMarker: string := "cpf"

  /** Every class the classifier can produce; "" means no visual class. */
  const AllClasses: set<string> :=
    {"cpf", "cp", "o", "p", "c", "s", "sc", "mf", "mi", "m", "l", "kd", "kt", "ow", "k",
     "nc", "py", "vi", "no", "nf", "nv", "nn", "nl", "nd", ""}

  /** Identifier cursor kinds highlighted as type names ("nc"). */
  const TypeNameKinds: set<CursorKind> :=
    {ClassDecl, ClassTemplate, ClassTemplatePartialSpecialization, StructDecl, UnionDecl,
     EnumDecl, TypedefDecl, ObjCInterfaceDecl, ObjCCategoryDecl, ObjCProtocolDecl,
     ObjCImplementationDecl, TemplateTypeParameter, TemplateTemplateParameter, TypeAliasDecl,
     TypeAliasTemplateDecl, TypeRef}

  /** Identifier cursor kinds highlighted as function names ("nf"). */
  const FunctionNameKinds: set<CursorKind> :=
    {FunctionDecl, ObjCInstanceMethodDecl, ObjCClassMethodDecl, CXXMethod, FunctionTemplate,
     Constructor, Destructor, ConversionFunction}

  /** The cursor kinds the identifier switch names explicitly. */
  const NamedIdentifierKinds: set<CursorKind> :=
    {ClassDecl, ClassTemplate, ClassTemplatePartialSpecialization, StructDecl, UnionDecl,
     EnumDecl, TypedefDecl, ObjCInterfaceDecl, ObjCCategoryDecl, ObjCProtocolDecl,
     ObjCImplementationDecl, TemplateTypeParameter, TemplateTemplateParameter, TypeAliasDecl,
     TypeAliasTemplateDecl, TypeRef, ObjCPropertyDecl, ObjCIvarDecl, FieldDecl,
     EnumConstantDecl, NonTypeTemplateParameter, FunctionDecl, ObjCInstanceMethodDecl,
     ObjCClassMethodDecl, CXXMethod, FunctionTemplate, Constructor, Destructor,
     ConversionFunction, VarDecl, ParmDecl, Namespace, NamespaceAlias, UsingDirective,
     LabelStmt, UsingDeclaration, LinkageSpec, CXXAccessSpecifier}

  function LiteralClass(k: CursorKind): (cls: string)
    ensures cls in {"s", "sc", "mf", "mi", "m", "l"}
  {
    match k
    case ObjCStringLiteral | StringLiteral => "s"
    case CharacterLiteral => "sc"
    case FloatingLiteral => "mf"
    case IntegerLiteral => "mi"
    case ImaginaryLiteral => "m"
    case _ => "l"
  }

  function KeywordClass(k: CursorKind): (cls: string)
    ensures cls in {"kd", "kt", "ow", "k"}
  {
    if IsDeclaration(k) then "kd"
    else if k == TypeRef then "kt"
    else if IsOperator(k) then "ow"
    else "k"
  }

  /** The identifier switch: each case group becomes a membership test, in
      the order the switch lists them; unnamed kinds fall to the default. */
  function IdentifierClass(k: CursorKind): (cls: string)
    ensures cls in {"nc", "py", "vi", "no", "nf", "nv", "nn", "nl", "nd", ""}
  {
    if k in TypeNameKinds then "nc"
    else if k == ObjCPropertyDecl then "py"
    else if k in {ObjCIvarDecl, FieldDecl} then "vi"
    else if k in {EnumConstantDecl, NonTypeTemplateParameter} then "no"
    else if k in FunctionNameKinds then "nf"
    else if k in {VarDecl, ParmDecl} then "nv"
    else if k in {Namespace, NamespaceAlias, UsingDirective} then "nn"
    else if k == LabelStmt then "nl"
    else if k in {UsingDeclaration, LinkageSpec, CXXAccessSpecifier} then ""
    else if IsAttribute(k) then "nd"
    else ""
  }

  /** getCssClasses: the highlight class of a token. Total: every token kind
      and every cursor kind, named or not, gets a class from AllClasses. */
  function CssClasses(tk: TokenKind, k: CursorKind, spelling: string): (cls: string)
    ensures cls in AllClasses
    ensures cls in {"cp", "cpf"} <==> IsPreprocessing(k)
    ensures cls == "cpf" <==>
              k == InclusionDirective && (tk == Literal || tk == Identifier) && spelling == IncludeMarker
  {
    if IsPreprocessing(k) then
      if k == InclusionDirective && (tk == Literal || tk == Identifier) && spelling == IncludeMarker
      then "cpf"
      else "cp"
    else
      match tk
      case Punctuation => if IsOperator(k) then "o" else "p"
      case Comment => "c"
      case Literal => LiteralClass(k)
      case Keyword => KeywordClass(k)
      case Identifier => IdentifierClass(k)
  }

  /** Any preprocessing cursor gives "cp", except an include directive's literal
      or identifier token spelled "cpf". */
  lemma PreprocessingClass(tk: TokenKind, k: CursorKind, spelling: string)
    requires IsPreprocessing(k)
    ensures CssClasses(tk, k, spelling) ==
              if k == InclusionDirective && tk in {Literal, Identifier} && spelling == IncludeMarker
              then "cpf" else "cp"
  {
  }

  /** Outside preprocessing, punctuation is "o" under an operator cursor and
      "p" otherwise, and a comment is "c". */
  lemma PunctuationAndCommentClass(tk: TokenKind, k: CursorKind, spelling: string)
    requires !IsPreprocessing(k)
    ensures tk == Punctuation ==>
              CssClasses(tk, k, spelling) == (if k in {BinaryOperator, UnaryOperator} then "o" else "p")
    ensures tk == Comment ==> CssClasses(tk, k, spelling) == "c"
  {
  }

  /** Literal tokens are classified by the literal kind of their cursor. */
  lemma LiteralTokenClass(k: CursorKind, spelling: string)
    requires !IsPreprocessing(k)
    ensures var cls := CssClasses(Literal, k, spelling);
            (k in {StringLiteral, ObjCStringLiteral} <==> cls == "s") &&
            (k == CharacterLiteral <==> cls == "sc") &&
            (k == FloatingLiteral <==> cls == "mf") &&
            (k == IntegerLiteral <==> cls == "mi") &&
            (k == ImaginaryLiteral <==> cls == "m") &&
            ((k !in {StringLiteral, ObjCStringLiteral, CharacterLiteral, FloatingLiteral,
                     IntegerLiteral, ImaginaryLiteral}) <==> cls == "l")
  {
  }

  /** Keywords: "kd" in declarations, "kt" in type references, "ow" in
      operators, "k" elsewhere. */
  lemma KeywordTokenClass(k: CursorKind, spelling: string)
    requires !IsPreprocessing(k)
    ensures var cls := CssClasses(Keyword, k, spelling);
            (IsDeclaration(k) <==> cls == "kd") &&
            (k == TypeRef <==> cls == "kt") &&
            (k in {BinaryOperator, UnaryOperator} <==> cls == "ow") &&
            (cls == "k" <==> !IsDeclaration(k) && k !in {TypeRef, BinaryOperator, UnaryOperator})
  {
  }

  /** The identifier switch case by case: each class of a named case group
      is given exactly to the kinds of that group. */
  lemma IdentifierClassGroups(k: CursorKind)
    ensures k in TypeNameKinds <==> IdentifierClass(k) == "nc"
    ensures k in FunctionNameKinds <==> IdentifierClass(k) == "nf"
    ensures k == ObjCPropertyDecl <==> IdentifierClass(k) == "py"
    ensures k in {ObjCIvarDecl, FieldDecl} <==> IdentifierClass(k) == "vi"
    ensures k in {EnumConstantDecl, NonTypeTemplateParameter} <==> IdentifierClass(k) == "no"
    ensures k in {VarDecl, ParmDecl} <==> IdentifierClass(k) == "nv"
    ensures k in {Namespace, NamespaceAlias, UsingDirective} <==> IdentifierClass(k) == "nn"
    ensures k == LabelStmt <==> IdentifierClass(k) == "nl"
  {
  }

  /** The only preprocessing kinds are the include directive and unnamed
      preprocessing kinds; the only attribute kinds are unnamed ones. */
  lemma KindRangeTests(k: CursorKind)
    ensures IsPreprocessing(k) <==> k == InclusionDirective || k == Other(PreprocessingRange)
    ensures IsAttribute(k) <==> k == Other(AttrRange)
  {
  }

  /** No kind the identifier switch names is a preprocessing or attribute
      kind. */
  lemma NamedKindsOrdinary(k: CursorKind)
    ensures k in NamedIdentifierKinds ==> !IsPreprocessing(k) && !IsAttribute(k)
  {
    KindRangeTests(k);
    assert k in NamedIdentifierKinds ==> !k.Other? && k != InclusionDirective;
  }

  /** Identifiers under a kind the switch does not name get "nd" exactly when
      the kind is an attribute. */
  lemma IdentifierDecoratorClass(k: CursorKind, spelling: string)
    ensures CssClasses(Identifier, k, spelling) == "nd" <==>
              k !in NamedIdentifierKinds && IsAttribute(k)
  {
    KindRangeTests(k);
    assert !IsPreprocessing(k) ==> CssClasses(Identifier, k, spelling) == IdentifierClass(k);
  }

  /** Identifiers get no class exactly under using-declarations, linkage
      specs, access specifiers and the unnamed kinds that are neither
      attributes nor preprocessing. */
  lemma IdentifierDefaultClass(k: CursorKind, spelling: string)
    ensures CssClasses(Identifier, k, spelling) == "" <==>
              k in {UsingDeclaration, LinkageSpec, CXXAccessSpecifier} ||
              (k !in NamedIdentifierKinds && !IsAttribute(k) && !IsPreprocessing(k))
  {
    KindRangeTests(k);
    assert !IsPreprocessing(k) ==> CssClasses(Identifier, k, spelling) == IdentifierClass(k);
  }

  /** Type-like declarations and type references, and only they, are "nc". */
  lemma IdentifierTypeNameClass(k: CursorKind, spelling: string)
    ensures k in TypeNameKinds <==> CssClasses(Identifier, k, spelling) == "nc"
  {
    IdentifierClassGroups(k);
    NamedKindsOrdinary(k);
  }

  /** Functions, methods, constructors, destructors and conversion functions,
      and only they, are "nf". */
  lemma IdentifierFunctionNameClass(k: CursorKind, spelling: string)
    ensures k in FunctionNameKinds <==> CssClasses(Identifier, k, spelling) == "nf"
  {
    IdentifierClassGroups(k);
    NamedKindsOrdinary(k);
  }

  /** The remaining classes of the identifier switch are each given exactly
      to the kinds of their case group. */
  lemma IdentifierNamedClass(k: CursorKind, spelling: string)
    ensures var cls := CssClasses(Identifier, k, spelling);
            (k == ObjCPropertyDecl <==> cls == "py") &&
            (k in {ObjCIvarDecl, FieldDecl} <==> cls == "vi") &&
            (k in {EnumConstantDecl, NonTypeTemplateParameter} <==> cls == "no") &&
            (k in {VarDecl, ParmDecl} <==> cls == "nv") &&
            (k in {Namespace, NamespaceAlias, UsingDirective} <==> cls == "nn") &&
            (k == LabelStmt <==> cls == "nl")
  {
    IdentifierClassGroups(k);
    NamedKindsOrdinary(k);
  }
}
