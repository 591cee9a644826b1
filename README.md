# synth annotator core, in Dafny

synth renders C and C++ sources as hyperlinked, syntax-highlighted HTML. The
front end (libclang) tokenizes each file of a translation unit and annotates
every token with its cursor. The annotator in `src/annotate.cpp` turns those
tokens into span markups, one document per file. A span carries a
highlight class, and optionally an `id` (for a definition) or an `href` (for
a reference, a definition link or an include directive). Definitions go into
a symbol registry keyed by USR. References whose definition is not yet known
are recorded as deferred sites.

The project has four modules:

- `Markups` (markups.dfy): the values the annotator produces. These are markups
  `[begin, end)` with their attributes, symbol declarations and deferred link
  sites.
- `Classifier` (classifier.dfy): `getCssClasses` as a total pure function
  `CssClasses` over the token kind, the cursor kind and the spelling. Cursor
  kinds the classifier does not name are `Other(range)`. `range` records which
  block of the cursor-kind enumeration the kind lies in, and that block is what
  `clang_isDeclaration`, `clang_isPreprocessing` and `clang_isAttribute` test.
  The preprocessing branch compares the token's spelling with the literal
  `"cpf"`, just as the code does, so the model keeps that comparison.
- `Registry` (registry.dfy): the shared state that the annotator drives,
  as the class `MultiTuProcessor`. It holds:
  - a file → slot map;
  - the per-slot output documents;
  - the USR → definition map, where the first writer wins;
  - the sequence of deferred sites.

  Its source is not part of this model. Each operation is given the smallest
  tables and the contract that `annotate.cpp` relies on.
- `Annotate` (annotate.dfy), built in three layers:
  - **Specification functions.** `EffectOf` is what `processToken` does to one
    token: the markups appended, the declaration registered and the site
    deferred. `AnnotateTokens` folds `EffectOf` over a token sequence.
  - **Imperative methods that follow the source.** `ProcessToken` and its
    linking half `LinkToken` append, pop and patch markups and call into the
    registry. `AnnotateFile` is the token loop. `ProcessRange` is the guard,
    then the loop, then the include walk. `ProcessIncludes` and `VisitInclude`
    play the parts of `clang_findIncludesInFile` and `includeVisitor`. The
    `ensures` of `ProcessToken`, `LinkToken`, `AnnotateFile`, `ProcessRange`
    and `AnnotateNewFile` tie the new state to the specification functions.
    Those of `ProcessIncludes` and `VisitInclude` state only that the tables
    grow and that every included file gets a slot.
  - **Lemmas.** They state the linking policy branch by branch.

Every answer the front end gives about a token is a field of the `Token`
record, and a translation unit is a `TranslationUnit` value. These answers
cover the offsets, the file and line, whether the token starts its cursor,
the referenced and definition cursors, the USR, whether the referenced
cursor lies under the root directory, and the hrefs that `linkInclude` and
`linkCursorIfIncludedDst` would produce.

## Model

| member | source | states |
|---|---|---|
| Classifier.CssClasses | src/annotate.cpp:24-145 | The classifier is total: every token kind and cursor kind, named or not, gets a class from the fixed set of classes. The class is "cp" or "cpf" exactly for preprocessing cursors. It is "cpf" exactly for a literal or identifier token of an inclusion directive spelled "cpf". |
| Classifier.PreprocessingClass | src/annotate.cpp:28-39 | Under a preprocessing cursor, the class is "cpf" for an include directive's literal or identifier token spelled "cpf". Every other token gets "cp". |
| Classifier.PunctuationAndCommentClass | src/annotate.cpp:40-47 | Outside preprocessing, punctuation is "o" under a binary or unary operator cursor and "p" otherwise. A comment is always "c". |
| Classifier.LiteralTokenClass | src/annotate.cpp:49-65 | A literal token's class depends on its cursor kind, and each of these holds in both directions: string (including ObjC string) ↔ "s", character ↔ "sc", floating ↔ "mf", integer ↔ "mi", imaginary ↔ "m", any other kind ↔ "l". |
| Classifier.KeywordTokenClass | src/annotate.cpp:68-75 | Each of these holds in both directions for a keyword: declaration cursor ↔ "kd", type reference ↔ "kt", binary or unary operator ↔ "ow", anything else ↔ "k". |
| Classifier.IdentifierTypeNameClass | src/annotate.cpp:80-96 | An identifier is "nc" exactly when its cursor kind is one of the sixteen type-like kinds of that case group (class, struct, union, enum, typedef, the ObjC interface, category, protocol and implementation kinds, the template and alias kinds, and type references). |
| Classifier.IdentifierFunctionNameClass | src/annotate.cpp:109-117 | An identifier is "nf" exactly when its cursor kind is one of the eight function kinds: functions, ObjC instance and class methods, C++ methods, function templates, constructors, destructors and conversion functions. |
| Classifier.IdentifierNamedClass | src/annotate.cpp:98-131 | Each remaining class of the identifier switch is given exactly to the kinds of its case group: ObjC properties ↔ "py", ivars and fields ↔ "vi", enum constants and non-type template parameters ↔ "no", variables and parameters ↔ "nv", namespaces, namespace aliases and using-directives ↔ "nn", labels ↔ "nl". |
| Classifier.IdentifierDecoratorClass | src/annotate.cpp:137-139 | An identifier is "nd" exactly when its cursor kind is not one the switch names and is an attribute kind. |
| Classifier.IdentifierDefaultClass | src/annotate.cpp:133-140 | An identifier gets the empty class exactly when its cursor kind is a using-declaration, a linkage spec or an access specifier, or is a kind the switch does not name that is neither an attribute nor a preprocessing kind. |
| Annotate.EffectOf | src/annotate.cpp:147-244 | One token adds no markup exactly when it is zero-width, and at most two markups otherwise. The first markup spans the token and carries a class. A registered declaration has a non-empty USR that is also the markup's id, and the markup has an id exactly when a declaration is registered. A deferred site leaves its markup without an href and addresses the current slot and the index of the markup just appended. |
| Annotate.IncludeLink | src/annotate.cpp:185-200 | The include-directive markup exists exactly when linkInclude gives an href, and there is at most one. |
| Annotate.LinkEffect | src/annotate.cpp:204-243 | Linking a head token keeps exactly one markup over the same span, with its class. A registration always comes with an id holding the same USR; for a span that had no id, the markup has an id exactly when a declaration is registered. A deferred site leaves the span markup unchanged. |
| Annotate.ReferenceLinked | src/annotate.cpp:206-213 | An in-root reference that is not its own definition gets exactly its class markup with the link to the referenced cursor, when there is one. Nothing is registered or deferred. |
| Annotate.DefinitionLinked | src/annotate.cpp:229-242 | A token that is neither a definition nor an in-root reference but has a definition cursor elsewhere gets exactly its class markup with the by-USR link to that definition, when there is one. Nothing is registered or deferred. |
| Annotate.ZeroWidthDropped | src/annotate.cpp:154-169 | A token whose begin and end offsets are equal leaves the document and the registry exactly as they were. |
| Annotate.NonHeadTokenOnlyClassified | src/annotate.cpp:171-181 | A comment, a literal, or a token that does not start its cursor adds exactly one markup. That markup carries only its class, and nothing is registered or deferred. |
| Annotate.IncludeDirectiveLinked | src/annotate.cpp:183-202 | The head token of an include directive gets its class markup. When linkInclude succeeds, it also gets a second markup spanning the whole directive with only the href. Nothing is registered or deferred. |
| Annotate.DefinitionMarked | src/annotate.cpp:215-228 | A definition's class gets " dfn" appended. With a non-empty USR, its id is the USR and the declaration (usr, file, line, isdef = true) is registered. With an empty USR, there is no id and nothing is registered. The markup carries an href exactly when the definition is also an in-root reference with a link, and then it is that link. |
| Annotate.RegisteredExactlyForDefinitions | src/annotate.cpp:215-229 | A declaration is registered if and only if the token is non-empty, is a head token, is not an include directive, is its own definition and has a USR. |
| Annotate.DeferredExactlyForUnresolved | src/annotate.cpp:229-238 | A site is deferred if and only if the token is non-empty, is a head token, is not an include directive, is neither a definition nor an in-root reference, has a null definition cursor and has a non-empty USR. The site records the current slot and the index (size - 1) of the markup just appended. |
| Annotate.AnnotateTokens | src/annotate.cpp:279-286 | Annotating a token sequence yields at most two markups per token, at most one registration and one deferred site per token, and every deferred site addresses this slot and an existing markup. |
| Annotate.DeferredSitesAddressUnlinkedMarkups | src/annotate.cpp:229-238 | Across a whole range, every deferred site addresses a markup of the range that has a class and no href yet: the markup a later definition will patch. |
| Annotate.AllButLast | src/annotate.cpp:279-286 | The tokens handed to processToken are exactly tokens 0 .. n-2, in order. An empty range hands none. |
| Annotate.ProcessToken | src/annotate.cpp:147-244 | processToken appends exactly the markups of EffectOf to the document's markups. The definition map grows by exactly its registration, with the first writer winning, and the deferred sites by exactly its deferred site. The slots and documents are unchanged and the registry invariant is kept. |
| Annotate.LinkToken | src/annotate.cpp:204-243 | Reference linking, definition marking and registration, deferral, and definition linking turn the last markup into the one LinkEffect gives, with the matching registry update. Its frame (no document changed, sites only appended) rests on the registerDef assumption (see Left out). |
| Annotate.AnnotateFile | src/annotate.cpp:279-286 | The token loop leaves the file's document holding exactly the markups AnnotateTokens gives for all tokens but the last. The definition map becomes RegisterAll over its registrations, the deferred sites are extended by its sites, and no other slot or document changes. The last two clauses rest on the registerDef assumption (see Left out). |
| Annotate.ProcessRange | src/annotate.cpp:263-290 | processRange on a file that already has a slot changes nothing. Otherwise the file gets the next slot, and its document holds exactly AnnotateTokens of all its tokens but the last. Its deferred sites follow the earlier ones and its definitions are registered. Earlier slots and definitions are never altered, and the file ends up with a slot. Earlier documents and deferred sites, and the file's own document and sites, are unchanged by the include walk only under the assumption that registerDef patches no document and drops no site (see Left out). |
| Annotate.AnnotateNewFile | src/annotate.cpp:274-289 | Past the guard, the new document is annotated and then the includes are processed. What the annotation left behind survives that walk, under the same registerDef assumption as ProcessRange. |
| Annotate.ProcessIncludes | src/annotate.cpp:289 | Afterwards every file the include directives name has a slot. Earlier slots and definitions are kept; earlier documents and deferred sites are kept under the same registerDef assumption as ProcessRange. |
| Annotate.VisitInclude | src/annotate.cpp:249-261 | includeVisitor runs processRange on the included file, which then has a slot. Earlier slots and definitions are kept; that documents and deferred sites only grow rests on the same registerDef assumption as ProcessRange. |
| Annotate.AnnotationSurvives | src/annotate.cpp:279-289 | The document, definitions and deferred sites produced for a file survive any later processing that only grows the tables. |
| Annotate.PendingShrinks | src/annotate.cpp:270-272 | Assigning a slot to a new file strictly lowers the number of files without a slot. That is why the recursion through include directives terminates. |
| Registry.MultiTuProcessor.PrepareToProcess | src/annotate.cpp:270-272 | The first request for a file gives it a new empty document in the next slot. Every later request returns "already processed" and changes nothing. |
| Registry.MultiTuProcessor.RegisterDef | src/annotate.cpp:220-227 | registerDef stores the declaration under its USR unless a declaration is already stored there. It assumes registerDef touches no document and drops no deferred site (see Left out). |
| Registry.MultiTuProcessor.OneDocumentPerFile | src/annotate.cpp:270-272 | In a valid registry no two slots hold documents of the same file, so a file processed once has exactly one document. |
| Registry.MultiTuProcessor.RegisterMissingDefLink | src/annotate.cpp:232-237 | registerMissingDefLink appends exactly one site (slot, markup index, file, USR) and changes nothing else. |
| Registry.MultiTuProcessor.SetMarkups | src/annotate.cpp:283-284 | The file's document, which processToken fills by reference, is replaced by its final markups. Its file name and every other document stay as they were. |
| Registry.Register | src/annotate.cpp:227 | Registering a declaration keeps every existing entry and adds its USR. The declaration is stored only if the USR was new. |
| Registry.RegisterAllKeeps | src/annotate.cpp:227 | Registering a sequence keeps every earlier entry and adds exactly the USRs registered. |
| Registry.RegisterAllFirstWins | src/annotate.cpp:227 | A USR ends up bound to the first declaration in the sequence that carries it. |

## Left out

- libclang: tokenizing, annotating tokens with cursors, file locations,
  referenced and definition cursors, USRs and the include walk are not
  modelled. Their answers are fields of `Token` and `TranslationUnit`.
  Token cleanup is not modelled.
- `processTu` (parsing a translation unit, error codes, stderr diagnostics)
  and the stdout progress line of `processRange` are not modelled. Both are
  I/O around the front end.
- `linkInclude` and `linkCursorIfIncludedDst` are not part of this model.
  Each is an input href (`Option<string>`) that is set on the markup when
  present. The URL construction is not modelled.
- `underRootdir` is not part of this model. It is the boolean input
  `referencedUnderRoot`.
- Registry.MultiTuProcessor.RegisterDef: the flush of deferred sites is not
  modelled. When a USR is registered for the first time, the registry also
  sets the `href` of every markup whose site waits on that USR, in whatever
  document it lies, and removes those sites. This contract instead assumes
  that registerDef touches no document and drops no deferred site. The
  internals of `MultiTuProcessor` are not part of this model. Whether a
  deferred site ends up linked once its definition is registered is
  therefore not stated.
- Annotate.ProcessRange: its clauses that earlier documents and deferred
  sites are never altered, and that after the include walk the file's own
  document still equals `AnnotateTokens` and its own sites are still in the
  table, rest on the RegisterDef assumption above. With the flush, a
  definition met during the walk would add `href`s to those markups and
  remove those sites.
- Annotate.AnnotateNewFile: its clause that the annotation survives the
  include walk rests on the same RegisterDef assumption.
- Annotate.ProcessIncludes: its clause that every earlier document and
  deferred site is kept rests on the same RegisterDef assumption.
- Annotate.VisitInclude: its clause that documents and deferred sites only
  grow rests on the same RegisterDef assumption.
- Annotate.LinkToken: its clauses that no document changes and that the
  deferred sites are only appended to rest on the RegisterDef assumption
  above. With the flush, registering a definition here would add `href`s to
  the markups of earlier sites waiting on its USR and remove those sites.
- Annotate.AnnotateFile: its clauses that no other document changes and that
  the deferred sites are the old ones followed by the range's own rest on
  the same RegisterDef assumption. With the flush, a definition inside the
  token loop would patch earlier documents (and earlier markups of this
  one) and drop the sites it satisfies.
- Annotate.ProcessToken: `linkInclude` and `linkCursorIfIncludedDst` take
  the registry by non-const reference. The model treats them as reading and
  changing nothing, so its frame (slots and documents unchanged, registry
  changed only by the token's registration and deferred site) rests on that
  assumption too.
- Registry.MultiTuProcessor.PrepareToProcess: any reason other than "already
  processed" for declining a file is not modelled.
- Annotate.ProcessToken: the markup is filled in a local sequence that the
  document receives after the token loop (`SetMarkups`), rather than
  appended to a document shared by reference. The markup tag is not
  modelled.
- Annotate.ProcessRange: a file is identified by its name, and its range is
  always the whole file, as both callers use it.
- The "cpf" spelling test in the preprocessing branch is kept as written. The
  code does not show which other test, if any, was meant there.
