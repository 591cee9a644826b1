/** Per-token annotation and linking (processToken) and the per-file token
    loop behind the idempotence guard (processRange). The front end's answers
    about a token are fields of a Token record. */
module Annotate {
  import opened Markups
  import opened Classifier
  import opened Registry

  /** How a cursor the front end returns relates to the token's own cursor. */
  datatype CursorRef = NullCursor | SameCursor | OtherCursor

  /** One token of a range together with everything the front end reports
      about it and its cursor. The link fields are the href that
      linkInclude / linkCursorIfIncludedDst would set (None: they set none). */
  datatype Token = Token(
    kind: TokenKind,
    cursorKind: CursorKind,
    spelling: string,
    file: string,                // file of the token's start
    line: nat,                   // line of the token's start
    begin: nat,                  // byte offset of the token's start
    end: nat,                    // byte offset of the token's end
    startsAtCursor: bool,        // token start == cursor location
    includeBegin: nat,           // extent of an inclusion directive cursor
    includeEnd: nat,
    includeLink: Option<string>, // linkInclude's href for the directive
    referenced: CursorRef,       // clang_getCursorReferenced
    referencedUnderRoot: bool,   // referenced cursor's file is under the root dir
    refLink: Option<string>,     // link to the referenced cursor
    definition: CursorRef,       // clang_getCursorDefinition
    defLink: Option<string>,     // link to the definition, by USR
    usr: string)                 // clang_getCursorUSR

  /** What processing one token does: the markups appended to the current
      document, the declaration registered, the deferred site recorded. */
  datatype TokenEffect = TokenEffect(
    added: seq<Markup>,
    registered: Option<SymbolDeclaration>,
    deferred: Option<MissingDefLink>)

  /** The token refers to another cursor in a file under the root dir. */
  predicate IsRef(t: Token) {
    t.referenced == OtherCursor && t.referencedUnderRoot
  }

  /** The token is a candidate for linking: not a comment or literal, and the
      first token of its cursor. */
  predicate IsHead(t: Token) {
    t.kind != Comment && t.kind != Literal && t.startsAtCursor
  }

  function SpanClass(t: Token): string {
    CssClasses(t.kind, t.cursorKind, t.spelling)
  }

  /** linkCursorIfIncludedDst on a markup: sets "href" when the link exists. */
  function Link(m: Markup, href: Option<string>): Markup {
    match href
    case None => m
    case Some(h) => m.(attrs := m.attrs["href" := h])
  }

  /** The effect of processToken on a token, given the document's slot and
      its number of markups before the call. */
  function EffectOf(t: Token, slot: nat, base: nat): (e: TokenEffect)
    ensures e.added == [] <==> t.begin == t.end
    ensures |e.added| <= 2
    ensures e.added != [] ==>
              e.added[0].begin == t.begin && e.added[0].end == t.end && "class" in e.added[0].attrs
    ensures e.registered.Some? ==> |e.added| == 1 && e.registered.value.usr != "" &&
                                   "id" in e.added[0].attrs &&
                                   e.added[0].attrs["id"] == e.registered.value.usr
    ensures e.added != [] ==> ("id" in e.added[0].attrs <==> e.registered.Some?)
    ensures e.deferred.Some? ==> |e.added| == 1 && "href" !in e.added[0].attrs &&
                                 e.deferred.value == MissingDefLink(slot, base, t.file, t.usr)
  {
    if t.begin == t.end then TokenEffect([], None, None)
    else
      var span := Markup(t.begin, t.end, map["class" := SpanClass(t)]);
      if !IsHead(t) then TokenEffect([span], None, None)
      else if t.cursorKind == InclusionDirective then
        TokenEffect([span] + IncludeLink(t), None, None)
      else LinkEffect(t, span, slot, base)
  }

  /** The markup linking an include directive's extent to the included
      file, when linkInclude has an href for it. */
  function IncludeLink(t: Token): (ms: seq<Markup>)
    ensures |ms| <= 1 && (|ms| == 1 <==> t.includeLink.Some?)
  {
    match t.includeLink
    case None => []
    case Some(h) => [Markup(t.includeBegin, t.includeEnd, map["href" := h])]
  }

  /** The linking policy for a head token other than an include directive,
      applied to its classified markup `span`. */
  function LinkEffect(t: Token, span: Markup, slot: nat, base: nat): (e: TokenEffect)
    requires "class" in span.attrs
    ensures |e.added| == 1 && e.added[0].begin == span.begin && e.added[0].end == span.end
    ensures "class" in e.added[0].attrs
    ensures e.registered.Some? ==> e.registered.value.usr != "" && "id" in e.added[0].attrs &&
                                   e.added[0].attrs["id"] == e.registered.value.usr
    ensures "id" !in span.attrs ==> ("id" in e.added[0].attrs <==> e.registered.Some?)
    ensures e.deferred.Some? ==> e.added[0] == span &&
                                 e.deferred.value == MissingDefLink(slot, base, t.file, t.usr)
  {
    var m := if IsRef(t) then Link(span, t.refLink) else span;
    if t.definition == SameCursor then
      var dfn := m.(attrs := m.attrs["class" := m.attrs["class"] + " dfn"]);
      if t.usr != "" then
        TokenEffect([dfn.(attrs := dfn.attrs["id" := t.usr])],
                    Some(SymbolDeclaration(t.usr, t.file, t.line, true)), None)
      else TokenEffect([dfn], None, None)
    else if IsRef(t) then TokenEffect([m], None, None)
    else if t.definition == NullCursor then
      TokenEffect([m], None,
                  if t.usr != "" then Some(MissingDefLink(slot, base, t.file, t.usr)) else None)
    else TokenEffect([Link(m, t.defLink)], None, None)
  }

  /** A zero-width token leaves the document and the registry as they were. */
  lemma ZeroWidthDropped(t: Token, slot: nat, base: nat)
    requires t.begin == t.end
    ensures EffectOf(t, slot, base) == TokenEffect([], None, None)
  {
  }

  /** Comments, literals and tokens that do not start their cursor get one
      markup holding only their class: no link, no id, nothing registered or
      deferred. */
  lemma NonHeadTokenOnlyClassified(t: Token, slot: nat, base: nat)
    requires t.begin != t.end && !IsHead(t)
    ensures EffectOf(t, slot, base) ==
              TokenEffect([Markup(t.begin, t.end, map["class" := SpanClass(t)])], None, None)
  {
  }

  /** A definition's markup gets " dfn" appended to its class; with a
      non-empty USR its id is the USR and the declaration is registered,
      with an empty one nothing is registered. */
  lemma DefinitionMarked(t: Token, slot: nat, base: nat)
    requires t.begin != t.end && IsHead(t) && t.cursorKind != InclusionDirective
    requires t.definition == SameCursor
    ensures var e := EffectOf(t, slot, base);
            |e.added| == 1 && e.added[0].attrs["class"] == SpanClass(t) + " dfn" &&
            e.deferred == None &&
            (t.usr != "" ==> e.added[0].attrs["id"] == t.usr &&
                             e.registered == Some(SymbolDeclaration(t.usr, t.file, t.line, true))) &&
            (t.usr == "" ==> "id" !in e.added[0].attrs && e.registered == None) &&
            ("href" in e.added[0].attrs <==> IsRef(t) && t.refLink.Some?) &&
            (IsRef(t) && t.refLink.Some? ==> e.added[0].attrs["href"] == t.refLink.value)
  {
  }

  /** An in-root reference that is not its own definition gets the link to
      the referenced cursor, when there is one, and nothing else: no id, no
      registration, no deferral. */
  lemma ReferenceLinked(t: Token, slot: nat, base: nat)
    requires t.begin != t.end && IsHead(t) && t.cursorKind != InclusionDirective
    requires IsRef(t) && t.definition != SameCursor
    ensures EffectOf(t, slot, base) ==
              TokenEffect([Link(Markup(t.begin, t.end, map["class" := SpanClass(t)]), t.refLink)],
                          None, None)
  {
  }

  /** A token that is neither a definition nor an in-root reference, but has
      a definition cursor elsewhere, gets the link to that definition by USR,
      when there is one, and nothing is registered or deferred. */
  lemma DefinitionLinked(t: Token, slot: nat, base: nat)
    requires t.begin != t.end && IsHead(t) && t.cursorKind != InclusionDirective
    requires !IsRef(t) && t.definition == OtherCursor
    ensures EffectOf(t, slot, base) ==
              TokenEffect([Link(Markup(t.begin, t.end, map["class" := SpanClass(t)]), t.defLink)],
                          None, None)
  {
  }

  /** A declaration is registered exactly for a non-empty-width head token,
      not an include directive, that is its own definition and has a USR. */
  lemma RegisteredExactlyForDefinitions(t: Token, slot: nat, base: nat)
    ensures EffectOf(t, slot, base).registered.Some? <==>
              t.begin != t.end && IsHead(t) && t.cursorKind != InclusionDirective &&
              t.definition == SameCursor && t.usr != ""
  {
  }

  /** A site is deferred exactly for a non-empty-width head token, not an
      include directive, that is neither a definition nor an in-root
      reference, has no definition cursor and has a USR; the site addresses
      the markup just appended. */
  lemma DeferredExactlyForUnresolved(t: Token, slot: nat, base: nat)
    ensures var e := EffectOf(t, slot, base);
            (e.deferred.Some? <==>
               t.begin != t.end && IsHead(t) && t.cursorKind != InclusionDirective &&
               t.definition != SameCursor && !IsRef(t) && t.definition == NullCursor && t.usr != "") &&
            (e.deferred.Some? ==> e.deferred.value.slot == slot && e.deferred.value.markupIdx == base + |e.added| - 1)
  {
  }

  /** The head token of an include directive gets its span plus, when
      linkInclude succeeds, a second markup over the whole directive. */
  lemma IncludeDirectiveLinked(t: Token, slot: nat, base: nat)
    requires t.begin != t.end && IsHead(t) && t.cursorKind == InclusionDirective
    ensures var e := EffectOf(t, slot, base);
            e.registered == None && e.deferred == None &&
            (t.includeLink.None? ==> |e.added| == 1) &&
            (t.includeLink.Some? ==> |e.added| == 2 && e.added[1].begin == t.includeBegin &&
                                     e.added[1].end == t.includeEnd &&
                                     e.added[1].attrs == map["href" := t.includeLink.value])
  {
  }

  /** The combined effect of processing a sequence of tokens, in order, into
      a document that starts empty. */
  datatype RangeEffect = RangeEffect(
    markups: seq<Markup>,
    registered: seq<SymbolDeclaration>,
    deferred: seq<MissingDefLink>)
  {
    /** This effect followed by one token's. */
    function Then(e: TokenEffect): (r: RangeEffect)
      ensures |r.markups| == |markups| + |e.added| && r.markups[..|markups|] == markups
    {
      RangeEffect(markups + e.added,
                  registered + OptionToSeq(e.registered),
                  deferred + OptionToSeq(e.deferred))
    }
  }

  function AnnotateTokens(toks: seq<Token>, slot: nat): (r: RangeEffect)
    ensures |r.markups| <= 2 * |toks|
    ensures |r.registered| <= |toks| && |r.deferred| <= |toks|
    ensures forall s | s in r.deferred :: s.slot == slot && s.markupIdx < |r.markups|
    decreases |toks|
  {
    if toks == [] then RangeEffect([], [], [])
    else
      var prev := AnnotateTokens(toks[..|toks| - 1], slot);
      prev.Then(EffectOf(toks[|toks| - 1], slot, |prev.markups|))
  }

  /** Every deferred site of a range addresses a markup of the range that
      carries a class and no link yet: the markup the later definition
      will patch. */
  lemma {:induction false} DeferredSitesAddressUnlinkedMarkups(toks: seq<Token>, slot: nat)
    ensures var r := AnnotateTokens(toks, slot);
            forall s | s in r.deferred ::
              s.markupIdx < |r.markups| && "class" in r.markups[s.markupIdx].attrs &&
              "href" !in r.markups[s.markupIdx].attrs
    decreases |toks|
  {
    if toks != [] {
      var init := toks[..|toks| - 1];
      DeferredSitesAddressUnlinkedMarkups(init, slot);
    }
  }

  /** Annotating one more token extends the range's effect by that token's. */
  lemma AnnotateStep(toks: seq<Token>, i: nat, slot: nat)
    requires i < |toks|
    ensures var prev := AnnotateTokens(toks[..i], slot);
            var e := EffectOf(toks[i], slot, |prev.markups|);
            AnnotateTokens(toks[..i + 1], slot) == prev.Then(e)
  {
    assert toks[..i + 1][..i] == toks[..i];
  }

  lemma RegisterOneMore(defs: map<string, SymbolDeclaration>, ds: seq<SymbolDeclaration>,
                        d: Option<SymbolDeclaration>)
    ensures RegisterAll(defs, ds + OptionToSeq(d)) ==
              if d.Some? then Register(RegisterAll(defs, ds), d.value) else RegisterAll(defs, ds)
  {
    if d.Some? {
      assert (ds + [d.value])[..|ds|] == ds;
    } else {
      assert ds + [] == ds;
    }
  }

  /** The tokens processRange hands to processToken: all but the last one. */
  function AllButLast(toks: seq<Token>): (r: seq<Token>)
    ensures |r| == if toks == [] then 0 else |toks| - 1
    ensures forall i | 0 <= i < |r| :: r[i] == toks[i]
  {
    if toks == [] then [] else toks[..|toks| - 1]
  }

  /** processToken: `markups` are the markups of the document in slot
      `outIdx` (`out`, which the source passes by reference) and `res` what
      they become. The token's markup is appended (and dropped again if it is
      zero-width), classified and linked; the document gains exactly the
      markups of EffectOf and the registry exactly its definition and
      deferred site. */
  method ProcessToken(state: MultiTuProcessor, markups: seq<Markup>, outIdx: nat, tok: Token)
    returns (res: seq<Markup>)
    requires state.Valid() && outIdx < |state.outputs|
    modifies state
    ensures state.Valid() && Grown(old(state.Snapshot()), state.Snapshot())
    ensures var e := EffectOf(tok, outIdx, |markups|);
            res == markups + e.added &&
            state.defs == (if e.registered.Some? then Register(old(state.defs), e.registered.value)
                           else old(state.defs)) &&
            state.missingDefs == old(state.missingDefs) + OptionToSeq(e.deferred)
    ensures state.slotOf == old(state.slotOf) && state.outputs == old(state.outputs)
  {
    res := markups + [Markup(tok.begin, tok.end, map[])];
    if tok.begin == tok.end {
      res := res[..|res| - 1];
      assert res == markups + [];
      return;
    }
    var m := Markup(tok.begin, tok.end, map["class" := SpanClass(tok)]);
    res := markups + [m];

    if tok.kind == Comment || tok.kind == Literal {
      return;
    }
    if !tok.startsAtCursor {
      return;
    }

    if tok.cursorKind == InclusionDirective {
      if tok.includeLink.Some? {
        var im := Markup(tok.includeBegin, tok.includeEnd, map["href" := tok.includeLink.value]);
        res := res + [im];
        assert res == markups + ([m] + IncludeLink(tok));
      } else {
        assert res == markups + ([m] + IncludeLink(tok));
      }
      return;
    }

    res := LinkToken(state, res, outIdx, tok);
    assert (markups + [m])[..|markups|] == markups;
  }

  /** The linking half of processToken for a head token whose markup is the
      last of `markups`: link it as a reference, mark and register it as a
      definition, or defer it on its USR. The markup becomes the one
      LinkEffect gives. */
  method LinkToken(state: MultiTuProcessor, markups: seq<Markup>, outIdx: nat, tok: Token)
    returns (res: seq<Markup>)
    requires state.Valid() && outIdx < |state.outputs|
    requires |markups| > 0 && "class" in markups[|markups| - 1].attrs
    modifies state
    ensures state.Valid() && Grown(old(state.Snapshot()), state.Snapshot())
    ensures var idx := |markups| - 1;
            var e := LinkEffect(tok, markups[idx], outIdx, idx);
            res == markups[..idx] + e.added &&
            state.defs == (if e.registered.Some? then Register(old(state.defs), e.registered.value)
                           else old(state.defs)) &&
            state.missingDefs == old(state.missingDefs) + OptionToSeq(e.deferred)
    ensures state.slotOf == old(state.slotOf) && state.outputs == old(state.outputs)
  {
    var idx := |markups| - 1;
    var m := markups[idx];
    var isRef := tok.referenced == OtherCursor && tok.referencedUnderRoot;
    if isRef {
      m := Link(m, tok.refLink);
    }

    if tok.definition == SameCursor {
      m := m.(attrs := m.attrs["class" := m.attrs["class"] + " dfn"]);
      if tok.usr != "" {
        var decl := SymbolDeclaration(tok.usr, tok.file, tok.line, true);
        m := m.(attrs := m.attrs["id" := decl.usr]);
        state.RegisterDef(decl);
      }
    } else if !isRef {
      if tok.definition == NullCursor {
        if tok.usr != "" {
          state.RegisterMissingDefLink(outIdx, idx, tok.file, tok.usr);
        }
      } else {
        m := Link(m, tok.defLink);
      }
    }
    res := markups[..idx] + [m];
  }

  /** The registry holds what `r` gives on top of `start`: its definitions
      and its deferred sites, with no slot or document changed. */
  ghost predicate Applied(start: Tables, now: Tables, r: RangeEffect) {
    now.slotOf == start.slotOf &&
    now.outputs == start.outputs &&
    now.defs == RegisterAll(start.defs, r.registered) &&
    now.missingDefs == start.missingDefs + r.deferred
  }

  /** Registering one token's definition and deferred site extends what the
      registry holds by that token's effect. */
  lemma AppliedStep(start: Tables, before: Tables, after: Tables, r: RangeEffect, e: TokenEffect)
    requires Applied(start, before, r)
    requires after.slotOf == before.slotOf && after.outputs == before.outputs
    requires after.defs == (if e.registered.Some? then Register(before.defs, e.registered.value)
                            else before.defs)
    requires after.missingDefs == before.missingDefs + OptionToSeq(e.deferred)
    ensures Applied(start, after, r.Then(e))
  {
    RegisterOneMore(start.defs, r.registered, e.registered);
    assert start.missingDefs + r.deferred + OptionToSeq(e.deferred) ==
           start.missingDefs + (r.deferred + OptionToSeq(e.deferred));
  }

  /** The token loop of processRange: processToken on every token of the
      range but the last, in order, filling the fresh document in `slot`.
      The document ends up holding exactly the markups AnnotateTokens gives,
      and the registry gains exactly its definitions and deferred sites. */
  method AnnotateFile(state: MultiTuProcessor, slot: nat, file: string, tokens: seq<Token>)
    requires state.Valid() && slot < |state.outputs|
    requires state.outputs[slot] == HighlightedFile(file, [])
    modifies state
    ensures state.Valid() && Grown(old(state.Snapshot()), state.Snapshot())
    ensures var r := AnnotateTokens(AllButLast(tokens), slot);
            state.slotOf == old(state.slotOf) &&
            state.outputs == old(state.outputs)[slot := HighlightedFile(file, r.markups)] &&
            state.defs == RegisterAll(old(state.defs), r.registered) &&
            state.missingDefs == old(state.missingDefs) + r.deferred
  {
    ghost var start := state.Snapshot();
    var markups: seq<Markup> := [];
    var numTokens := |tokens|;
    if numTokens > 0 {
      for i := 0 to numTokens - 1
        invariant state.Valid() && Grown(start, state.Snapshot())
        invariant markups == AnnotateTokens(tokens[..i], slot).markups
        invariant Applied(start, state.Snapshot(), AnnotateTokens(tokens[..i], slot))
      {
        ghost var before := state.Snapshot();
        ghost var prev := AnnotateTokens(tokens[..i], slot);
        markups := ProcessToken(state, markups, slot, tokens[i]);
        GrownTransitive(start, before, state.Snapshot());
        AppliedStep(start, before, state.Snapshot(), prev, EffectOf(tokens[i], slot, |prev.markups|));
        AnnotateStep(tokens, i, slot);
      }
      assert AllButLast(tokens) == tokens[..numTokens - 1];
    }
    ghost var done := state.Snapshot();
    state.SetMarkups(slot, markups);
    GrownTransitive(start, done, state.Snapshot());
  }

  /** What the front end reports for one translation unit: its files, the
      tokens of each file's whole range (with their cursors) and the files
      each file's include directives name. */
  datatype TranslationUnit = TranslationUnit(
    files: seq<string>,
    tokens: map<string, seq<Token>>,
    includes: map<string, seq<string>>)
  {
    /** Every file with tokens is a file of the unit, and every included
        file has a token range. */
    ghost predicate Valid() {
      (forall f | f in tokens :: f in files) &&
      (forall f, j | f in includes && 0 <= j < |includes[f]| :: includes[f][j] in tokens)
    }

    function IncludesOf(file: string): seq<string> {
      if file in includes then includes[file] else []
    }
  }

  /** How many entries of `files` have no slot yet. */
  function Pending(files: seq<string>, slotOf: map<string, nat>): nat {
    if files == [] then 0
    else Pending(files[1..], slotOf) + (if files[0] in slotOf then 0 else 1)
  }

  /** Giving slots to more files never raises the count of pending files, and
      giving one to a pending file lowers it. */
  lemma {:induction false} PendingShrinks(files: seq<string>, s0: map<string, nat>,
                                          s1: map<string, nat>, f: string)
    requires s0.Keys <= s1.Keys
    ensures Pending(files, s1) <= Pending(files, s0)
    ensures f in files && f !in s0 && f in s1 ==> Pending(files, s1) < Pending(files, s0)
    decreases |files|
  {
    if files != [] {
      PendingShrinks(files[1..], s0, s1, f);
      if f in files && files[0] != f {
        assert f in files[1..];
      }
    }
  }

  lemma PrefixTransitive<T>(a: seq<T>, b: seq<T>, c: seq<T>)
    requires |a| <= |b| <= |c| && b[..|a|] == a && c[..|b|] == b
    ensures c[..|a|] == a
  {
    assert c[..|a|] == c[..|b|][..|a|];
  }

  /** `file`, which had no slot in `a`, got the next slot; its document holds
      the markups of `r`; the sites it deferred follow the earlier ones; the
      definitions it registered are in `b`. */
  ghost predicate FileAnnotated(a: Tables, b: Tables, file: string, r: RangeEffect) {
    var slot := |a.outputs|;
    var n0 := |a.missingDefs|;
    var defs := RegisterAll(a.defs, r.registered);
    file in b.slotOf && b.slotOf[file] == slot &&
    slot < |b.outputs| && b.outputs[slot] == HighlightedFile(file, r.markups) &&
    n0 + |r.deferred| <= |b.missingDefs| && b.missingDefs[n0..n0 + |r.deferred|] == r.deferred &&
    (forall u | u in defs :: u in b.defs && b.defs[u] == defs[u])
  }

  /** What processRange leaves behind for `file` survives the processing of
      its includes, which only grows the tables. */
  lemma AnnotationSurvives(a: Tables, done: Tables, b: Tables, file: string, r: RangeEffect)
    requires file !in a.slotOf
    requires done.slotOf == a.slotOf[file := |a.outputs|]
    requires done.outputs == a.outputs + [HighlightedFile(file, r.markups)]
    requires done.defs == RegisterAll(a.defs, r.registered)
    requires done.missingDefs == a.missingDefs + r.deferred
    requires Grown(done, b) && b.outputs[..|done.outputs|] == done.outputs
    ensures Grown(a, b) && FileAnnotated(a, b, file, r)
    ensures b.outputs[..|a.outputs|] == a.outputs
  {
    var n0 := |a.missingDefs|;
    RegisterAllKeeps(a.defs, r.registered);
    assert b.outputs[..|a.outputs|] == b.outputs[..|done.outputs|][..|a.outputs|];
    assert b.missingDefs[..|done.missingDefs|] == done.missingDefs;
    assert b.missingDefs[n0..n0 + |r.deferred|] == b.missingDefs[..|done.missingDefs|][n0..];
    assert b.outputs[|a.outputs|].fileName == file;
  }

  /** processRange on the whole range of `file`: skipped entirely when the
      file already has a slot; otherwise the file gets a new document holding
      the markups of every token but the last (`r`), and then the files its
      include directives name are processed in turn. Documents that existed
      before are never touched. */
  method ProcessRange(state: MultiTuProcessor, tu: TranslationUnit, file: string)
    returns (ghost r: RangeEffect)
    requires state.Valid() && tu.Valid() && file in tu.tokens
    modifies state
    ensures state.Valid() && Grown(old(state.Snapshot()), state.Snapshot())
    ensures file in state.slotOf
    ensures state.outputs[..|old(state.outputs)|] == old(state.outputs)
    ensures file in old(state.slotOf) ==> state.Snapshot() == old(state.Snapshot())
    ensures file !in old(state.slotOf) ==>
              r == AnnotateTokens(AllButLast(tu.tokens[file]), |old(state.outputs)|) &&
              FileAnnotated(old(state.Snapshot()), state.Snapshot(), file, r)
    decreases Pending(tu.files, state.slotOf), 1
  {
    var isNew, slot := state.PrepareToProcess(file);
    if !isNew {
      r := RangeEffect([], [], []);
      return;
    }
    PendingShrinks(tu.files, old(state.slotOf), state.slotOf, file);
    r := AnnotateNewFile(state, tu, file, slot, old(state.Snapshot()));
  }

  /** processRange past its guard: `file` has just got the empty document in
      `slot`, the last one. Its tokens are annotated into it, then its
      includes are processed. */
  method AnnotateNewFile(state: MultiTuProcessor, tu: TranslationUnit, file: string, slot: nat,
                         ghost before: Tables)
    returns (ghost r: RangeEffect)
    requires state.Valid() && tu.Valid() && file in tu.tokens
    requires file !in before.slotOf && slot == |before.outputs|
    requires state.slotOf == before.slotOf[file := slot]
    requires state.outputs == before.outputs + [HighlightedFile(file, [])]
    requires state.defs == before.defs && state.missingDefs == before.missingDefs
    modifies state
    ensures state.Valid() && Grown(before, state.Snapshot())
    ensures state.outputs[..|before.outputs|] == before.outputs
    ensures r == AnnotateTokens(AllButLast(tu.tokens[file]), slot)
    ensures FileAnnotated(before, state.Snapshot(), file, r)
    decreases Pending(tu.files, state.slotOf), 4
  {
    AnnotateFile(state, slot, file, tu.tokens[file]);
    r := AnnotateTokens(AllButLast(tu.tokens[file]), slot);
    ghost var done := state.Snapshot();
    ProcessIncludes(state, tu, file);
    AnnotationSurvives(before, done, state.Snapshot(), file, r);
  }

  /** includeVisitor for one include directive: processRange on the whole
      range of the included file `inc`. */
  method VisitInclude(state: MultiTuProcessor, tu: TranslationUnit, inc: string)
    requires state.Valid() && tu.Valid() && inc in tu.tokens
    modifies state
    ensures state.Valid() && Grown(old(state.Snapshot()), state.Snapshot())
    ensures state.outputs[..|old(state.outputs)|] == old(state.outputs)
    ensures inc in state.slotOf
    decreases Pending(tu.files, state.slotOf), 2
  {
    ghost var _ := ProcessRange(state, tu, inc);
  }

  /** clang_findIncludesInFile: includeVisitor on every include directive of
      `file`, in order; afterwards every file they name has a slot. */
  method ProcessIncludes(state: MultiTuProcessor, tu: TranslationUnit, file: string)
    requires state.Valid() && tu.Valid()
    modifies state
    ensures state.Valid() && Grown(old(state.Snapshot()), state.Snapshot())
    ensures state.outputs[..|old(state.outputs)|] == old(state.outputs)
    ensures forall f | f in tu.IncludesOf(file) :: f in state.slotOf
    decreases Pending(tu.files, state.slotOf), 3
  {
    var incs := tu.IncludesOf(file);
    ghost var start := state.Snapshot();
    for j := 0 to |incs|
      invariant state.Valid() && Grown(start, state.Snapshot())
      invariant state.outputs[..|start.outputs|] == start.outputs
      invariant forall i | 0 <= i < j :: incs[i] in state.slotOf
    {
      ghost var before := state.Snapshot();
      PendingShrinks(tu.files, start.slotOf, before.slotOf, file);
      VisitInclude(state, tu, incs[j]);
      forall i | 0 <= i < j + 1
        ensures incs[i] in state.slotOf
      {
        if i < j {
          assert incs[i] in before.slotOf;
        }
      }
      GrownTransitive(start, before, state.Snapshot());
      PrefixTransitive(start.outputs, before.outputs, state.outputs);
    }
  }
}
