/** The state shared by all translation units: one output document per file,
    the symbol registry and the table of deferred reference sites. */
module Registry {
  import opened Markups

  /** One file's annotated output, held by the registry in the file's slot. */
  datatype HighlightedFile = HighlightedFile(fileName: string, markups: seq<Markup>)

  /** registerDef on the definition map: the first declaration registered
      for a USR stays; a later one for the same USR changes nothing. */
  function Register(defs: map<string, SymbolDeclaration>, d: SymbolDeclaration)
    : (r: map<string, SymbolDeclaration>)
    ensures r.Keys == defs.Keys + {d.usr}
    ensures forall u | u in defs :: r[u] == defs[u]
    ensures d.usr !in defs ==> r[d.usr] == d
  {
    if d.usr in defs then defs else defs[d.usr := d]
  }

  /** The definition map after registering `ds` in order. */
  function RegisterAll(defs: map<string, SymbolDeclaration>, ds: seq<SymbolDeclaration>)
    : map<string, SymbolDeclaration>
    decreases |ds|
  {
    if ds == [] then defs else Register(RegisterAll(defs, ds[..|ds| - 1]), ds[|ds| - 1])
  }

  /** Registering a sequence keeps every earlier entry and adds exactly the
      USRs registered. */
  lemma {:induction false} RegisterAllKeeps(defs: map<string, SymbolDeclaration>, ds: seq<SymbolDeclaration>)
    ensures RegisterAll(defs, ds).Keys == defs.Keys + set d | d in ds :: d.usr
    ensures forall u | u in defs :: RegisterAll(defs, ds)[u] == defs[u]
    decreases |ds|
  {
    if ds != [] {
      var init := ds[..|ds| - 1];
      RegisterAllKeeps(defs, init);
      assert ds == init + [ds[|ds| - 1]];
      assert (set d | d in ds :: d.usr) == (set d | d in init :: d.usr) + {ds[|ds| - 1].usr};
    }
  }

  /** First writer wins: a USR not yet registered ends up bound to the first
      declaration in `ds` that carries it. */
  lemma {:induction false} RegisterAllFirstWins(
    defs: map<string, SymbolDeclaration>, ds: seq<SymbolDeclaration>, i: nat)
    requires i < |ds| && ds[i].usr !in defs
    requires forall j | 0 <= j < i :: ds[j].usr != ds[i].usr
    ensures ds[i].usr in RegisterAll(defs, ds) && RegisterAll(defs, ds)[ds[i].usr] == ds[i]
    decreases |ds|
  {
    var init := ds[..|ds| - 1];
    if i == |ds| - 1 {
      RegisterAllKeeps(defs, init);
    } else {
      RegisterAllFirstWins(defs, init, i);
    }
  }

  /** The registry's tables, as values. */
  datatype Tables = Tables(
    slotOf: map<string, nat>,
    outputs: seq<HighlightedFile>,
    defs: map<string, SymbolDeclaration>,
    missingDefs: seq<MissingDefLink>)

  /** `b` extends `a`: no slot is reassigned or dropped, no definition is
      overwritten and no deferred site is dropped. */
  ghost predicate Grown(a: Tables, b: Tables) {
    (forall f | f in a.slotOf :: f in b.slotOf && b.slotOf[f] == a.slotOf[f]) &&
    |a.outputs| <= |b.outputs| &&
    (forall u | u in a.defs :: u in b.defs && b.defs[u] == a.defs[u]) &&
    |a.missingDefs| <= |b.missingDefs| && b.missingDefs[..|a.missingDefs|] == a.missingDefs
  }

  lemma GrownTransitive(a: Tables, b: Tables, c: Tables)
    requires Grown(a, b) && Grown(b, c)
    ensures Grown(a, c)
  {
    assert c.missingDefs[..|a.missingDefs|] == c.missingDefs[..|b.missingDefs|][..|a.missingDefs|];
  }

  /** MultiTuProcessor: the file registry (file -> slot -> document), the
      symbol registry (USR -> definition) and the deferred link table. */
  class MultiTuProcessor {
    var slotOf: map<string, nat>
    var outputs: seq<HighlightedFile>
    var defs: map<string, SymbolDeclaration>
    var missingDefs: seq<MissingDefLink>

    /** Every file's slot holds that file's document and every document sits
        in its file's slot, so each file has exactly one document and no two
        files share a slot; every definition is stored under its own USR, and
        every deferred site names an existing slot. */
    ghost predicate Valid()
      reads this
    {
      (forall f | f in slotOf :: slotOf[f] < |outputs| && outputs[slotOf[f]].fileName == f) &&
      (forall i | 0 <= i < |outputs| :: outputs[i].fileName in slotOf &&
                                        slotOf[outputs[i].fileName] == i) &&
      (forall u | u in defs :: defs[u].usr == u) &&
      (forall s | s in missingDefs :: s.slot < |outputs|)
    }

    /** Each file has exactly one document: no two slots hold documents of
        the same file. */
    lemma OneDocumentPerFile(i: nat, j: nat)
      requires Valid() && i < |outputs| && j < |outputs| && i != j
      ensures outputs[i].fileName != outputs[j].fileName
    {
    }

    function Snapshot(): Tables
      reads this
    {
      Tables(slotOf, outputs, defs, missingDefs)
    }

    constructor ()
      ensures Valid()
      ensures slotOf == map[] && outputs == [] && defs == map[] && missingDefs == []
    {
      slotOf, outputs, defs, missingDefs := map[], [], map[], [];
    }

    /** prepareToProcess: the first time a file is seen it gets a new, empty
        document in the next slot and `isNew` is true; every later time
        `isNew` is false ("no document": the file was processed already)
        and the slot is the one assigned the first time. */
    method PrepareToProcess(file: string) returns (isNew: bool, slot: nat)
      requires Valid()
      modifies this
      ensures Valid() && Grown(old(Snapshot()), Snapshot())
      ensures isNew <==> file !in old(slotOf)
      ensures file in slotOf && slot == slotOf[file] && slot < |outputs|
      ensures !isNew ==> Snapshot() == old(Snapshot())
      ensures isNew ==>
                slot == |old(outputs)| && outputs == old(outputs) + [HighlightedFile(file, [])] &&
                slotOf == old(slotOf)[file := slot] &&
                defs == old(defs) && missingDefs == old(missingDefs)
    {
      if file in slotOf {
        return false, slotOf[file];
      }
      slot := |outputs|;
      outputs := outputs + [HighlightedFile(file, [])];
      slotOf := slotOf[file := slot];
      isNew := true;
    }

    /** The document in `slot` gets the markups `ms`. */
    method SetMarkups(slot: nat, ms: seq<Markup>)
      requires Valid() && slot < |outputs|
      modifies this
      ensures Valid() && Grown(old(Snapshot()), Snapshot())
      ensures outputs == old(outputs)[slot := HighlightedFile(old(outputs[slot].fileName), ms)]
      ensures slotOf == old(slotOf) && defs == old(defs) && missingDefs == old(missingDefs)
    {
      outputs := outputs[slot := outputs[slot].(markups := ms)];
    }

    /** registerDef: first writer wins. */
    method RegisterDef(decl: SymbolDeclaration)
      requires Valid()
      modifies this
      ensures Valid() && Grown(old(Snapshot()), Snapshot())
      ensures defs == Register(old(defs), decl)
      ensures slotOf == old(slotOf) && outputs == old(outputs) && missingDefs == old(missingDefs)
    {
      if decl.usr !in defs {
        defs := defs[decl.usr := decl];
      }
    }

    /** registerMissingDefLink: records the reference site `markupIdx` of
        the document in `slot`, waiting for a definition of `usr`. */
    method RegisterMissingDefLink(slot: nat, markupIdx: nat, srcFile: string, usr: string)
      requires Valid() && slot < |outputs|
      modifies this
      ensures Valid() && Grown(old(Snapshot()), Snapshot())
      ensures missingDefs == old(missingDefs) + [MissingDefLink(slot, markupIdx, srcFile, usr)]
      ensures slotOf == old(slotOf) && outputs == old(outputs) && defs == old(defs)
    {
      missingDefs := missingDefs + [MissingDefLink(slot, markupIdx, srcFile, usr)];
      assert missingDefs[..|old(missingDefs)|] == old(missingDefs);
    }
  }
}
