/** internal/provider/model_catalog.go: the models of an account from Cursor's parameterized catalogue. */
module Catalog {
  import opened Prelude
  import opened GoText

  datatype Parameter = Parameter(id: string, value: string)

  datatype Variant = Variant(
    legacySlug: string, displayName: string, isMaxMode: bool, isDefault: bool, parameters: seq<Parameter>)

  datatype Available = Available(
    name: string, clientDisplayName: string, supportsAgent: Option<bool>, isHidden: bool, variants: seq<Variant>)

  datatype Selection = Selection(modelId: string, parameters: seq<Parameter>)

  datatype CursorModel = CursorModel(id: string, displayName: string, selection: Selection)

  // ---- the variants that may be offered ----

  datatype Entry = Entry(item: CursorModel, isDefault: bool)

  predicate IsOffered(model: Available) {
    Trim(model.name) != "" && !model.isHidden && model.supportsAgent != Some(false)
  }

  /** A model without variants stands for one plain variant of its own name. */
  function VariantsOf(model: Available): seq<Variant> {
    if model.variants == [] then [Variant(Trim(model.name), "", false, false, [])] else model.variants
  }

  function ItemOf(model: Available, variant: Variant): CursorModel {
    var name := Trim(model.name);
    CursorModel(
      FirstNonEmpty([variant.legacySlug, name]),
      FirstNonEmpty([variant.displayName, model.clientDisplayName, name]),
      Selection(name, variant.parameters))
  }

  function VariantEntries(model: Available, variants: seq<Variant>): seq<Entry> {
    if variants == [] then []
    else
      var last := variants[|variants| - 1];
      VariantEntries(model, variants[..|variants| - 1])
      + (if last.isMaxMode then [] else [Entry(ItemOf(model, last), last.isDefault)])
  }

  /** Every variant that may be offered, in the catalogue's order. */
  function Entries(models: seq<Available>): seq<Entry> {
    if models == [] then []
    else
      var last := models[|models| - 1];
      Entries(models[..|models| - 1]) + (if IsOffered(last) then VariantEntries(last, VariantsOf(last)) else [])
  }

  // ---- one model for each ID ----

  function Key(e: Entry): string {
    Lower(e.item.id)
  }

  lemma KeyIs(e: Entry)
    ensures Key(e) == Lower(e.item.id)
  {
  }

  predicate IsNew(key: string, es: seq<Entry>) {
    forall e <- es :: Key(e) != key
  }

  /** No earlier entry has its ID. */
  predicate IsFirst(es: seq<Entry>, i: nat)
    requires i < |es|
  {
    IsNew(Key(es[i]), es[..i])
  }

  function Firsts(es: seq<Entry>): (r: seq<nat>)
    ensures forall k :: 0 <= k < |r| ==> r[k] < |es|
  {
    if es == [] then []
    else
      var n := |es| - 1;
      Firsts(es[..n]) + (if IsFirst(es, n) then [n] else [])
  }

  /** The entry that gets the place of entry `i`: the last default variant after it with the same ID
      among the first `n`, or else itself. */
  function Pick(es: seq<Entry>, i: nat, n: nat): (p: nat)
    requires i < |es| && n <= |es|
    ensures p < |es|
  {
    if n <= i + 1 then i
    else if Key(es[n - 1]) == Key(es[i]) && es[n - 1].isDefault then n - 1
    else Pick(es, i, n - 1)
  }

  function Chosen(es: seq<Entry>): (r: seq<CursorModel>)
    ensures |r| == |Firsts(es)|
    ensures forall k {:trigger r[k]} :: 0 <= k < |r| ==> r[k] == es[Pick(es, Firsts(es)[k], |es|)].item
  {
    seq(|Firsts(es)|, k requires 0 <= k < |Firsts(es)| => es[Pick(es, Firsts(es)[k], |es|)].item)
  }

  /** `seen` says where each ID is. */
  ghost predicate Indexed(seen: map<string, nat>, models: seq<CursorModel>) {
    && (forall k :: 0 <= k < |models| ==> Lower(models[k].id) in seen && seen[Lower(models[k].id)] == k)
    && (forall key <- seen :: seen[key] < |models| && Lower(models[seen[key]].id) == key)
  }

  method ParameterizedModels(available: seq<Available>) returns (models: seq<CursorModel>)
    ensures models == Chosen(Entries(available))
  {
    models := [];
    var seen: map<string, nat> := map[];
    hide *;
    assert available[..0] == [];
    assert Indexed(seen, models) && models == Chosen(Entries([])) by {
      Nothing(Available("", "", None, false, []));
    }
    for i := 0 to |available|
      invariant Indexed(seen, models) && models == Chosen(Entries(available[..i]))
    {
      var model := available[i];
      ghost var done := Entries(available[..i]);
      NextModel(available, i);
      if !IsOffered(model) {
        assert done + [] == done;
        continue;
      }
      var variants := VariantsOf(model);
      Nothing(model);
      assert variants[..0] == [] && done + [] == done;
      for j := 0 to |variants|
        invariant Indexed(seen, models) && models == Chosen(done + VariantEntries(model, variants[..j]))
      {
        var variant := variants[j];
        ghost var es := done + VariantEntries(model, variants[..j]);
        NextVariant(model, variants, j);
        if variant.isMaxMode {
          assert VariantEntries(model, variants[..j + 1]) == VariantEntries(model, variants[..j]);
          continue;
        }
        var item := ItemOf(model, variant);
        ghost var e := Entry(item, variant.isDefault);
        assert done + VariantEntries(model, variants[..j + 1]) == es + [e];
        ChosenStep(es, e, seen);
        IndexStep(seen, models, item);
        var key := Lower(item.id);
        assert key == Key(e) by { KeyIs(e); }
        if key in seen {
          if variant.isDefault {
            models := models[seen[key] := item];
          }
          continue;
        }
        seen := seen[key := |models|];
        models := models + [item];
      }
      assert variants[..|variants|] == variants;
    }
    assert available[..|available|] == available;
  }

  lemma Nothing(model: Available)
    ensures VariantEntries(model, []) == [] && Entries([]) == [] && Chosen([]) == [] && Indexed(map[], [])
  {
  }

  /** Replacing a model by one with the same ID, or adding one with a new ID. */
  lemma IndexStep(seen: map<string, nat>, models: seq<CursorModel>, item: CursorModel)
    requires Indexed(seen, models)
    ensures var key := Lower(item.id);
      if key in seen then seen[key] < |models| && Indexed(seen, models[seen[key] := item])
      else Indexed(seen[key := |models|], models + [item])
  {
  }

  /** Every entry has a first one with its ID. */
  lemma {:induction false} FirstOf(es: seq<Entry>, j: nat) returns (k: nat)
    requires j < |es|
    ensures k < |Firsts(es)| && Key(es[Firsts(es)[k]]) == Key(es[j])
  {
    var n := |es| - 1;
    if j < n {
      k := FirstOf(es[..n], j);
    } else if IsFirst(es, n) {
      k := |Firsts(es)| - 1;
    } else {
      var e :| e in es[..n] && Key(e) == Key(es[n]);
      var i :| 0 <= i < n && es[i] == e;
      k := FirstOf(es[..n], i);
    }
  }

  lemma KeysSeen(es: seq<Entry>, seen: map<string, nat>)
    requires Indexed(seen, Chosen(es))
    ensures forall j :: 0 <= j < |es| ==> Key(es[j]) in seen
    ensures forall k {:trigger Firsts(es)[k]} :: 0 <= k < |Firsts(es)| ==> seen[Key(es[Firsts(es)[k]])] == k
    ensures forall key <- seen :: Key(es[Firsts(es)[seen[key]]]) == key
  {
    forall k {:trigger Firsts(es)[k]} | 0 <= k < |Firsts(es)|
      ensures Lower(Chosen(es)[k].id) == Key(es[Firsts(es)[k]])
    {
      PickExactly(es, Firsts(es)[k], |es|);
    }
    forall j | 0 <= j < |es| ensures Key(es[j]) in seen {
      var k := FirstOf(es, j);
    }
  }

  lemma FirstsSnoc(es: seq<Entry>, e: Entry)
    ensures Firsts(es + [e]) == Firsts(es) + (if IsNew(Key(e), es) then [|es|] else [])
  {
    assert (es + [e])[..|es|] == es;
  }

  lemma {:induction false} PickPrefix(es: seq<Entry>, e: Entry, i: nat, n: nat)
    requires i < |es| && n <= |es|
    ensures Pick(es + [e], i, n) == Pick(es, i, n)
  {
    if n > i + 1 { PickPrefix(es, e, i, n - 1); }
  }

  lemma PickSnoc(es: seq<Entry>, e: Entry, i: nat)
    requires i < |es|
    ensures Pick(es + [e], i, |es| + 1) == if Key(e) == Key(es[i]) && e.isDefault then |es| else Pick(es, i, |es|)
  {
    PickPrefix(es, e, i, |es|);
  }

  lemma PlaceAfter(es: seq<Entry>, e: Entry, k: nat)
    requires k < |Firsts(es)|
    ensures k < |Firsts(es + [e])|
    ensures Chosen(es + [e])[k] ==
            if Key(e) == Key(es[Firsts(es)[k]]) && e.isDefault then e.item else Chosen(es)[k]
  {
    FirstsSnoc(es, e);
    PickSnoc(es, e, Firsts(es)[k]);
    hide Firsts, Pick, Key, IsNew;
    assert Firsts(es + [e])[k] == Firsts(es)[k];
  }

  lemma NewPlace(es: seq<Entry>, e: Entry)
    requires IsNew(Key(e), es)
    ensures Chosen(es + [e]) == Chosen(es) + [e.item]
  {
    FirstsSnoc(es, e);
    PickExactly(es + [e], |es|, |es| + 1);
    hide Firsts, Pick;
    forall k {:trigger Chosen(es)[k]} | 0 <= k < |Chosen(es)| ensures Chosen(es + [e])[k] == Chosen(es)[k] {
      PlaceAfter(es, e, k);
    }
    assert Firsts(es + [e])[|Chosen(es)|] == |es|;
  }

  lemma NoNewPlace(es: seq<Entry>, e: Entry, j: nat)
    requires j < |es| && Key(es[j]) == Key(e)
    ensures |Chosen(es + [e])| == |Chosen(es)|
  {
    FirstsSnoc(es, e);
  }

  /** What one more entry changes. */
  lemma ChosenStep(es: seq<Entry>, e: Entry, seen: map<string, nat>)
    requires Indexed(seen, Chosen(es))
    ensures Key(e) !in seen ==> Chosen(es + [e]) == Chosen(es) + [e.item]
    ensures Key(e) in seen ==> seen[Key(e)] < |Chosen(es)|
    ensures Key(e) in seen ==>
      Chosen(es + [e]) == if e.isDefault then Chosen(es)[seen[Key(e)] := e.item] else Chosen(es)
  {
    KeysSeen(es, seen);
    if Key(e) !in seen {
      NewPlace(es, e);
    } else {
      var at := seen[Key(e)];
      assert at < |Chosen(es)| && Key(es[Firsts(es)[at]]) == Key(e);
      hide *;
      NoNewPlace(es, e, Firsts(es)[at]);
      forall k {:trigger Chosen(es)[k]} | 0 <= k < |Chosen(es)|
        ensures Chosen(es + [e])[k] == if k == at && e.isDefault then e.item else Chosen(es)[k]
      {
        PlaceAfter(es, e, k);
      }
    }
  }

  lemma NextVariant(model: Available, variants: seq<Variant>, j: nat)
    requires j < |variants|
    ensures VariantEntries(model, variants[..j + 1]) == VariantEntries(model, variants[..j]) +
            (if variants[j].isMaxMode then [] else [Entry(ItemOf(model, variants[j]), variants[j].isDefault)])
  {
    assert variants[..j + 1][..j] == variants[..j];
  }

  lemma NextModel(models: seq<Available>, i: nat)
    requires i < |models|
    ensures Entries(models[..i + 1]) ==
            Entries(models[..i]) +
            (if IsOffered(models[i]) then VariantEntries(models[i], VariantsOf(models[i])) else [])
  {
    assert models[..i + 1][..i] == models[..i];
  }

  // ---- what the choice amounts to ----

  /** The places are those of the entries no earlier entry shares its ID with, in order. */
  lemma {:induction false} FirstsExactly(es: seq<Entry>)
    ensures forall k, l :: 0 <= k < l < |Firsts(es)| ==> Firsts(es)[k] < Firsts(es)[l]
    ensures forall i :: 0 <= i < |es| ==> (i in Firsts(es) <==> IsFirst(es, i))
  {
    if es != [] {
      var n := |es| - 1;
      FirstsExactly(es[..n]);
      forall i | 0 <= i < n ensures IsFirst(es[..n], i) <==> IsFirst(es, i) {
        assert es[..n][..i] == es[..i];
      }
    }
  }

  /** A place is taken by an entry of its ID: the last default one after the first, if there is any. */
  lemma {:induction false} PickExactly(es: seq<Entry>, i: nat, n: nat)
    requires i < n <= |es|
    ensures var p := Pick(es, i, n);
      && i <= p < n && Key(es[p]) == Key(es[i]) && (p != i ==> es[p].isDefault)
      && forall j :: p < j < n && Key(es[j]) == Key(es[i]) ==> !es[j].isDefault
  {
    if n > i + 1 && !(Key(es[n - 1]) == Key(es[i]) && es[n - 1].isDefault) {
      PickExactly(es, i, n - 1);
    }
  }

  /** The list names each ID once, letter case aside: model k has the ID of the k-th entry nobody
      precedes with it, and no entry's ID is missing. */
  lemma EachIdOnce(es: seq<Entry>)
    ensures forall k {:trigger Chosen(es)[k]} :: 0 <= k < |Chosen(es)| ==>
        Lower(Chosen(es)[k].id) == Key(es[Firsts(es)[k]])
    ensures forall k, l :: 0 <= k < l < |Chosen(es)| ==> Lower(Chosen(es)[k].id) != Lower(Chosen(es)[l].id)
    ensures forall e <- es :: exists k :: 0 <= k < |Chosen(es)| && Lower(Chosen(es)[k].id) == Key(e)
  {
    FirstsExactly(es);
    forall k {:trigger Chosen(es)[k]} | 0 <= k < |Chosen(es)|
      ensures Lower(Chosen(es)[k].id) == Key(es[Firsts(es)[k]])
    {
      PickExactly(es, Firsts(es)[k], |es|);
    }
    forall k, l | 0 <= k < l < |Chosen(es)| ensures Lower(Chosen(es)[k].id) != Lower(Chosen(es)[l].id) {
      var i, j := Firsts(es)[k], Firsts(es)[l];
      assert j in Firsts(es) && es[i] in es[..j];
    }
    forall e <- es ensures exists k :: 0 <= k < |Chosen(es)| && Lower(Chosen(es)[k].id) == Key(e) {
      var j :| 0 <= j < |es| && es[j] == e;
      var k := FirstOf(es, j);
      assert Lower(Chosen(es)[k].id) == Key(e);
    }
  }

  lemma {:induction false} VariantEntriesExactly(model: Available, variants: seq<Variant>, e: Entry)
    ensures e in VariantEntries(model, variants) <==>
            exists v :: v in variants && !v.isMaxMode && e == Entry(ItemOf(model, v), v.isDefault)
  {
    hide ItemOf;
    if variants != [] {
      var front, last := variants[..|variants| - 1], variants[|variants| - 1];
      VariantEntriesExactly(model, front, e);
      assert variants == front + [last];
    }
  }

  lemma {:induction false} EntriesAre(models: seq<Available>, e: Entry)
    ensures e in Entries(models) <==>
            exists m, v :: m in models && IsOffered(m) && v in VariantsOf(m) && !v.isMaxMode
                && e == Entry(ItemOf(m, v), v.isDefault)
  {
    hide IsOffered, ItemOf;
    if models != [] {
      var front, last := models[..|models| - 1], models[|models| - 1];
      EntriesAre(front, e);
      VariantEntriesExactly(last, VariantsOf(last), e);
      assert models == front + [last];
    }
  }

  /** The model offered for a variant: its slug or else the name, the first name to display, and the
      selection Cursor is sent. */
  ghost predicate Stands(e: Entry, m: Available, v: Variant) {
    var name := Trim(m.name);
    && e.isDefault == v.isDefault
    && e.item.id == (if Trim(v.legacySlug) != "" then Trim(v.legacySlug) else name)
    && e.item.displayName == (
         if Trim(v.displayName) != "" then Trim(v.displayName)
         else if Trim(m.clientDisplayName) != "" then Trim(m.clientDisplayName)
         else name)
    && e.item.selection.modelId == name && e.item.selection.parameters == v.parameters
  }

  /** A variant that may be offered; a model without variants is one itself. */
  ghost predicate IsVariant(m: Available, v: Variant) {
    && Trim(m.name) != "" && !m.isHidden && m.supportsAgent != Some(false) && !v.isMaxMode
    && if m.variants == [] then v == Variant(Trim(m.name), "", false, false, []) else v in m.variants
  }

  lemma StandsExactly(e: Entry, m: Available, v: Variant)
    requires Trim(m.name) != ""
    ensures e == Entry(ItemOf(m, v), v.isDefault) <==> Stands(e, m, v)
  {
    var name := Trim(m.name);
    TrimIsTrimmed(m.name);
    TrimIsTrimmed(name);
    hide Trim;
    assert [v.legacySlug, name][1..] == [name];
    assert FirstNonEmpty([name]) == name;
    assert [v.displayName, m.clientDisplayName, name][1..] == [m.clientDisplayName, name];
    assert [m.clientDisplayName, name][1..] == [name];
    assert FirstNonEmpty([m.clientDisplayName, name]) ==
      if Trim(m.clientDisplayName) != "" then Trim(m.clientDisplayName) else name;
    hide FirstNonEmpty;
  }

  /** The entries are those of the variants that are not max mode, of models that are named, shown and
      not unfit for agents. */
  lemma EntriesExactly(models: seq<Available>, e: Entry)
    ensures e in Entries(models) <==> exists m, v :: m in models && IsVariant(m, v) && Stands(e, m, v)
  {
    EntriesAre(models, e);
    forall m, v | m in models && IsOffered(m) && v in VariantsOf(m) && !v.isMaxMode
        && e == Entry(ItemOf(m, v), v.isDefault)
      ensures IsVariant(m, v) && Stands(e, m, v)
    {
      StandsExactly(e, m, v);
    }
    forall m, v | m in models && IsVariant(m, v) && Stands(e, m, v)
      ensures IsOffered(m) && v in VariantsOf(m) && !v.isMaxMode && e == Entry(ItemOf(m, v), v.isDefault)
    {
      StandsExactly(e, m, v);
    }
  }

  /** The entries come in the catalogue's order, a model's in the order of its variants. */
  lemma {:induction false} EntriesInOrder(a: seq<Available>, b: seq<Available>)
    ensures Entries(a + b) == Entries(a) + Entries(b)
    decreases |b|
  {
    hide IsOffered, VariantEntries, VariantsOf;
    if b == [] {
      assert a + b == a;
    } else {
      var front := b[..|b| - 1];
      assert (a + b)[..|a + b| - 1] == a + front;
      EntriesInOrder(a, front);
    }
  }

  lemma {:induction false} VariantsInOrder(m: Available, a: seq<Variant>, b: seq<Variant>)
    ensures VariantEntries(m, a + b) == VariantEntries(m, a) + VariantEntries(m, b)
    decreases |b|
  {
    hide ItemOf;
    if b == [] {
      assert a + b == a;
    } else {
      var front := b[..|b| - 1];
      assert (a + b)[..|a + b| - 1] == a + front;
      VariantsInOrder(m, a, front);
    }
  }
}
