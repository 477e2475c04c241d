/** internal/provider/models.go: the model a request means, and that every advertised model can be
    asked for. */
module Resolution {
  import opened Prelude
  import opened GoText
  import opened Errors
  import opened Catalog
  import opened Models

  datatype Mode = Raw | Normalized | Both

  datatype Config = Config(prefix: string, mode: Mode, preferred: string)

  const RAW_DISABLED := Status(StatusError("raw_effort_model_disabled", 400, false))
  const NOT_FOUND := Status(StatusError("model_not_found", 404, false))
  const UNSUPPORTED := Status(StatusError("unsupported_reasoning_effort", 400, false))
  const MISSING := Other("Cursor model variant is missing from the catalog")

  /** The requested name without white space around it and without the configured prefix. */
  function Wanted(cfg: Config, requested: string): string {
    TrimPrefix(Trim(requested), cfg.prefix)
  }

  function FirstFold(models: seq<CursorModel>, name: string): Option<CursorModel> {
    if models == [] then None
    else if EqualFold(models[0].id, name) then Some(models[0])
    else FirstFold(models[1..], name)
  }

  function FirstNamed(models: seq<CursorModel>, id: string): Option<CursorModel> {
    if models == [] then None else if models[0].id == id then Some(models[0]) else FirstNamed(models[1..], id)
  }

  function FromFamily(models: seq<CursorModel>, cfg: Config, name: string, effort: string): Result<Selection, Error> {
    var families := Families(models, cfg.preferred);
    if name !in families || families[name].variants == map[] then Err(NOT_FOUND)
    else
      var level := Lower(if effort == "" then families[name].defaultEffort else effort);
      if level !in families[name].variants then Err(UNSUPPORTED)
      else match FirstNamed(models, families[name].variants[level])
        case Some(m) => Ok(m.selection)
        case None => Err(MISSING)
  }

  function Resolved(models: seq<CursorModel>, cfg: Config, requested: string, effort: string): Result<Selection, Error>
  {
    var name := Wanted(cfg, requested);
    match FirstFold(models, name)
    case Some(m) =>
      if cfg.mode == Normalized && SplitOf(m.id).suffixed then Err(RAW_DISABLED) else Ok(m.selection)
    case None => FromFamily(models, cfg, name, effort)
  }

  method ResolveModel(models: seq<CursorModel>, cfg: Config, requested: string, effort: string)
      returns (r: Result<Selection, Error>)
    ensures r == Resolved(models, cfg, requested, effort)
  {
    hide Wanted, Families, SplitOf, EqualFold, Lower;
    var name := Wanted(cfg, requested);
    var families := NormalizedFamilies(models, cfg.preferred);
    for i := 0 to |models|
      invariant FirstFold(models, name) == FirstFold(models[i..], name)
    {
      assert models[i..][1..] == models[i + 1..];
      if EqualFold(models[i].id, name) {
        if cfg.mode == Normalized {
          var _, _, suffixed := SplitEffort(models[i].id);
          if suffixed {
            return Err(RAW_DISABLED);
          }
        }
        return Ok(models[i].selection);
      }
    }
    if name !in families || |families[name].variants| == 0 {
      return Err(NOT_FOUND);
    }
    var level := Lower(if effort == "" then families[name].defaultEffort else effort);
    if level !in families[name].variants {
      return Err(UNSUPPORTED);
    }
    var upstream := families[name].variants[level];
    for i := 0 to |models|
      invariant FirstNamed(models, upstream) == FirstNamed(models[i..], upstream)
    {
      assert models[i..][1..] == models[i + 1..];
      if models[i].id == upstream {
        return Ok(models[i].selection);
      }
    }
    r := Err(MISSING);
  }

  // ---- searching ----

  lemma {:induction false} FirstFoldFinds(models: seq<CursorModel>, name: string)
    ensures FirstFold(models, name).None? <==> forall m <- models :: !EqualFold(m.id, name)
    ensures FirstFold(models, name).Some? ==>
      exists i :: 0 <= i < |models| && IsFirstFold(models, name, i) && FirstFold(models, name).value == models[i]
  {
    hide EqualFold;
    if models != [] {
      FirstFoldFinds(models[1..], name);
      assert models == [models[0]] + models[1..];
      if EqualFold(models[0].id, name) {
        assert IsFirstFold(models, name, 0);
      } else if FirstFold(models, name).Some? {
        var rest := models[1..];
        var i :| 0 <= i < |rest| && IsFirstFold(rest, name, i) && FirstFold(models, name).value == rest[i];
        assert forall j :: 0 < j <= i ==> rest[j - 1] == models[j];
        assert IsFirstFold(models, name, i + 1);
      }
    }
  }

  /** Model `i` is the first of that name, letter case aside. */
  ghost predicate IsFirstFold(models: seq<CursorModel>, name: string, i: int) {
    0 <= i < |models| && EqualFold(models[i].id, name) && forall j :: 0 <= j < i ==> !EqualFold(models[j].id, name)
  }

  lemma {:induction false} FirstNamedFinds(models: seq<CursorModel>, id: string)
    ensures FirstNamed(models, id).None? <==> forall m <- models :: m.id != id
    ensures FirstNamed(models, id).Some? ==>
        FirstNamed(models, id).value in models && FirstNamed(models, id).value.id == id
  {
    if models != [] {
      FirstNamedFinds(models[1..], id);
      assert models == [models[0]] + models[1..];
    }
  }

  // ---- families ----

  /** Some model is `base` with this effort. */
  ghost predicate Offers(models: seq<CursorModel>, base: string, effort: string) {
    exists m <- models :: SplitOf(m.id) == Splitting(base, effort, true)
  }

  /** The variants of a base are the efforts the catalogue offers it with; each leads to a model of
      that base and effort. */
  lemma {:induction false} VariantsExactly(models: seq<CursorModel>, base: string, effort: string)
    ensures effort in VariantsIn(models, base) <==> Offers(models, base, effort)
    ensures effort in VariantsIn(models, base) ==>
      exists m <- models :: m.id == VariantsIn(models, base)[effort] && SplitOf(m.id) == Splitting(base, effort, true)
  {
    hide SplitOf;
    if models != [] {
      var front, last := models[..|models| - 1], models[|models| - 1];
      VariantsExactly(front, base, effort);
      assert models == front + [last];
      assert last in models && forall m <- front :: m in models;
      assert forall m <- models :: m in front || m == last;
    }
  }

  /** It is the latest such model. */
  lemma {:induction false} LatestVariantWins(models: seq<CursorModel>, base: string, effort: string, i: nat)
    requires i < |models| && SplitOf(models[i].id) == Splitting(base, effort, true)
    requires forall j :: i < j < |models| ==> SplitOf(models[j].id) != Splitting(base, effort, true)
    ensures effort in VariantsIn(models, base) && VariantsIn(models, base)[effort] == models[i].id
  {
    hide SplitOf;
    var n := |models| - 1;
    if i < n {
      assert models[..n][i] == models[i] && forall j :: 0 <= j < n ==> models[..n][j] == models[j];
      LatestVariantWins(models[..n], base, effort, i);
    }
  }

  lemma {:induction false} FirstInFinds(efforts: seq<string>, variants: map<string, string>, effort: string)
    requires effort in efforts && effort in variants
    ensures FirstIn(efforts, variants) in variants
  {
    if efforts[0] !in variants {
      assert efforts == [efforts[0]] + efforts[1..];
      FirstInFinds(efforts[1..], variants, effort);
    }
  }

  lemma LevelsAreRanked(effort: string)
    requires effort in LEVELS
    ensures effort in PREFERENCES && PREFERENCES[Preference(effort)] == effort
  {
    assert PREFERENCES == ["high", "medium", "low", "xhigh", "max", "minimal", "none"];
  }

  /** The order in which a default is looked for. */
  function Preference(level: string): (n: nat)
    ensures n < 7
  {
    match level
    case "high" => 0
    case "medium" => 1
    case "low" => 2
    case "xhigh" => 3
    case "max" => 4
    case "minimal" => 5
    case _ => 6
  }

  lemma PreferencesAre(i: nat)
    requires i < |PREFERENCES|
    ensures |PREFERENCES| == 7 && Preference(PREFERENCES[i]) == i
  {
  }

  lemma {:induction false} FirstInIsFirst(efforts: seq<string>, variants: map<string, string>, i: nat)
    requires i < |efforts| && efforts[i] in variants
    ensures exists j :: 0 <= j <= i && FirstIn(efforts, variants) == efforts[j]
  {
    if efforts[0] !in variants {
      FirstInIsFirst(efforts[1..], variants, i - 1);
      var j :| 0 <= j <= i - 1 && FirstIn(efforts[1..], variants) == efforts[1..][j];
      assert efforts[1..][j] == efforts[j + 1];
    }
  }

  /** Without the preferred effort the first that is offered counts, in the order of preference. */
  lemma FallbackIsBest(variants: map<string, string>, effort: string)
    requires effort in LEVELS && effort in variants
    ensures Preference(FirstIn(PREFERENCES, variants)) <= Preference(effort)
  {
    LevelsAreRanked(effort);
    FirstInIsFirst(PREFERENCES, variants, Preference(effort));
    hide FirstIn;
    var j :| 0 <= j <= Preference(effort) && FirstIn(PREFERENCES, variants) == PREFERENCES[j];
    PreferencesAre(j);
  }

  lemma OfferedAreLevels(models: seq<CursorModel>, base: string, effort: string)
    requires Offers(models, base, effort)
    ensures effort in LEVELS && Lower(effort) == effort
  {
    var m :| m in models && SplitOf(m.id) == Splitting(base, effort, true);
    EffortIsLevel(m.id);
  }

  /** A family that has variants has a default among them: the preferred effort if that is one, or else
      the first by preference. */
  lemma DefaultIsAVariant(models: seq<CursorModel>, preferred: string, base: string)
    requires base in Families(models, preferred) && Families(models, preferred)[base].variants != map[]
    ensures var f := Families(models, preferred)[base];
      && f.defaultEffort in f.variants && Lower(f.defaultEffort) == f.defaultEffort
      && (preferred in f.variants ==> f.defaultEffort == preferred)
      && (preferred !in f.variants ==> forall e <- f.variants :: Preference(f.defaultEffort) <= Preference(e))
  {
    var f := Families(models, preferred)[base];
    hide VariantsIn, SplitOf, Lower, Preference;
    forall e <- f.variants ensures Preference(FirstIn(PREFERENCES, f.variants)) <= Preference(e) {
      VariantsExactly(models, base, e);
      OfferedAreLevels(models, base, e);
      FallbackIsBest(f.variants, e);
    }
    var effort :| effort in f.variants;
    VariantsExactly(models, base, effort);
    OfferedAreLevels(models, base, effort);
    LevelsAreRanked(effort);
    FirstInFinds(PREFERENCES, f.variants, effort);
    VariantsExactly(models, base, f.defaultEffort);
    OfferedAreLevels(models, base, f.defaultEffort);
  }

  // ---- what a request resolves to ----

  /** The effort asked for, or the family's default. */
  function Level(models: seq<CursorModel>, cfg: Config, base: string, effort: string): string {
    Lower(if effort == "" then DefaultOf(VariantsIn(models, base), cfg.preferred) else effort)
  }

  lemma FamilyExists(models: seq<CursorModel>, preferred: string, base: string)
    ensures base in Families(models, preferred) && Families(models, preferred)[base].variants != map[] <==>
            exists effort :: Offers(models, base, effort)
    ensures base !in Families(models, preferred) ==> VariantsIn(models, base) == map[]
  {
    hide SplitOf, VariantsIn;
    if base !in Families(models, preferred) {
      NoBaseNoVariants(models, base);
    }
    forall effort ensures effort in VariantsIn(models, base) <==> Offers(models, base, effort) {
      VariantsExactly(models, base, effort);
    }
    if VariantsIn(models, base) != map[] {
      var effort :| effort in VariantsIn(models, base);
    }
  }

  /** Without a model of that very name, a request succeeds exactly if the catalogue offers the base
      with the effort, and is told apart otherwise; no variant is ever missing. */
  lemma FamilyResolution(models: seq<CursorModel>, cfg: Config, name: string, effort: string)
    ensures var r, level := FromFamily(models, cfg, name, effort), Level(models, cfg, name, effort);
      && (r.Ok? <==> Offers(models, name, level))
      && (r == Err(NOT_FOUND) <==> !exists e :: Offers(models, name, e))
      && (r == Err(UNSUPPORTED) <==> (exists e :: Offers(models, name, e)) && !Offers(models, name, level))
      && (r.Ok? ==> exists m <- models :: m.selection == r.value && SplitOf(m.id) == Splitting(name, level, true))
  {
    var level := Level(models, cfg, name, effort);
    FamilyExists(models, cfg.preferred, name);
    VariantsExactly(models, name, level);
    if level in VariantsIn(models, name) {
      var id := VariantsIn(models, name)[level];
      FirstNamedFinds(models, id);
    }
    hide SplitOf, VariantsIn, FirstNamed, DefaultOf;
  }

  function Refused(code: string, status: int): Result<Selection, Error> {
    Err(Status(StatusError(code, status, false)))
  }

  /** The outcome of every request, whatever the catalogue: the first model whose ID is the requested
      name, letter case aside, decides it; if there is none, the family of that base does. The error for
      a variant missing from the catalogue cannot occur. */
  lemma ResolutionExactly(models: seq<CursorModel>, cfg: Config, requested: string, effort: string)
    ensures var name, r := Wanted(cfg, requested), Resolved(models, cfg, requested, effort);
      var level, first := Level(models, cfg, name, effort), FirstFold(models, name);
      && (first.Some? <==> exists m <- models :: EqualFold(m.id, name))
      && (first.Some? ==>
            && (exists i :: 0 <= i < |models| && IsFirstFold(models, name, i) && first.value == models[i])
            && r == if cfg.mode == Normalized && SplitOf(first.value.id).suffixed then
                      Refused("raw_effort_model_disabled", 400)
                    else Ok(first.value.selection))
      && (first.None? ==>
            && (r.Ok? <==> Offers(models, name, level))
            && (r.Ok? ==> exists m <- models :: m.selection == r.value && SplitOf(m.id) == Splitting(name, level, true))
            && (r == Refused("model_not_found", 404) <==> !exists e :: Offers(models, name, e))
            && (r == Refused("unsupported_reasoning_effort", 400) <==>
                  (exists e :: Offers(models, name, e)) && !Offers(models, name, level)))
      && r != Err(MISSING)
  {
    var name := Wanted(cfg, requested);
    FirstFoldFinds(models, name);
    FamilyResolution(models, cfg, name, effort);
    hide SplitOf, VariantsIn, FirstFold, FromFamily, Level, Offers, EqualFold, Wanted;
  }

  // ---- every advertised model can be asked for ----

  /** The IDs under which models are listed, before the prefix. */
  function Listed(models: seq<CursorModel>, cfg: Config): set<string> {
    (if cfg.mode != Normalized then set m <- models :: m.id else {})
    + (if cfg.mode != Raw then Families(models, cfg.preferred).Keys else {})
  }

  /** A listed name is recognised when it comes back: nothing is trimmed off, or just a prefix that is
      all white space. */
  predicate Recognised(cfg: Config, name: string) {
    Trimmed(cfg.prefix + name) || (Trim(cfg.prefix + name) == name && !(cfg.prefix <= name))
  }

  lemma {:induction false} TrimLeftShortens(s: string)
    ensures |TrimLeft(s)| <= |s| && (SpaceAtFront(s) != 0 ==> |TrimLeft(s)| < |s|)
    decreases |s|
  {
    var n := SpaceAtFront(s);
    if n != 0 { TrimLeftShortens(s[n..]); }
  }

  lemma {:induction false} TrimRightShortens(s: string)
    ensures |TrimRight(s)| <= |s| && (SpaceAtBack(s) != 0 ==> |TrimRight(s)| < |s|)
    decreases |s|
  {
    var n := SpaceAtBack(s);
    if n != 0 { TrimRightShortens(s[..|s| - n]); }
  }

  lemma TrimShortens(s: string)
    ensures |Trim(s)| <= |s| && (|Trim(s)| == |s| <==> Trimmed(s))
  {
    TrimIsTrimmed(s);
    TrimLeftShortens(s);
    TrimRightShortens(TrimLeft(s));
  }

  /** A listed name, asked for as it is listed, is taken for itself exactly if it is recognised. */
  lemma WantedExactly(cfg: Config, name: string)
    ensures Wanted(cfg, cfg.prefix + name) == name <==> Recognised(cfg, name)
  {
    TrimIsTrimmed(cfg.prefix + name);
    TrimShortens(cfg.prefix + name);
    hide Trim, Trimmed;
    if cfg.prefix <= Trim(cfg.prefix + name) && !Recognised(cfg, name) {
      assert |Trim(cfg.prefix + name)| < |cfg.prefix + name|;
    }
  }

  lemma ListedBaseHasModel(models: seq<CursorModel>, cfg: Config, name: string)
    requires name in Listed(models, cfg) && forall m <- models :: m.id != name
    ensures exists effort :: Offers(models, name, effort)
  {
    hide VariantsIn, SplitOf;
    assert name in Bases(models);
    var m :| m in models && SplitOf(m.id).base == name;
    var a, p, b := SplitNeedsDecomposition(m.id);
    assert SplitOf(m.id) == Splitting(name, SplitOf(m.id).effort, true);
    assert Offers(models, name, SplitOf(m.id).effort);
  }

  /** A listed name that is no model's ID is a base some model has with its default effort. */
  lemma ListedBaseIsOffered(models: seq<CursorModel>, cfg: Config, name: string)
    requires name in Listed(models, cfg) && forall m <- models :: m.id != name
    ensures Offers(models, name, Level(models, cfg, name, ""))
    ensures forall effort :: Offers(models, name, effort) ==> Level(models, cfg, name, effort) == effort
  {
    hide SplitOf, VariantsIn, Listed, Offers, DefaultOf, Lower;
    ListedBaseHasModel(models, cfg, name);
    FamilyExists(models, cfg.preferred, name);
    DefaultIsAVariant(models, cfg.preferred, name);
    VariantsExactly(models, name, Families(models, cfg.preferred)[name].defaultEffort);
    forall effort | Offers(models, name, effort) ensures Level(models, cfg, name, effort) == effort {
      OfferedAreLevels(models, name, effort);
    }
  }

  /** What asking for a listed name as it is listed comes to. Recognised names all resolve, without an
      effort and with each effort their base is offered with; the one exception is in normalized mode,
      when the first model of that name, letter case aside, has itself an effort in its ID. A name that
      is not recognised is taken for another, and resolves only if that one does. */
  lemma ListedModelsResolve(models: seq<CursorModel>, cfg: Config, name: string, effort: string)
    requires name in Listed(models, cfg)
    requires effort == "" || Offers(models, name, effort)
    ensures var r, wanted := Resolved(models, cfg, cfg.prefix + name, effort), Wanted(cfg, cfg.prefix + name);
      var first := FirstFold(models, wanted);
      var refused := cfg.mode == Normalized && first.Some? && SplitOf(first.value.id).suffixed;
      && (wanted == name <==> Recognised(cfg, name))
      && (Recognised(cfg, name) ==> (r.Ok? <==> !refused) && (r.Err? ==> r == Err(RAW_DISABLED)))
      && (!Recognised(cfg, name) ==>
            (r.Ok? <==> !refused && (first.Some? || Offers(models, wanted, Level(models, cfg, wanted, effort)))))
  {
    var wanted := Wanted(cfg, cfg.prefix + name);
    WantedExactly(cfg, name);
    ResolutionExactly(models, cfg, cfg.prefix + name, effort);
    hide Recognised, Wanted, SplitOf, FirstFold, Offers, Level, Listed;
    if wanted == name && FirstFold(models, name).None? {
      FirstFoldFinds(models, name);
      NoFoldNoName(models, name);
      ListedBaseIsOffered(models, cfg, name);
    }
  }

  lemma NoFoldNoName(models: seq<CursorModel>, name: string)
    requires forall m <- models :: !EqualFold(m.id, name)
    ensures forall m <- models :: m.id != name
  {
  }

  /** IDs that differ in more than letter case, as the catalogue's do. */
  ghost predicate DistinctIds(models: seq<CursorModel>) {
    forall i, j :: 0 <= i < j < |models| ==> !EqualFold(models[i].id, models[j].id)
  }

  lemma {:induction false} OwnName(models: seq<CursorModel>, i: nat)
    requires i < |models| && DistinctIds(models)
    ensures FirstFold(models, models[i].id) == Some(models[i])
    ensures FirstNamed(models, models[i].id) == Some(models[i])
  {
    hide EqualFold;
    if i > 0 {
      assert models[1..][i - 1] == models[i];
      assert !EqualFold(models[0].id, models[i].id) && models[0].id != models[i].id by { SameFolds(models, i); }
      OwnName(models[1..], i - 1);
    } else {
      SameFolds(models, i);
    }
  }

  lemma SameFolds(models: seq<CursorModel>, i: nat)
    requires i < |models| && DistinctIds(models)
    ensures EqualFold(models[i].id, models[i].id)
    ensures forall j :: 0 <= j < i ==> !EqualFold(models[j].id, models[i].id) && models[j].id != models[i].id
  {
  }

  /** With distinct IDs, a model listed under its own ID is the one that name means, if the name is
      recognised; in normalized mode it must have no effort in its ID. */
  lemma ListedModelIsItself(models: seq<CursorModel>, cfg: Config, i: nat, effort: string)
    requires i < |models| && DistinctIds(models)
    ensures var name := models[i].id;
      if !Recognised(cfg, name) then Wanted(cfg, cfg.prefix + name) != name
      else
        Resolved(models, cfg, cfg.prefix + name, effort) ==
        if cfg.mode == Normalized && SplitOf(name).suffixed then Err(RAW_DISABLED) else Ok(models[i].selection)
  {
    WantedExactly(cfg, models[i].id);
    OwnName(models, i);
    hide SplitOf, EqualFold, Wanted, FirstFold, Recognised;
  }

  lemma NoEmptyLevel()
    ensures "" !in LEVELS
  {
  }

  lemma NoNamesake(models: seq<CursorModel>, cfg: Config, requested: string, effort: string)
    requires FirstFold(models, Wanted(cfg, requested)).None?
    ensures Resolved(models, cfg, requested, effort) == FromFamily(models, cfg, Wanted(cfg, requested), effort)
  {
  }

  lemma FromVariant(models: seq<CursorModel>, cfg: Config, base: string, effort: string)
    requires effort in VariantsIn(models, base) && effort != "" && Lower(effort) == effort
    ensures var m := FirstNamed(models, VariantsIn(models, base)[effort]);
            FromFamily(models, cfg, base, effort) == if m.Some? then Ok(m.value.selection) else Err(MISSING)
  {
    hide SplitOf, VariantsIn, FirstNamed;
    FamilyExists(models, cfg.preferred, base);
  }

  /** With distinct IDs, a base no model is named after means, with an effort, the model that has both,
      if the name of the base is recognised. */
  lemma ListedFamilyMember(models: seq<CursorModel>, cfg: Config, i: nat)
    requires i < |models| && DistinctIds(models) && SplitOf(models[i].id).suffixed
    requires FirstFold(models, SplitOf(models[i].id).base).None?
    requires forall j :: i < j < |models| ==> SplitOf(models[j].id) != SplitOf(models[i].id)
    ensures var s := SplitOf(models[i].id);
      if Recognised(cfg, s.base) then Resolved(models, cfg, cfg.prefix + s.base, s.effort) == Ok(models[i].selection)
      else Wanted(cfg, cfg.prefix + s.base) != s.base
  {
    hide *;
    var s := SplitOf(models[i].id);
    EffortIsLevel(models[i].id);
    NoEmptyLevel();
    WantedExactly(cfg, s.base);
    OwnName(models, i);
    assert s == Splitting(s.base, s.effort, true);
    LatestVariantWins(models, s.base, s.effort, i);
    FromVariant(models, cfg, s.base, s.effort);
    if Recognised(cfg, s.base) {
      NoNamesake(models, cfg, cfg.prefix + s.base, s.effort);
    }
  }

  /** Only permitted models can be asked for, if the catalogue was filtered. */
  lemma OnlyPermittedModelsResolve(
    all: seq<CursorModel>, allowed: seq<string>, denied: seq<string>, glob: Glob, cfg: Config, requested: string,
    effort: string)
    requires Resolved(Filtered(all, allowed, denied, glob), cfg, requested, effort).Ok?
    ensures exists m <- all :: Permitted(m.id, allowed, denied, glob) &&
              m.selection == Resolved(Filtered(all, allowed, denied, glob), cfg, requested, effort).value
  {
    hide Permitted, Filtered, Resolved;
    ResolutionExactly(Filtered(all, allowed, denied, glob), cfg, requested, effort);
  }

  // ---- where the exception and the hypothesis come from ----

  /** A filtered catalogue has distinct IDs. */
  lemma CatalogueIsDistinct(available: seq<Available>, allowed: seq<string>, denied: seq<string>, glob: Glob)
    ensures DistinctIds(Filtered(Chosen(Entries(available)), allowed, denied, glob))
  {
    EachIdOnce(Entries(available));
    FilteredIsDistinct(Chosen(Entries(available)), allowed, denied, glob);
  }

  lemma {:induction false} FilteredIsDistinct(models: seq<CursorModel>, allowed: seq<string>, denied: seq<string>,
      glob: Glob)
    requires DistinctIds(models)
    ensures DistinctIds(Filtered(models, allowed, denied, glob))
  {
    if models != [] {
      var n := |models| - 1;
      var front := Filtered(models[..n], allowed, denied, glob);
      FilteredIsDistinct(models[..n], allowed, denied, glob);
      hide Permitted, EqualFold;
      forall i | 0 <= i < |front| ensures !EqualFold(front[i].id, models[n].id) {
        assert front[i] in models[..n];
        var j :| 0 <= j < n && models[j] == front[i];
      }
    }
  }

  lemma JoinTwo(a: string, b: string)
    ensures Join([a, b]) == a + "-" + b
  {
    assert [a, b][1..] == [b];
  }

  lemma JoinThree(a: string, b: string, c: string)
    ensures Join([a, b, c]) == a + "-" + b + "-" + c
  {
    JoinTwo(b, c);
    assert [a, b, c][1..] == [b, c];
    assert a + "-" + (b + "-" + c) == a + "-" + b + "-" + c;
  }

  lemma ShortIsSuffixed()
    ensures SplitOf("a-low").suffixed
  {
    hide Join, Split, SplitFrom;
    JoinTwo("a", "low");
    assert "a" + "-" + "low" == "a-low";
    SplitInvertsJoin(["a", "low"]);
    assert Lower("low") == "low";
    assert ["a", "low"] == ["a"] + ["low"] + [];
    DecompositionIsFound("a-low", ["a"], "low", []);
  }

  lemma LongHasBase()
    ensures SplitOf("a-low-high").base == "a-low"
  {
    hide Join, Split, SplitFrom;
    JoinTwo("a", "low");
    JoinThree("a", "low", "high");
    assert "a" + "-" + "low" == "a-low" && "a" + "-" + "low" + "-" + "high" == "a-low-high";
    SplitInvertsJoin(["a", "low", "high"]);
    assert Lower("high") == "high";
    assert ["a", "low", "high"] == ["a", "low"] + ["high"] + [];
    DecompositionIsFound("a-low-high", ["a", "low"], "high", []);
    assert ["a", "low"] + [] == ["a", "low"];
  }

  lemma BaseOfAnotherIsRefused(m: CursorModel, n: CursorModel, cfg: Config)
    requires SplitOf(m.id).suffixed && SplitOf(n.id).base == m.id && !EqualFold(m.id, n.id)
    requires cfg.mode == Normalized && Trimmed(cfg.prefix + m.id)
    ensures DistinctIds([m, n]) && m.id in Listed([m, n], cfg)
    ensures Resolved([m, n], cfg, cfg.prefix + m.id, "") == Err(RAW_DISABLED)
  {
    hide SplitOf, Wanted, VariantsIn, Resolved, FirstFold, Trimmed;
    assert [m, n][1] in [m, n];
    ListedModelIsItself([m, n], cfg, 0, "");
  }

  lemma NamesOfExample()
    ensures !EqualFold("a-low", "a-low-high") && Trimmed("" + "a-low")
  {
    hide Trim;
    assert "" + "a-low" == "a-low";
    SolidIsTrimmed("a-low");
    assert |Lower("a-low-high")| == 10 && |Lower("a-low")| == 5;
  }

  /** In normalized mode a listed family can be refused: here `a-low` is both the base of one model and
      the ID of another. The models are in the order of their IDs, as they are when they are resolved. */
  lemma ListedNameCanBeRefused(s: Selection, t: Selection)
    ensures var models := [CursorModel("a-low", "", t), CursorModel("a-low-high", "", s)];
      var cfg := Config("", Normalized, "high");
      && DistinctIds(models) && "a-low" in Listed(models, cfg)
      && Resolved(models, cfg, cfg.prefix + "a-low", "") == Err(RAW_DISABLED)
  {
    hide *;
    ShortIsSuffixed();
    LongHasBase();
    NamesOfExample();
    BaseOfAnotherIsRefused(CursorModel("a-low", "", t), CursorModel("a-low-high", "", s),
        Config("", Normalized, "high"));
  }

  lemma TrimOfExample()
    ensures Trim(" p-x") == "p-x" && !Trimmed(" p-x")
  {
    assert " p-x"[1..] == "p-x";
    assert TrimLeft(" p-x") == TrimLeft("p-x");
    SolidIsTrimmed("p-x");
  }

  lemma PlainExample()
    ensures !SplitOf("x").suffixed
  {
    assert Split("x") == ["x"] by {
      SplitInvertsJoin(["x"]);
    }
    assert Lower("x") == "x";
  }

  /** A configured prefix keeps its white space, and what starts with it is not recognised: with the
      prefix ` p-` the only model cannot be asked for under the ID it is listed with. */
  lemma PrefixCanHideModels(s: Selection, mode: Mode, preferred: string, effort: string)
    ensures var models, cfg := [CursorModel("x", "", s)], Config(" p-", mode, preferred);
      && "x" in Listed(models, cfg) && cfg.prefix + "x" == " p-x"
      && Resolved(models, cfg, " p-x", effort) == Err(NOT_FOUND)
  {
    var models, cfg := [CursorModel("x", "", s)], Config(" p-", mode, preferred);
    TrimOfExample();
    PlainExample();
    var a, p, b := SplitNeedsDecomposition("x");
    hide Trim, SplitOf, VariantsIn, Lower;
    assert models[0] in models && " p-" + "x" == " p-x";
    assert Wanted(cfg, " p-x") == "p-x";
    assert |Lower("x")| == 1 && |Lower("p-x")| == 3;
    FirstFoldFinds(models, "p-x");
    ResolutionExactly(models, cfg, " p-x", effort);
  }

  // ---- pluginModelInfo: the efforts listed ----

  /** The efforts listed are the family's, from the weakest to the strongest. */
  ghost predicate AreLevels(levels: seq<string>, variants: map<string, string>) {
    && (forall level :: level in levels <==> Strength(level) < 7 && level in variants)
    && (forall i, j :: 0 <= i < j < |levels| ==> Strength(levels[i]) < Strength(levels[j]))
  }

  /** The loop of pluginModelInfo. */
  method AdvertisedLevels(variants: map<string, string>) returns (levels: seq<string>)
    ensures AreLevels(levels, variants)
  {
    hide Strength;
    levels := [];
    for k := 0 to |LEVELS|
      invariant forall level :: level in levels <==> level in LEVELS[..k] && level in variants
      invariant forall i, j :: 0 <= i < j < |levels| ==> Strength(levels[i]) < Strength(levels[j])
      invariant forall i :: 0 <= i < |levels| ==> Strength(levels[i]) < k
    {
      StrengthIsIndex(k);
      if LEVELS[k] in variants {
        levels := levels + [LEVELS[k]];
      }
    }
    assert LEVELS[..|LEVELS|] == LEVELS;
    forall level ensures level in LEVELS <==> Strength(level) < 7 { LevelsAre(level); }
  }

  lemma StrengthIsIndex(k: nat)
    requires k < |LEVELS|
    ensures Strength(LEVELS[k]) == k
  {
  }

  // ---- sort.Strings ----

  /** Go compares strings byte by byte. */
  predicate Before(a: string, b: string) {
    if b == "" then false
    else if a == "" || a[0] < b[0] then true
    else a[0] == b[0] && Before(a[1..], b[1..])
  }

  lemma {:induction false} BeforeIsTotal(a: string, b: string)
    ensures Before(a, b) || a == b || Before(b, a)
  {
    if a != "" && b != "" && a[0] == b[0] {
      BeforeIsTotal(a[1..], b[1..]);
      assert a == [a[0]] + a[1..] && b == [b[0]] + b[1..];
    }
  }

  lemma {:induction false} BeforeIsTransitive(a: string, b: string, c: string)
    requires Before(a, b) && Before(b, c)
    ensures Before(a, c)
  {
    if a != "" && a[0] == b[0] == c[0] {
      BeforeIsTransitive(a[1..], b[1..], c[1..]);
    }
  }

  ghost predicate Ascending(keys: seq<string>) {
    forall i, j :: 0 <= i < j < |keys| ==> Before(keys[i], keys[j])
  }

  /** Puts `key` where it belongs. */
  method Insert(keys: seq<string>, key: string) returns (r: seq<string>)
    requires Ascending(keys) && key !in keys
    ensures Ascending(r) && forall k :: k in r <==> k in keys || k == key
  {
    hide Before;
    var i := 0;
    while i < |keys| && Before(keys[i], key)
      invariant i <= |keys| && forall j :: 0 <= j < i ==> Before(keys[j], key)
    {
      i := i + 1;
    }
    r := keys[..i] + [key] + keys[i..];
    if i < |keys| {
      BeforeIsTotal(keys[i], key);
      forall j | i < j < |keys| ensures Before(key, keys[j]) { BeforeIsTransitive(key, keys[i], keys[j]); }
    }
    assert keys == keys[..i] + keys[i..];
  }

  /** The keys of a map in ascending order. */
  method SortedKeys(s: set<string>) returns (keys: seq<string>)
    ensures Ascending(keys) && forall k :: k in keys <==> k in s
  {
    keys := [];
    var rest := s;
    while rest != {}
      invariant rest <= s && Ascending(keys) && forall k :: k in keys <==> k in s - rest
    {
      var key :| key in rest;
      keys := Insert(keys, key);
      rest := rest - {key};
    }
  }

  // ---- modelInfos ----

  /** `levels` is None for a model listed without efforts. */
  datatype Info = Info(id: string, name: string, levels: Option<seq<string>>)

  ghost predicate Describes(info: Info, cfg: Config, name: string, variants: map<string, string>) {
    && info.id == cfg.prefix + name && info.name == name
    && if variants == map[] then info.levels.None? else info.levels.Some? && AreLevels(info.levels.value, variants)
  }

  lemma FamilyOf(models: seq<CursorModel>, preferred: string, base: string)
    requires base in Families(models, preferred).Keys
    ensures Families(models, preferred)[base].id == base
    ensures Families(models, preferred)[base].variants == VariantsIn(models, base)
  {
  }

  /** pluginModelInfo of a family */
  method FamilyInfo(cfg: Config, family: Family) returns (info: Info)
    ensures Describes(info, cfg, family.id, family.variants)
  {
    hide AreLevels;
    var levels := None;
    if |family.variants| > 0 {
      var offered := AdvertisedLevels(family.variants);
      levels := Some(offered);
    }
    info := Info(cfg.prefix + family.id, family.id, levels);
  }

  ghost predicate Names(infos: seq<Info>, names: seq<string>) {
    |infos| == |names| && forall i :: 0 <= i < |infos| ==> infos[i].name == names[i]
  }

  /** The families, in the order of their names. */
  method FamilyInfos(models: seq<CursorModel>, cfg: Config) returns (infos: seq<Info>, ghost keys: seq<string>)
    ensures Ascending(keys) && (forall k :: k in keys <==> k in Families(models, cfg.preferred).Keys)
    ensures Names(infos, keys)
    ensures forall info <- infos :: Describes(info, cfg, info.name, VariantsIn(models, info.name))
  {
    hide Families, VariantsIn, AreLevels, Ascending;
    var families := NormalizedFamilies(models, cfg.preferred);
    var sorted := SortedKeys(families.Keys);
    infos, keys := [], sorted;
    for j := 0 to |sorted|
      invariant Names(infos, sorted[..j])
      invariant forall info <- infos :: Describes(info, cfg, info.name, VariantsIn(models, info.name))
    {
      assert sorted[j] in sorted;
      FamilyOf(models, cfg.preferred, sorted[j]);
      var info := FamilyInfo(cfg, families[sorted[j]]);
      infos := infos + [info];
    }
    assert sorted[..|sorted|] == sorted;
  }

  /** The list of models: those under their own IDs, then the families in the order of their names,
      each behind the prefix. `keys` are the names of the families listed. */
  method ModelInfos(models: seq<CursorModel>, cfg: Config) returns (infos: seq<Info>, ghost keys: seq<string>)
    ensures Ascending(keys)
    ensures forall k :: k in keys <==> cfg.mode != Raw && k in Families(models, cfg.preferred).Keys
    ensures var raw := if cfg.mode == Normalized then [] else models;
      && |infos| == |raw| + |keys|
      && (forall i :: 0 <= i < |raw| ==> Describes(infos[i], cfg, raw[i].id, map[]))
      && Names(infos[|raw|..], keys)
      && forall info <- infos[|raw|..] :: Describes(info, cfg, info.name, VariantsIn(models, info.name))
  {
    hide AreLevels, VariantsIn, Families;
    infos, keys := [], [];
    if cfg.mode != Normalized {
      for i := 0 to |models|
        invariant |infos| == i && forall k :: 0 <= k < i ==> Describes(infos[k], cfg, models[k].id, map[])
      {
        infos := infos + [Info(cfg.prefix + models[i].id, models[i].id, None)];
      }
    }
    if cfg.mode != Raw {
      hide Describes, Names, Ascending;
      var raw := |infos|;
      var more;
      more, keys := FamilyInfos(models, cfg);
      infos := infos + more;
      assert infos[raw..] == more;
    }
  }

  /** What is listed is what `Listed` says. */
  lemma InfosAreListed(models: seq<CursorModel>, cfg: Config, infos: seq<Info>, keys: seq<string>)
    requires forall k :: k in keys <==> cfg.mode != Raw && k in Families(models, cfg.preferred).Keys
    requires var raw := if cfg.mode == Normalized then [] else models;
      && |infos| == |raw| + |keys|
      && (forall i :: 0 <= i < |raw| ==> infos[i].name == raw[i].id)
      && Names(infos[|raw|..], keys)
    ensures (set info <- infos :: info.name) == Listed(models, cfg)
  {
    var raw := if cfg.mode == Normalized then [] else models;
    hide Families;
    forall name ensures name in (set info <- infos :: info.name) <==> name in Listed(models, cfg) {
      if name in (set info <- infos :: info.name) {
        var i :| 0 <= i < |infos| && infos[i].name == name;
        if i < |raw| {
          assert raw[i] in models;
        } else {
          assert infos[|raw|..][i - |raw|].name == name && keys[i - |raw|] in keys;
        }
      }
      if cfg.mode != Normalized && exists m <- models :: m.id == name {
        var i :| 0 <= i < |models| && models[i].id == name;
        assert infos[i] in infos;
      } else if name in Listed(models, cfg) {
        var j :| 0 <= j < |keys| && keys[j] == name;
        assert infos[|raw|..][j] == infos[|raw| + j] && infos[|raw| + j] in infos;
      }
    }
  }
}
