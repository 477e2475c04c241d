/** internal/provider/models.go: which models an account may use, the families they form, and which of
    them a request means. */
module Models {
  import opened GoText
  import opened Catalog

  // ---- strings.Split and strings.Join on "-" ----

  function Split(s: string): (parts: seq<string>)
    ensures |parts| > 0
  {
    if s == "" then [""]
    else
      var rest := Split(s[1..]);
      if s[0] == '-' then [""] + rest else [[s[0]] + rest[0]] + rest[1..]
  }

  function Join(parts: seq<string>): string {
    if parts == [] then "" else if |parts| == 1 then parts[0] else parts[0] + "-" + Join(parts[1..])
  }

  lemma JoinLonger(c: char, head: string, tail: seq<string>)
    ensures Join([[c] + head] + tail) == [c] + Join([head] + tail)
  {
    assert ([[c] + head] + tail)[1..] == tail && ([head] + tail)[1..] == tail;
  }

  lemma {:induction false} JoinInvertsSplit(s: string)
    ensures Join(Split(s)) == s
  {
    if s != "" {
      var rest := Split(s[1..]);
      JoinInvertsSplit(s[1..]);
      if s[0] == '-' {
        assert ([""] + rest)[1..] == rest;
      } else {
        JoinLonger(s[0], rest[0], rest[1..]);
        assert rest == [rest[0]] + rest[1..];
      }
    }
  }

  /** Parts without a dash are what their joint is split into. */
  lemma {:induction false} SplitInvertsJoin(parts: seq<string>)
    requires parts != [] && forall i :: 0 <= i < |parts| ==> '-' !in parts[i]
    ensures Split(Join(parts)) == parts
    decreases |Join(parts)|
  {
    var head, tail := parts[0], parts[1..];
    assert parts == [head] + tail;
    if head != "" {
      var rest := [head[1..]] + tail;
      JoinLonger(head[0], head[1..], tail);
      assert head == [head[0]] + head[1..] && Join(parts)[1..] == Join(rest);
      SplitInvertsJoin(rest);
    } else if tail != [] {
      assert Join(parts) == "-" + Join(tail) && Join(parts)[1..] == Join(tail);
      SplitInvertsJoin(tail);
    }
  }

  // ---- splitEffort ----

  const LEVELS := ["none", "minimal", "low", "medium", "high", "xhigh", "max"]

  predicate IsLevel(part: string) {
    Lower(part) in LEVELS
  }

  predicate IsQualifier(part: string) {
    Lower(part) == "thinking" || Lower(part) == "fast"
  }

  /** An ID without its effort; an ID without effort is its own base. */
  datatype Splitting = Splitting(base: string, effort: string, suffixed: bool)

  /** The effort of the first `n` parts counted from their end, if only qualifiers come after it. */
  function SplitFrom(id: string, parts: seq<string>, n: nat): Splitting
    requires n <= |parts|
  {
    if n == 0 then Splitting(id, "", false)
    else if IsLevel(parts[n - 1]) then Splitting(Join(parts[..n - 1] + parts[n..]), Lower(parts[n - 1]), true)
    else if IsQualifier(parts[n - 1]) then SplitFrom(id, parts, n - 1)
    else Splitting(id, "", false)
  }

  function SplitOf(id: string): Splitting {
    SplitFrom(id, Split(id), |Split(id)|)
  }

  method SplitEffort(id: string) returns (base: string, effort: string, ok: bool)
    ensures Splitting(base, effort, ok) == SplitOf(id)
  {
    var parts := Split(id);
    var index := |parts| - 1;
    while index >= 0
      invariant -1 <= index < |parts|
      invariant SplitOf(id) == SplitFrom(id, parts, index + 1)
    {
      var candidate := Lower(parts[index]);
      if candidate in LEVELS {
        return Join(parts[..index] + parts[index + 1..]), candidate, true;
      }
      if candidate != "thinking" && candidate != "fast" {
        break;
      }
      index := index - 1;
    }
    return id, "", false;
  }

  /** The seven levels from the weakest to the strongest; nothing else is one. */
  function Strength(level: string): nat {
    match level
    case "none" => 0
    case "minimal" => 1
    case "low" => 2
    case "medium" => 3
    case "high" => 4
    case "xhigh" => 5
    case "max" => 6
    case _ => 7
  }

  lemma LevelsAre(level: string)
    ensures level in LEVELS <==> Strength(level) < 7
    ensures level in LEVELS ==> LEVELS[Strength(level)] == level
  {
    assert LEVELS[0] == "none" && LEVELS[1] == "minimal" && LEVELS[2] == "low" && LEVELS[3] == "medium";
    assert LEVELS[4] == "high" && LEVELS[5] == "xhigh" && LEVELS[6] == "max";
  }

  /** `id` is `a`, then an effort level, then qualifiers only. */
  ghost predicate Decomposes(id: string, a: seq<string>, p: string, b: seq<string>) {
    && Split(id) == a + [p] + b && Strength(Lower(p)) < 7
    && forall q <- b :: Lower(q) == "thinking" || Lower(q) == "fast"
  }

  lemma LevelsAreNoQualifiers(part: string)
    ensures !(IsLevel(part) && IsQualifier(part))
  {
  }

  lemma {:induction false} SplitFromFinds(id: string, parts: seq<string>, n: nat, i: nat)
    requires i < n <= |parts| && IsLevel(parts[i]) && forall j :: i < j < n ==> IsQualifier(parts[j])
    ensures SplitFrom(id, parts, n) == Splitting(Join(parts[..i] + parts[i + 1..]), Lower(parts[i]), true)
  {
    if i < n - 1 {
      LevelsAreNoQualifiers(parts[n - 1]);
      SplitFromFinds(id, parts, n - 1, i);
    }
  }

  lemma {:induction false} SplitFromSound(id: string, parts: seq<string>, n: nat) returns (i: nat)
    requires n <= |parts|
    ensures SplitFrom(id, parts, n).suffixed ==>
      i < n && IsLevel(parts[i]) && forall j :: i < j < n ==> IsQualifier(parts[j])
    ensures !SplitFrom(id, parts, n).suffixed ==> SplitFrom(id, parts, n) == Splitting(id, "", false)
  {
    i := 0;
    if n > 0 && IsLevel(parts[n - 1]) {
      i := n - 1;
    } else if n > 0 && IsQualifier(parts[n - 1]) {
      i := SplitFromSound(id, parts, n - 1);
    }
  }

  /** splitEffort answers for every decomposition of the ID there is. */
  lemma DecompositionIsFound(id: string, a: seq<string>, p: string, b: seq<string>)
    requires Decomposes(id, a, p, b)
    ensures SplitOf(id) == Splitting(Join(a + b), Lower(p), true)
  {
    var parts, i := Split(id), |a|;
    LevelsAre(Lower(p));
    hide Strength, Split, Join, Lower;
    assert parts[..i] == a && parts[i] == p && parts[i + 1..] == b;
    forall j | i < j < |parts| ensures IsQualifier(parts[j]) {
      assert parts[j] == b[j - i - 1] && b[j - i - 1] in b;
    }
    SplitFromFinds(id, parts, |parts|, i);
  }

  /** And it finds an effort only where there is a decomposition; otherwise the ID is the base. */
  lemma SplitNeedsDecomposition(id: string) returns (a: seq<string>, p: string, b: seq<string>)
    ensures SplitOf(id).suffixed <==> Decomposes(id, a, p, b)
    ensures !SplitOf(id).suffixed ==> SplitOf(id) == Splitting(id, "", false)
  {
    var parts := Split(id);
    var i := SplitFromSound(id, parts, |parts|);
    if SplitOf(id).suffixed {
      a, p, b := parts[..i], parts[i], parts[i + 1..];
    } else {
      a, p, b := *, *, *;
      if Decomposes(id, a, p, b) {
        DecompositionIsFound(id, a, p, b);
      }
    }
  }

  /** There is at most one decomposition. */
  lemma DecompositionIsUnique(id: string, a: seq<string>, p: string, b: seq<string>, a': seq<string>, p': string,
      b': seq<string>)
    requires Decomposes(id, a, p, b) && Decomposes(id, a', p', b')
    ensures a == a' && p == p' && b == b'
  {
    if |a| < |a'| {
      LaterIsQualifier(id, a, p, b, |a'|);
      assert (a' + [p'] + b')[|a'|] == p';
      LevelsAreNoQualifiers(p');
    } else if |a'| < |a| {
      LaterIsQualifier(id, a', p', b', |a|);
      assert (a + [p] + b)[|a|] == p;
      LevelsAreNoQualifiers(p);
    } else {
      var s := Split(id);
      assert s[..|a|] == a && s[..|a|] == a' && s[|a|] == p && s[|a|] == p' && s[|a| + 1..] == b && s[|a| + 1..] == b';
    }
  }

  lemma LaterIsQualifier(id: string, a: seq<string>, p: string, b: seq<string>, j: nat)
    requires Decomposes(id, a, p, b) && |a| < j < |Split(id)|
    ensures IsQualifier(Split(id)[j])
  {
    assert Split(id)[j] == b[j - |a| - 1] && b[j - |a| - 1] in b;
  }

  lemma EffortIsLevel(id: string)
    ensures SplitOf(id).suffixed ==> SplitOf(id).effort in LEVELS && Lower(SplitOf(id).effort) == SplitOf(id).effort
  {
    var a, p, b := SplitNeedsDecomposition(id);
    if SplitOf(id).suffixed {
      DecompositionIsFound(id, a, p, b);
    }
  }

  // ---- filterModels ----

  function Cleaned(ids: seq<string>): seq<string> {
    seq(|ids|, i requires 0 <= i < |ids| => Lower(Trim(ids[i])))
  }

  /** path.Match, false for malformed patterns. */
  type Glob = (string, string) -> bool

  predicate Matches(value: string, pattern: string, glob: Glob) {
    pattern != "" && (glob(pattern, value) || pattern == value)
  }

  predicate Permitted(id: string, allowed: seq<string>, denied: seq<string>, glob: Glob) {
    && (allowed == [] || exists p <- Cleaned(allowed) :: Matches(Lower(id), p, glob))
    && !exists p <- Cleaned(denied) :: Matches(Lower(id), p, glob)
  }

  method MatchesAny(value: string, patterns: seq<string>, glob: Glob) returns (found: bool)
    ensures found <==> exists p <- patterns :: Matches(value, p, glob)
  {
    for i := 0 to |patterns|
      invariant forall j :: 0 <= j < i ==> !Matches(value, patterns[j], glob)
    {
      if patterns[i] == "" {
        continue;
      }
      if glob(patterns[i], value) || patterns[i] == value {
        assert patterns[i] in patterns;
        return true;
      }
    }
    found := false;
  }

  function Filtered(models: seq<CursorModel>, allowed: seq<string>, denied: seq<string>,
      glob: Glob): (r: seq<CursorModel>)
    ensures forall m :: m in r <==> m in models && Permitted(m.id, allowed, denied, glob)
  {
    if models == [] then []
    else
      var front, last := models[..|models| - 1], models[|models| - 1];
      assert models == front + [last];
      Filtered(front, allowed, denied, glob) + (if Permitted(last.id, allowed, denied, glob) then [last] else [])
  }

  /** `id` matches one of the patterns given, letter case and white space around the pattern aside. */
  ghost predicate IsAmong(id: string, patterns: seq<string>, glob: Glob) {
    exists i :: 0 <= i < |patterns| && var p := Lower(Trim(patterns[i]));
      p != "" && (glob(p, Lower(id)) || p == Lower(id))
  }

  lemma AmongExactly(id: string, patterns: seq<string>, glob: Glob)
    ensures IsAmong(id, patterns, glob) <==> exists p <- Cleaned(patterns) :: Matches(Lower(id), p, glob)
  {
    hide Lower, Trim;
    var cleaned := Cleaned(patterns);
    forall i | 0 <= i < |patterns| ensures cleaned[i] == Lower(Trim(patterns[i])) && cleaned[i] in cleaned {}
  }

  /** The models kept are those among the allowed ones, if any are named, and not among the denied. */
  lemma FilteredExactly(models: seq<CursorModel>, allowed: seq<string>, denied: seq<string>, glob: Glob, m: CursorModel)
    ensures m in Filtered(models, allowed, denied, glob) <==>
            m in models && (allowed == [] || IsAmong(m.id, allowed, glob)) && !IsAmong(m.id, denied, glob)
  {
    AmongExactly(m.id, allowed, glob);
    AmongExactly(m.id, denied, glob);
    hide IsAmong, Matches, Cleaned;
  }

  /** They keep their order. */
  lemma {:induction false} FilteredInOrder(
    a: seq<CursorModel>, b: seq<CursorModel>, allowed: seq<string>, denied: seq<string>, glob: Glob)
    ensures Filtered(a + b, allowed, denied, glob) ==
            Filtered(a, allowed, denied, glob) + Filtered(b, allowed, denied, glob)
    decreases |b|
  {
    hide Permitted;
    if b == [] {
      assert a + b == a;
    } else {
      var front := b[..|b| - 1];
      assert (a + b)[..|a + b| - 1] == a + front;
      FilteredInOrder(a, front, allowed, denied, glob);
    }
  }

  method FilterModels(models: seq<CursorModel>, allowed: seq<string>, denied: seq<string>, glob: Glob)
    returns (r: seq<CursorModel>)
    ensures r == Filtered(models, allowed, denied, glob)
  {
    r := [];
    for i := 0 to |models|
      invariant r == Filtered(models[..i], allowed, denied, glob)
    {
      assert models[..i + 1][..i] == models[..i];
      var key := Lower(models[i].id);
      if |allowed| > 0 {
        var ok := MatchesAny(key, Cleaned(allowed), glob);
        if !ok {
          continue;
        }
      }
      var refused := MatchesAny(key, Cleaned(denied), glob);
      if refused {
        continue;
      }
      r := r + [models[i]];
    }
    assert models[..|models|] == models;
  }

  // ---- normalizedFamilies ----

  datatype Family = Family(id: string, variants: map<string, string>, defaultEffort: string)

  function Bases(models: seq<CursorModel>): set<string> {
    set m <- models :: SplitOf(m.id).base
  }

  /** The efforts a base is offered with, each with the ID of the latest model that has it. */
  function VariantsIn(models: seq<CursorModel>, base: string): map<string, string> {
    if models == [] then map[]
    else
      var before, s := VariantsIn(models[..|models| - 1], base), SplitOf(models[|models| - 1].id);
      if s.suffixed && s.base == base then before[s.effort := models[|models| - 1].id] else before
  }

  const PREFERENCES := ["high", "medium", "low", "xhigh", "max", "minimal", "none"]

  function FirstIn(efforts: seq<string>, variants: map<string, string>): string {
    if efforts == [] then "" else if efforts[0] in variants then efforts[0] else FirstIn(efforts[1..], variants)
  }

  function DefaultOf(variants: map<string, string>, preferred: string): string {
    if variants == map[] then "" else if preferred in variants then preferred else FirstIn(PREFERENCES, variants)
  }

  function Families(models: seq<CursorModel>, preferred: string): map<string, Family> {
    map base <- Bases(models) :: Family(base, VariantsIn(models, base), DefaultOf(VariantsIn(models, base), preferred))
  }

  ghost predicate Grouped(families: map<string, Family>, models: seq<CursorModel>) {
    && families.Keys == Bases(models)
    && forall base <- families :: families[base] == Family(base, VariantsIn(models, base), "")
  }

  lemma BasesSnoc(models: seq<CursorModel>, m: CursorModel)
    ensures Bases(models + [m]) == Bases(models) + {SplitOf(m.id).base}
    ensures forall base :: base !in Bases(models) ==> VariantsIn(models, base) == map[]
  {
    hide SplitOf;
    forall base | base !in Bases(models) ensures VariantsIn(models, base) == map[] {
      NoBaseNoVariants(models, base);
    }
    var more := models + [m];
    assert m in more;
    assert forall k <- models :: k in more;
    assert forall k <- more :: k in models || k == m;
  }

  lemma {:induction false} NoBaseNoVariants(models: seq<CursorModel>, base: string)
    requires base !in Bases(models)
    ensures VariantsIn(models, base) == map[]
  {
    hide SplitOf;
    if models != [] {
      var front, last := models[..|models| - 1], models[|models| - 1];
      assert last in models && forall m <- front :: m in models;
      NoBaseNoVariants(front, base);
    }
  }

  lemma VariantsSnoc(models: seq<CursorModel>, m: CursorModel, base: string)
    ensures var s, before := SplitOf(m.id), VariantsIn(models, base);
      VariantsIn(models + [m], base) == if s.suffixed && s.base == base then before[s.effort := m.id] else before
  {
    assert (models + [m])[..|models|] == models;
  }

  lemma PlainJoins(families: map<string, Family>, models: seq<CursorModel>, m: CursorModel)
    requires Grouped(families, models) && !SplitOf(m.id).suffixed
    ensures Grouped(if m.id in families then families else families[m.id := Family(m.id, map[], "")], models + [m])
  {
    var a, p, b := SplitNeedsDecomposition(m.id);
    BasesSnoc(models, m);
    forall base ensures VariantsIn(models + [m], base) == VariantsIn(models, base) { VariantsSnoc(models, m, base); }
    hide SplitOf, Bases, VariantsIn;
  }

  function WithVariant(families: map<string, Family>, base: string, effort: string, id: string): map<string, Family> {
    var f := if base in families then families[base] else Family(base, map[], "");
    families[base := f.(variants := f.variants[effort := id])]
  }

  lemma SuffixedJoins(families: map<string, Family>, models: seq<CursorModel>, m: CursorModel)
    requires Grouped(families, models) && SplitOf(m.id).suffixed
    ensures Grouped(WithVariant(families, SplitOf(m.id).base, SplitOf(m.id).effort, m.id), models + [m])
  {
    var s := SplitOf(m.id);
    BasesSnoc(models, m);
    var more := WithVariant(families, s.base, s.effort, m.id);
    VariantsSnoc(models, m, s.base);
    hide SplitOf, Bases, VariantsIn;
    forall base | base in more ensures more[base] == Family(base, VariantsIn(models + [m], base), "") {
      VariantsSnoc(models, m, base);
    }
  }

  method NormalizedFamilies(models: seq<CursorModel>, preferred: string) returns (families: map<string, Family>)
    ensures families == Families(models, preferred)
  {
    families := map[];
    assert Grouped(families, []);
    for i := 0 to |models|
      invariant Grouped(families, models[..i])
    {
      assert models[..i + 1] == models[..i] + [models[i]];
      var base, effort, ok := SplitEffort(models[i].id);
      if !ok {
        PlainJoins(families, models[..i], models[i]);
        if models[i].id !in families {
          families := families[models[i].id := Family(models[i].id, map[], "")];
        }
        continue;
      }
      SuffixedJoins(families, models[..i], models[i]);
      if base !in families {
        families := families[base := Family(base, map[], "")];
      }
      families := families[base := families[base].(variants := families[base].variants[effort := models[i].id])];
    }
    assert models[..|models|] == models;
    families := ChooseDefaults(families, preferred);
  }

  /** The second loop of normalizedFamilies, over the families in any order. */
  method ChooseDefaults(grouped: map<string, Family>, preferred: string) returns (families: map<string, Family>)
    requires forall base <- grouped :: grouped[base].defaultEffort == ""
    ensures families ==
        map base <- grouped :: grouped[base].(defaultEffort := DefaultOf(grouped[base].variants, preferred))
  {
    families := grouped;
    var rest := families.Keys;
    while rest != {}
      invariant rest <= families.Keys == grouped.Keys
      invariant forall base <- grouped :: base in rest ==> families[base] == grouped[base]
      invariant forall base <- grouped ::
                  base !in rest ==>
                      families[base] == grouped[base].(defaultEffort := DefaultOf(grouped[base].variants, preferred))
    {
      var base :| base in rest;
      var variants := families[base].variants;
      if |variants| != 0 {
        var default := preferred;
        if preferred !in variants {
          default := FirstAvailable(variants);
        }
        families := families[base := families[base].(defaultEffort := default)];
      }
      rest := rest - {base};
    }
  }

  method FirstAvailable(variants: map<string, string>) returns (effort: string)
    ensures effort == FirstIn(PREFERENCES, variants)
  {
    for i := 0 to |PREFERENCES|
      invariant FirstIn(PREFERENCES, variants) == FirstIn(PREFERENCES[i..], variants)
    {
      if PREFERENCES[i] in variants {
        return PREFERENCES[i];
      }
    }
    effort := "";
  }
}
