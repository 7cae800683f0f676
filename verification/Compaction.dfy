/** The scenario compaction of omp-history-scenarios.py against the checks of its consumer: one
    record per scene, nothing lost in the counts, and the same representative in any order. */
module Compaction {
  import opened Wrappers

  datatype Scene = Scene(id: string, features: set<string>)

  // What the scripts import: digests, byte lengths, the redaction rules and the lexical classifier.
  datatype Library = Library(digest: string -> string, bytes: string -> nat, finds: string -> bool,
    classify: string -> Scene)

  datatype Record = Record(id: string, command: string, sources: seq<string>, occurrences: int)
  datatype Counters = Counters(extracted: int, redactionSkipped: int, dynamicSkipped: int, others: seq<int>)
  datatype Input = Input(records: seq<Record>, statistics: map<string, Counters>)
  datatype Group = Group(id: string, command: string, sources: seq<string>, occurrences: int,
                         scene: string, category: string, features: set<string>, members: nat)
  datatype Selection = Selection(unique: int, scenes: int, removed: int, preserved: int, checked: int, failures: int,
    categories: map<string, nat>)
  datatype Output = Output(records: seq<Group>, statistics: map<string, Counters>, selection: Selection)

  const SOURCES: seq<string> := ["pi", "codex", "omp"]
  const CATEGORIES: seq<string> := ["invalid-boundary", "control-flow", "dynamic", "heredoc", "redirection",
    "multiline", "glob", "comment", "compound"]
  const FEATURES: set<string> :=
    {"invalid-boundary", "control-flow", "dynamic", "heredoc", "redirection", "multiline", "glob", "comment",
      "compound",
     "quote:single", "quote:double", "concatenation", "escape", "assignment", "write-command", "privilege-command",
       "embedded-code", "nested-write"}
  const MAX_SAFE: int := 9007199254740991

  // ---- The order that picks a representative ----

  // Code point order.
  predicate TextLess(a: string, b: string) {
    if b == "" then false
    else if a == "" then true
    else a[0] < b[0] || (a[0] == b[0] && TextLess(a[1..], b[1..]))
  }

  predicate Precedes(lib: Library, a: string, b: string) {
    lib.bytes(a) < lib.bytes(b) || (lib.bytes(a) == lib.bytes(b) && TextLess(a, b))
  }

  lemma {:induction false} TextOrder(a: string, b: string, c: string)
    ensures a == b || TextLess(a, b) || TextLess(b, a)
    ensures !(TextLess(a, b) && TextLess(b, a)) && !TextLess(a, a)
    ensures TextLess(a, b) && TextLess(b, c) ==> TextLess(a, c)
    decreases |a| + |b| + |c|
  {
    if a != "" && b != "" {
      assert a == [a[0]] + a[1..] && b == [b[0]] + b[1..];
      TextOrder(a[1..], b[1..], if c == "" then c else c[1..]);
    }
    if a != "" && b == "" {
      TextOrder(a[1..], b, c);
    }
  }

  // ---- Sums over the records of one scene ----

  predicate InScene(lib: Library, r: Record, scene: string) {
    lib.classify(r.command).id == scene
  }

  function Occurrences(lib: Library, rs: seq<Record>, scene: string): int {
    if rs == [] then 0
    else Occurrences(lib, rs[..|rs| - 1], scene) + if InScene(lib, rs[|rs| - 1], scene) then rs[|rs| - 1].occurrences
      else 0
  }

  function Members(lib: Library, rs: seq<Record>, scene: string): nat {
    if rs == [] then 0
    else Members(lib, rs[..|rs| - 1], scene) + if InScene(lib, rs[|rs| - 1], scene) then 1 else 0
  }

  function Total(rs: seq<Record>): int {
    if rs == [] then 0 else Total(rs[..|rs| - 1]) + rs[|rs| - 1].occurrences
  }

  predicate IsRepresentative(lib: Library, rs: seq<Record>, scene: string, command: string) {
    (exists k :: 0 <= k < |rs| && rs[k].command == command && InScene(lib, rs[k], scene)) &&
    forall k | 0 <= k < |rs| && InScene(lib, rs[k], scene) :: rs[k].command == command ||
      Precedes(lib, command, rs[k].command)
  }

  function SourcesIn(sources: set<string>): seq<string> {
    (if "pi" in sources then ["pi"] else []) + (if "codex" in sources then ["codex"]
      else []) + (if "omp" in sources then ["omp"] else [])
  }

  function SourcesOf(lib: Library, rs: seq<Record>, scene: string): set<string> {
    if rs == [] then {}
    else SourcesOf(lib, rs[..|rs| - 1], scene) + if InScene(lib, rs[|rs| - 1], scene) then AsSet(rs[|rs| - 1].sources)
      else {}
  }

  function AsSet(sources: seq<string>): set<string> {
    set s | s in sources
  }

  // ---- What the producer accepts ----

  predicate IsRecord(lib: Library, r: Record) {
    && r.id == lib.digest(r.command)
    && r.sources != [] && (forall k | 0 <= k < |r.sources| :: r.sources[k] in SOURCES)
    && (forall k, l | 0 <= k < l < |r.sources| :: r.sources[k] != r.sources[l])
    && r.occurrences >= 1 && !lib.finds(r.command)
  }

  predicate AreCounters(c: Counters) {
    c.extracted >= 0 && c.redactionSkipped >= 0 && c.dynamicSkipped >= 0 &&
      forall k | 0 <= k < |c.others| :: c.others[k] >= 0
  }

  function Extracted(statistics: map<string, Counters>, sources: seq<string>): int
    requires forall k | 0 <= k < |sources| :: sources[k] in statistics
  {
    if sources == [] then 0
    else Extracted(statistics, sources[..|sources| - 1]) + statistics[sources[|sources| - 1]].extracted
  }

  predicate HasSources(statistics: map<string, Counters>) {
    statistics.Keys == {"pi", "codex", "omp"}
  }

  predicate IsAccepted(lib: Library, input: Input) {
    && HasSources(input.statistics) && (forall s | s in SOURCES :: AreCounters(input.statistics[s]))
    && (forall k | 0 <= k < |input.records| :: IsRecord(lib, input.records[k]))
    && (forall k, l | 0 <= k < l < |input.records| :: input.records[k].command != input.records[l].command)
    && Extracted(input.statistics, SOURCES) == Total(input.records)
  }

  // ---- What a group says about its scene ----

  ghost predicate IsGroup(lib: Library, rs: seq<Record>, scene: string, g: Group) {
    && g.scene == scene && g.id == lib.digest(g.command) && IsRepresentative(lib, rs, scene, g.command)
    && g.occurrences == Occurrences(lib, rs, scene) && g.members == Members(lib, rs, scene)
    && g.sources == SourcesIn(SourcesOf(lib, rs, scene))
    && (exists k :: 0 <= k < |rs| && InScene(lib, rs[k], scene) && g.features == lib.classify(rs[k].command).features)
    && g.category == CategoryOf(g.features)
  }

  // The first category among the features, or the simple one.
  function CategoryOf(features: set<string>): string {
    CategoryFrom(CATEGORIES, features)
  }

  function CategoryFrom(categories: seq<string>, features: set<string>): string {
    if categories == [] then "simple" else if categories[0] in features then categories[0]
      else CategoryFrom(categories[1..], features)
  }

  ghost predicate AreGroups(lib: Library, rs: seq<Record>, groups: map<string, Group>) {
    (forall scene :: scene in groups <==> exists k :: 0 <= k < |rs| && InScene(lib, rs[k], scene)) &&
    forall scene | scene in groups :: IsGroup(lib, rs, scene, groups[scene])
  }

  // ---- The grouping loop ----

  // One record more: its scene's group is opened or updated, every other group stays.
  function Joined(lib: Library, groups: map<string, Group>, r: Record): Group {
    var scene := lib.classify(r.command);
    if scene.id !in groups then
      Group(r.id, r.command, SourcesIn(AsSet(r.sources)), r.occurrences, scene.id, CategoryOf(scene.features),
        scene.features, 1)
    else
      var g := groups[scene.id];
      var shorter := Precedes(lib, r.command, g.command);
      g.(command := if shorter then r.command else g.command, id := if shorter then r.id else g.id,
         occurrences := g.occurrences + r.occurrences, members := g.members + 1,
         sources := SourcesIn(AsSet(g.sources) + AsSet(r.sources)))
  }

  lemma SourcesOfKnown(lib: Library, rs: seq<Record>, scene: string)
    requires forall k | 0 <= k < |rs| :: IsRecord(lib, rs[k])
    ensures SourcesOf(lib, rs, scene) <= {"pi", "codex", "omp"} &&
      AsSet(SourcesIn(SourcesOf(lib, rs, scene))) == SourcesOf(lib, rs, scene)
  {
    if rs != [] {
      SourcesOfKnown(lib, rs[..|rs| - 1], scene);
      var last := rs[|rs| - 1];
      assert IsRecord(lib, last);
      forall s | s in AsSet(last.sources) ensures s in {"pi", "codex", "omp"} {
        var k :| 0 <= k < |last.sources| && last.sources[k] == s;
      }
    }
  }

  lemma NoSuchScene(lib: Library, rs: seq<Record>, scene: string)
    requires forall k | 0 <= k < |rs| :: !InScene(lib, rs[k], scene)
    ensures Occurrences(lib, rs, scene) == 0 && Members(lib, rs, scene) == 0 && SourcesOf(lib, rs, scene) == {}
  {
    if rs != [] {
      NoSuchScene(lib, rs[..|rs| - 1], scene);
    }
  }

  lemma OtherGroupStays(lib: Library, rs: seq<Record>, r: Record, scene: string, g: Group)
    requires IsGroup(lib, rs, scene, g) && !InScene(lib, r, scene)
    ensures IsGroup(lib, rs + [r], scene, g)
  {
    var more := rs + [r];
    assert more[..|rs|] == rs && forall k | 0 <= k < |rs| :: more[k] == rs[k];
  }

  lemma NewGroup(lib: Library, rs: seq<Record>, r: Record, groups: map<string, Group>)
    requires AreGroups(lib, rs, groups) && IsRecord(lib, r) && lib.classify(r.command).id !in groups
    ensures IsGroup(lib, rs + [r], lib.classify(r.command).id, Joined(lib, groups, r))
  {
    var more, scene := rs + [r], lib.classify(r.command).id;
    assert more[..|rs|] == rs && more[|rs|] == r;
    assert InScene(lib, more[|rs|], scene);
    NoSuchScene(lib, rs, scene);
  }

  lemma SumsAppend(lib: Library, rs: seq<Record>, r: Record, scene: string)
    requires InScene(lib, r, scene)
    ensures Occurrences(lib, rs + [r], scene) == Occurrences(lib, rs, scene) + r.occurrences
    ensures Members(lib, rs + [r], scene) == Members(lib, rs, scene) + 1
    ensures SourcesOf(lib, rs + [r], scene) == SourcesOf(lib, rs, scene) + AsSet(r.sources)
  {
    assert (rs + [r])[..|rs|] == rs;
  }

  lemma FeaturesStay(lib: Library, rs: seq<Record>, r: Record, scene: string, features: set<string>)
    requires exists k :: 0 <= k < |rs| && InScene(lib, rs[k], scene) && features == lib.classify(rs[k].command).features
    ensures var more := rs + [r];
            exists k :: 0 <= k < |more| && InScene(lib, more[k], scene) &&
              features == lib.classify(more[k].command).features
  {
    var more := rs + [r];
    var k :| 0 <= k < |rs| && InScene(lib, rs[k], scene) && features == lib.classify(rs[k].command).features;
    assert more[k] == rs[k];
  }

  lemma SceneJoined(lib: Library, rs: seq<Record>, r: Record, groups: map<string, Group>)
    requires AreGroups(lib, rs, groups) && lib.classify(r.command).id in groups
    requires forall k | 0 <= k < |rs| :: IsRecord(lib, rs[k]) && rs[k].command != r.command
    requires IsRecord(lib, r)
    ensures IsGroup(lib, rs + [r], lib.classify(r.command).id, Joined(lib, groups, r))
  {
    hide IsRepresentative, Precedes, CategoryOf, SourcesIn, AsSet;
    var scene := lib.classify(r.command).id;
    var g := groups[scene];
    SumsAppend(lib, rs, r, scene);
    SourcesOfKnown(lib, rs, scene);
    Shorter(lib, rs, r, scene, g.command);
    FeaturesStay(lib, rs, r, scene, g.features);
    IdFollows(lib, r);
  }

  lemma IdFollows(lib: Library, r: Record)
    requires IsRecord(lib, r)
    ensures r.id == lib.digest(r.command)
  {
  }

  // The least command so far and the new one: the lesser of the two is the least of all.
  lemma Shorter(lib: Library, rs: seq<Record>, r: Record, scene: string, least: string)
    requires IsRepresentative(lib, rs, scene, least) && InScene(lib, r, scene)
    requires forall k | 0 <= k < |rs| :: rs[k].command != r.command
    ensures IsRepresentative(lib, rs + [r], scene, if Precedes(lib, r.command, least) then r.command else least)
  {
    var more := rs + [r];
    assert more[|rs|] == r && forall k | 0 <= k < |rs| :: more[k] == rs[k];
    var at :| 0 <= at < |rs| && rs[at].command == least && InScene(lib, rs[at], scene);
    assert more[at].command == least && InScene(lib, more[at], scene) && InScene(lib, more[|rs|], scene);
    TextOrder(r.command, least, least);
    forall k | 0 <= k < |rs| && Precedes(lib, r.command, least) && InScene(lib, rs[k], scene)
      ensures Precedes(lib, r.command, rs[k].command) {
      TextOrder(r.command, least, rs[k].command);
    }
  }

  lemma GroupsGrow(lib: Library, rs: seq<Record>, r: Record, groups: map<string, Group>)
    requires AreGroups(lib, rs, groups) && IsRecord(lib, r)
    requires forall k | 0 <= k < |rs| :: IsRecord(lib, rs[k]) && rs[k].command != r.command
    ensures AreGroups(lib, rs + [r], groups[lib.classify(r.command).id := Joined(lib, groups, r)])
  {
    hide IsGroup;
    var more, here := rs + [r], lib.classify(r.command).id;
    var next := groups[here := Joined(lib, groups, r)];
    assert more[|rs|] == r && forall k | 0 <= k < |rs| :: more[k] == rs[k];
    forall scene ensures scene in next <==> exists k :: 0 <= k < |more| && InScene(lib, more[k], scene) {
      if scene in groups {
        var k :| 0 <= k < |rs| && InScene(lib, rs[k], scene);
        assert InScene(lib, more[k], scene);
      }
      if scene == here {
        assert InScene(lib, more[|rs|], scene);
      }
    }
    forall scene | scene in next ensures IsGroup(lib, more, scene, next[scene]) {
      if scene == here {
        if here in groups {
          SceneJoined(lib, rs, r, groups);
        } else {
          NewGroup(lib, rs, r, groups);
        }
      } else {
        OtherGroupStays(lib, rs, r, scene, groups[scene]);
      }
    }
  }

  // ---- Conservation ----

  function OccurrencesOver(lib: Library, rs: seq<Record>, scenes: seq<string>): int {
    if scenes == [] then 0 else OccurrencesOver(lib, rs, scenes[1..]) + Occurrences(lib, rs, scenes[0])
  }

  function MembersOver(lib: Library, rs: seq<Record>, scenes: seq<string>): nat {
    if scenes == [] then 0 else MembersOver(lib, rs, scenes[1..]) + Members(lib, rs, scenes[0])
  }

  ghost predicate AreDistinct(scenes: seq<string>) {
    forall i, j | 0 <= i < j < |scenes| :: scenes[i] != scenes[j]
  }

  lemma {:induction false} LastRecordCounts(lib: Library, rs: seq<Record>, scenes: seq<string>)
    requires rs != [] && AreDistinct(scenes)
    ensures var front, last := rs[..|rs| - 1], rs[|rs| - 1];
            var here := lib.classify(last.command).id in scenes;
            OccurrencesOver(lib, rs, scenes) == OccurrencesOver(lib, front, scenes) + (if here then last.occurrences
              else 0) &&
            MembersOver(lib, rs, scenes) == MembersOver(lib, front, scenes) + (if here then 1 else 0)
    decreases |scenes|
  {
    if scenes != [] {
      LastRecordCounts(lib, rs, scenes[1..]);
    }
  }

  lemma NothingCounts(lib: Library, scenes: seq<string>)
    ensures OccurrencesOver(lib, [], scenes) == 0 && MembersOver(lib, [], scenes) == 0
  {
  }

  // Every occurrence and every command is counted in exactly one scene.
  lemma {:induction false} ScenesConserve(lib: Library, rs: seq<Record>, scenes: seq<string>)
    requires AreDistinct(scenes) && forall k | 0 <= k < |rs| :: lib.classify(rs[k].command).id in scenes
    ensures OccurrencesOver(lib, rs, scenes) == Total(rs) && MembersOver(lib, rs, scenes) == |rs|
    decreases |rs|
  {
    if rs == [] {
      NothingCounts(lib, scenes);
    } else {
      ScenesConserve(lib, rs[..|rs| - 1], scenes);
      LastRecordCounts(lib, rs, scenes);
    }
  }

  function SumOccurrences(gs: seq<Group>): int {
    if gs == [] then 0 else SumOccurrences(gs[1..]) + gs[0].occurrences
  }

  function SumMembers(gs: seq<Group>): nat {
    if gs == [] then 0 else SumMembers(gs[1..]) + gs[0].members
  }

  function Scenes(gs: seq<Group>): (r: seq<string>)
    ensures |r| == |gs| && forall k | 0 <= k < |gs| :: r[k] == gs[k].scene
  {
    seq(|gs|, k requires 0 <= k < |gs| => gs[k].scene)
  }

  lemma {:induction false} GroupsSum(lib: Library, rs: seq<Record>, gs: seq<Group>)
    requires forall k | 0 <= k < |gs| :: IsGroup(lib, rs, gs[k].scene, gs[k])
    ensures SumOccurrences(gs) == OccurrencesOver(lib, rs, Scenes(gs)) &&
      SumMembers(gs) == MembersOver(lib, rs, Scenes(gs))
    decreases |gs|
  {
    if gs != [] {
      assert Scenes(gs)[1..] == Scenes(gs[1..]);
      GroupsSum(lib, rs, gs[1..]);
    }
  }

  lemma {:induction false} MembersAtMostOccurrences(lib: Library, rs: seq<Record>, scene: string)
    requires forall k | 0 <= k < |rs| :: IsRecord(lib, rs[k])
    ensures 0 <= Members(lib, rs, scene) <= Occurrences(lib, rs, scene)
    ensures (exists k :: 0 <= k < |rs| && InScene(lib, rs[k], scene)) ==> Members(lib, rs, scene) >= 1
    decreases |rs|
  {
    if rs != [] {
      MembersAtMostOccurrences(lib, rs[..|rs| - 1], scene);
      assert IsRecord(lib, rs[|rs| - 1]);
      if k :| 0 <= k < |rs| && InScene(lib, rs[k], scene) && k < |rs| - 1 {
        assert rs[..|rs| - 1][k] == rs[k];
      }
    }
  }

  // ---- The whole producer ----

  function CountCategories(gs: seq<Group>): map<string, nat> {
    if gs == [] then map[]
    else
      var counts := CountCategories(gs[..|gs| - 1]);
      var category := gs[|gs| - 1].category;
      counts[category := (if category in counts then counts[category] else 0) + 1]
  }

  ghost predicate IsSortedByScene(gs: seq<Group>) {
    forall i, j | 0 <= i < j < |gs| :: TextLess(gs[i].scene, gs[j].scene)
  }

  // The records are the groups of all scenes, sorted by scene, and the selection counts them.
  ghost predicate IsCompaction(lib: Library, input: Input, out: Output) {
    && (forall k | 0 <= k < |out.records| :: IsGroup(lib, input.records, out.records[k].scene, out.records[k]))
    && IsSortedByScene(out.records)
    && (forall k | 0 <= k < |input.records| :: lib.classify(input.records[k].command).id in Scenes(out.records))
    && out.statistics == input.statistics
    && out.selection == Selection(|input.records|, |out.records|, |input.records| - |out.records|, Total(input.records),
                                  |input.records|, 0, CountCategories(out.records))
  }

  lemma SortedIsDistinct(gs: seq<Group>)
    requires IsSortedByScene(gs)
    ensures AreDistinct(Scenes(gs))
  {
    forall i, j | 0 <= i < j < |gs| ensures gs[i].scene != gs[j].scene {
      TextOrder(gs[i].scene, gs[j].scene, gs[j].scene);
    }
  }

  lemma CompactionConserves(lib: Library, input: Input, out: Output)
    requires IsCompaction(lib, input, out)
    ensures SumOccurrences(out.records) == Total(input.records) && SumMembers(out.records) == |input.records|
  {
    hide IsGroup;
    SortedIsDistinct(out.records);
    GroupsSum(lib, input.records, out.records);
    ScenesConserve(lib, input.records, Scenes(out.records));
  }

  // ---- The consumer ----

  // What a JavaScript number makes of an integer: a double has 53 bits, ties go to the even one.
  function Unit(n: int): (u: int)
    ensures u >= 1
  {
    if n <= MAX_SAFE then 1 else 2 * Unit(n / 2)
  }

  function Rounded(n: int): int {
    if n <= MAX_SAFE then n
    else
      var u := Unit(n);
      var q, rest := n / u, n % u;
      if 2 * rest < u || (2 * rest == u && q % 2 == 0) then q * u else (q + 1) * u
  }

  // The sums of the consumer's loops, rounded after each addition.
  function RoundedOccurrences(gs: seq<Group>): int {
    if gs == [] then 0 else Rounded(RoundedOccurrences(gs[..|gs| - 1]) + gs[|gs| - 1].occurrences)
  }

  function RoundedMembers(gs: seq<Group>): int {
    if gs == [] then 0 else Rounded(RoundedMembers(gs[..|gs| - 1]) + gs[|gs| - 1].members)
  }

  function RoundedExtracted(statistics: map<string, Counters>, sources: seq<string>): int
    requires forall k | 0 <= k < |sources| :: sources[k] in statistics
  {
    if sources == [] then 0
    else Rounded(RoundedExtracted(statistics, sources[..|sources| - 1]) + statistics[sources[|sources| - 1]].extracted)
  }

  lemma {:induction false} SumsAtBack(gs: seq<Group>)
    requires gs != []
    ensures SumOccurrences(gs) == SumOccurrences(gs[..|gs| - 1]) + gs[|gs| - 1].occurrences
    ensures SumMembers(gs) == SumMembers(gs[..|gs| - 1]) + gs[|gs| - 1].members
    decreases |gs|
  {
    if |gs| > 1 {
      SumsAtBack(gs[1..]);
      assert gs[..|gs| - 1][1..] == gs[1..][..|gs| - 2];
    }
  }

  // Below the last safe integer every sum on the way is exact.
  lemma {:induction false} SmallSumsAreExact(gs: seq<Group>)
    requires SumOccurrences(gs) <= MAX_SAFE && forall k | 0 <= k < |gs| :: 1 <= gs[k].members <= gs[k].occurrences
    ensures RoundedOccurrences(gs) == SumOccurrences(gs) && RoundedMembers(gs) == SumMembers(gs)
    ensures 0 <= |gs| <= SumMembers(gs) <= SumOccurrences(gs)
    decreases |gs|
  {
    if gs != [] {
      SumsAtBack(gs);
      SmallSumsAreExact(gs[..|gs| - 1]);
    }
  }

  lemma {:induction false} SmallExtractedIsExact(statistics: map<string, Counters>, sources: seq<string>)
    requires forall k | 0 <= k < |sources| :: sources[k] in statistics && statistics[sources[k]].extracted >= 0
    requires Extracted(statistics, sources) <= MAX_SAFE
    ensures RoundedExtracted(statistics, sources) == Extracted(statistics, sources) &&
      Extracted(statistics, sources) >= 0
    decreases |sources|
  {
    if sources != [] {
      ExtractedIsNatural(statistics, sources[..|sources| - 1]);
      SmallExtractedIsExact(statistics, sources[..|sources| - 1]);
    }
  }

  lemma {:induction false} ExtractedIsNatural(statistics: map<string, Counters>, sources: seq<string>)
    requires forall k | 0 <= k < |sources| :: sources[k] in statistics && statistics[sources[k]].extracted >= 0
    ensures Extracted(statistics, sources) >= 0
    decreases |sources|
  {
    if sources != [] {
      ExtractedIsNatural(statistics, sources[..|sources| - 1]);
    }
  }

  predicate AreSafeCounters(c: Counters) {
    && 0 <= c.extracted <= MAX_SAFE && 0 <= c.redactionSkipped <= MAX_SAFE && 0 <= c.dynamicSkipped <= MAX_SAFE
    && (forall k | 0 <= k < |c.others| :: 0 <= c.others[k] <= MAX_SAFE)
    && c.dynamicSkipped <= c.redactionSkipped
  }

  ghost predicate IsSafeGroup(g: Group) {
    && g.sources != [] && (forall k | 0 <= k < |g.sources| :: g.sources[k] in SOURCES)
    && (forall k, l | 0 <= k < l < |g.sources| :: g.sources[k] != g.sources[l])
    && 1 <= g.occurrences <= MAX_SAFE && 1 <= g.members <= g.occurrences
    && (g.category in CATEGORIES || g.category == "simple") && g.features <= FEATURES
  }

  // What evaluateCorpus checks of a version 2 corpus, its numbers read and added as doubles.
  ghost predicate Evaluates(out: Output) {
    && HasSources(out.statistics) && (forall s | s in SOURCES :: AreSafeCounters(out.statistics[s]))
    && AllSafe(out.records) && AllDiffer(out.records)
    && RoundedExtracted(out.statistics, SOURCES) == RoundedOccurrences(out.records)
    && Rounded(out.selection.unique) == RoundedMembers(out.records) && Rounded(out.selection.scenes) == |out.records|
    && Rounded(out.selection.removed) == Rounded(RoundedMembers(out.records) - |out.records|)
    && Rounded(out.selection.preserved) == RoundedOccurrences(out.records) &&
      Rounded(out.selection.checked) == RoundedMembers(out.records)
    && out.selection.failures == 0 && out.selection.categories == CountCategories(out.records)
  }

  // What the producer does not ask for: counters a JavaScript number holds exactly, and no more
  // commands skipped for being dynamic than were skipped at all.
  predicate IsReadable(input: Input)
    requires HasSources(input.statistics)
  {
    forall s | s in SOURCES :: AreSafeCounters(input.statistics[s])
  }

  lemma CategoryIsKnown(categories: seq<string>, features: set<string>)
    ensures CategoryFrom(categories, features) in categories || CategoryFrom(categories, features) == "simple"
  {
  }

  lemma SourcesAreSafe(sources: set<string>)
    requires sources <= {"pi", "codex", "omp"} && sources != {}
    ensures var listed := SourcesIn(sources);
            listed != [] && (forall k | 0 <= k < |listed| :: listed[k] in SOURCES) &&
            forall k, l | 0 <= k < l < |listed| :: listed[k] != listed[l]
  {
  }

  lemma GroupIsSafe(lib: Library, rs: seq<Record>, g: Group)
    requires IsGroup(lib, rs, g.scene, g) && forall k | 0 <= k < |rs| :: IsRecord(lib, rs[k])
    requires forall c :: lib.classify(c).features <= FEATURES
    ensures IsSafeGroup(g) <==> Occurrences(lib, rs, g.scene) <= MAX_SAFE
    ensures exists k :: 0 <= k < |rs| && InScene(lib, rs[k], g.scene)
  {
    hide IsRecord, SourcesIn, CategoryFrom, Precedes, Occurrences, Members, SourcesOf, AsSet;
    MembersAtMostOccurrences(lib, rs, g.scene);
    SourcesOfKnown(lib, rs, g.scene);
    CategoryIsKnown(CATEGORIES, g.features);
    var k :| 0 <= k < |rs| && rs[k].command == g.command && InScene(lib, rs[k], g.scene);
    SomeSource(lib, rs, k, g.scene);
    SourcesAreSafe(SourcesOf(lib, rs, g.scene));
  }

  lemma {:induction false} SomeSource(lib: Library, rs: seq<Record>, k: nat, scene: string)
    requires k < |rs| && InScene(lib, rs[k], scene) && IsRecord(lib, rs[k])
    ensures rs[k].sources != [] && rs[k].sources[0] in SourcesOf(lib, rs, scene)
    decreases |rs|
  {
    if k < |rs| - 1 {
      SomeSource(lib, rs[..|rs| - 1], k, scene);
    }
  }

  // Two scenes never share a representative.
  lemma RepresentativesDiffer(lib: Library, input: Input, out: Output, k: nat, l: nat)
    requires IsCompaction(lib, input, out) && k < l < |out.records|
    requires forall i, j | 0 <= i < j < |input.records| :: input.records[i].id != input.records[j].id
    requires forall i | 0 <= i < |input.records| :: IsRecord(lib, input.records[i])
    ensures out.records[k].command != out.records[l].command && out.records[k].scene != out.records[l].scene &&
            out.records[k].id != out.records[l].id
  {
    var a, b := out.records[k], out.records[l];
    SortedIsDistinct(out.records);
    assert Scenes(out.records)[k] != Scenes(out.records)[l];
    assert IsGroup(lib, input.records, a.scene, a) && IsGroup(lib, input.records, b.scene, b);
    var i :| 0 <= i < |input.records| && input.records[i].command == a.command &&
      InScene(lib, input.records[i], a.scene);
    var j :| 0 <= j < |input.records| && input.records[j].command == b.command &&
      InScene(lib, input.records[j], b.scene);
    assert IsRecord(lib, input.records[i]) && IsRecord(lib, input.records[j]);
  }

  ghost predicate AllSafe(gs: seq<Group>) {
    forall k | 0 <= k < |gs| :: IsSafeGroup(gs[k])
  }

  predicate AllCountable(lib: Library, rs: seq<Record>) {
    forall k | 0 <= k < |rs| :: Occurrences(lib, rs, lib.classify(rs[k].command).id) <= MAX_SAFE
  }

  lemma SafeWhereCountable(lib: Library, input: Input, out: Output)
    requires IsCompaction(lib, input, out) && forall k | 0 <= k < |input.records| :: IsRecord(lib, input.records[k])
    requires forall c :: lib.classify(c).features <= FEATURES
    ensures AllSafe(out.records) <==> AllCountable(lib, input.records)
  {
    hide IsGroup, IsSafeGroup;
    var rs := input.records;
    if AllSafe(out.records) {
      forall i | 0 <= i < |rs| ensures Occurrences(lib, rs, lib.classify(rs[i].command).id) <= MAX_SAFE {
        var k :| 0 <= k < |out.records| && Scenes(out.records)[k] == lib.classify(rs[i].command).id;
        GroupIsSafe(lib, rs, out.records[k]);
      }
    }
    if AllCountable(lib, rs) {
      forall k | 0 <= k < |out.records| ensures IsSafeGroup(out.records[k]) {
        GroupIsSafe(lib, rs, out.records[k]);
        var i :| 0 <= i < |rs| && InScene(lib, rs[i], out.records[k].scene);
      }
    }
  }

  ghost predicate AllDiffer(gs: seq<Group>) {
    forall k, l | 0 <= k < l < |gs| :: gs[k].id != gs[l].id && gs[k].command != gs[l].command &&
      gs[k].scene != gs[l].scene
  }

  lemma {:induction false} SceneWithinTotal(lib: Library, rs: seq<Record>, scene: string)
    requires forall k | 0 <= k < |rs| :: IsRecord(lib, rs[k])
    ensures 0 <= Occurrences(lib, rs, scene) <= Total(rs)
    decreases |rs|
  {
    if rs != [] {
      SceneWithinTotal(lib, rs[..|rs| - 1], scene);
      assert IsRecord(lib, rs[|rs| - 1]);
    }
  }

  lemma OutputDiffers(lib: Library, input: Input, out: Output)
    requires IsAccepted(lib, input) && IsCompaction(lib, input, out)
    requires forall i, j | 0 <= i < j < |input.records| :: input.records[i].id != input.records[j].id
    ensures AllDiffer(out.records)
  {
    hide IsGroup, IsRecord;
    forall k, l | 0 <= k < l < |out.records|
      ensures out.records[k].id != out.records[l].id && out.records[k].command != out.records[l].command &&
        out.records[k].scene != out.records[l].scene
    {
      RepresentativesDiffer(lib, input, out, k, l);
    }
  }

  // The sums of a small output are exact, and all its counts are consistent.
  lemma SmallOutputAdds(lib: Library, input: Input, out: Output)
    requires IsAccepted(lib, input) && IsCompaction(lib, input, out) && AllSafe(out.records) &&
      Total(input.records) <= MAX_SAFE
    ensures RoundedExtracted(out.statistics, SOURCES) == RoundedOccurrences(out.records) == Total(input.records)
    ensures RoundedMembers(out.records) == |input.records| && 0 <= |out.records| <= |input.records| <= MAX_SAFE
  {
    hide IsGroup, IsRecord, Extracted, SumOccurrences, SumMembers;
    CompactionConserves(lib, input, out);
    assert forall k | 0 <= k < |out.records| :: IsSafeGroup(out.records[k]);
    SmallSumsAreExact(out.records);
    SmallExtractedIsExact(out.statistics, SOURCES);
  }

  // The consumer takes an output only if the input's counters are readable for it and no scene counts
  // beyond the last safe integer. When the input's occurrences sum within that integer, readable
  // counters are also enough; digests being distinct and the classifier naming known features.
  lemma ConsumerTakesReadable(lib: Library, input: Input, out: Output)
    requires IsAccepted(lib, input) && IsCompaction(lib, input, out)
    requires forall i, j | 0 <= i < j < |input.records| :: input.records[i].id != input.records[j].id
    requires forall c :: lib.classify(c).features <= FEATURES
    ensures Evaluates(out) ==> IsReadable(input) && AllCountable(lib, input.records)
    ensures Total(input.records) <= MAX_SAFE ==> (Evaluates(out) <==> IsReadable(input))
  {
    hide IsGroup, AllSafe, AllDiffer, IsRecord, AreSafeCounters, Extracted, RoundedExtracted, RoundedMembers,
      RoundedOccurrences, Occurrences;
    OutputDiffers(lib, input, out);
    SafeWhereCountable(lib, input, out);
    if Total(input.records) <= MAX_SAFE {
      forall k | 0 <= k < |input.records| ensures Occurrences(lib, input.records,
        lib.classify(input.records[k].command).id) <= MAX_SAFE {
        SceneWithinTotal(lib, input.records, lib.classify(input.records[k].command).id);
      }
      SmallOutputAdds(lib, input, out);
    }
  }

  // ---- Any order of the records ----

  lemma {:induction false} TakenOut(lib: Library, rs: seq<Record>, k: nat, scene: string)
    requires k < |rs|
    ensures var rest := rs[..k] + rs[k + 1..];
            var here := InScene(lib, rs[k], scene);
            Occurrences(lib, rs, scene) == Occurrences(lib, rest, scene) + (if here then rs[k].occurrences else 0) &&
            Members(lib, rs, scene) == Members(lib, rest, scene) + (if here then 1 else 0) &&
            SourcesOf(lib, rs, scene) == SourcesOf(lib, rest, scene) + (if here then AsSet(rs[k].sources) else {})
    decreases |rs|
  {
    var n := |rs| - 1;
    if k == n {
      assert rs[..k] + rs[k + 1..] == rs[..n];
    } else {
      var rest := rs[..k] + rs[k + 1..];
      assert rs[..n][..k] + rs[..n][k + 1..] == rest[..|rest| - 1] && rest[|rest| - 1] == rs[n] && rs[..n][k] == rs[k];
      TakenOut(lib, rs[..n], k, scene);
    }
  }

  lemma WithoutOne<T>(b: seq<T>, k: nat)
    requires k < |b|
    ensures multiset(b) == multiset(b[..k] + b[k + 1..]) + multiset{b[k]}
  {
    assert b == b[..k] + [b[k]] + b[k + 1..];
  }

  lemma Cancels<T>(x: multiset<T>, y: multiset<T>, one: T)
    requires x + multiset{one} == y + multiset{one}
    ensures x == y
  {
    assert x == (x + multiset{one}) - multiset{one} && y == (y + multiset{one}) - multiset{one};
  }

  lemma Found<T>(a: seq<T>, b: seq<T>) returns (k: nat)
    requires a != [] && multiset(a) == multiset(b)
    ensures k < |b| && b[k] == a[|a| - 1] && multiset(b[..k] + b[k + 1..]) == multiset(a[..|a| - 1])
  {
    var last := a[|a| - 1];
    assert last in multiset(b);
    k :| 0 <= k < |b| && b[k] == last;
    WithoutOne(b, k);
    WithoutOne(a, |a| - 1);
    assert a[..|a| - 1] + a[|a|..] == a[..|a| - 1];
    Cancels(multiset(b[..k] + b[k + 1..]), multiset(a[..|a| - 1]), last);
  }

  lemma {:induction false} SumsIgnoreOrder(lib: Library, a: seq<Record>, b: seq<Record>, scene: string)
    requires multiset(a) == multiset(b)
    ensures Occurrences(lib, a, scene) == Occurrences(lib, b, scene) &&
      Members(lib, a, scene) == Members(lib, b, scene) &&
            SourcesOf(lib, a, scene) == SourcesOf(lib, b, scene)
    decreases |a|
  {
    assert |a| == |multiset(a)| == |multiset(b)| == |b|;
    if a == [] {
      assert b == [];
    } else {
      hide Occurrences, Members, SourcesOf, InScene, AsSet;
      var k := Found(a, b);
      SumsIgnoreOrder(lib, a[..|a| - 1], b[..k] + b[k + 1..], scene);
      TakenOut(lib, b, k, scene);
      TakenOut(lib, a, |a| - 1, scene);
      assert a[..|a| - 1] + a[|a|..] == a[..|a| - 1];
    }
  }

  lemma OneRepresentative(lib: Library, a: seq<Record>, b: seq<Record>, scene: string, c: string, d: string)
    requires multiset(a) == multiset(b) && IsRepresentative(lib, a, scene, c) && IsRepresentative(lib, b, scene, d)
    ensures c == d
  {
    var i :| 0 <= i < |a| && a[i].command == c && InScene(lib, a[i], scene);
    var j :| 0 <= j < |b| && b[j].command == d && InScene(lib, b[j], scene);
    assert a[i] in multiset(b) && b[j] in multiset(a);
    var k :| 0 <= k < |b| && b[k] == a[i];
    var l :| 0 <= l < |a| && a[l] == b[j];
    TextOrder(c, d, d);
  }

  // Permuting the input changes no group's command, id, sources or counts, and no scene comes or goes.
  lemma CompactionIgnoresOrder(lib: Library, a: Input, b: Input, outA: Output, outB: Output, k: nat)
    requires multiset(a.records) == multiset(b.records) && IsCompaction(lib, a, outA) && IsCompaction(lib, b, outB)
    requires k < |outA.records|
    ensures exists l :: 0 <= l < |outB.records| && SameButFeatures(outA.records[k], outB.records[l])
  {
    hide Occurrences, Members, SourcesOf, CategoryOf, SourcesIn, CountCategories, Total, IsSortedByScene;
    var g := outA.records[k];
    assert IsGroup(lib, a.records, g.scene, g);
    var i :| 0 <= i < |a.records| && a.records[i].command == g.command && InScene(lib, a.records[i], g.scene);
    assert a.records[i] in multiset(b.records);
    var j :| 0 <= j < |b.records| && b.records[j] == a.records[i];
    assert lib.classify(b.records[j].command).id in Scenes(outB.records);
    var l :| 0 <= l < |outB.records| && Scenes(outB.records)[l] == g.scene;
    var h := outB.records[l];
    assert IsGroup(lib, b.records, h.scene, h);
    SumsIgnoreOrder(lib, a.records, b.records, g.scene);
    OneRepresentative(lib, a.records, b.records, g.scene, g.command, h.command);
    assert SameButFeatures(g, h);
  }

  predicate SameButFeatures(g: Group, h: Group) {
    g.id == h.id && g.command == h.command && g.sources == h.sources && g.occurrences == h.occurrences &&
      g.scene == h.scene && g.members == h.members
  }

  // ---- compact itself ----

  ghost predicate IsLeast(scenes: set<string>, least: string) {
    least in scenes && forall s | s in scenes :: s == least || TextLess(least, s)
  }

  lemma {:induction false} LeastScene(scenes: set<string>) returns (least: string)
    requires scenes != {}
    ensures IsLeast(scenes, least)
    decreases |scenes|
  {
    hide TextLess;
    var one :| one in scenes;
    least := one;
    if scenes != {one} {
      assert scenes - {one} != {};
      var other := LeastScene(scenes - {one});
      TextOrder(one, other, other);
      least := if TextLess(one, other) then one else other;
      forall s | s in scenes ensures s == least || TextLess(least, s) {
        TextOrder(one, other, s);
      }
    }
  }

  method SortGroups(groups: map<string, Group>) returns (records: seq<Group>)
    requires forall s | s in groups :: groups[s].scene == s
    ensures IsSortedByScene(records)
    ensures forall k | 0 <= k < |records| :: records[k].scene in groups && records[k] == groups[records[k].scene]
    ensures forall s | s in groups :: groups[s] in records
  {
    records := [];
    var todo := groups.Keys;
    while todo != {}
      invariant todo <= groups.Keys && IsSortedByScene(records)
      invariant forall k | 0 <= k < |records| ::
                  records[k].scene in groups && records[k].scene !in todo && records[k] == groups[records[k].scene]
      invariant forall s | s in groups && s !in todo :: groups[s] in records
      invariant forall k, s | 0 <= k < |records| && s in todo :: TextLess(records[k].scene, s)
      decreases |todo|
    {
      ghost var first := LeastScene(todo);
      assert IsLeast(todo, first);
      var least :| least in todo && forall s | s in todo :: s == least || TextLess(least, s);
      records := records + [groups[least]];
      todo := todo - {least};
    }
  }

  // Every record so far is in order and no command came twice.
  ghost predicate AreChecked(lib: Library, rs: seq<Record>, seen: set<string>) {
    && (forall k | 0 <= k < |rs| :: IsRecord(lib, rs[k]) && rs[k].command in seen)
    && (forall k, l | 0 <= k < l < |rs| :: rs[k].command != rs[l].command)
    && (forall c | c in seen :: exists k :: 0 <= k < |rs| && rs[k].command == c)
    && |seen| == |rs|
  }

  lemma CheckedGrows(lib: Library, rs: seq<Record>, r: Record, seen: set<string>, groups: map<string, Group>)
    requires AreChecked(lib, rs, seen) && IsRecord(lib, r) && r.command !in seen && AreGroups(lib, rs, groups)
    ensures AreChecked(lib, rs + [r], seen + {r.command})
    ensures AreGroups(lib, rs + [r], groups[lib.classify(r.command).id := Joined(lib, groups, r)])
    ensures Total(rs + [r]) == Total(rs) + r.occurrences
  {
    hide IsRecord, AreGroups, Joined;
    var more := rs + [r];
    assert more[..|rs|] == rs && more[|rs|] == r && forall k | 0 <= k < |rs| :: more[k] == rs[k];
    GroupsGrow(lib, rs, r, groups);
    forall c | c in seen + {r.command} ensures exists k :: 0 <= k < |more| && more[k].command == c {
      if c in seen {
        var k :| 0 <= k < |rs| && rs[k].command == c;
        assert more[k].command == c;
      }
    }
  }

  lemma Rejected(lib: Library, input: Input, i: nat, seen: set<string>)
    requires i < |input.records| && AreChecked(lib, input.records[..i], seen)
    requires input.records[i].command in seen || !IsRecord(lib, input.records[i])
    ensures !IsAccepted(lib, input)
  {
    if input.records[i].command in seen {
      var k :| 0 <= k < i && input.records[..i][k].command == input.records[i].command;
      assert input.records[k].command == input.records[i].command;
    }
  }

  lemma EmptyIsGrouped(lib: Library)
    ensures AreGroups(lib, [], map[]) && AreChecked(lib, [], {})
  {
  }

  // The loop over the candidates, its groups updated in place.
  method Compact(lib: Library, input: Input) returns (r: Result<Output>)
    ensures r.Ok? <==> IsAccepted(lib, input)
    ensures r.Ok? ==> IsCompaction(lib, input, r.value)
  {
    hide IsGroup, IsRecord, Joined, AreGroups, AreChecked, AreCounters, CountCategories, IsSortedByScene, IsCompaction,
      IsAccepted, Total;
    var rs := input.records;
    var groups: map<string, Group> := map[];
    var seen: set<string> := {};
    var total := 0;
    EmptyIsGrouped(lib);
    NoTotal();
    assert rs[..0] == [];
    for i := 0 to |rs|
      invariant AreChecked(lib, rs[..i], seen) && total == Total(rs[..i]) && AreGroups(lib, rs[..i], groups)
    {
      if rs[i].command in seen || !IsRecord(lib, rs[i]) {
        Rejected(lib, input, i, seen);
        return Conflict;
      }
      assert rs[..i + 1] == rs[..i] + [rs[i]];
      CheckedGrows(lib, rs[..i], rs[i], seen, groups);
      seen := seen + {rs[i].command};
      total := total + rs[i].occurrences;
      groups := groups[lib.classify(rs[i].command).id := Joined(lib, groups, rs[i])];
    }
    assert rs[..|rs|] == rs;
    AcceptedWhenChecked(lib, input, seen);
    if !HasSources(input.statistics) || !AllCounters(input.statistics) ||
      Extracted(input.statistics, SOURCES) != total {
      return Conflict;
    }
    GroupsAreNamed(lib, rs, groups);
    var records := SortGroups(groups);
    r := Ok(Output(records, input.statistics,
      Selection(|seen|, |records|, |seen| - |records|, total, |seen|, 0, CountCategories(records))));
    SeenCounts(lib, rs, seen);
    SortedGroupsCompact(lib, input, groups, r.value);
  }

  predicate AllCounters(statistics: map<string, Counters>)
    requires HasSources(statistics)
  {
    forall s | s in SOURCES :: AreCounters(statistics[s])
  }

  lemma NoTotal()
    ensures Total([]) == 0
  {
  }

  lemma SeenCounts(lib: Library, rs: seq<Record>, seen: set<string>)
    requires AreChecked(lib, rs, seen)
    ensures |seen| == |rs|
  {
  }

  lemma AcceptedWhenChecked(lib: Library, input: Input, seen: set<string>)
    requires AreChecked(lib, input.records, seen)
    ensures IsAccepted(lib, input) <==>
            HasSources(input.statistics) && AllCounters(input.statistics) &&
              Extracted(input.statistics, SOURCES) == Total(input.records)
  {
  }

  lemma SortedGroupsCompact(lib: Library, input: Input, groups: map<string, Group>, out: Output)
    requires AreGroups(lib, input.records, groups) && IsSortedByScene(out.records) && out.statistics == input.statistics
    requires forall k | 0 <= k < |out.records| ::
               out.records[k].scene in groups && out.records[k] == groups[out.records[k].scene]
    requires forall s | s in groups :: groups[s] in out.records
    requires out.selection == Selection(|input.records|, |out.records|, |input.records| - |out.records|,
      Total(input.records),
                                        |input.records|, 0, CountCategories(out.records))
    ensures IsCompaction(lib, input, out)
  {
    hide IsGroup, CountCategories, Total;
    GroupsAreNamed(lib, input.records, groups);
    forall k | 0 <= k < |input.records| ensures lib.classify(input.records[k].command).id in Scenes(out.records) {
      var scene := lib.classify(input.records[k].command).id;
      assert InScene(lib, input.records[k], scene);
      var at :| 0 <= at < |out.records| && out.records[at] == groups[scene];
      assert Scenes(out.records)[at] == scene;
    }
  }

  lemma GroupsAreNamed(lib: Library, rs: seq<Record>, groups: map<string, Group>)
    requires AreGroups(lib, rs, groups)
    ensures forall s | s in groups :: groups[s].scene == s
  {
    forall s | s in groups ensures groups[s].scene == s {
      assert IsGroup(lib, rs, s, groups[s]);
    }
  }
}
