/** Candidates the compaction accepts and its consumer refuses. */
module CompactionExamples {
  import opened Compaction

  // Every command is a scene of its own, without features.
  const LIBRARY := Library(c => c, c => |c|, c => false, c => Scene(c, {}))

  const ONLY_PI := ["pi"]

  function Single(command: string, occurrences: int): Group {
    Group(command, command, ONLY_PI, occurrences, command, "simple", {}, 1)
  }

  function Alone(command: string, occurrences: int): Record {
    Record(command, command, ONLY_PI, occurrences)
  }

  // A record alone in its scene is its own group.
  lemma AloneIsGroup(rs: seq<Record>, k: nat, occurrences: int)
    requires k < |rs| && rs[k] == Alone(rs[k].command, occurrences)
    requires forall i | 0 <= i < |rs| && i != k :: rs[i].command != rs[k].command
    ensures IsGroup(LIBRARY, rs, rs[k].command, Single(rs[k].command, occurrences))
  {
    hide Occurrences, Members, SourcesOf, IsRepresentative;
    AloneCounts(rs, k);
    AloneRepresents(rs, k);
    NoCategory(CATEGORIES);
    assert AsSet(ONLY_PI) == {"pi"};
    assert InScene(LIBRARY, rs[k], rs[k].command) && LIBRARY.classify(rs[k].command).features == {};
  }

  lemma AloneCounts(rs: seq<Record>, k: nat)
    requires k < |rs| && forall i | 0 <= i < |rs| && i != k :: rs[i].command != rs[k].command
    ensures var scene := rs[k].command;
            Occurrences(LIBRARY, rs, scene) == rs[k].occurrences && Members(LIBRARY, rs, scene) == 1 &&
            SourcesOf(LIBRARY, rs, scene) == AsSet(rs[k].sources)
  {
    hide Occurrences, Members, SourcesOf;
    var scene := rs[k].command;
    var rest := rs[..k] + rs[k + 1..];
    TakenOut(LIBRARY, rs, k, scene);
    forall i | 0 <= i < |rest| ensures !InScene(LIBRARY, rest[i], scene) {
      assert rest[i] == if i < k then rs[i] else rs[i + 1];
    }
    NoSuchScene(LIBRARY, rest, scene);
  }

  lemma AloneRepresents(rs: seq<Record>, k: nat)
    requires k < |rs| && forall i | 0 <= i < |rs| && i != k :: rs[i].command != rs[k].command
    ensures IsRepresentative(LIBRARY, rs, rs[k].command, rs[k].command)
  {
    assert InScene(LIBRARY, rs[k], rs[k].command);
  }

  lemma NoCategory(categories: seq<string>)
    ensures CategoryFrom(categories, {}) == "simple"
  {
  }

  // ---- More commands skipped for being dynamic than were skipped at all ----

  const NOTHING := Counters(0, 0, 0, [])
  const SKIPPED := Counters(0, 0, 1, [])

  function Empty(): Input {
    Input([], map["pi" := SKIPPED, "codex" := NOTHING, "omp" := NOTHING])
  }

  lemma SkippedMoreThanSkipped()
    ensures IsAccepted(LIBRARY, Empty()) && Total(Empty().records) == 0
    ensures forall out | IsCompaction(LIBRARY, Empty(), out) :: !Evaluates(out)
  {
    var statistics := Empty().statistics;
    assert statistics.Keys == {"pi", "codex", "omp"};
    assert SOURCES[..2] == ["pi", "codex"] && ["pi", "codex"][..1] == ["pi"] && ["pi"][..0] == [];
    assert Extracted(statistics, []) == 0 && Extracted(statistics, ["pi"]) == 0 &&
      Extracted(statistics, ["pi", "codex"]) == 0;
    assert forall s | s in SOURCES :: s == "pi" || s == "codex" || s == "omp";
    forall out | IsCompaction(LIBRARY, Empty(), out) ensures !Evaluates(out) {
      assert "pi" in SOURCES && !AreSafeCounters(statistics["pi"]);
    }
  }

  // ---- Every counter exact, and still a sum that is not ----

  const MANY := [Alone("a", MAX_SAFE), Alone("b", 1), Alone("c", 1), Alone("d", 1), Alone("e", 1)]
  const SCENES := [Single("a", MAX_SAFE), Single("b", 1), Single("c", 1), Single("d", 1), Single("e", 1)]

  function Large(): Input {
    Input(MANY, map["pi" := Counters(MAX_SAFE, 0, 0, []), "codex" := Counters(4, 0, 0, []), "omp" := NOTHING])
  }

  function LargeOutput(): Output {
    Output(SCENES, Large().statistics, Selection(5, 5, 0, MAX_SAFE + 4, 5, 0, CountCategories(SCENES)))
  }

  lemma TotalOfMany()
    ensures Total(MANY) == MAX_SAFE + 4
  {
    assert MANY[..4][..3] == MANY[..3] && MANY[..3][..2] == MANY[..2] && MANY[..2][..1] == MANY[..1] &&
      MANY[..1][..0] == [];
    assert Total(MANY[..1]) == MAX_SAFE && Total(MANY[..2]) == MAX_SAFE + 1 && Total(MANY[..3]) == MAX_SAFE + 2;
    assert Total(MANY[..4]) == MAX_SAFE + 3;
  }

  lemma LargeIsAccepted()
    ensures IsAccepted(LIBRARY, Large()) && IsReadable(Large())
  {
    hide Total, Extracted;
    TotalOfMany();
    LargeExtracts();
    assert forall k | 0 <= k < |MANY| :: IsRecord(LIBRARY, MANY[k]);
    assert forall s | s in SOURCES :: s == "pi" || s == "codex" || s == "omp";
  }

  lemma LargeExtracts()
    ensures Large().statistics.Keys == {"pi", "codex", "omp"} && Extracted(Large().statistics, SOURCES) == MAX_SAFE + 4
  {
    var statistics := Large().statistics;
    assert statistics.Keys == {"pi", "codex", "omp"};
    assert SOURCES[..2] == ["pi", "codex"] && ["pi", "codex"][..1] == ["pi"] && ["pi"][..0] == [];
    assert Extracted(statistics, ["pi"]) == MAX_SAFE && Extracted(statistics, ["pi", "codex"]) == MAX_SAFE + 4;
  }

  // Stage by stage: each record is its own scene, the scenes are sorted, and none is missing.
  lemma LargeGroups()
    ensures forall k | 0 <= k < |SCENES| :: IsGroup(LIBRARY, MANY, SCENES[k].scene, SCENES[k])
  {
    hide IsGroup;
    forall k | 0 <= k < |SCENES| ensures IsGroup(LIBRARY, MANY, SCENES[k].scene, SCENES[k]) {
      AloneIsGroup(MANY, k, MANY[k].occurrences);
    }
  }

  lemma LargeIsSorted()
    ensures IsSortedByScene(SCENES)
  {
  }

  lemma LargeIsComplete()
    ensures forall k | 0 <= k < |MANY| :: LIBRARY.classify(MANY[k].command).id in Scenes(SCENES)
  {
    forall k | 0 <= k < |MANY| ensures LIBRARY.classify(MANY[k].command).id in Scenes(SCENES) {
      assert Scenes(SCENES)[k] == MANY[k].command;
    }
  }

  lemma LargeIsCompacted()
    ensures IsCompaction(LIBRARY, Large(), LargeOutput())
  {
    hide IsGroup, IsSortedByScene, Total, CountCategories;
    TotalOfMany();
    LargeGroups();
    LargeIsSorted();
    LargeIsComplete();
  }

  lemma RoundsToEven()
    ensures Rounded(MAX_SAFE) == MAX_SAFE && Rounded(MAX_SAFE + 1) == MAX_SAFE + 1 &&
      Rounded(MAX_SAFE + 2) == MAX_SAFE + 1 && Rounded(MAX_SAFE + 4) == MAX_SAFE + 5 == Rounded(MAX_SAFE + 5)
  {
    assert Unit((MAX_SAFE + 1) / 2) == 1;
    assert Unit(MAX_SAFE + 1) == 2 && Unit(MAX_SAFE + 2) == 2 && Unit(MAX_SAFE + 4) == 2 && Unit(MAX_SAFE + 5) == 2;
  }

  // The occurrences stay at the first even number while the extracted commands step over it: the
  // producer accepts the input, each number is one JavaScript holds exactly, and the consumer refuses.
  lemma RoundingRefuses()
    ensures IsAccepted(LIBRARY, Large()) && IsReadable(Large()) && IsCompaction(LIBRARY, Large(), LargeOutput())
    ensures !Evaluates(LargeOutput())
  {
    LargeIsAccepted();
    LargeIsCompacted();
    LargeSums();
  }

  lemma LargeSums()
    ensures RoundedOccurrences(SCENES) == MAX_SAFE + 1
    ensures Large().statistics.Keys == {"pi", "codex", "omp"} &&
      RoundedExtracted(Large().statistics, SOURCES) == MAX_SAFE + 5
  {
    hide Unit;
    RoundsToEven();
    assert SCENES[..4][..3] == SCENES[..3] && SCENES[..3][..2] == SCENES[..2] && SCENES[..2][..1] == SCENES[..1] &&
      SCENES[..1][..0] == [];
    assert RoundedOccurrences(SCENES[..1]) == MAX_SAFE && RoundedOccurrences(SCENES[..2]) == MAX_SAFE + 1;
    assert RoundedOccurrences(SCENES[..3]) == MAX_SAFE + 1 && RoundedOccurrences(SCENES[..4]) == MAX_SAFE + 1;
    var statistics := Large().statistics;
    assert SOURCES[..2] == ["pi", "codex"] && ["pi", "codex"][..1] == ["pi"] && ["pi"][..0] == [];
    assert RoundedExtracted(statistics, ["pi"]) == MAX_SAFE &&
      RoundedExtracted(statistics, ["pi", "codex"]) == MAX_SAFE + 5;
  }
}
