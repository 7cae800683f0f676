/** What one record of a compaction says of its scene, in the words of the consumer: the first category, the
    shortest command, the sources that saw it, and how many scenes each category has. */
module CompactionOutput {
  import opened Wrappers
  import opened Compaction

  // At the first place where they differ, a has ended or has the smaller character.
  ghost predicate ComesFirst(a: string, b: string) {
    exists n: nat :: DiffersAt(a, b, n)
  }

  predicate DiffersAt(a: string, b: string, n: nat) {
    n <= |a| && n < |b| && a[..n] == b[..n] && (n == |a| || a[n] < b[n])
  }

  lemma {:induction false} TextLessComesFirst(a: string, b: string)
    ensures TextLess(a, b) <==> ComesFirst(a, b)
    decreases |a|
  {
    if a == "" || b == "" {
      assert b != "" ==> DiffersAt(a, b, 0);
    } else {
      TextLessComesFirst(a[1..], b[1..]);
      if TextLess(a, b) {
        if a[0] < b[0] {
          assert DiffersAt(a, b, 0);
        } else {
          var n: nat :| DiffersAt(a[1..], b[1..], n);
          assert a[..n + 1] == [a[0]] + a[1..][..n] && b[..n + 1] == [b[0]] + b[1..][..n];
          assert DiffersAt(a, b, n + 1);
        }
      }
      if n: nat :| DiffersAt(a, b, n) {
        if n > 0 {
          assert a[0] == a[..n][0] == b[..n][0] == b[0];
          assert a[1..][..n - 1] == a[..n][1..] == b[..n][1..] == b[1..][..n - 1];
          assert DiffersAt(a[1..], b[1..], n - 1);
        }
      }
    }
  }

  ghost predicate IsFirstAt(n: nat, category: string, features: set<string>)
    requires n < |CATEGORIES|
  {
    CATEGORIES[n] == category && category in features && forall m | 0 <= m < n :: CATEGORIES[m] !in features
  }

  // The first of the categories the scene shows, or none of them.
  ghost predicate IsFirstCategory(category: string, features: set<string>) {
    if category == "simple" then forall c | c in CATEGORIES :: c !in features
    else exists n | 0 <= n < |CATEGORIES| :: IsFirstAt(n, category, features)
  }

  lemma {:induction false} FirstFrom(n: nat, features: set<string>)
    requires n <= |CATEGORIES| && forall m | 0 <= m < n :: CATEGORIES[m] !in features
    ensures IsFirstCategory(CategoryFrom(CATEGORIES[n..], features), features)
    decreases |CATEGORIES| - n
  {
    if n < |CATEGORIES| {
      assert CATEGORIES[n..][0] == CATEGORIES[n] && CATEGORIES[n..][1..] == CATEGORIES[n + 1..];
      if CATEGORIES[n] !in features {
        FirstFrom(n + 1, features);
      } else {
        NotSimple(n);
        assert IsFirstAt(n, CATEGORIES[n], features);
      }
    }
  }

  lemma NotSimple(n: nat)
    requires n < |CATEGORIES|
    ensures CATEGORIES[n] != "simple"
  {
  }

  lemma {:induction false} SeenBySomeone(lib: Library, rs: seq<Record>, scene: string, s: string)
    ensures s in SourcesOf(lib, rs, scene) <==>
            exists k :: 0 <= k < |rs| && InScene(lib, rs[k], scene) && s in rs[k].sources
    decreases |rs|
  {
    if rs != [] {
      var front, last := rs[..|rs| - 1], |rs| - 1;
      SeenBySomeone(lib, front, scene, s);
      if s in SourcesOf(lib, front, scene) {
        var k :| 0 <= k < |front| && InScene(lib, front[k], scene) && s in front[k].sources;
        assert rs[k] == front[k];
      }
      if k :| 0 <= k < |rs| && InScene(lib, rs[k], scene) && s in rs[k].sources {
        assert k < last ==> front[k] == rs[k];
      }
    }
  }

  function Categories(gs: seq<Group>): (r: seq<string>)
    ensures |r| == |gs| && forall k | 0 <= k < |gs| :: r[k] == gs[k].category
  {
    seq(|gs|, k requires 0 <= k < |gs| => gs[k].category)
  }

  lemma {:induction false} CategoriesCounted(gs: seq<Group>, category: string)
    ensures var counts := CountCategories(gs);
            (category in counts <==> category in Categories(gs)) &&
            (category in counts ==> counts[category] == multiset(Categories(gs))[category])
    decreases |gs|
  {
    if gs != [] {
      var front := gs[..|gs| - 1];
      CategoriesCounted(front, category);
      CategoriesCounted(front, gs[|gs| - 1].category);
      assert Categories(gs) == Categories(front) + [gs[|gs| - 1].category];
    }
  }

  // The shortest command of the scene, in bytes; among equally long ones the first in code point order.
  ghost predicate IsShortest(lib: Library, rs: seq<Record>, scene: string, command: string) {
    (exists k :: 0 <= k < |rs| && InScene(lib, rs[k], scene) && rs[k].command == command) &&
    forall k | 0 <= k < |rs| && InScene(lib, rs[k], scene) && rs[k].command != command ::
      lib.bytes(command) < lib.bytes(rs[k].command) ||
      (lib.bytes(command) == lib.bytes(rs[k].command) && ComesFirst(command, rs[k].command))
  }

  lemma RepresentativeIsShortest(lib: Library, rs: seq<Record>, scene: string, command: string)
    ensures IsRepresentative(lib, rs, scene, command) <==> IsShortest(lib, rs, scene, command)
  {
    hide TextLess, ComesFirst;
    forall k | 0 <= k < |rs|
      ensures TextLess(command, rs[k].command) <==> ComesFirst(command, rs[k].command)
    {
      TextLessComesFirst(command, rs[k].command);
    }
    if k :| 0 <= k < |rs| && rs[k].command == command && InScene(lib, rs[k], scene) {
      assert InScene(lib, rs[k], scene) && rs[k].command == command;
    }
  }

  // Only the three sources occur.
  lemma {:induction false} KnownSources(lib: Library, rs: seq<Record>, scene: string)
    requires forall k | 0 <= k < |rs| :: IsRecord(lib, rs[k])
    ensures forall s | s in SourcesOf(lib, rs, scene) :: s == "pi" || s == "codex" || s == "omp"
    decreases |rs|
  {
    if rs != [] {
      KnownSources(lib, rs[..|rs| - 1], scene);
      assert IsRecord(lib, rs[|rs| - 1]);
    }
  }

  ghost predicate HasSource(lib: Library, rs: seq<Record>, scene: string, s: string) {
    exists k :: 0 <= k < |rs| && InScene(lib, rs[k], scene) && s in rs[k].sources
  }

  // pi comes before codex, and both before omp.
  predicate AreOrdered(sources: seq<string>) {
    forall i, j | 0 <= i < j < |sources| ::
      (sources[i] == "pi" && sources[j] in {"codex", "omp"}) || (sources[i] == "codex" && sources[j] == "omp")
  }

  lemma SourcesSaid(lib: Library, rs: seq<Record>, scene: string)
    requires forall k | 0 <= k < |rs| :: IsRecord(lib, rs[k])
    ensures var sources := SourcesIn(SourcesOf(lib, rs, scene));
            AreOrdered(sources) && forall s :: s in sources <==> HasSource(lib, rs, scene, s)
  {
    KnownSources(lib, rs, scene);
    var all := SourcesOf(lib, rs, scene);
    forall s: string
      ensures s in all <==> HasSource(lib, rs, scene, s)
    {
      SeenBySomeone(lib, rs, scene, s);
    }
    hide SourcesOf, IsRecord, HasSource;
    assert forall s :: s in SourcesIn(all) <==> s in all;
  }

  lemma SomeoneIsShortest(lib: Library, rs: seq<Record>, scene: string, command: string)
    requires IsShortest(lib, rs, scene, command) && forall k | 0 <= k < |rs| :: IsRecord(lib, rs[k])
    ensures !lib.finds(command)
  {
  }

  // Each record of a compaction stands for its scene, with its shortest command and the digest of that, the
  // first category of its features, and exactly the sources that have it, in their fixed order; and each
  // category is counted as often as it comes.
  lemma RecordsSpeakForScenes(lib: Library, input: Input, out: Output, k: nat, category: string)
    requires IsAccepted(lib, input) && IsCompaction(lib, input, out) && k < |out.records|
    ensures var g, rs := out.records[k], input.records;
            && IsShortest(lib, rs, g.scene, g.command) && g.id == lib.digest(g.command) && !lib.finds(g.command)
            && IsFirstCategory(g.category, g.features)
            && AreOrdered(g.sources) && (forall s :: s in g.sources <==> HasSource(lib, rs, g.scene, s))
    ensures category in out.selection.categories <==> category in Categories(out.records)
    ensures category in out.selection.categories ==>
            out.selection.categories[category] == multiset(Categories(out.records))[category]
  {
    var g, rs := out.records[k], input.records;
    CategoriesCounted(out.records, category);
    SourcesSaid(lib, rs, g.scene);
    hide SourcesIn, SourcesOf, IsRecord, HasSource, AreOrdered, IsShortest, CategoryFrom, IsFirstCategory, Precedes;
    assert IsGroup(lib, rs, g.scene, g);
    RepresentativeIsShortest(lib, rs, g.scene, g.command);
    SomeoneIsShortest(lib, rs, g.scene, g.command);
    FirstFrom(0, g.features);
    assert CATEGORIES[0..] == CATEGORIES;
  }
}
