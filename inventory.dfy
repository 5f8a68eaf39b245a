/** The phoneme inventory of a language: five classes of phonetic symbols, each a
    permutation of one candidate set from that class's catalog.  The order within
    a class ranks how often its symbols are used. */
module Inventory {
  import opened Catalogs
  import opened Random

  datatype Phonemes = Phonemes(
    consonants: seq<char>,
    vowels: seq<char>,
    sibilants: seq<char>,
    glides: seq<char>,
    endings: seq<char>)

  /** `s` holds the symbols of `t`, each as often, in some order. */
  ghost predicate PermutationOf(s: seq<char>, t: seq<char>) {
    multiset(s) == multiset(t)
  }

  /** `s` is a permutation of some entry of `catalog`. */
  ghost predicate FromCatalog(s: seq<char>, catalog: seq<string>) {
    exists i :: 0 <= i < |catalog| && PermutationOf(s, catalog[i])
  }

  /** Every class is a permutation of an entry of its own catalog. */
  ghost predicate WellFormed(p: Phonemes) {
    && FromCatalog(p.consonants, ConsonantSets)
    && FromCatalog(p.vowels, VowelSets)
    && FromCatalog(p.sibilants, SibilantSets)
    && FromCatalog(p.glides, GlideSets)
    && FromCatalog(p.endings, EndingSets)
  }

  /** A permutation of an entry of a catalog without empty entries is non-empty,
      and exactly as long as that entry. */
  lemma FromCatalogNonEmpty(s: seq<char>, catalog: seq<string>)
    requires EntriesNonEmpty(catalog) && FromCatalog(s, catalog)
    ensures |s| > 0
    ensures exists i :: 0 <= i < |catalog| && |s| == |catalog[i]|
  {
    var i :| 0 <= i < |catalog| && PermutationOf(s, catalog[i]);
    assert |multiset(s)| == |multiset(catalog[i])|;
  }

  /** Every class of a well-formed inventory is non-empty. */
  lemma WellFormedNonEmpty(p: Phonemes)
    requires WellFormed(p)
    ensures |p.consonants| > 0 && |p.vowels| > 0 && |p.sibilants| > 0
    ensures |p.glides| > 0 && |p.endings| > 0
  {
    CatalogsNonEmpty();
    FromCatalogNonEmpty(p.consonants, ConsonantSets);
    FromCatalogNonEmpty(p.vowels, VowelSets);
    FromCatalogNonEmpty(p.sibilants, SibilantSets);
    FromCatalogNonEmpty(p.glides, GlideSets);
    FromCatalogNonEmpty(p.endings, EndingSets);
  }

  /** The ranges of the draws one class takes: the choice among `entries`
      catalog entries, then the shuffle of the chosen entry of length `n`. */
  ghost function ClassRanges(entries: nat, n: nat): seq<(nat, nat)> {
    [(0, entries)] + ShuffleRanges(n)
  }

  /** The ranges of the draws `Phonemes::from_rand` takes, in order: one class
      after another, consonants first and endings last. */
  ghost function PhonemeRanges(p: Phonemes): seq<(nat, nat)> {
    ClassRanges(|ConsonantSets|, |p.consonants|) +
    ClassRanges(|VowelSets|, |p.vowels|) +
    ClassRanges(|SibilantSets|, |p.sibilants|) +
    ClassRanges(|GlideSets|, |p.glides|) +
    ClassRanges(|EndingSets|, |p.endings|)
  }

  /** Five successive runs of draws: their ranges, in order, are the ranges of
      the whole run. */
  lemma SinceFive(t0: seq<Draw>, t1: seq<Draw>, t2: seq<Draw>, t3: seq<Draw>, t4: seq<Draw>, t5: seq<Draw>)
    requires Extends(t0, t1) && Extends(t1, t2) && Extends(t2, t3)
    requires Extends(t3, t4) && Extends(t4, t5)
    ensures Extends(t0, t5)
    ensures Ranges(Since(t0, t5)) ==
      Ranges(Since(t0, t1)) + Ranges(Since(t1, t2)) + Ranges(Since(t2, t3)) +
      Ranges(Since(t3, t4)) + Ranges(Since(t4, t5))
  {
    ExtendsTrans(t0, t1, t2);
    RangesAppend(Since(t0, t1), Since(t1, t2));
    ExtendsTrans(t0, t2, t3);
    RangesAppend(Since(t0, t2), Since(t2, t3));
    ExtendsTrans(t0, t3, t4);
    RangesAppend(Since(t0, t3), Since(t3, t4));
    ExtendsTrans(t0, t4, t5);
    RangesAppend(Since(t0, t4), Since(t4, t5));
  }

  /** One class drawn with the values supplied from position `p` on: the entry
      of `catalog` the value at `p` picks, shuffled with the values that follow;
      and the position after the class's draws. */
  ghost function ClassFrom(catalog: seq<string>, source: nat -> nat, p: nat): (seq<char>, nat)
    requires |catalog| > 0
  {
    var entry := catalog[source(p) % |catalog|];
    (FisherYates(entry, |entry|, source, p + 1), p + 1 + SwapCount(|entry|))
  }

  /** A class drawn from any supplied values is a permutation of the entry its
      first draw picks, and so an entry of its catalog. */
  lemma ClassFromCatalog(catalog: seq<string>, source: nat -> nat, p: nat)
    requires |catalog| > 0
    ensures PermutationOf(ClassFrom(catalog, source, p).0, catalog[source(p) % |catalog|])
    ensures FromCatalog(ClassFrom(catalog, source, p).0, catalog)
  {
    var entry := catalog[source(p) % |catalog|];
    FisherYatesPermutes(entry, |entry|, source, p + 1);
  }

  /** The inventory drawn with the values supplied from position `p` on, one
      class after another, and the position after its draws. */
  ghost function PhonemesFrom(source: nat -> nat, p: nat): (Phonemes, nat) {
    CatalogsNonEmpty();
    var (consonants, p1) := ClassFrom(ConsonantSets, source, p);
    var (vowels, p2) := ClassFrom(VowelSets, source, p1);
    var (sibilants, p3) := ClassFrom(SibilantSets, source, p2);
    var (glides, p4) := ClassFrom(GlideSets, source, p3);
    var (endings, p5) := ClassFrom(EndingSets, source, p4);
    (Phonemes(consonants, vowels, sibilants, glides, endings), p5)
  }

  /** Whatever values are supplied, the inventory drawn from them is well formed. */
  lemma PhonemesFromWellFormed(source: nat -> nat, p: nat)
    ensures WellFormed(PhonemesFrom(source, p).0)
    ensures PhonemesFrom(source, p).1 > p
  {
    CatalogsNonEmpty();
    var (_, p1) := ClassFrom(ConsonantSets, source, p);
    var (_, p2) := ClassFrom(VowelSets, source, p1);
    var (_, p3) := ClassFrom(SibilantSets, source, p2);
    var (_, p4) := ClassFrom(GlideSets, source, p3);
    ClassFromCatalog(ConsonantSets, source, p);
    ClassFromCatalog(VowelSets, source, p1);
    ClassFromCatalog(SibilantSets, source, p2);
    ClassFromCatalog(GlideSets, source, p3);
    ClassFromCatalog(EndingSets, source, p4);
  }

  /** One class: choose an entry of `catalog`, unwrap it (the catalog must not be
      empty), collect its symbols and shuffle them. */
  method ChooseShuffled(rng: Rng, catalog: seq<string>) returns (s: seq<char>)
    requires |catalog| > 0 && rng.Valid()
    modifies rng
    ensures rng.Valid()
    ensures (s, rng.pos) == ClassFrom(catalog, rng.source, old(rng.pos))
    ensures Extends(old(rng.trace), rng.trace)
    ensures Ranges(Since(old(rng.trace), rng.trace)) == ClassRanges(|catalog|, |s|)
  {
    ghost var t0 := rng.trace;
    var entry := rng.Choose(catalog);
    var chars := entry.value;
    ghost var t1 := rng.trace;
    var a := new char[|chars|](i requires 0 <= i < |chars| => chars[i]);
    assert a[..] == chars;
    rng.Shuffle(a);
    s := a[..];
    FisherYatesPermutes(chars, |chars|, rng.source, old(rng.pos) + 1);
    ExtendsTrans(t0, t1, rng.trace);
    RangesAppend(Since(t0, t1), Since(t1, rng.trace));
  }

  /** `Phonemes::from_rand`: each class in turn, consonants, vowels, sibilants,
      glides, endings, is a shuffled entry of its catalog. */
  method PhonemesFromRand(rng: Rng) returns (p: Phonemes)
    requires rng.Valid()
    modifies rng
    ensures rng.Valid()
    ensures (p, rng.pos) == PhonemesFrom(rng.source, old(rng.pos))
    ensures WellFormed(p)
    ensures Extends(old(rng.trace), rng.trace)
    ensures Ranges(Since(old(rng.trace), rng.trace)) == PhonemeRanges(p)
  {
    CatalogsNonEmpty();
    ghost var t0 := rng.trace;
    var consonants := ChooseShuffled(rng, ConsonantSets);
    ghost var t1 := rng.trace;
    var vowels := ChooseShuffled(rng, VowelSets);
    ghost var t2 := rng.trace;
    var sibilants := ChooseShuffled(rng, SibilantSets);
    ghost var t3 := rng.trace;
    var glides := ChooseShuffled(rng, GlideSets);
    ghost var t4 := rng.trace;
    var endings := ChooseShuffled(rng, EndingSets);
    ghost var t5 := rng.trace;
    p := Phonemes(consonants, vowels, sibilants, glides, endings);

    SinceFive(t0, t1, t2, t3, t4, t5);
    PhonemesFromWellFormed(rng.source, old(rng.pos));
  }
}
