/** A generated language: its phoneme inventory, its spelling table, its
    syllable template and the bounds on the number of syllables in a word. */
module Languages {
  import opened Options
  import opened Catalogs
  import opened Orthographies
  import opened Random
  import opened Inventory

  /** An unsigned 8-bit integer, the type of the syllable bounds. */
  newtype u8 = x: int | 0 <= x < 256

  datatype Language = Language(
    phonemes: Phonemes,
    orthography: Orthography,
    syllable: seq<char>,
    minSyllable: u8,
    maxSyllable: u8,
    /** "of"; not generated yet */
    genitive: Option<string>,
    /** "the"; not generated yet */
    definite: Option<string>)

  /** The fewest syllables of a word, from a value drawn from [1, 3): one more
      than the draw when the template has fewer than three codes, so that short
      templates give longer words.  The addition cannot wrap around. */
  function MinSyllable(templateLength: nat, drawn: u8): (m: u8)
    requires 1 <= drawn < 3
    ensures templateLength < 3 ==> 2 <= m <= 3
    ensures templateLength >= 3 ==> 1 <= m <= 2
  {
    if templateLength < 3 then drawn + 1 else drawn
  }

  /** The values `MinSyllable` can take are exactly {2, 3} for a template of
      fewer than three codes and {1, 2} otherwise. */
  lemma MinSyllableRange(templateLength: nat, m: u8)
    ensures (exists d: u8 :: 1 <= d < 3 && MinSyllable(templateLength, d) == m) <==>
            (if templateLength < 3 then 2 <= m <= 3 else 1 <= m <= 2)
  {
    if templateLength < 3 && 2 <= m <= 3 {
      assert MinSyllable(templateLength, m - 1) == m;
    } else if templateLength >= 3 && 1 <= m <= 2 {
      assert MinSyllable(templateLength, m) == m;
    }
  }

  /** The bounds on the syllables of a word: at least one, fewer than the most,
      and at most six. */
  ghost predicate SyllableBounds(minSyllable: u8, maxSyllable: u8) {
    1 <= minSyllable < maxSyllable <= 6
  }

  /** The bounds of every template: for a draw d from [1, 3), the fewest
      syllables leave room for the draw of the most from [fewest + 1, 7), so
      that range is never empty; every value of it gives valid bounds; and the
      extra syllable is added exactly for the templates "CV" and "VC". */
  lemma TemplateBounds(i: nat, d: u8)
    requires i < |SyllableStruct| && 1 <= d < 3
    ensures MinSyllable(|SyllableStruct[i]|, d) as int + 1 < 7
    ensures forall maxSyllable: u8 :: MinSyllable(|SyllableStruct[i]|, d) < maxSyllable < 7 ==>
              SyllableBounds(MinSyllable(|SyllableStruct[i]|, d), maxSyllable)
    ensures SyllableStruct[i] in {"CV", "VC"} <==> MinSyllable(|SyllableStruct[i]|, d) == d + 1
  {
    ShortTemplates();
  }

  /** The two draws that choose the spelling layers, and the table they give:
      the default table under the chosen consonant layer under the chosen vowel
      layer. */
  ghost predicate OrthographyDraws(d: seq<Draw>, table: map<char, string>) {
    && |d| == 2 && d[0].value < |ConsonantMappings| && d[1].value < |VowelMappings|
    && LayerDraws(d, ConsonantMappings[d[0].value], VowelMappings[d[1].value])
    && table == Layered(ConsonantMappings[d[0].value], VowelMappings[d[1].value])
  }

  /** The three draws that choose the syllable template and the bounds on the
      number of syllables, and what they give. */
  ghost predicate SyllableDraws(d: seq<Draw>, syllable: seq<char>, minSyllable: u8, maxSyllable: u8) {
    && |d| == 3
    && d[0].lo == 0 && d[0].hi == |SyllableStruct| && d[0].value < |SyllableStruct|
    && d[1].lo == 1 && d[1].hi == 3 && 1 <= d[1].value < 3
    && syllable == SyllableStruct[d[0].value]
    && minSyllable == MinSyllable(|syllable|, d[1].value as u8)
    && d[2] == Draw(minSyllable as nat + 1, 7, maxSyllable as nat)
  }

  // ---------------------------------------------------------------------------
  // The language the supplied values give

  /** The spelling layers the values supplied at positions `p` and p + 1 choose,
      and the position after them. */
  ghost function LayersFrom(source: nat -> nat, p: nat): (Mapping, Mapping, nat) {
    CatalogsNonEmpty();
    (ConsonantMappings[source(p) % |ConsonantMappings|], VowelMappings[source(p + 1) % |VowelMappings|], p + 2)
  }

  /** The syllable template and bounds the values supplied at positions `p`,
      p + 1 and p + 2 give: a template, a draw from [1, 3) for the fewest
      syllables and a draw from [fewest + 1, 7) for the most; and the position
      after them. */
  ghost function SyllableFrom(source: nat -> nat, p: nat): (seq<char>, u8, u8, nat) {
    CatalogsNonEmpty();
    var syllable := SyllableStruct[source(p) % |SyllableStruct|];
    var minSyllable := MinSyllable(|syllable|, (1 + source(p + 1) % 2) as u8);
    var lo := minSyllable as nat + 1;
    (syllable, minSyllable, (lo + source(p + 2) % (7 - lo)) as u8, p + 3)
  }

  /** Whatever values are supplied, the syllable bounds are valid, and the
      templates of fewer than three codes get at least two syllables. */
  lemma SyllableFromBounds(source: nat -> nat, p: nat)
    ensures var (syllable, minSyllable, maxSyllable, _) := SyllableFrom(source, p);
      && SyllableBounds(minSyllable, maxSyllable)
      && (|syllable| < 3 ==> syllable in {"CV", "VC"} && 2 <= minSyllable <= 3)
      && (|syllable| >= 3 ==> 1 <= minSyllable <= 2)
  {
    CatalogsNonEmpty();
    ShortTemplates();
  }

  /** Everything a `Language` holds, with its spelling table in place of the
      `Orthography` object. */
  datatype LanguageValue = LanguageValue(
    phonemes: Phonemes,
    table: map<char, string>,
    syllable: seq<char>,
    minSyllable: u8,
    maxSyllable: u8)

  /** The value of a language (its "of" and "the" are never set). */
  ghost function Value(lang: Language): LanguageValue
    reads lang.orthography
  {
    LanguageValue(lang.phonemes, lang.orthography.table, lang.syllable, lang.minSyllable, lang.maxSyllable)
  }

  /** The language the values supplied from position `p` on give: the
      inventory, then the two spelling layers laid over the default table, then
      the syllable template and bounds; and the position after its draws.  The
      same supplied values always give the same language. */
  ghost function LanguageFrom(source: nat -> nat, p: nat): (LanguageValue, nat) {
    var (phonemes, p1) := PhonemesFrom(source, p);
    var (consonants, vowels, p2) := LayersFrom(source, p1);
    var (syllable, minSyllable, maxSyllable, p3) := SyllableFrom(source, p2);
    (LanguageValue(phonemes, Layered(consonants, vowels), syllable, minSyllable, maxSyllable), p3)
  }

  /** Whatever values are supplied, the language they give is valid: a
      well-formed inventory, a spelling table whose written forms are all
      non-empty, and valid syllable bounds. */
  lemma LanguageFromValid(source: nat -> nat, p: nat)
    ensures var (v, next) := LanguageFrom(source, p);
      && WellFormed(v.phonemes)
      && NonEmptyValues(v.table)
      && SyllableBounds(v.minSyllable, v.maxSyllable)
      && next > p + 5
  {
    var (_, p1) := PhonemesFrom(source, p);
    PhonemesFromWellFormed(source, p);
    var (consonants, vowels, p2) := LayersFrom(source, p1);
    LayersWellFormed();
    DefaultMapWellFormed();
    LayerNonEmpty(map[], DefaultMap);
    LayerNonEmpty(DefaultTable(), consonants);
    LayerNonEmpty(Layer(DefaultTable(), consonants), vowels);
    SyllableFromBounds(source, p2);
  }

  /** The second spelling step of `Language::from_rand`:
      a new default table with the consonant layer and then the vowel layer
      laid over it. */
  method LayeredOrthography(consonants: Mapping, vowels: Mapping) returns (orthography: Orthography)
    ensures fresh(orthography)
    ensures orthography.table == Layered(consonants, vowels)
    ensures ValuesNonEmpty(consonants) && ValuesNonEmpty(vowels) ==> orthography.Valid()
  {
    orthography := new Orthography();
    orthography.WithMapping(consonants);
    orthography.WithMapping(vowels);
  }

  /** The first spelling step of `Language::from_rand`: choose a consonant layer, then a vowel layer, and unwrap both
      (neither catalog is empty). */
  method ChooseLayers(rng: Rng) returns (consonants: Mapping, vowels: Mapping)
    requires rng.Valid()
    modifies rng
    ensures rng.Valid()
    ensures (consonants, vowels, rng.pos) == LayersFrom(rng.source, old(rng.pos))
    ensures Extends(old(rng.trace), rng.trace)
    ensures LayerDraws(Since(old(rng.trace), rng.trace), consonants, vowels)
    ensures ValuesNonEmpty(consonants) && ValuesNonEmpty(vowels)
  {
    ghost var t0 := rng.trace;
    var cMap := rng.Choose(ConsonantMappings);
    consonants := cMap.value;
    var vMap := rng.Choose(VowelMappings);
    vowels := vMap.value;
    assert Since(t0, rng.trace) == rng.trace[|t0|..];
    LayersWellFormed();
  }

  /** The two draws that choose the spelling layers name `consonants` and
      `vowels`. */
  ghost predicate LayerDraws(d: seq<Draw>, consonants: Mapping, vowels: Mapping) {
    && |d| == 2
    && d[0].lo == 0 && d[0].hi == |ConsonantMappings| && d[0].value < |ConsonantMappings|
    && d[1].lo == 0 && d[1].hi == |VowelMappings| && d[1].value < |VowelMappings|
    && consonants == ConsonantMappings[d[0].value] && vowels == VowelMappings[d[1].value]
  }

  /** The syllable step of `Language::from_rand`: choose a syllable template, then the fewest syllables from [1, 3) (plus
      one for a template of fewer than three codes), then the most syllables
      from [fewest + 1, 7). */
  method ChooseSyllable(rng: Rng) returns (syllable: seq<char>, minSyllable: u8, maxSyllable: u8)
    requires rng.Valid()
    modifies rng
    ensures rng.Valid()
    ensures (syllable, minSyllable, maxSyllable, rng.pos) == SyllableFrom(rng.source, old(rng.pos))
    ensures Extends(old(rng.trace), rng.trace)
    ensures SyllableDraws(Since(old(rng.trace), rng.trace), syllable, minSyllable, maxSyllable)
    ensures SyllableBounds(minSyllable, maxSyllable)
    ensures |syllable| < 3 ==> syllable in {"CV", "VC"} && 2 <= minSyllable <= 3
    ensures |syllable| >= 3 ==> 1 <= minSyllable <= 2
  {
    CatalogsNonEmpty();
    ShortTemplates();
    ghost var t0 := rng.trace;
    var template := rng.Choose(SyllableStruct);
    syllable := template.value;
    var drawn := rng.GenRange(1, 3);
    minSyllable := MinSyllable(|syllable|, drawn as u8);
    var drawnMax := rng.GenRange(minSyllable as nat + 1, 7);
    maxSyllable := drawnMax as u8;
    assert Since(t0, rng.trace) == rng.trace[|t0|..];
  }

  /** The draws `Language::from_rand` takes, in order: those of the phoneme
      inventory, then the two that choose the spelling layers, then the three
      that choose the syllable template and its bounds. */
  ghost predicate LanguageDraws(d: seq<Draw>, phonemes: Phonemes, table: map<char, string>,
                                syllable: seq<char>, minSyllable: u8, maxSyllable: u8) {
    && |d| >= 5
    && Ranges(d[..|d| - 5]) == PhonemeRanges(phonemes)
    && OrthographyDraws(d[|d| - 5..|d| - 3], table)
    && SyllableDraws(d[|d| - 3..], syllable, minSyllable, maxSyllable)
  }

  /** The draws of the three stages, one run after the other, are the draws of
      a whole language. */
  lemma StagesGiveLanguage(x: seq<Draw>, y: seq<Draw>, z: seq<Draw>,
                            phonemes: Phonemes, consonants: Mapping, vowels: Mapping,
                            table: map<char, string>, syllable: seq<char>, minSyllable: u8, maxSyllable: u8)
    requires Ranges(x) == PhonemeRanges(phonemes)
    requires LayerDraws(y, consonants, vowels) && table == Layered(consonants, vowels)
    requires SyllableDraws(z, syllable, minSyllable, maxSyllable)
    ensures LanguageDraws(x + y + z, phonemes, table, syllable, minSyllable, maxSyllable)
  {
    SplitLast(x, y, z);
  }

  /** The values of the three stages, each from the positions that follow those
      of the one before, are the value of a whole language. */
  lemma StagesGiveValue(source: nat -> nat, p0: nat, inventory: (Phonemes, nat),
                        layers: (Mapping, Mapping, nat), template: (seq<char>, u8, u8, nat))
    requires inventory == PhonemesFrom(source, p0)
    requires layers == LayersFrom(source, inventory.1)
    requires template == SyllableFrom(source, layers.2)
    ensures LanguageFrom(source, p0) ==
      (LanguageValue(inventory.0, Layered(layers.0, layers.1), template.0, template.1, template.2), template.3)
  {
  }

  /** Three successive runs of draws make up the whole run, in order. */
  lemma SinceThree(t0: seq<Draw>, t1: seq<Draw>, t2: seq<Draw>, t3: seq<Draw>)
    requires Extends(t0, t1) && Extends(t1, t2) && Extends(t2, t3)
    ensures Extends(t0, t3)
    ensures Since(t0, t3) == Since(t0, t1) + Since(t1, t2) + Since(t2, t3)
  {
    ExtendsTrans(t0, t1, t2);
    ExtendsTrans(t0, t2, t3);
  }

  /** A run made of a run, two draws and three draws splits back into them. */
  lemma SplitLast(x: seq<Draw>, y: seq<Draw>, z: seq<Draw>)
    requires |y| == 2 && |z| == 3
    ensures var d := x + y + z;
      && |d| >= 5 && d[..|d| - 5] == x && d[|d| - 5..|d| - 3] == y && d[|d| - 3..] == z
  {
    var d := x + y + z;
    assert d[..|d| - 5] == x;
    assert d[|d| - 5..|d| - 3] == y;
  }

  /** The draws of `Language::from_rand`: the phoneme inventory, then the two
      spelling layers, then the syllable template and its bounds, each from the
      draws that follow those of the one before. */
  method DrawLanguage(rng: Rng)
      returns (phonemes: Phonemes, consonants: Mapping, vowels: Mapping,
               syllable: seq<char>, minSyllable: u8, maxSyllable: u8)
    requires rng.Valid()
    modifies rng
    ensures rng.Valid()
    ensures (LanguageValue(phonemes, Layered(consonants, vowels), syllable, minSyllable, maxSyllable), rng.pos)
            == LanguageFrom(rng.source, old(rng.pos))
    ensures WellFormed(phonemes) && ValuesNonEmpty(consonants) && ValuesNonEmpty(vowels)
    ensures Extends(old(rng.trace), rng.trace)
    ensures LanguageDraws(Since(old(rng.trace), rng.trace), phonemes, Layered(consonants, vowels),
                          syllable, minSyllable, maxSyllable)
    ensures SyllableBounds(minSyllable, maxSyllable)
    ensures |syllable| < 3 ==> syllable in {"CV", "VC"} && 2 <= minSyllable <= 3
    ensures |syllable| >= 3 ==> 1 <= minSyllable <= 2
  {
    ghost var t0, p0 := rng.trace, rng.pos;
    phonemes := PhonemesFromRand(rng);
    ghost var t1, p1 := rng.trace, rng.pos;
    consonants, vowels := ChooseLayers(rng);
    ghost var t2, p2 := rng.trace, rng.pos;
    syllable, minSyllable, maxSyllable := ChooseSyllable(rng);
    ghost var t3 := rng.trace;
    StagesGiveValue(rng.source, p0, (phonemes, p1), (consonants, vowels, p2),
                    (syllable, minSyllable, maxSyllable, rng.pos));
    SinceThree(t0, t1, t2, t3);
    StagesGiveLanguage(Since(t0, t1), Since(t1, t2), Since(t2, t3), phonemes, consonants, vowels,
                       Layered(consonants, vowels), syllable, minSyllable, maxSyllable);
  }

  /** `Language::from_rand`: the phoneme inventory, then the two spelling
      layers laid over a new default table, then the syllable template and its
      bounds; neither "of" nor "the" is made yet. */
  method LanguageFromRand(rng: Rng) returns (lang: Language)
    requires rng.Valid()
    modifies rng
    ensures rng.Valid()
    ensures (Value(lang), rng.pos) == LanguageFrom(rng.source, old(rng.pos))
    ensures fresh(lang.orthography) && lang.orthography.Valid()
    ensures WellFormed(lang.phonemes)
    ensures Extends(old(rng.trace), rng.trace)
    ensures LanguageDraws(Since(old(rng.trace), rng.trace), lang.phonemes, lang.orthography.table,
                          lang.syllable, lang.minSyllable, lang.maxSyllable)
    ensures SyllableBounds(lang.minSyllable, lang.maxSyllable)
    ensures |lang.syllable| < 3 ==> lang.syllable in {"CV", "VC"} && 2 <= lang.minSyllable <= 3
    ensures |lang.syllable| >= 3 ==> 1 <= lang.minSyllable <= 2
    ensures lang.genitive == None && lang.definite == None
  {
    var phonemes, consonants, vowels, syllable, minSyllable, maxSyllable := DrawLanguage(rng);
    var orthography := LayeredOrthography(consonants, vowels);
    lang := Language(phonemes, orthography, syllable, minSyllable, maxSyllable, None, None);
  }
}
