/** The fixed tables of the name-language generator: the default spelling table,
    the consonant and vowel spelling layers, the syllable templates and the
    candidate phoneme sets of each class.  Every table is plain constant data. */
module Catalogs {

  /** A spelling layer: pairs (phonetic symbol, written form), applied in order. */
  type Mapping = seq<(char, string)>

  // ---------------------------------------------------------------------------
  // Spelling layers

  const DefaultMap: Mapping :=
    [('ʃ', "sh"), ('ʒ', "zh"), ('ʧ', "ch"), ('ʤ', "j"),
     ('ŋ', "ng"), ('j', "y"), ('x', "kh"), ('ɣ', "gh"),
     ('ʔ', "‘"), ('A', "á"), ('E', "é"), ('I', "í"),
     ('O', "ó"), ('U', "ú")]

  const NullMap: Mapping := []

  // Consonant layers
  const SlavicMap: Mapping := [('ʃ', "š"), ('ʒ', "ž"), ('ʧ', "č"), ('ʤ', "ǧ"), ('j', "j")]
  const GermanMap: Mapping :=
    [('ʃ', "sch"), ('ʒ', "zh"), ('ʧ', "tsch"), ('ʤ', "dz"), ('j', "j"), ('x', "ch")]
  const FrenchMap: Mapping := [('ʃ', "ch"), ('ʒ', "j"), ('ʧ', "tch"), ('ʤ', "dj"), ('x', "kh")]
  /** Chinese (pinyin) */
  const PinyinMap: Mapping := [('ʃ', "x"), ('ʧ', "q"), ('ʤ', "j")]

  const ConsonantMappings: seq<Mapping> := [NullMap, SlavicMap, GermanMap, FrenchMap, PinyinMap]

  // Vowel layers
  const UmlautsMap: Mapping := [('A', "ä"), ('E', "ë"), ('I', "ï"), ('O', "ö"), ('U', "ü")]
  const WelshMap: Mapping := [('A', "â"), ('E', "ê"), ('I', "y"), ('O', "ô"), ('U', "w")]
  const DiphthongsMap: Mapping := [('A', "au"), ('E', "ei"), ('I', "ie"), ('O', "ou"), ('U', "oo")]
  const DoublesMap: Mapping := [('A', "qq"), ('E', "qq"), ('I', "ii"), ('O', "oo"), ('U', "uu")]

  const VowelMappings: seq<Mapping> := [NullMap, UmlautsMap, WelshMap, DiphthongsMap, DoublesMap]

  // ---------------------------------------------------------------------------
  // Syllable templates (opaque code strings; only their length is used here)

  const SyllableStruct: seq<string> :=
    ["CVC",
     "CVvC",
     "CVVc", "CVc", "CV", "VC", "CVF", "cVC", "CVf",
     "ClVC", "ClVF", "sCVC", "sCVF", "sCVc",
     "cVF", "cVc", "cVf", "clVC", "VC",
     "CVlc", "cVlC", "cVLc"]

  // ---------------------------------------------------------------------------
  // Phoneme sets (international phonetic alphabet)

  // Consonants
  const Minimal: string := "ptkmnls"
  const EnglishIsh: string := "ptkbdgmnlrsʃzʒʧ"
  /** Very simple */
  const Piraha: string := "ptkmnh"
  const HawaiianIsh: string := "hklmnpwʔ"
  const GreenlandicIsh: string := "ptkqvsgrmnŋlj"
  const ArabicIsh: string := "tksʃdbqɣxmnlrwj"
  const ArabicLite: string := "tkdgmnsʃ"
  const EnglishLite: string := "ptkbdgmnszʒʧhjw"

  const ConsonantSets: seq<string> :=
    [Minimal, EnglishIsh, Piraha, HawaiianIsh, GreenlandicIsh, ArabicIsh, ArabicLite, EnglishLite]

  // Sibilants
  const S: string := "s"
  const SSh: string := "sʃ"
  const SShF: string := "sʃf"

  const SibilantSets: seq<string> := [S, SSh, SShF]

  // Glides
  const RL: string := "rl"
  const R: string := "r"
  const L: string := "l"
  const WJ: string := "wj"
  const RLWJ: string := "rlwj"

  const GlideSets: seq<string> := [RL, R, L, WJ, RLWJ]

  // Endings
  const MN: string := "mn"
  const SK: string := "sk"
  const MNNg: string := "mnŋ"
  const SShZZh: string := "sʃzʒ"

  const EndingSets: seq<string> := [MN, SK, MNNg, SShZZh]

  // Vowels
  const Five: string := "aeiou"
  const Three: string := "aiu"
  const FiveAEI: string := "aeiouAEI"
  const FiveU: string := "aeiouU"
  const ThreeAI: string := "aiuAI"
  const AltThree: string := "eou"
  const FiveAOU: string := "aeiouAOU"

  const VowelSets: seq<string> := [Five, Three, FiveAEI, FiveU, ThreeAI, AltThree, FiveAOU]

  // ---------------------------------------------------------------------------
  // Facts the generator relies on without checking them

  /** Every entry of a catalog of phoneme sets is non-empty. */
  ghost predicate EntriesNonEmpty(catalog: seq<string>) {
    forall i :: 0 <= i < |catalog| ==> |catalog[i]| > 0
  }

  /** Every written form of a spelling layer is non-empty. */
  ghost predicate ValuesNonEmpty(mapping: Mapping) {
    forall i :: 0 <= i < |mapping| ==> |mapping[i].1| > 0
  }

  /** No symbol occurs twice as a key of a spelling layer. */
  ghost predicate DistinctKeys(mapping: Mapping) {
    forall i, j :: 0 <= i < j < |mapping| ==> mapping[i].0 != mapping[j].0
  }

  /** Every catalog that is chosen from is non-empty, and so is every phoneme set
      in it: this is what keeps each `choose(...).unwrap()` from failing. */
  lemma CatalogsNonEmpty()
    ensures |ConsonantSets| == 8 && |VowelSets| == 7 && |SibilantSets| == 3
    ensures |GlideSets| == 5 && |EndingSets| == 4
    ensures |ConsonantMappings| == 5 && |VowelMappings| == 5 && |SyllableStruct| == 22
    ensures EntriesNonEmpty(ConsonantSets) && EntriesNonEmpty(VowelSets)
    ensures EntriesNonEmpty(SibilantSets) && EntriesNonEmpty(GlideSets)
    ensures EntriesNonEmpty(EndingSets) && EntriesNonEmpty(SyllableStruct)
  {
  }

  /** The default layer writes each symbol as a non-empty string and names no
      symbol twice. */
  lemma DefaultMapWellFormed()
    ensures ValuesNonEmpty(DefaultMap) && DistinctKeys(DefaultMap)
  {
  }

  /** Every consonant and vowel layer writes each symbol as a non-empty string
      and names no symbol twice. */
  lemma LayersWellFormed()
    ensures forall i :: 0 <= i < |ConsonantMappings| ==>
              ValuesNonEmpty(ConsonantMappings[i]) && DistinctKeys(ConsonantMappings[i])
    ensures forall i :: 0 <= i < |VowelMappings| ==>
              ValuesNonEmpty(VowelMappings[i]) && DistinctKeys(VowelMappings[i])
  {
  }

  /** The German layer names no symbol twice and writes "ʃ" first, as "sch". */
  lemma GermanMapFirst()
    ensures DistinctKeys(GermanMap) && GermanMap[0] == ('ʃ', "sch")
  {
  }

  /** Entry 0 of both layer catalogs is the empty layer. */
  lemma NullMapFirst()
    ensures ConsonantMappings[0] == NullMap && VowelMappings[0] == NullMap && NullMap == []
  {
  }

  /** Exactly the templates "CV" and "VC" have fewer than three codes. */
  lemma ShortTemplates()
    ensures forall i :: 0 <= i < |SyllableStruct| ==>
              (|SyllableStruct[i]| < 3 <==> SyllableStruct[i] == "CV" || SyllableStruct[i] == "VC")
  {
  }
}
