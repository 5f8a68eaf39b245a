# namegen core, modelled in Dafny

namegen makes up random "languages" and uses them to make names. This
project models the core of `src/lib.rs`:

- the constant catalogs. These are the default spelling layer, the consonant
  and vowel spelling layers, the syllable templates, and the candidate
  phoneme sets for consonants, vowels, sibilants, glides and endings
  (`catalogs.dfy`).
- the `Orthography`, a table from phonetic symbol to written form. `new`
  lays the default layer over an empty table. `with_mapping` inserts the
  pairs of a layer in order, so a later pair overwrites an earlier one.
  `get_mapping` looks up a symbol and falls back to the symbol itself
  (`orthography.dfy`).
- `Phonemes::from_rand`. For each of the five classes, it chooses one
  catalog entry, collects its symbols and shuffles them (`inventory.dfy`).
- `Language::from_rand`. It builds the phoneme inventory, chooses a
  consonant layer and a vowel layer and lays them over a new default table,
  chooses a syllable template, and draws the fewest and the most syllables
  of a word (`language.dfy`).

The random generator is a class `Random.Rng` (`random.dfy`). Its values
come from a supplied function `source`. A draw over the half-open range
`[lo, hi)` yields `lo + source(k) % (hi - lo)`, where `k` is the draw's
position, so any value of the range can be supplied. A ghost trace records
every draw (its range and its value). The generator's invariant `Valid`
says that the position counts the recorded draws and that each recorded
draw took the value supplied for its position. `choose` takes no draw on an
empty slice and returns nothing. Otherwise it takes one draw over
`[0, len)`. `shuffle` is the Fisher-Yates shuffle: one swap draw per
position, from the last position down to the second, over
`[0, position + 1)`.

Each random operation is specified twice. The trace states which draws it
takes and in which order. A ghost function of `source` and the starting
position (`ClassFrom`, `PhonemesFrom`, `LayersFrom`, `SyllableFrom`,
`LanguageFrom`) states the exact result and the position after it. So the
same supplied values always give the same language, and lemmas show that
every supplied sequence gives a valid one.

An `unwrap` of a `choose` result is modelled as `.value`. Its precondition
(the option is `Some`) is discharged by the lemmas that show each catalog is
non-empty. So the model proves the code's comment that none of the unwraps
should ever fail. The `u8` fields are an 8-bit newtype. The proofs show that
`gen_range(1, 3) + 1` and `min_syllable + 1` stay in range, so no
wrap-around can happen.

## Model

| member | source | states |
|---|---|---|
| Catalogs.CatalogsNonEmpty | src/lib.rs:46-113 | The catalog sizes are 8, 7, 3, 5 and 4 phoneme sets, 5 and 5 layers, and 22 templates. No phoneme set or template is empty, so every `choose(..).unwrap()` succeeds |
| Catalogs.DefaultMapWellFormed | src/lib.rs:31-34 | The default layer writes every symbol as a non-empty string and names no symbol twice |
| Catalogs.LayersWellFormed | src/lib.rs:37-58 | Every consonant and vowel layer writes non-empty strings and names no symbol twice |
| Catalogs.GermanMapFirst | src/lib.rs:39-40 | The German layer names no symbol twice and starts with ('ʃ', "sch") |
| Catalogs.NullMapFirst | src/lib.rs:35-58 | Entry 0 of both layer catalogs is the empty layer |
| Catalogs.ShortTemplates | src/lib.rs:60-65 | Exactly the templates "CV" and "VC" have fewer than three codes |
| Orthographies.LayerKeys | src/lib.rs:18-23 | After `with_mapping`, the table holds exactly the old symbols plus the layer's symbols |
| Orthographies.LayerLastWins | src/lib.rs:18-23 | Every symbol the layer names is written as the LAST pair for that symbol in the layer says |
| Orthographies.LayerKeepsOthers | src/lib.rs:18-23 | A symbol the layer does not name keeps its old written form |
| Orthographies.LayerOnly | src/lib.rs:18-23 | Layering adds nothing of its own: each new entry comes from the old table or is a pair of the layer |
| Orthographies.LayerNull | src/lib.rs:18-23 | Laying the empty layer changes nothing |
| Orthographies.LayerOfDistinct | src/lib.rs:18-23 | In a layer that names no symbol twice, the pair at any given position ends up in the table |
| Orthographies.LayerAllDistinct | src/lib.rs:18-23 | In a layer that names no symbol twice, every pair ends up in the table |
| Orthographies.LayerNonEmpty | src/lib.rs:18-23 | A layer with non-empty written forms keeps all written forms non-empty |
| Orthographies.DefaultTableExact | src/lib.rs:13-16 | The table `new` builds writes each symbol of the default layer as that layer says |
| Orthographies.DefaultTableExamples | src/lib.rs:31-34 | The default table writes 'ʃ' as "sh" and 'A' as "á" |
| Orthographies.DefaultTableOnly | src/lib.rs:13-16 | The default table names exactly the default layer's symbols, and each of its entries is a pair of that layer |
| Orthographies.LayeredPrecedence | src/lib.rs:156 | In default, then consonant layer, then vowel layer, the vowel layer beats the consonant layer, which beats the default. A symbol none of them names stays absent |
| Orthographies.LayeredNullVowels | src/lib.rs:156 | With the empty vowel layer, a consonant layer that names no symbol twice decides the written form of each of its symbols |
| Orthographies.GermanThenNull | src/lib.rs:156 | The German consonant layer under the empty vowel layer writes 'ʃ' as "sch" |
| Orthographies.Orthography.constructor | src/lib.rs:13-16 | `Orthography::new`: the table is the default layer laid over an empty table, and every written form is non-empty |
| Orthographies.Orthography.WithMapping | src/lib.rs:18-23 | `with_mapping`: the new table is the old table with the layer's pairs inserted in order. It keeps written forms non-empty |
| Orthographies.Orthography.GetMapping | src/lib.rs:26-28 | `get_mapping`: the stored form of a symbol in the table, else the symbol itself. It is never empty in a valid table |
| Random.Rng.GenRange | src/lib.rs:159-163 | `gen_range(lo, hi)`: a value in `[lo, hi)`, namely the value supplied for the current position reduced into the range. It advances the position by one, records the draw and keeps the generator's invariant |
| Random.Rng.Choose | src/lib.rs:154-157 | `choose`: None without a draw on an empty slice. Otherwise the element at index `source(pos) % len`, after one draw over `[0, len)` that advances the position by one |
| Random.Rng.Shuffle | src/lib.rs:126-135 | `shuffle`: the array becomes the Fisher-Yates shuffle of its old contents under the supplied values, and so a permutation of them. It takes exactly the swap draws `SwapDraws` lists, one over `[0, n)`, then one over `[0, n - 1)`, down to `[0, 2)`, and advances the position by n - 1 |
| Random.Rng.SwapStep | src/lib.rs:126-135 | One swap of the shuffle: what remains after it is the shuffle of one element fewer with the following values, and it records the swap draw |
| Random.FisherYatesPermutes | src/lib.rs:126-135 | Whatever values are supplied, a shuffle keeps the length and the elements |
| Random.SwapDrawsRanges | src/lib.rs:126-135 | The swap draws of a shuffle of n elements are over `[0, n)`, `[0, n - 1)`, …, `[0, 2)` |
| Inventory.FromCatalogNonEmpty | src/lib.rs:124-136 | A shuffled catalog entry is as long as the entry, so it is non-empty |
| Inventory.WellFormedNonEmpty | src/lib.rs:124-136 | All five phoneme classes of a generated inventory are non-empty |
| Inventory.ClassFromCatalog | src/lib.rs:126-127 | Whatever values are supplied, one class is a permutation of the catalog entry its first draw picks, so it is an entry of its catalog |
| Inventory.PhonemesFromWellFormed | src/lib.rs:124-137 | Whatever values are supplied, the inventory drawn from them is well formed, and it takes at least one draw |
| Inventory.ChooseShuffled | src/lib.rs:126-127 | One class: choose, unwrap, collect and shuffle. The result and the new position are those `ClassFrom` gives: the entry picked by the value at the first position, shuffled with the values after it. The draws are the choice, then the shuffle's |
| Inventory.PhonemesFromRand | src/lib.rs:124-137 | `Phonemes::from_rand`: the inventory and the new position are those `PhonemesFrom` gives, one class after another in the order consonants, vowels, sibilants, glides, endings. Each class is a permutation of an entry of its own catalog, and the draws come in that order |
| Languages.MinSyllable | src/lib.rs:158-162 | The fewest syllables is 2 or 3 for a template shorter than three codes, and 1 or 2 otherwise |
| Languages.MinSyllableRange | src/lib.rs:158-162 | The values the fewest syllables can take are exactly {2, 3} for short templates and {1, 2} otherwise |
| Languages.TemplateBounds | src/lib.rs:157-163 | For every template and every draw d in [1, 3), fewest + 1 < 7, so `gen_range(min_syllable + 1, 7)` never gets an empty range. Every maximum drawn from it gives 1 ≤ fewest < most ≤ 6. The extra syllable is added exactly for "CV" and "VC" |
| Languages.LayeredOrthography | src/lib.rs:156 | `Orthography::new().with_mapping(c).with_mapping(v)` is the default table under c under v |
| Languages.ChooseLayers | src/lib.rs:154-155 | Two draws choose the consonant layer and then the vowel layer, as `LayersFrom` gives them from the supplied values. Both layers have non-empty written forms |
| Languages.ChooseSyllable | src/lib.rs:157-163 | Three draws give the template, the fewest syllables (over `[1, 3)`, plus one for a short template) and the most syllables (over `[fewest + 1, 7)`), as `SyllableFrom` gives them. The bounds satisfy 1 ≤ fewest < most ≤ 6 |
| Languages.SyllableFromBounds | src/lib.rs:157-163 | Whatever values are supplied, the syllable bounds satisfy 1 ≤ fewest < most ≤ 6, and a template of fewer than three codes is "CV" or "VC" and gets two or three syllables at least |
| Languages.LanguageFromValid | src/lib.rs:151-167 | Whatever values are supplied, the language they give has a well-formed inventory, a spelling table with non-empty written forms and valid syllable bounds |
| Languages.StagesGiveLanguage | src/lib.rs:151-165 | The draws of the inventory, the spelling layers and the syllable step, run one after the other, are the draws of a whole language |
| Languages.StagesGiveValue | src/lib.rs:151-165 | The results of the three stages, each taken from the position where the one before stopped, are the language `LanguageFrom` gives |
| Languages.DrawLanguage | src/lib.rs:153-163 | The draws of `Language::from_rand`: the inventory, the two layers and the syllable template and bounds are those `LanguageFrom` gives, with the draws in source order |
| Languages.LanguageFromRand | src/lib.rs:151-167 | `Language::from_rand`: the language and the new position are those `LanguageFrom` gives from the supplied values. The inventory is well formed. The spelling table is the default under the drawn consonant layer under the drawn vowel layer, with non-empty written forms. The template and bounds come from the last three draws. The draws come in source order. The genitive and definite are `None` |

## Left out

- The random number generator itself is left out: its algorithm, its seeding and the uniformity of `gen_range`. Draw values are supplied through `Rng.source` and reduced with `%`, which says nothing about distribution. Nor does the model show that every permutation can be supplied to `shuffle`.
- `HashMap` hashing and capacity, and the string copy in `get_mapping`, are left out: the table is a Dafny `map`, and strings are values.
- `with_mapping(mut self, ..)` takes the orthography by value and returns it, as a builder. The model updates the object in place, which has the same result because no other reference to it exists.
- The template codes (`C`, `V`, `c`, `l`, …) are not interpreted. Syllable, word and name generation and the orthographic rendering of words are not part of this model. The templates are modelled only as strings and through their lengths.
- `genitive` and `definite` are always `None`, as the code leaves them. The fields' comments ("of", "the") and the TODO at src/lib.rs:166 mark them as still to be generated.
- The `it_works` test checks only `2 + 2 == 4` and is not modelled.
