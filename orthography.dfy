/** The spelling table: a map from a phonetic symbol to its written form, built
    by laying spelling layers over one another.  A symbol without an entry is
    written as itself. */
module Orthographies {
  import opened Catalogs

  /** The symbols a spelling layer names. */
  function KeysOf(mapping: Mapping): set<char> {
    set i | 0 <= i < |mapping| :: mapping[i].0
  }

  /** The symbols of a non-empty layer: its first symbol and those of the rest. */
  lemma KeysOfCons(mapping: Mapping)
    requires mapping != []
    ensures KeysOf(mapping) == {mapping[0].0} + KeysOf(mapping[1..])
  {
    forall c | c in KeysOf(mapping) ensures c in {mapping[0].0} + KeysOf(mapping[1..]) {
      var i :| 0 <= i < |mapping| && mapping[i].0 == c;
      if i > 0 { assert mapping[1..][i - 1].0 == c; }
    }
    forall c | c in KeysOf(mapping[1..]) ensures c in KeysOf(mapping) {
      var i :| 0 <= i < |mapping[1..]| && mapping[1..][i].0 == c;
      assert mapping[i + 1].0 == c;
    }
  }

  /** The table obtained by inserting the pairs of `mapping` into `table`, first
      pair first, so that a later pair overwrites an earlier one for the same
      symbol. */
  function Layer(table: map<char, string>, mapping: Mapping): map<char, string>
    decreases |mapping|
  {
    if mapping == [] then table
    else Layer(table[mapping[0].0 := mapping[0].1], mapping[1..])
  }

  /** Layering adds exactly the symbols the layer names: the new table has the
      old symbols and the layer's symbols and no others. */
  lemma {:induction false} LayerKeys(table: map<char, string>, mapping: Mapping)
    ensures Layer(table, mapping).Keys == table.Keys + KeysOf(mapping)
    decreases |mapping|
  {
    if mapping != [] {
      KeysOfCons(mapping);
      LayerKeys(table[mapping[0].0 := mapping[0].1], mapping[1..]);
    }
  }

  /** `w` is the written form of the LAST pair of `mapping` whose symbol is `c`. */
  ghost predicate LastOccurrence(mapping: Mapping, c: char, w: string) {
    exists i :: 0 <= i < |mapping| && mapping[i] == (c, w) &&
      forall j :: i < j < |mapping| ==> mapping[j].0 != c
  }

  /** A symbol has at most one last occurrence. */
  lemma LastOccurrenceUnique(mapping: Mapping, c: char, w1: string, w2: string)
    requires LastOccurrence(mapping, c, w1) && LastOccurrence(mapping, c, w2)
    ensures w1 == w2
  {
    var i1 :| 0 <= i1 < |mapping| && mapping[i1] == (c, w1) &&
      forall j :: i1 < j < |mapping| ==> mapping[j].0 != c;
    var i2 :| 0 <= i2 < |mapping| && mapping[i2] == (c, w2) &&
      forall j :: i2 < j < |mapping| ==> mapping[j].0 != c;
    assert mapping[i1].0 == c && mapping[i2].0 == c;
  }

  /** After layering, every symbol the layer names is written as its last
      occurrence in the layer says. */
  lemma {:induction false} LayerLastWins(table: map<char, string>, mapping: Mapping, c: char)
    requires c in KeysOf(mapping)
    ensures c in Layer(table, mapping) && LastOccurrence(mapping, c, Layer(table, mapping)[c])
    decreases |mapping|
  {
    var head, rest := mapping[0], mapping[1..];
    var table' := table[head.0 := head.1];
    assert Layer(table, mapping) == Layer(table', rest);
    KeysOfCons(mapping);
    LayerKeys(table', rest);
    var w := Layer(table', rest)[c];
    if c in KeysOf(rest) {
      LayerLastWins(table', rest, c);
      var i :| 0 <= i < |rest| && rest[i] == (c, w) &&
        forall j :: i < j < |rest| ==> rest[j].0 != c;
      assert mapping[i + 1] == (c, w);
      assert forall j :: i + 1 < j < |mapping| ==> mapping[j].0 == rest[j - 1].0;
    } else {
      assert head.0 == c;
      LayerKeepsOthers(table', rest, c);
      assert forall j :: 0 < j < |mapping| ==> mapping[j].0 == rest[j - 1].0;
      assert mapping[0] == (c, w);
    }
  }

  /** A symbol the layer does not name keeps its written form. */
  lemma {:induction false} LayerKeepsOthers(table: map<char, string>, mapping: Mapping, c: char)
    requires c !in KeysOf(mapping) && c in table
    ensures c in Layer(table, mapping) && Layer(table, mapping)[c] == table[c]
    decreases |mapping|
  {
    if mapping != [] {
      KeysOfCons(mapping);
      LayerKeepsOthers(table[mapping[0].0 := mapping[0].1], mapping[1..], c);
    }
  }

  /** Layering adds nothing of its own: every entry of the new table was in the
      old table or is a pair of the layer. */
  lemma LayerOnly(table: map<char, string>, mapping: Mapping)
    ensures forall c :: c in Layer(table, mapping) ==>
              c in table || exists i :: 0 <= i < |mapping| && mapping[i] == (c, Layer(table, mapping)[c])
  {
    LayerKeys(table, mapping);
    forall c | c in Layer(table, mapping) && c !in table
      ensures exists i :: 0 <= i < |mapping| && mapping[i] == (c, Layer(table, mapping)[c])
    {
      LayerLastWins(table, mapping, c);
    }
  }

  /** Laying the empty layer changes nothing. */
  lemma LayerNull(table: map<char, string>)
    ensures Layer(table, NullMap) == table
  {
  }

  /** The table `Orthography::new` builds: the default layer over nothing. */
  ghost function DefaultTable(): map<char, string> {
    Layer(map[], DefaultMap)
  }

  /** In a layer that names no symbol twice, a pair ends up in the table. */
  lemma LayerOfDistinct(table: map<char, string>, mapping: Mapping, i: nat)
    requires DistinctKeys(mapping) && i < |mapping|
    ensures mapping[i].0 in Layer(table, mapping)
    ensures Layer(table, mapping)[mapping[i].0] == mapping[i].1
  {
    var c := mapping[i].0;
    assert c in KeysOf(mapping);
    LayerLastWins(table, mapping, c);
    assert LastOccurrence(mapping, c, mapping[i].1);
    LastOccurrenceUnique(mapping, c, mapping[i].1, Layer(table, mapping)[c]);
  }

  /** In a layer that names no symbol twice, every pair ends up in the table. */
  lemma LayerAllDistinct(table: map<char, string>, mapping: Mapping)
    requires DistinctKeys(mapping)
    ensures forall i :: 0 <= i < |mapping| ==>
              mapping[i].0 in Layer(table, mapping) && Layer(table, mapping)[mapping[i].0] == mapping[i].1
  {
    forall i | 0 <= i < |mapping|
      ensures mapping[i].0 in Layer(table, mapping) && Layer(table, mapping)[mapping[i].0] == mapping[i].1
    {
      LayerOfDistinct(table, mapping, i);
    }
  }

  /** The default table holds the entries of the default layer: each symbol of
      the layer is written as the layer says. */
  lemma DefaultTableExact()
    ensures forall i :: 0 <= i < |DefaultMap| ==>
              DefaultMap[i].0 in DefaultTable() && DefaultTable()[DefaultMap[i].0] == DefaultMap[i].1
  {
    DefaultMapWellFormed();
    LayerAllDistinct(map[], DefaultMap);
  }

  /** Two entries of the default table: "ʃ" is written "sh" and "A" is written
      "á". */
  lemma DefaultTableExamples()
    ensures 'ʃ' in DefaultTable() && DefaultTable()['ʃ'] == "sh"
    ensures 'A' in DefaultTable() && DefaultTable()['A'] == "á"
  {
    DefaultTableExact();
    assert DefaultMap[0] == ('ʃ', "sh") && DefaultMap[9] == ('A', "á");
  }

  /** The default table holds nothing else: its symbols are those of the
      default layer, and every entry is a pair of that layer. */
  lemma DefaultTableOnly()
    ensures DefaultTable().Keys == KeysOf(DefaultMap)
    ensures forall c :: c in DefaultTable() ==>
              exists i :: 0 <= i < |DefaultMap| && DefaultMap[i] == (c, DefaultTable()[c])
  {
    LayerKeys(map[], DefaultMap);
    LayerOnly(map[], DefaultMap);
  }

  /** The table a language uses: the default table, then a consonant layer, then
      a vowel layer. */
  ghost function Layered(consonants: Mapping, vowels: Mapping): map<char, string> {
    Layer(Layer(DefaultTable(), consonants), vowels)
  }

  /** Precedence of the layers: the vowel layer wins over the consonant layer,
      which wins over the default table; a symbol none of them names is absent. */
  lemma LayeredPrecedence(consonants: Mapping, vowels: Mapping, c: char)
    ensures var t := Layered(consonants, vowels);
      && (c in KeysOf(vowels) ==> c in t && LastOccurrence(vowels, c, t[c]))
      && (c !in KeysOf(vowels) && c in KeysOf(consonants) ==>
            c in t && LastOccurrence(consonants, c, t[c]))
      && (c !in KeysOf(vowels) && c !in KeysOf(consonants) ==>
            (c in t <==> c in DefaultTable()) && (c in t ==> t[c] == DefaultTable()[c]))
  {
    var inner := Layer(DefaultTable(), consonants);
    if c in KeysOf(vowels) {
      LayerLastWins(inner, vowels, c);
    } else if c in KeysOf(consonants) {
      LayerLastWins(DefaultTable(), consonants, c);
      LayerKeepsOthers(inner, vowels, c);
    } else {
      LayerKeys(DefaultTable(), consonants);
      LayerKeys(inner, vowels);
      if c in DefaultTable() {
        LayerKeepsOthers(DefaultTable(), consonants, c);
        LayerKeepsOthers(inner, vowels, c);
      }
    }
  }

  /** Under the empty vowel layer, a consonant layer that names no symbol twice
      decides the written form of each of its symbols. */
  lemma LayeredNullVowels(consonants: Mapping, i: nat)
    requires DistinctKeys(consonants) && i < |consonants|
    ensures consonants[i].0 in Layered(consonants, NullMap)
    ensures Layered(consonants, NullMap)[consonants[i].0] == consonants[i].1
  {
    LayerNull(Layer(DefaultTable(), consonants));
    LayerOfDistinct(DefaultTable(), consonants, i);
  }

  /** The German consonant layer under the empty vowel layer spells "ʃ" as "sch". */
  lemma GermanThenNull()
    ensures 'ʃ' in Layered(GermanMap, NullMap) && Layered(GermanMap, NullMap)['ʃ'] == "sch"
  {
    GermanMapFirst();
    LayeredNullVowels(GermanMap, 0);
  }

  /** Every written form in the table is non-empty. */
  ghost predicate NonEmptyValues(table: map<char, string>) {
    forall c :: c in table ==> |table[c]| > 0
  }

  /** A layer whose written forms are non-empty keeps a table's forms non-empty. */
  lemma {:induction false} LayerNonEmpty(table: map<char, string>, mapping: Mapping)
    requires NonEmptyValues(table) && ValuesNonEmpty(mapping)
    ensures NonEmptyValues(Layer(table, mapping))
    decreases |mapping|
  {
    if mapping != [] {
      assert |mapping[0].1| > 0;
      assert ValuesNonEmpty(mapping[1..]) by {
        forall i | 0 <= i < |mapping[1..]| ensures |mapping[1..][i].1| > 0 {
          assert mapping[1..][i] == mapping[i + 1];
        }
      }
      LayerNonEmpty(table[mapping[0].0 := mapping[0].1], mapping[1..]);
    }
  }

  /** The spelling table of one language; `WithMapping` updates it in place. */
  class Orthography {
    var table: map<char, string>

    /** Every symbol in the table is written as a non-empty string. */
    ghost predicate Valid()
      reads this
    {
      NonEmptyValues(table)
    }

    /** `Orthography::new`: an empty table with the default layer laid over it. */
    constructor ()
      ensures table == DefaultTable()
      ensures Valid()
    {
      table := map[];
      new;
      DefaultMapWellFormed();
      WithMapping(DefaultMap);
    }

    /** `with_mapping`: insert the pairs in order, later pairs overwriting
        earlier ones. */
    method WithMapping(mapping: Mapping)
      modifies this
      ensures table == Layer(old(table), mapping)
      ensures old(Valid()) && ValuesNonEmpty(mapping) ==> Valid()
    {
      ghost var t0 := table;
      for i := 0 to |mapping|
        invariant Layer(table, mapping[i..]) == Layer(t0, mapping)
        invariant NonEmptyValues(t0) && ValuesNonEmpty(mapping) ==> NonEmptyValues(table)
      {
        assert mapping[i..][1..] == mapping[i + 1..];
        table := table[mapping[i].0 := mapping[i].1];
      }
      assert mapping[|mapping|..] == [];
    }

    /** `get_mapping`: the written form of a symbol, or the symbol itself when the
        table does not name it.  It never fails, and in a valid table it is never
        empty. */
    function GetMapping(c: char): (s: string)
      reads this
      ensures c in table ==> s == table[c]
      ensures c !in table ==> s == [c]
      ensures Valid() ==> |s| > 0
    {
      if c in table then table[c] else [c]
    }
  }
}
