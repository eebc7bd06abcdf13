/** The drill-down view both coverage dashboards share: the operation (method)
    rows of the selected service, the missing-only and language filters over
    them, the distinct languages that label the filter buttons, the colour each
    language gets, and the two filter toggles. */
module Drilldown {
  import opened Nullable
  import opened Sequences

  /** One operation of a service: its name, whether a code example exists for
      it, and the languages that example is written in (a record may leave the
      list out). */
  datatype Operation = Operation(name: string, found: bool, languages: Option<seq<string>>)

  /** `m.languages || []` */
  function LanguageList(m: Operation): seq<string> {
    OrEmpty(m.languages)
  }

  /** `m.languages?.includes(lang)`: an absent list includes nothing. */
  predicate HasLanguage(m: Operation, lang: string) {
    m.languages.Some? && lang in m.languages.value
  }

  /** `filterLang ? ... : true`: both `null` and the empty string are falsy, so
      neither switches the language filter on. */
  predicate LanguageFilterOn(filterLang: Option<string>) {
    filterLang.Some? && filterLang.value != ""
  }

  /** The missing-only filter: when it is on, only undocumented operations pass. */
  function MissingOnlyTest(showMissingOnly: bool): Operation -> bool {
    (m: Operation) => if showMissingOnly then !m.found else true
  }

  /** The language filter: when it is on, only operations documented in that language pass. */
  function LanguageTest(filterLang: Option<string>): Operation -> bool {
    (m: Operation) => if LanguageFilterOn(filterLang) then HasLanguage(m, filterLang.value) else true
  }

  /** The operations shown in the table: the missing-only filter, then the
      language filter. An operation survives exactly when it passes both, and
      the survivors keep their order. */
  function ApplyFilters(ops: seq<Operation>, showMissingOnly: bool, filterLang: Option<string>): (r: seq<Operation>)
    ensures IsSubsequence(r, ops)
    ensures forall i :: 0 <= i < |r| ==>
      r[i] in ops && (showMissingOnly ==> !r[i].found)
      && (LanguageFilterOn(filterLang) ==> HasLanguage(r[i], filterLang.value))
    ensures forall i :: 0 <= i < |ops| ==>
      ((showMissingOnly ==> !ops[i].found) && (LanguageFilterOn(filterLang) ==> HasLanguage(ops[i], filterLang.value)))
      ==> ops[i] in r
  {
    var missing := Filter(ops, MissingOnlyTest(showMissingOnly));
    FilterIsSubsequence(ops, MissingOnlyTest(showMissingOnly));
    FilterIsSubsequence(missing, LanguageTest(filterLang));
    SubsequenceTransitive(Filter(missing, LanguageTest(filterLang)), missing, ops);
    Filter(missing, LanguageTest(filterLang))
  }

  /** Applying the language filter first gives the same rows. */
  lemma FiltersCommute(ops: seq<Operation>, showMissingOnly: bool, filterLang: Option<string>)
    ensures Filter(Filter(ops, LanguageTest(filterLang)), MissingOnlyTest(showMissingOnly))
         == ApplyFilters(ops, showMissingOnly, filterLang)
  {
    FilterCommutes(ops, MissingOnlyTest(showMissingOnly), LanguageTest(filterLang));
  }

  /** With both filters off every operation is shown, in order. */
  lemma FiltersOffShowAll(ops: seq<Operation>, filterLang: Option<string>)
    requires !LanguageFilterOn(filterLang)
    ensures ApplyFilters(ops, false, filterLang) == ops
  {
    FilterKeepsAll(ops, MissingOnlyTest(false));
    FilterKeepsAll(ops, LanguageTest(filterLang));
  }

  /** The languages of all operations, in order, with repetitions. */
  function LanguagesOf(ops: seq<Operation>): seq<string> {
    Flatten(seq(|ops|, i requires 0 <= i < |ops| => LanguageList(ops[i])))
  }

  /** The language buttons: the languages of the operations, each once, in the
      order they are first met. */
  function AllLanguages(ops: seq<Operation>): (r: seq<string>)
    ensures NoDuplicates(r)
  {
    Distinct(LanguagesOf(ops))
  }

  /** A language is listed exactly when some operation names it. */
  lemma AllLanguagesMembers(ops: seq<Operation>, lang: string)
    ensures lang in AllLanguages(ops) <==> exists i :: 0 <= i < |ops| && lang in LanguageList(ops[i])
  {
    var ss := seq(|ops|, i requires 0 <= i < |ops| => LanguageList(ops[i]));
    var d := AllLanguages(ops);
    if lang in d {
      var k :| 0 <= k < |d| && d[k] == lang;
      FlattenSource(ss, lang);
    }
    if exists i :: 0 <= i < |ops| && lang in LanguageList(ops[i]) {
      var i :| 0 <= i < |ops| && lang in LanguageList(ops[i]);
      assert lang in ss[i];
      FlattenContains(ss, i, lang);
      var k :| 0 <= k < |LanguagesOf(ops)| && LanguagesOf(ops)[k] == lang;
    }
  }

  /** The buttons are in first-seen order over the flattened language lists. */
  lemma AllLanguagesFirstSeen(ops: seq<Operation>)
    ensures forall i, j :: 0 <= i < j < |AllLanguages(ops)| ==>
      IndexOf(LanguagesOf(ops), AllLanguages(ops)[i]) < IndexOf(LanguagesOf(ops), AllLanguages(ops)[j])
  {
    DistinctFirstSeenOrder(LanguagesOf(ops));
  }

  /** The colour map, built by one pass over the languages into an initially
      empty map. A language's colour is the palette entry at
      its position modulo the palette length; a repeated language keeps the
      colour of its last position. */
  method BuildColorMap(langs: seq<string>, palette: seq<string>) returns (colors: map<string, string>)
    requires |palette| > 0
    ensures colors.Keys == set l | l in langs
    ensures forall i :: 0 <= i < |langs| && langs[i] !in langs[i + 1..] ==>
      colors[langs[i]] == palette[i % |palette|]
    ensures forall l :: l in colors ==> colors[l] in palette
  {
    colors := map[];
    var idx := 0;
    while idx < |langs|
      invariant 0 <= idx <= |langs|
      invariant colors.Keys == set l | l in langs[..idx]
      invariant forall i :: 0 <= i < idx && langs[i] !in langs[i + 1..idx] ==>
        colors[langs[i]] == palette[i % |palette|]
      invariant forall l :: l in colors ==> colors[l] in palette
    {
      assert langs[..idx + 1] == langs[..idx] + [langs[idx]];
      forall i | 0 <= i < idx && langs[i] !in langs[i + 1..idx + 1]
        ensures langs[i] != langs[idx] && langs[i] !in langs[i + 1..idx]
      {
        assert langs[i + 1..idx + 1] == langs[i + 1..idx] + [langs[idx]];
      }
      colors := colors[langs[idx] := palette[idx % |palette|]];
      idx := idx + 1;
    }
    assert langs[..idx] == langs;
  }

  /** Over a list without repetitions every language gets the colour of its own position. */
  lemma NoDuplicatesLastPosition(langs: seq<string>, i: nat)
    requires NoDuplicates(langs) && i < |langs|
    ensures langs[i] !in langs[i + 1..]
  {
    var rest := langs[i + 1..];
    assert forall k :: 0 <= k < |rest| ==> rest[k] == langs[i + 1 + k];
  }

  /** The colour of each language button, as both coverage pages build it, each
      with its own palette: the button at position `i` gets the palette entry at
      `i` modulo the palette's length, and only the buttons get a colour. */
  method LanguageColorMap(ops: seq<Operation>, palette: seq<string>) returns (colors: map<string, string>)
    requires |palette| > 0
    ensures colors.Keys == set l | l in AllLanguages(ops)
    ensures forall i :: 0 <= i < |AllLanguages(ops)| ==>
      colors[AllLanguages(ops)[i]] == palette[i % |palette|]
  {
    var langs := AllLanguages(ops);
    colors := BuildColorMap(langs, palette);
    forall i | 0 <= i < |langs| ensures colors[langs[i]] == palette[i % |palette|] {
      NoDuplicatesLastPosition(langs, i);
    }
  }

  /** A click on a language button: clicking the active language clears the
      filter, clicking any other language makes it active. */
  function ToggleLanguage(filterLang: Option<string>, lang: string): (r: Option<string>)
    ensures filterLang == Some(lang) ==> r == None
    ensures filterLang != Some(lang) ==> r == Some(lang)
  {
    if filterLang == Some(lang) then None else Some(lang)
  }

  /** Clicking the same button twice returns the filter to the other of its two
      states: active if it was active, cleared otherwise. */
  lemma ToggleLanguageTwice(filterLang: Option<string>, lang: string)
    ensures ToggleLanguage(ToggleLanguage(filterLang, lang), lang)
         == if filterLang == Some(lang) then Some(lang) else None
  {
  }
}
