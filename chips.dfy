/** The chip values of the tag editor: the colour classes, the colour lookup `resolveColor`,
    the fixed suggestion vocabulary `allFruits` and the autocomplete filter `_filter`. */
module Chips {
  import opened Wrappers
  import opened JsText

  /** The `ChipColor` interface: a chip's label and the CSS class it is drawn with. */
  datatype ChipColor = ChipColor(name: string, color: string)

  const BlueKeywords: set<string> := {"Att:", "Date:", "Details:", "Frame:", "Text:"}
  const YellowKeywords: set<string> := {"SubStr:", "Split:", "Up:", "Replace:"}
  const RedKeywords: set<string> := {"&"}

  /** The four CSS classes a chip can carry. */
  const ColorClasses: set<string> := {"blue-chip", "yellow-chip", "red-chip", "green-chip"}

  /** `resolveColor`: an exact, case-sensitive keyword lookup with `green-chip` as the default. */
  function ResolveColor(text: string): (color: string)
    ensures color in ColorClasses
    ensures color == "blue-chip" <==> text in BlueKeywords
    ensures color == "yellow-chip" <==> text in YellowKeywords
    ensures color == "red-chip" <==> text in RedKeywords
    ensures color == "green-chip" <==> text !in BlueKeywords + YellowKeywords + RedKeywords
  {
    match text
    case "Att:" => "blue-chip"
    case "Date:" => "blue-chip"
    case "Details:" => "blue-chip"
    case "Frame:" => "blue-chip"
    case "Text:" => "blue-chip"
    case "SubStr:" => "yellow-chip"
    case "Split:" => "yellow-chip"
    case "Up:" => "yellow-chip"
    case "Replace:" => "yellow-chip"
    case "&" => "red-chip"
    case _ => "green-chip"
  }

  /** The lookup is by exact text: the empty string and a lower-cased keyword fall through to the default. */
  lemma ResolveColorIsCaseSensitive()
    ensures ResolveColor("") == "green-chip"
    ensures ResolveColor("att:") == "green-chip"
    ensures ResolveColor("ATT:") == "green-chip"
    ensures ResolveColor("up:") == "green-chip"
  {
  }

  /** `allFruits`: the ten suggestions offered by the autocomplete, in display order. */
  const AllFruits: seq<ChipColor> := [
    ChipColor("Att:", "blue-chip"),
    ChipColor("Date:", "blue-chip"),
    ChipColor("Details:", "blue-chip"),
    ChipColor("Frame:", "blue-chip"),
    ChipColor("Text:", "blue-chip"),
    ChipColor("Split:", "yellow-chip"),
    ChipColor("SubStr:", "yellow-chip"),
    ChipColor("Up:", "yellow-chip"),
    ChipColor("Replace:", "yellow-chip"),
    ChipColor("&", "red-chip")]

  /** Every suggestion lists the colour `resolveColor` gives its name. */
  lemma VocabularyAgreesWithResolveColor()
    ensures forall e :: e in AllFruits ==> e.color == ResolveColor(e.name)
  {
    forall i | 0 <= i < |AllFruits| ensures AllFruits[i].color == ResolveColor(AllFruits[i].name) {
    }
  }

  /** The suggestions have distinct names. */
  lemma VocabularyNamesDistinct()
    ensures forall i, j :: 0 <= i < j < |AllFruits| ==> AllFruits[i].name != AllFruits[j].name
  {
  }

  /** The suggestions are exactly the keywords with a non-default colour. */
  lemma VocabularyIsKeywords()
    ensures (set e | e in AllFruits :: e.name) == BlueKeywords + YellowKeywords + RedKeywords
  {
  }

  /** The test `fruit.name.toLowerCase().indexOf(filterValue) === 0`: the lowercased input is a
      prefix of the lowercased name. */
  predicate Matches(value: string, entry: ChipColor) {
    ToLower(value) <= ToLower(entry.name)
  }

  /** `s` is `t` with some elements left out, the rest kept in their order. */
  ghost predicate IsSubsequence(s: seq<ChipColor>, t: seq<ChipColor>) {
    if s == [] then true
    else if t == [] then false
    else (s[0] == t[0] && IsSubsequence(s[1..], t[1..])) || IsSubsequence(s, t[1..])
  }

  /** `entries.filter(fruit => Matches(value, fruit))`. */
  function FilterEntries(value: string, entries: seq<ChipColor>): (r: seq<ChipColor>)
    ensures IsSubsequence(r, entries)
    ensures forall e :: e in r ==> e in entries && Matches(value, e)
    ensures forall e :: e in entries && Matches(value, e) ==> e in r
  {
    if entries == [] then []
    else if Matches(value, entries[0]) then [entries[0]] + FilterEntries(value, entries[1..])
    else FilterEntries(value, entries[1..])
  }

  /** `_filter(value)`: the suggestions whose name starts with `value`, ignoring ASCII case. */
  function Filter(value: string): (r: seq<ChipColor>)
    ensures IsSubsequence(r, AllFruits)
    ensures forall e :: e in r <==> e in AllFruits && Matches(value, e)
  {
    FilterEntries(value, AllFruits)
  }

  /** The filter keeps every copy of a matching entry and no copy of any other, so together
      with the order kept it drops no duplicate. */
  lemma {:induction false} FilterEntriesCounts(value: string, entries: seq<ChipColor>, e: ChipColor)
    ensures multiset(FilterEntries(value, entries))[e] == if Matches(value, e) then multiset(entries)[e] else 0
  {
    if entries != [] {
      FilterEntriesCounts(value, entries[1..], e);
      assert entries == [entries[0]] + entries[1..];
    }
  }

  /** A sequence is a subsequence of itself. */
  lemma {:induction false} SubsequenceReflexive(s: seq<ChipColor>)
    ensures IsSubsequence(s, s)
  {
    if s != [] {
      SubsequenceReflexive(s[1..]);
    }
  }

  /** Filtering distributes over concatenation. */
  lemma {:induction false} FilterEntriesAppend(value: string, a: seq<ChipColor>, b: seq<ChipColor>)
    ensures FilterEntries(value, a + b) == FilterEntries(value, a) + FilterEntries(value, b)
  {
    if a != [] {
      assert (a + b)[1..] == a[1..] + b;
      FilterEntriesAppend(value, a[1..], b);
    } else {
      assert a + b == b;
    }
  }

  /** When every entry matches, the filter keeps them all, in order. */
  lemma {:induction false} FilterEntriesAllMatch(value: string, entries: seq<ChipColor>)
    requires forall i :: 0 <= i < |entries| ==> Matches(value, entries[i])
    ensures FilterEntries(value, entries) == entries
  {
    if entries != [] {
      FilterEntriesAllMatch(value, entries[1..]);
    }
  }

  /** When no entry matches, the filter keeps none. */
  lemma {:induction false} FilterEntriesNoneMatch(value: string, entries: seq<ChipColor>)
    requires forall i :: 0 <= i < |entries| ==> !Matches(value, entries[i])
    ensures FilterEntries(value, entries) == []
  {
    if entries != [] {
      FilterEntriesNoneMatch(value, entries[1..]);
    }
  }

  /** The mapped stream `fruit ? this._filter(fruit) : this.allFruits.slice()`: an absent or
      empty control value shows the whole vocabulary, anything else is filtered. */
  function Suggestions(ctrlValue: Option<string>): (r: seq<ChipColor>)
    ensures ctrlValue == None || ctrlValue == Some("") ==> r == AllFruits
    ensures ctrlValue != None && ctrlValue != Some("") ==> r == Filter(ctrlValue.value)
    ensures forall e :: e in r ==> e in AllFruits && e.color == ResolveColor(e.name)
  {
    VocabularyAgreesWithResolveColor();
    if ctrlValue.None? || ctrlValue.value == "" then
      AllFruits
    else
      Filter(ctrlValue.value)
  }

  /** The suggestions shown are always the vocabulary with some entries left out, in vocabulary order. */
  lemma SuggestionsAreSubsequence(ctrlValue: Option<string>)
    ensures IsSubsequence(Suggestions(ctrlValue), AllFruits)
  {
    if ctrlValue.None? || ctrlValue.value == "" {
      SubsequenceReflexive(AllFruits);
    }
  }

  /** The empty filter keeps the whole vocabulary, so the null/empty fallback of `Suggestions`
      agrees with filtering by "". */
  lemma FilterEmptyKeepsAll()
    ensures Filter("") == AllFruits
  {
    FilterEntriesEmpty(AllFruits);
  }

  /** Every name starts with the empty string, so filtering by "" keeps any list whole. */
  lemma FilterEntriesEmpty(entries: seq<ChipColor>)
    ensures FilterEntries("", entries) == entries
  {
    assert ToLower("") == [];
    forall i | 0 <= i < |entries| ensures Matches("", entries[i]) {
    }
    FilterEntriesAllMatch("", entries);
  }

  /** An input lowercasing to "up" matches no suggestion whose name starts with another letter. */
  lemma FirstLetterMismatch(value: string, entry: ChipColor)
    requires ToLower(value) == "up"
    requires entry.name != [] && LowerChar(entry.name[0]) != 'u'
    ensures !Matches(value, entry)
  {
    assert ToLower(entry.name)[0] != ToLower(value)[0];
  }

  /** Only the eighth suggestion, "Up:", starts with the letter u in either case. */
  lemma OnlyUpStartsWithU()
    ensures forall i :: 0 <= i < |AllFruits| && i != 7 ==>
      AllFruits[i].name != [] && LowerChar(AllFruits[i].name[0]) != 'u'
  {
  }

  /** When exactly one entry, `x`, matches, the filter yields `[x]`. */
  lemma FilterEntriesSingleMatch(value: string, before: seq<ChipColor>, x: ChipColor, after: seq<ChipColor>)
    requires forall i :: 0 <= i < |before| ==> !Matches(value, before[i])
    requires Matches(value, x)
    requires forall i :: 0 <= i < |after| ==> !Matches(value, after[i])
    ensures FilterEntries(value, before + [x] + after) == [x]
  {
    FilterEntriesNoneMatch(value, before);
    FilterEntriesAllMatch(value, [x]);
    FilterEntriesNoneMatch(value, after);
    FilterEntriesAppend(value, before + [x], after);
    FilterEntriesAppend(value, before, [x]);
  }

  /** An input that lowercases to "up" suggests only "Up:". */
  lemma FilterUp(value: string)
    requires ToLower(value) == "up"
    ensures Filter(value) == [ChipColor("Up:", "yellow-chip")]
  {
    var before, up, after := AllFruits[..7], AllFruits[7], AllFruits[8..];
    assert AllFruits == before + [up] + after;
    OnlyUpStartsWithU();
    forall i | 0 <= i < |before| ensures !Matches(value, before[i]) {
      FirstLetterMismatch(value, AllFruits[i]);
    }
    forall i | 0 <= i < |after| ensures !Matches(value, after[i]) {
      FirstLetterMismatch(value, AllFruits[8 + i]);
    }
    assert Matches(value, up) by {
      assert ToLower("Up:") == "up:";
    }
    FilterEntriesSingleMatch(value, before, up, after);
  }
}
