/** The tuning store: one text line per tuned shape, written sorted and read back token
    by token; a line that does not parse is skipped and the rest are kept. */
module TuneStore {
  import opened Prelude

  datatype Key = Key(batch: nat, m: nat, n: nat, k: nat, bF16: bool)
  datatype Entry = Entry(kernel: nat, splitk2: Option<nat>)
  type Store = map<Key, Entry>

  // ---- Decimal numbers ---------------------------------------------------

  const DIGITS := "0123456789"

  function Decimal(n: nat): (s: string)
    ensures |s| > 0 && forall i :: 0 <= i < |s| ==> '0' <= s[i] <= '9'
  {
    if n < 10 then [DIGITS[n]] else Decimal(n / 10) + [DIGITS[n % 10]]
  }

  predicate IsDigit(c: char) { '0' <= c <= '9' }

  function DigitValue(c: char): nat
    requires IsDigit(c)
  {
    c as int - '0' as int
  }

  /** The value of the first `i` characters; None on a non-digit or past u32. */
  function ParseDigits(s: string, i: nat): Option<nat>
    requires i <= |s|
  {
    if i == 0 then Some(0)
    else
      match ParseDigits(s, i - 1)
      case None => None
      case Some(v) =>
        if IsDigit(s[i - 1]) && v * 10 + DigitValue(s[i - 1]) < U32_SIZE
        then Some(v * 10 + DigitValue(s[i - 1])) else None
  }

  /** u32::from_str: an optional plus sign, then at least one digit. */
  function ParseU32(s: string): Option<nat> {
    if s == [] then None
    else if s[0] == '+' then
      if |s| == 1 then None else ParseDigits(s[1..], |s| - 1)
    else ParseDigits(s, |s|)
  }

  lemma {:induction false} ParsePrefix(s: string, t: string, i: nat)
    requires i <= |s|
    ensures ParseDigits(s + t, i) == ParseDigits(s, i)
  {
    if i > 0 { ParsePrefix(s, t, i - 1); }
  }

  lemma DigitOf(d: nat)
    requires d < 10
    ensures IsDigit(DIGITS[d]) && DigitValue(DIGITS[d]) == d
  {}

  lemma ParseNext(s: string, v: nat, c: char, u: string)
    requires ParseDigits(s, |s|) == Some(v) && IsDigit(c) && v * 10 + DigitValue(c) < U32_SIZE && u == s + [c]
    ensures ParseDigits(u, |u|) == Some(v * 10 + DigitValue(c))
  {
    ParsePrefix(s, [c], |s|);
  }

  lemma {:induction false} ParseDecimalDigits(n: nat)
    requires n < U32_SIZE
    ensures ParseDigits(Decimal(n), |Decimal(n)|) == Some(n)
  {
    if n >= 10 {
      ParseDecimalDigits(n / 10);
      DigitOf(n % 10);
      ParseNext(Decimal(n / 10), n / 10, DIGITS[n % 10], Decimal(n));
    } else {
      DigitOf(n);
      ParseNext([], 0, DIGITS[n], Decimal(n));
    }
  }

  /** Printing and parsing a u32 are inverse. */
  lemma ParseDecimal(n: nat)
    requires n < U32_SIZE
    ensures ParseU32(Decimal(n)) == Some(n)
  {
    ParseDecimalDigits(n);
  }

  // ---- Words and lines ---------------------------------------------------

  /** The characters split_whitespace separates on. */
  predicate IsSpace(c: char) {
    || '\t' <= c <= '\r' || c == ' ' || c == '\U{85}' || c == '\U{A0}' || c == '\U{1680}'
    || '\U{2000}' <= c <= '\U{200A}' || c == '\U{2028}' || c == '\U{2029}' || c == '\U{202F}'
    || c == '\U{205F}' || c == '\U{3000}'
  }

  predicate IsWord(w: string) { |w| > 0 && forall i :: 0 <= i < |w| ==> !IsSpace(w[i]) }

  /** Finished pieces and the piece under construction. */
  datatype Scan = Scan(done: seq<string>, current: string)

  function ScanWords(s: string, i: nat): Scan
    requires i <= |s|
  {
    if i == 0 then Scan([], [])
    else
      var before := ScanWords(s, i - 1);
      if !IsSpace(s[i - 1]) then Scan(before.done, before.current + [s[i - 1]])
      else if before.current == [] then before
      else Scan(before.done + [before.current], [])
  }

  /** str::split_whitespace. */
  function Words(s: string): seq<string> {
    var end := ScanWords(s, |s|);
    if end.current == [] then end.done else end.done + [end.current]
  }

  function StripReturn(line: string): string {
    if |line| > 0 && line[|line| - 1] == '\r' then line[..|line| - 1] else line
  }

  function ScanLines(s: string, i: nat): Scan
    requires i <= |s|
  {
    if i == 0 then Scan([], [])
    else
      var before := ScanLines(s, i - 1);
      if s[i - 1] != '\n' then Scan(before.done, before.current + [s[i - 1]])
      else Scan(before.done + [StripReturn(before.current)], [])
  }

  /** str::lines. */
  function Lines(s: string): seq<string> {
    var end := ScanLines(s, |s|);
    if end.current == [] then end.done else end.done + [end.current]
  }

  lemma {:induction false} ScanWordsPrefix(s: string, t: string, i: nat)
    requires i <= |s|
    ensures ScanWords(s + t, i) == ScanWords(s, i)
  {
    if i > 0 { ScanWordsPrefix(s, t, i - 1); }
  }

  lemma {:induction false} ScanLinesPrefix(s: string, t: string, i: nat)
    requires i <= |s|
    ensures ScanLines(s + t, i) == ScanLines(s, i)
  {
    if i > 0 { ScanLinesPrefix(s, t, i - 1); }
  }

  /** Scanning on through the first `k` characters of a word. */
  lemma {:induction false} ScanThroughWord(s: string, w: string, u: string, k: nat, p: nat, taken: string)
    requires IsWord(w) && k <= |w| && u == s + w && p == |s| + k && taken == w[..k]
    ensures ScanWords(u, p) == Scan(ScanWords(s, |s|).done, ScanWords(s, |s|).current + taken)
  {
    if k == 0 {
      ScanWordsPrefix(s, w, |s|);
    } else {
      ScanThroughWord(s, w, u, k - 1, p - 1, w[..k - 1]);
      assert taken == w[..k - 1] + [w[k - 1]];
    }
  }

  predicate OneLine(line: string) { forall i :: 0 <= i < |line| ==> line[i] != '\n' && line[i] != '\r' }

  lemma {:induction false} ScanThroughLine(s: string, line: string, u: string, k: nat, p: nat, taken: string)
    requires OneLine(line) && k <= |line| && u == s + line && p == |s| + k && taken == line[..k]
    ensures ScanLines(u, p) == Scan(ScanLines(s, |s|).done, ScanLines(s, |s|).current + taken)
  {
    if k == 0 {
      ScanLinesPrefix(s, line, |s|);
    } else {
      ScanThroughLine(s, line, u, k - 1, p - 1, line[..k - 1]);
      assert taken == line[..k - 1] + [line[k - 1]];
    }
  }

  /** The first `n` words separated by single spaces. */
  function Joined(words: seq<string>, n: nat): string
    requires n <= |words|
  {
    if n == 0 then []
    else if n == 1 then words[0]
    else Joined(words, n - 1) + " " + words[n - 1]
  }

  lemma SpaceEndsWord(s: string, before: Scan, u: string)
    requires ScanWords(s, |s|) == before && before.current != [] && u == s + " "
    ensures ScanWords(u, |u|) == Scan(before.done + [before.current], [])
  {
    ScanWordsPrefix(s, " ", |s|);
  }

  lemma WordContinues(s: string, before: Scan, w: string, u: string)
    requires ScanWords(s, |s|) == before && IsWord(w) && u == s + w
    ensures ScanWords(u, |u|) == Scan(before.done, before.current + w)
  {
    ScanThroughWord(s, w, u, |w|, |u|, w);
  }

  lemma {:induction false} ScanJoined(words: seq<string>, n: nat)
    requires 0 < n <= |words| && forall i :: 0 <= i < |words| ==> IsWord(words[i])
    ensures ScanWords(Joined(words, n), |Joined(words, n)|) == Scan(words[..n - 1], words[n - 1])
  {
    var u := Joined(words, n);
    if n == 1 {
      WordContinues([], Scan([], []), words[0], u);
    } else {
      var s := Joined(words, n - 1);
      var t := s + " ";
      ScanJoined(words, n - 1);
      PrefixGrows(words, n - 1);
      SpaceEndsWord(s, Scan(words[..n - 2], words[n - 2]), t);
      WordContinues(t, Scan(words[..n - 1], []), words[n - 1], u);
    }
  }

  lemma WordsOfScan(s: string, end: Scan)
    requires ScanWords(s, |s|) == end && end.current != []
    ensures Words(s) == end.done + [end.current]
  {}

  /** Splitting a space-joined list of words gives the list back. */
  lemma WordsOfJoined(words: seq<string>)
    requires |words| > 0 && forall i :: 0 <= i < |words| ==> IsWord(words[i])
    ensures Words(Joined(words, |words|)) == words
  {
    var last := |words| - 1;
    ScanJoined(words, |words|);
    WordsOfScan(Joined(words, |words|), Scan(words[..last], words[last]));
    PrefixGrows(words, |words|);
  }

  /** Each line followed by a newline. */
  function Text(lines: seq<string>, n: nat): string
    requires n <= |lines|
  {
    if n == 0 then [] else Text(lines, n - 1) + lines[n - 1] + "\n"
  }

  lemma NewlineEndsLine(s: string, before: Scan, u: string)
    requires ScanLines(s, |s|) == before && OneLine(before.current) && u == s + "\n"
    ensures ScanLines(u, |u|) == Scan(before.done + [before.current], [])
  {
    ScanLinesPrefix(s, "\n", |s|);
  }

  lemma LineContinues(s: string, before: Scan, line: string, u: string)
    requires ScanLines(s, |s|) == before && OneLine(line) && u == s + line
    ensures ScanLines(u, |u|) == Scan(before.done, before.current + line)
  {
    ScanThroughLine(s, line, u, |line|, |u|, line);
  }

  lemma LineAdded(s: string, done: seq<string>, line: string, t: string, u: string, after: seq<string>)
    requires ScanLines(s, |s|) == Scan(done, []) && OneLine(line)
    requires t == s + line && u == t + "\n" && after == done + [line]
    ensures ScanLines(u, |u|) == Scan(after, [])
  {
    LineContinues(s, Scan(done, []), line, t);
    assert [] + line == line;
    NewlineEndsLine(t, Scan(done, line), u);
  }

  lemma {:induction false} ScanText(lines: seq<string>, n: nat)
    requires n <= |lines| && forall i :: 0 <= i < |lines| ==> OneLine(lines[i])
    ensures ScanLines(Text(lines, n), |Text(lines, n)|) == Scan(lines[..n], [])
  {
    if n > 0 {
      var s := Text(lines, n - 1);
      ScanText(lines, n - 1);
      PrefixGrows(lines, n);
      LineAdded(s, lines[..n - 1], lines[n - 1], s + lines[n - 1], Text(lines, n), lines[..n]);
    }
  }

  lemma PrefixGrows(lines: seq<string>, n: nat)
    requires 0 < n <= |lines|
    ensures lines[..n] == lines[..n - 1] + [lines[n - 1]]
  {}

  /** Reading back newline-terminated lines gives the lines. */
  lemma LinesOfText(lines: seq<string>)
    requires forall i :: 0 <= i < |lines| ==> OneLine(lines[i])
    ensures Lines(Text(lines, |lines|)) == lines
  {
    ScanText(lines, |lines|);
    assert lines[..|lines|] == lines;
  }

  // ---- One entry per line ------------------------------------------------

  const SPLIT_TAG := "splitk2="
  const F16_TAG := "bf16"

  /** The five words every line has. */
  function ShapeWords(names: seq<string>, key: Key, e: Entry): seq<string>
    requires e.kernel < |names|
  {
    [Decimal(key.batch), Decimal(key.m), Decimal(key.n), Decimal(key.k), names[e.kernel]]
  }

  function SplitWords(names: seq<string>, key: Key, e: Entry): seq<string>
    requires e.kernel < |names|
  {
    if e.splitk2.None? then ShapeWords(names, key, e)
    else ShapeWords(names, key, e) + [SPLIT_TAG + Decimal(e.splitk2.value)]
  }

  /** The words of an entry's line, in print order. */
  function LineWords(names: seq<string>, key: Key, e: Entry): seq<string>
    requires e.kernel < |names|
  {
    if key.bF16 then SplitWords(names, key, e) + [F16_TAG] else SplitWords(names, key, e)
  }

  function Line(names: seq<string>, key: Key, e: Entry): string
    requires e.kernel < |names|
  {
    var words := LineWords(names, key, e);
    Joined(words, |words|)
  }

  /** Position of the first kernel called `name`. */
  function Position(names: seq<string>, name: string, i: nat): Option<nat>
    requires i <= |names|
    decreases |names| - i
  {
    if i == |names| then None else if names[i] == name then Some(i) else Position(names, name, i + 1)
  }

  datatype Flags = Flags(splits: Option<nat>, bF16: bool)

  function InRange(splits: Option<nat>): Option<nat> {
    if splits.Some? && 2 <= splits.value <= 0xFFFF then splits else None
  }

  /** The state after the optional words 5..i. */
  function ReadFlags(words: seq<string>, i: nat): Flags
    requires 5 <= i <= |words|
  {
    if i == 5 then Flags(None, false)
    else
      var before := ReadFlags(words, i - 1);
      var word := words[i - 1];
      if SPLIT_TAG <= word then before.(splits := InRange(ParseU32(word[|SPLIT_TAG|..])))
      else if word == F16_TAG then before.(bF16 := true)
      else before
  }

  /** A line's entry; None when the line is skipped. */
  function ParseLine(names: seq<string>, line: string): Option<(Key, Entry)> {
    var words := Words(line);
    if |words| < 5 then None
    else
      var b, m, n, k := ParseU32(words[0]), ParseU32(words[1]), ParseU32(words[2]), ParseU32(words[3]);
      if b.None? || m.None? || n.None? || k.None? then None
      else
        match Position(names, words[4], 0)
        case None => None
        case Some(kernel) =>
          var flags := ReadFlags(words, |words|);
          Some((Key(b.value, m.value, n.value, k.value, flags.bF16), Entry(kernel, flags.splits)))
  }

  function Added(store: Store, entry: Option<(Key, Entry)>): Store {
    if entry.Some? then store[entry.value.0 := entry.value.1] else store
  }

  /** The lines after the header, parsed. */
  function ParseAll(names: seq<string>, lines: seq<string>): (parsed: seq<Option<(Key, Entry)>>)
    ensures |parsed| == |lines| && forall i :: 0 <= i < |lines| ==> parsed[i] == ParseLine(names, lines[i])
  {
    seq(|lines|, i requires 0 <= i < |lines| => ParseLine(names, lines[i]))
  }

  /** The bindings of lines 1..i, later lines winning. */
  function Bind(parsed: seq<Option<(Key, Entry)>>, i: nat): Store
    requires 1 <= i <= |parsed|
  {
    if i == 1 then map[] else Added(Bind(parsed, i - 1), parsed[i - 1])
  }

  /** Reading a store; a missing or foreign header discards the whole file. */
  function Load(header: string, names: seq<string>, text: string): Store {
    var lines := Lines(text);
    if |lines| == 0 || lines[0] != header then map[] else Bind(ParseAll(names, lines), |lines|)
  }

  method LoadTuned(header: string, names: seq<string>, text: string) returns (store: Store)
    ensures store == Load(header, names, text)
  {
    var lines := Lines(text);
    if |lines| == 0 || lines[0] != header { return map[]; }
    store := LoadEntries(names, lines);
  }

  method LoadEntries(names: seq<string>, lines: seq<string>) returns (store: Store)
    requires |lines| > 0
    ensures store == Bind(ParseAll(names, lines), |lines|)
  {
    store := map[];
    for i := 1 to |lines|
      invariant store == Bind(ParseAll(names, lines), i)
    {
      var entry := ReadLine(names, lines[i]);
      store := Added(store, entry);
    }
  }

  method ReadLine(names: seq<string>, line: string) returns (entry: Option<(Key, Entry)>)
    ensures entry == ParseLine(names, line)
  {
    var words := Words(line);
    if |words| < 5 { return None; }
    var b, m, n, k := ParseU32(words[0]), ParseU32(words[1]), ParseU32(words[2]), ParseU32(words[3]);
    if b.None? || m.None? || n.None? || k.None? { return None; }
    var kernel := Position(names, words[4], 0);
    if kernel.None? { return None; }
    var splits: Option<nat>, bF16 := None, false;
    for i := 5 to |words|
      invariant Flags(splits, bF16) == ReadFlags(words, i)
    {
      if SPLIT_TAG <= words[i] {
        splits := InRange(ParseU32(words[i][|SPLIT_TAG|..]));
      } else if words[i] == F16_TAG {
        bF16 := true;
      }
    }
    return Some((Key(b.value, m.value, n.value, k.value, bF16), Entry(kernel.value, splits)));
  }

  // ---- Round trip of one line --------------------------------------------

  /** The kernel table: distinct names, each a single word. */
  ghost predicate ValidNames(names: seq<string>) {
    && (forall i :: 0 <= i < |names| ==> IsWord(names[i]))
    && (forall i, j :: 0 <= i < j < |names| ==> names[i] != names[j])
  }

  /** Dimensions and split counts are u32 and the kernel is in the table. */
  predicate ValidEntry(names: seq<string>, key: Key, e: Entry) {
    && key.batch < U32_SIZE && key.m < U32_SIZE && key.n < U32_SIZE && key.k < U32_SIZE
    && e.kernel < |names| && (e.splitk2.Some? ==> e.splitk2.value < U32_SIZE)
  }

  lemma {:induction false} PositionFinds(names: seq<string>, i: nat, kernel: nat)
    requires ValidNames(names) && i <= kernel < |names|
    ensures Position(names, names[kernel], i) == Some(kernel)
    decreases kernel - i
  {
    if i < kernel { PositionFinds(names, i + 1, kernel); }
  }

  lemma DecimalIsWord(n: nat)
    ensures IsWord(Decimal(n))
  {}

  lemma TagsAreWords(splits: nat)
    ensures IsWord(SPLIT_TAG + Decimal(splits)) && IsWord(F16_TAG)
  {
    DecimalIsWord(splits);
  }

  lemma LineWordsAreWords(names: seq<string>, key: Key, e: Entry)
    requires ValidNames(names) && e.kernel < |names|
    ensures forall i :: 0 <= i < |LineWords(names, key, e)| ==> IsWord(LineWords(names, key, e)[i])
  {
    DecimalIsWord(key.batch);
    DecimalIsWord(key.m);
    DecimalIsWord(key.n);
    DecimalIsWord(key.k);
    TagsAreWords(if e.splitk2.Some? then e.splitk2.value else 0);
  }

  lemma SplitTagReads(splits: nat)
    requires splits < U32_SIZE
    ensures SPLIT_TAG <= SPLIT_TAG + Decimal(splits)
    ensures InRange(ParseU32((SPLIT_TAG + Decimal(splits))[|SPLIT_TAG|..])) == InRange(Some(splits))
  {
    ParseDecimal(splits);
    assert (SPLIT_TAG + Decimal(splits))[|SPLIT_TAG|..] == Decimal(splits);
  }

  lemma F16TagIsNotSplit()
    ensures !(SPLIT_TAG <= F16_TAG)
  {
    assert SPLIT_TAG[0] != F16_TAG[0];
  }

  lemma ReadSplitTag(words: seq<string>, splits: nat)
    requires |words| >= 6 && words[5] == SPLIT_TAG + Decimal(splits) && splits < U32_SIZE
    ensures ReadFlags(words, 6) == Flags(InRange(Some(splits)), false)
  {
    SplitTagReads(splits);
    assert ReadFlags(words, 5) == Flags(None, false);
  }

  lemma ReadF16Tag(words: seq<string>, i: nat)
    requires 5 <= i < |words| && words[i] == F16_TAG
    ensures ReadFlags(words, i + 1) == ReadFlags(words, i).(bF16 := true)
  {
    F16TagIsNotSplit();
  }

  /** The optional words of a printed line say what the entry said. */
  lemma FlagsReadBack(names: seq<string>, key: Key, e: Entry)
    requires ValidEntry(names, key, e)
    ensures var words := LineWords(names, key, e);
            |words| >= 5 && ReadFlags(words, |words|) == Flags(InRange(e.splitk2), key.bF16)
  {
    var words := LineWords(names, key, e);
    assert ReadFlags(words, 5) == Flags(None, false);
    if e.splitk2.Some? {
      ReadSplitTag(words, e.splitk2.value);
      if key.bF16 { ReadF16Tag(words, 6); }
    } else if key.bF16 {
      ReadF16Tag(words, 5);
    }
  }

  /** What survives a save and a load: a split count outside 2..65535 is dropped. */
  function Normal(e: Entry): Entry { Entry(e.kernel, InRange(e.splitk2)) }

  lemma ParseLineWords(names: seq<string>, key: Key, e: Entry, line: string)
    requires ValidNames(names) && ValidEntry(names, key, e)
    requires Words(line) == LineWords(names, key, e)
    ensures ParseLine(names, line) == Some((key, Normal(e)))
  {
    var words := LineWords(names, key, e);
    FlagsReadBack(names, key, e);
    ParseDecimal(key.batch);
    ParseDecimal(key.m);
    ParseDecimal(key.n);
    ParseDecimal(key.k);
    PositionFinds(names, 0, e.kernel);
    assert words[4] == names[e.kernel];
  }

  /** Parsing a printed entry gives the entry. */
  lemma LineRoundTrip(names: seq<string>, key: Key, e: Entry)
    requires ValidNames(names) && ValidEntry(names, key, e)
    ensures ParseLine(names, Line(names, key, e)) == Some((key, Normal(e)))
  {
    LineWordsAreWords(names, key, e);
    WordsOfJoined(LineWords(names, key, e));
    ParseLineWords(names, key, e, Line(names, key, e));
  }

  // ---- The whole store ---------------------------------------------------

  /** `entries` lists each binding of `store` once, in some order. */
  ghost predicate Lists(entries: seq<(Key, Entry)>, store: Store) {
    && (forall i :: 0 <= i < |entries| ==> entries[i].0 in store && store[entries[i].0] == entries[i].1)
    && (forall i, j :: 0 <= i < j < |entries| ==> entries[i].0 != entries[j].0)
    && (forall key :: key in store ==> exists i :: 0 <= i < |entries| && entries[i].0 == key)
  }

  /** The printing order: by batch, m, n, k, then f32 before f16. */
  predicate Before(a: Key, b: Key) {
    || a.batch < b.batch
    || (a.batch == b.batch && (a.m < b.m
        || (a.m == b.m && (a.n < b.n
            || (a.n == b.n && (a.k < b.k || (a.k == b.k && !a.bF16 && b.bF16)))))))
  }

  predicate Sorted(entries: seq<(Key, Entry)>) {
    forall i, j :: 0 <= i < j < |entries| ==> Before(entries[i].0, entries[j].0)
  }

  predicate ValidEntries(names: seq<string>, entries: seq<(Key, Entry)>) {
    forall i :: 0 <= i < |entries| ==> ValidEntry(names, entries[i].0, entries[i].1)
  }

  function EntryLines(names: seq<string>, entries: seq<(Key, Entry)>): (lines: seq<string>)
    requires ValidEntries(names, entries)
    ensures |lines| == |entries|
    ensures forall i :: 0 <= i < |entries| ==> lines[i] == Line(names, entries[i].0, entries[i].1)
  {
    seq(|entries|, i requires 0 <= i < |entries| => Line(names, entries[i].0, entries[i].1))
  }

  /** The text of a store whose bindings are printed in the order of `entries`. */
  function SaveText(header: string, names: seq<string>, entries: seq<(Key, Entry)>): string
    requires ValidEntries(names, entries)
  {
    var lines := [header] + EntryLines(names, entries);
    Text(lines, |lines|)
  }

  /** The bindings of the first `n` entries, normalised. */
  function Collect(entries: seq<(Key, Entry)>, n: nat): Store
    requires n <= |entries|
  {
    if n == 0 then map[] else Collect(entries, n - 1)[entries[n - 1].0 := Normal(entries[n - 1].1)]
  }

  lemma {:induction false} JoinedIsOneLine(words: seq<string>, n: nat)
    requires n <= |words| && forall i :: 0 <= i < |words| ==> IsWord(words[i])
    ensures OneLine(Joined(words, n))
  {
    if n > 1 { JoinedIsOneLine(words, n - 1); }
  }

  lemma LineIsOneLine(names: seq<string>, key: Key, e: Entry)
    requires ValidNames(names) && e.kernel < |names|
    ensures OneLine(Line(names, key, e))
  {
    LineWordsAreWords(names, key, e);
    JoinedIsOneLine(LineWords(names, key, e), |LineWords(names, key, e)|);
  }

  lemma {:induction false} ReadsBack(entries: seq<(Key, Entry)>, parsed: seq<Option<(Key, Entry)>>, n: nat)
    requires n <= |entries| && ParsedEntries(entries, parsed)
    ensures Bind(parsed, n + 1) == Collect(entries, n)
  {
    if n > 0 {
      ReadsBack(entries, parsed, n - 1);
      assert parsed[n - 1 + 1] == Some((entries[n - 1].0, Normal(entries[n - 1].1)));
    }
  }

  lemma LineParsesAt(names: seq<string>, lines: seq<string>, i: nat, key: Key, e: Entry)
    requires ValidNames(names) && ValidEntry(names, key, e) && i < |lines| && lines[i] == Line(names, key, e)
    ensures ParseAll(names, lines)[i] == Some((key, Normal(e)))
  {
    LineRoundTrip(names, key, e);
  }

  lemma EntryParses(header: string, names: seq<string>, entries: seq<(Key, Entry)>, lines: seq<string>, i: nat)
    requires ValidNames(names) && ValidEntries(names, entries) && i < |entries|
    requires lines == [header] + EntryLines(names, entries)
    ensures ParseAll(names, lines)[i + 1] == Some((entries[i].0, Normal(entries[i].1)))
  {
    LineParsesAt(names, lines, i + 1, entries[i].0, entries[i].1);
  }

  /** The parsed lines of a saved store are its entries, one for one. */
  ghost predicate ParsedEntries(entries: seq<(Key, Entry)>, parsed: seq<Option<(Key, Entry)>>) {
    && |parsed| == |entries| + 1
    && forall i :: 0 <= i < |entries| ==> parsed[i + 1] == Some((entries[i].0, Normal(entries[i].1)))
  }

  lemma LinesParse(header: string, names: seq<string>, entries: seq<(Key, Entry)>, lines: seq<string>,
                   parsed: seq<Option<(Key, Entry)>>)
    requires ValidNames(names) && ValidEntries(names, entries) && lines == [header] + EntryLines(names, entries)
    requires parsed == ParseAll(names, lines)
    ensures ParsedEntries(entries, parsed)
  {
    forall i | 0 <= i < |entries| ensures parsed[i + 1] == Some((entries[i].0, Normal(entries[i].1))) {
      EntryParses(header, names, entries, lines, i);
    }
  }

  lemma LinesAreLines(header: string, names: seq<string>, entries: seq<(Key, Entry)>)
    requires ValidNames(names) && ValidEntries(names, entries) && OneLine(header)
    ensures Lines(SaveText(header, names, entries)) == [header] + EntryLines(names, entries)
  {
    var lines := [header] + EntryLines(names, entries);
    forall i | 0 <= i < |lines| ensures OneLine(lines[i]) {
      if i > 0 { LineIsOneLine(names, entries[i - 1].0, entries[i - 1].1); }
    }
    LinesOfText(lines);
  }

  lemma LoadOfLines(header: string, names: seq<string>, text: string, lines: seq<string>)
    requires Lines(text) == lines && |lines| > 0 && lines[0] == header
    ensures Load(header, names, text) == Bind(ParseAll(names, lines), |lines|)
  {}

  lemma LoadOfText(header: string, names: seq<string>, entries: seq<(Key, Entry)>)
    requires ValidNames(names) && ValidEntries(names, entries) && OneLine(header)
    ensures Load(header, names, SaveText(header, names, entries)) == Collect(entries, |entries|)
  {
    var lines := [header] + EntryLines(names, entries);
    LinesAreLines(header, names, entries);
    LoadOfLines(header, names, SaveText(header, names, entries), lines);
    LinesParse(header, names, entries, lines, ParseAll(names, lines));
    ReadsBack(entries, ParseAll(names, lines), |entries|);
  }

  lemma {:induction false} CollectBinds(entries: seq<(Key, Entry)>, n: nat)
    requires n <= |entries| && forall i, j :: 0 <= i < j < |entries| ==> entries[i].0 != entries[j].0
    ensures forall i :: 0 <= i < n ==>
              entries[i].0 in Collect(entries, n) && Collect(entries, n)[entries[i].0] == Normal(entries[i].1)
    ensures forall key :: key in Collect(entries, n) ==> exists i :: 0 <= i < n && entries[i].0 == key
  {
    if n > 0 { CollectBinds(entries, n - 1); }
  }

  /** The main result: loading what was saved, in whatever order it was printed,
      gives every binding back with its split count normalised; so it gives
      exactly the store when, and only when, every count is absent or in 2..65535. */
  lemma StoreRoundTrip(header: string, names: seq<string>, entries: seq<(Key, Entry)>, store: Store)
    requires ValidNames(names) && ValidEntries(names, entries) && OneLine(header) && Lists(entries, store)
    ensures var loaded := Load(header, names, SaveText(header, names, entries));
            && loaded.Keys == store.Keys
            && (forall key :: key in store ==> loaded[key] == Normal(store[key]))
            && (loaded == store <==>
                forall key :: key in store && store[key].splitk2.Some? ==> 2 <= store[key].splitk2.value <= 65535)
  {
    LoadOfText(header, names, entries);
    CollectBinds(entries, |entries|);
    CollectIsNormal(entries, store, Collect(entries, |entries|));
  }

  lemma CollectIsNormal(entries: seq<(Key, Entry)>, store: Store, loaded: Store)
    requires Lists(entries, store)
    requires forall i :: 0 <= i < |entries| ==> entries[i].0 in loaded && loaded[entries[i].0] == Normal(entries[i].1)
    requires forall key :: key in loaded ==> exists i :: 0 <= i < |entries| && entries[i].0 == key
    ensures loaded.Keys == store.Keys
    ensures forall key :: key in store ==> loaded[key] == Normal(store[key])
    ensures loaded == store <==> forall key :: key in store ==> InRange(store[key].splitk2) == store[key].splitk2
  {
    if loaded == store {
      forall key | key in store ensures InRange(store[key].splitk2) == store[key].splitk2 {
        assert Normal(store[key]) == store[key];
      }
    }
  }

  /** A store written for another driver or shader build is ignored. */
  lemma ForeignHeaderDiscards(header: string, other: string, names: seq<string>, entries: seq<(Key, Entry)>)
    requires ValidNames(names) && ValidEntries(names, entries) && OneLine(other) && header != other
    ensures Load(header, names, SaveText(other, names, entries)) == map[]
  {
    LinesAreLines(other, names, entries);
  }

  // ---- The printed order -------------------------------------------------

  lemma BeforeIsTotal(a: Key, b: Key)
    ensures Before(a, b) || Before(b, a) || a == b
    ensures !(Before(a, b) && Before(b, a)) && !Before(a, a)
  {}

  lemma BeforeIsTransitive(a: Key, b: Key, c: Key)
    requires Before(a, b) && Before(b, c)
    ensures Before(a, c)
  {}

  /** Where a listing keeps the binding of `key`. */
  lemma PlaceOf(f: seq<(Key, Entry)>, store: Store, key: Key) returns (j: nat)
    requires Lists(f, store) && key in store
    ensures j < |f| && f[j] == (key, store[key])
  {
    j :| 0 <= j < |f| && f[j].0 == key;
  }

  ghost predicate AgreeTo(e: seq<(Key, Entry)>, f: seq<(Key, Entry)>, n: nat) {
    n <= |e| && n <= |f| && e[..n] == f[..n]
  }

  lemma NextPlace(e: seq<(Key, Entry)>, f: seq<(Key, Entry)>, store: Store, i: nat)
    requires Lists(e, store) && Lists(f, store) && Sorted(e) && Sorted(f) && i < |e| && i <= |f|
    requires forall h :: 0 <= h < i ==> e[h] == f[h]
    ensures i < |f| && e[i] == f[i]
  {
    var j := PlaceOf(f, store, e[i].0);
    BeforeIsTotal(e[i].0, e[i].0);
    assert j >= i;
    if j > i {
      var l := PlaceOf(e, store, f[i].0);
      BeforeIsTotal(e[i].0, f[i].0);
      BeforeIsTotal(f[i].0, f[i].0);
    }
  }

  lemma NextAgrees(e: seq<(Key, Entry)>, f: seq<(Key, Entry)>, store: Store, i: nat)
    requires Lists(e, store) && Lists(f, store) && Sorted(e) && Sorted(f) && i < |e| && AgreeTo(e, f, i)
    ensures AgreeTo(e, f, i + 1)
  {
    forall h | 0 <= h < i ensures e[h] == f[h] {
      assert e[h] == e[..i][h] && f[h] == f[..i][h];
    }
    NextPlace(e, f, store, i);
    PrefixSplits(e, i);
    PrefixSplits(f, i);
  }

  lemma PrefixSplits(e: seq<(Key, Entry)>, i: nat)
    requires i < |e|
    ensures e[..i + 1] == e[..i] + [e[i]]
  {}

  /** Two sorted listings of one store agree position by position. */
  lemma {:induction false} SortedPrefixesAgree(e: seq<(Key, Entry)>, f: seq<(Key, Entry)>, store: Store, n: nat)
    requires Lists(e, store) && Lists(f, store) && Sorted(e) && Sorted(f) && n <= |e|
    ensures AgreeTo(e, f, n)
  {
    if n == 0 {
      assert e[..0] == f[..0];
    } else {
      SortedPrefixesAgree(e, f, store, n - 1);
      NextAgrees(e, f, store, n - 1);
    }
  }

  /** The printed text depends on the contents of the store alone. */
  lemma TextIsCanonical(header: string, names: seq<string>, e: seq<(Key, Entry)>, f: seq<(Key, Entry)>, store: Store)
    requires Lists(e, store) && Lists(f, store) && Sorted(e) && Sorted(f)
    requires ValidEntries(names, e) && ValidEntries(names, f)
    ensures SaveText(header, names, e) == SaveText(header, names, f)
  {
    SortedPrefixesAgree(e, f, store, |e|);
    SortedPrefixesAgree(f, e, store, |f|);
    assert e == e[..|e|] && f == f[..|f|];
  }

  /** Insertion into a sorted list of bindings. */
  method InsertByKey(sorted: seq<(Key, Entry)>, entry: (Key, Entry)) returns (r: seq<(Key, Entry)>)
    requires Sorted(sorted) && forall i :: 0 <= i < |sorted| ==> sorted[i].0 != entry.0
    ensures Sorted(r) && forall x :: x in r <==> x in sorted || x == entry
  {
    var p := 0;
    while p < |sorted| && Before(sorted[p].0, entry.0)
      invariant p <= |sorted|
      invariant forall i :: 0 <= i < p ==> Before(sorted[i].0, entry.0)
    {
      p := p + 1;
    }
    forall i | p <= i < |sorted| ensures Before(entry.0, sorted[i].0) {
      BeforeIsTotal(sorted[p].0, entry.0);
      if i > p { BeforeIsTransitive(entry.0, sorted[p].0, sorted[i].0); }
    }
    r := sorted[..p] + [entry] + sorted[p..];
    SpliceMembers(sorted, p, entry);
  }

  lemma SpliceMembers(sorted: seq<(Key, Entry)>, p: nat, entry: (Key, Entry))
    requires p <= |sorted|
    ensures forall x :: x in sorted[..p] + [entry] + sorted[p..] <==> x in sorted || x == entry
  {
    assert sorted == sorted[..p] + sorted[p..];
  }

  lemma KeyIsFresh(entries: seq<(Key, Entry)>, i: nat, x: (Key, Entry))
    requires forall h, j :: 0 <= h < j < |entries| ==> entries[h].0 != entries[j].0
    requires i < |entries| && x in entries[..i]
    ensures x.0 != entries[i].0
  {}

  /** sort_by_key on bindings with distinct keys. */
  method SortByKey(entries: seq<(Key, Entry)>) returns (sorted: seq<(Key, Entry)>)
    requires forall i, j :: 0 <= i < j < |entries| ==> entries[i].0 != entries[j].0
    ensures Sorted(sorted) && forall x :: x in sorted <==> x in entries
  {
    sorted := [];
    for i := 0 to |entries|
      invariant Sorted(sorted) && forall x :: x in sorted <==> x in entries[..i]
    {
      assert entries[..i + 1] == entries[..i] + [entries[i]];
      forall j | 0 <= j < |sorted| ensures sorted[j].0 != entries[i].0 {
        KeyIsFresh(entries, i, sorted[j]);
      }
      sorted := InsertByKey(sorted, entries[i]);
    }
    assert entries[..|entries|] == entries;
  }

  lemma SortedLists(entries: seq<(Key, Entry)>, sorted: seq<(Key, Entry)>, store: Store)
    requires Lists(entries, store) && Sorted(sorted) && forall x :: x in sorted <==> x in entries
    ensures Lists(sorted, store)
  {
    forall i | 0 <= i < |sorted| ensures sorted[i].0 in store && store[sorted[i].0] == sorted[i].1 {
      assert sorted[i] in entries;
    }
    forall key | key in store ensures exists i :: 0 <= i < |sorted| && sorted[i].0 == key {
      var j :| 0 <= j < |entries| && entries[j].0 == key;
      assert entries[j] in sorted;
    }
    forall i, j | 0 <= i < j < |sorted| ensures sorted[i].0 != sorted[j].0 {
      BeforeIsTotal(sorted[i].0, sorted[j].0);
    }
  }

  /** The pieces of one entry's line as the writer pushes them. */
  function PrintedShape(names: seq<string>, key: Key, e: Entry): string
    requires e.kernel < |names|
  {
    Decimal(key.batch) + " " + Decimal(key.m) + " " + Decimal(key.n) + " " + Decimal(key.k) + " " + names[e.kernel]
  }

  function PrintedSplit(names: seq<string>, key: Key, e: Entry): string
    requires e.kernel < |names|
  {
    if e.splitk2.None? then PrintedShape(names, key, e)
    else PrintedShape(names, key, e) + " " + (SPLIT_TAG + Decimal(e.splitk2.value))
  }

  function Printed(names: seq<string>, key: Key, e: Entry): string
    requires e.kernel < |names|
  {
    if key.bF16 then PrintedSplit(names, key, e) + " " + F16_TAG else PrintedSplit(names, key, e)
  }

  lemma JoinedStep(words: seq<string>, n: nat, s: string)
    requires 1 < n <= |words| && s == Joined(words, n - 1)
    ensures Joined(words, n) == s + " " + words[n - 1]
  {}

  lemma {:induction false} JoinedPrefix(words: seq<string>, more: seq<string>, n: nat)
    requires n <= |words|
    ensures Joined(words + more, n) == Joined(words, n)
  {
    if n > 0 { JoinedPrefix(words, more, n - 1); }
  }

  lemma JoinedOneMore(words: seq<string>, last: string)
    requires |words| > 0
    ensures Joined(words + [last], |words| + 1) == Joined(words, |words|) + " " + last
  {
    JoinedPrefix(words, [last], |words|);
  }

  lemma JoinedFive(a: string, b: string, c: string, d: string, e: string)
    ensures Joined([a, b, c, d, e], 5) == a + " " + b + " " + c + " " + d + " " + e
  {
    var words := [a, b, c, d, e];
    JoinedStep(words, 2, a);
    JoinedStep(words, 3, a + " " + b);
    JoinedStep(words, 4, a + " " + b + " " + c);
    JoinedStep(words, 5, a + " " + b + " " + c + " " + d);
  }

  lemma PrintedShapeJoined(names: seq<string>, key: Key, e: Entry)
    requires e.kernel < |names|
    ensures PrintedShape(names, key, e) == Joined(ShapeWords(names, key, e), 5)
  {
    JoinedFive(Decimal(key.batch), Decimal(key.m), Decimal(key.n), Decimal(key.k), names[e.kernel]);
  }

  lemma PrintedSplitJoined(names: seq<string>, key: Key, e: Entry, words: seq<string>)
    requires e.kernel < |names| && words == SplitWords(names, key, e)
    ensures |words| > 0 && PrintedSplit(names, key, e) == Joined(words, |words|)
  {
    PrintedShapeJoined(names, key, e);
    if e.splitk2.Some? { JoinedOneMore(ShapeWords(names, key, e), SPLIT_TAG + Decimal(e.splitk2.value)); }
  }

  /** The pieces the writer pushes make the joined line. */
  lemma PrintedIsLine(names: seq<string>, key: Key, e: Entry)
    requires e.kernel < |names|
    ensures Printed(names, key, e) == Line(names, key, e)
  {
    var words := SplitWords(names, key, e);
    PrintedSplitJoined(names, key, e, words);
    if key.bF16 { JoinedOneMore(words, F16_TAG); }
  }

  /** Writes the store from its bindings in an arbitrary iteration order: the text is
      that of the sorted listing, and it loads as the store it was written from. */
  method SaveTuned(header: string, names: seq<string>, iteration: seq<(Key, Entry)>, ghost store: Store)
    returns (out: string)
    requires ValidNames(names) && OneLine(header)
    requires Lists(iteration, store) && ValidEntries(names, iteration)
    ensures forall listing: seq<(Key, Entry)> ::
              Sorted(listing) && Lists(listing, store) && ValidEntries(names, listing)
              ==> out == SaveText(header, names, listing)
    ensures Load(header, names, out).Keys == store.Keys
    ensures forall key :: key in store ==> Load(header, names, out)[key] == Normal(store[key])
  {
    var entries := SortByKey(iteration);
    SortedLists(iteration, entries, store);
    SortedValid(names, iteration, entries);
    out := WriteEntries(header, names, entries);
    OnlyListing(header, names, entries, store);
    StoreRoundTrip(header, names, entries, store);
  }

  lemma OnlyListing(header: string, names: seq<string>, entries: seq<(Key, Entry)>, store: Store)
    requires Sorted(entries) && Lists(entries, store) && ValidEntries(names, entries)
    ensures forall listing: seq<(Key, Entry)> ::
              Sorted(listing) && Lists(listing, store) && ValidEntries(names, listing)
              ==> SaveText(header, names, entries) == SaveText(header, names, listing)
  {
    forall listing: seq<(Key, Entry)> | Sorted(listing) && Lists(listing, store) && ValidEntries(names, listing)
      ensures SaveText(header, names, entries) == SaveText(header, names, listing)
    {
      TextIsCanonical(header, names, entries, listing, store);
    }
  }

  lemma SortedValid(names: seq<string>, entries: seq<(Key, Entry)>, sorted: seq<(Key, Entry)>)
    requires ValidEntries(names, entries) && forall x :: x in sorted <==> x in entries
    ensures ValidEntries(names, sorted)
  {
    forall i | 0 <= i < |sorted| ensures ValidEntry(names, sorted[i].0, sorted[i].1) {
      assert sorted[i] in entries;
    }
  }

  lemma TextStep(lines: seq<string>, n: nat, before: string)
    requires n < |lines| && before == Text(lines, n)
    ensures Text(lines, n + 1) == before + lines[n] + "\n"
  {}

  lemma TextStart(lines: seq<string>, header: string)
    requires |lines| > 0 && lines[0] == header
    ensures Text(lines, 1) == header + "\n"
  {
    TextStep(lines, 0, []);
    assert [] + header == header;
  }

  method WriteEntries(header: string, names: seq<string>, entries: seq<(Key, Entry)>) returns (out: string)
    requires ValidEntries(names, entries)
    ensures out == SaveText(header, names, entries)
  {
    out := WriteLines(header, names, entries, [header] + EntryLines(names, entries));
  }

  /** The header and one line per entry. */
  method WriteLines(header: string, names: seq<string>, entries: seq<(Key, Entry)>, ghost lines: seq<string>)
    returns (out: string)
    requires ValidEntries(names, entries) && |lines| == |entries| + 1 && lines[0] == header
    requires forall i :: 0 <= i < |entries| ==> lines[i + 1] == Line(names, entries[i].0, entries[i].1)
    ensures out == Text(lines, |lines|)
  {
    out := header + "\n";
    TextStart(lines, header);
    for i := 0 to |entries|
      invariant out == Text(lines, i + 1)
    {
      TextStep(lines, i + 1, out);
      out := WriteLine(out, names, entries[i].0, entries[i].1);
    }
  }

  method WriteLine(before: string, names: seq<string>, key: Key, e: Entry) returns (out: string)
    requires e.kernel < |names|
    ensures out == before + Line(names, key, e) + "\n"
  {
    var line := Decimal(key.batch) + " " + Decimal(key.m) + " " + Decimal(key.n) + " " + Decimal(key.k)
                + " " + names[e.kernel];
    if e.splitk2.Some? { line := line + " " + (SPLIT_TAG + Decimal(e.splitk2.value)); }
    if key.bF16 { line := line + " " + F16_TAG; }
    PrintedIsLine(names, key, e);
    out := before + line + "\n";
  }
}
