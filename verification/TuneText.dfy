/** What the tuning file's reader makes of any text, well-formed or not. */
module TuneText {
  import opened Prelude
  import opened TuneStore

  // ---- Numbers -----------------------------------------------------------

  predicate AllDigits(s: string, n: nat)
    requires n <= |s|
  {
    forall i :: 0 <= i < n ==> '0' <= s[i] <= '9'
  }

  /** What the first `n` digits say, however many there are. */
  function ValueOf(s: string, n: nat): nat
    requires n <= |s| && AllDigits(s, n)
  {
    if n == 0 then 0 else 10 * ValueOf(s, n - 1) + (s[n - 1] as int - '0' as int)
  }

  lemma {:induction false} DigitsIff(s: string, n: nat)
    requires n <= |s|
    ensures ParseDigits(s, n).Some? <==> AllDigits(s, n) && ValueOf(s, n) < 0x1_0000_0000
    ensures ParseDigits(s, n).Some? ==> ParseDigits(s, n).value == ValueOf(s, n)
  {
    if n > 0 { DigitsIff(s, n - 1); }
  }

  /** Exactly the digit strings below 2^32, with or without a plus sign, are numbers. */
  lemma NumberIff(s: string)
    ensures var digits := if |s| > 0 && s[0] == '+' then s[1..] else s;
            && (ParseU32(s).Some? <==>
                |digits| > 0 && AllDigits(digits, |digits|) && ValueOf(digits, |digits|) < 0x1_0000_0000)
            && (ParseU32(s).Some? ==> ParseU32(s).value == ValueOf(digits, |digits|))
  {
    var digits := if |s| > 0 && s[0] == '+' then s[1..] else s;
    DigitsIff(digits, |digits|);
  }

  // ---- Words -------------------------------------------------------------

  /** The finished pieces of a scan and the one under construction, if any. */
  function Pieces(end: Scan): seq<string> {
    if end.current == [] then end.done else end.done + [end.current]
  }

  lemma WordPieces(s: string, end: Scan)
    requires ScanWords(s, |s|) == end
    ensures Words(s) == Pieces(end)
  {}

  lemma LinePieces(s: string, end: Scan)
    requires ScanLines(s, |s|) == end
    ensures Lines(s) == Pieces(end)
  {}

  lemma PiecesAfter(done: seq<string>, end: Scan)
    ensures Pieces(Scan(done + end.done, end.current)) == done + Pieces(end)
  {}

  /** Scanning goes on from a finished piece as from the start. */
  lemma {:induction false} ScanWordsFrom(s: string, done: seq<string>, t: string, u: string, j: nat, k: nat)
    requires j <= |t| && u == s + t && k == |s| + j && ScanWords(s, |s|) == Scan(done, [])
    ensures ScanWords(u, k) == Scan(done + ScanWords(t, j).done, ScanWords(t, j).current)
  {
    if j == 0 {
      ScanWordsPrefix(s, t, |s|);
    } else {
      ScanWordsFrom(s, done, t, u, j - 1, k - 1);
      assert u[k - 1] == t[j - 1];
    }
  }

  lemma WordsAfter(s: string, done: seq<string>, t: string, u: string)
    requires ScanWords(s, |s|) == Scan(done, []) && u == s + t
    ensures Words(u) == done + Words(t)
  {
    var end := ScanWords(t, |t|);
    ScanWordsFrom(s, done, t, u, |t|, |u|);
    WordPieces(t, end);
    WordPieces(u, Scan(done + end.done, end.current));
    PiecesAfter(done, end);
  }

  lemma SpaceEnds(s: string, before: Scan, c: char, u: string)
    requires ScanWords(s, |s|) == before && IsSpace(c) && u == s + [c]
    ensures ScanWords(u, |u|) == Scan(Pieces(before), [])
  {
    ScanWordsPrefix(s, [c], |s|);
  }

  lemma WordScanned(w: string)
    requires IsWord(w)
    ensures ScanWords(w, |w|) == Scan([], w)
  {
    WordContinues([], Scan([], []), w, w);
  }

  lemma SpaceSkipped(c: char, s: string)
    requires IsSpace(c)
    ensures Words([c] + s) == Words(s)
  {
    SpaceEnds([], Scan([], []), c, [c]);
    WordsAfter([c], [], s, [c] + s);
  }

  lemma WordTaken(w: string, c: char, s: string)
    requires IsWord(w) && IsSpace(c)
    ensures Words(w + [c] + s) == [w] + Words(s)
  {
    WordScanned(w);
    SpaceEnds(w, Scan([], w), c, w + [c]);
    WordsAfter(w + [c], [w], s, w + [c] + s);
  }

  /** Splitting into words, for every text: leading space is skipped, and a run of other
      characters up to a space or the end is one word. */
  lemma WordsAre(c: char, w: string, s: string)
    ensures Words([]) == []
    ensures IsSpace(c) ==> Words([c] + s) == Words(s)
    ensures IsWord(w) ==> Words(w) == [w]
    ensures IsWord(w) && IsSpace(c) ==> Words(w + [c] + s) == [w] + Words(s)
  {
    if IsSpace(c) { SpaceSkipped(c, s); }
    if IsWord(w) {
      WordScanned(w);
      WordPieces(w, Scan([], w));
      if IsSpace(c) { WordTaken(w, c, s); }
    }
  }

  // ---- Lines -------------------------------------------------------------

  predicate NoNewline(s: string) { forall i :: 0 <= i < |s| ==> s[i] != '\n' }

  lemma LineStep(t: string, j: nat, u: string, k: nat, done: seq<string>, before: Scan)
    requires 0 < j <= |t| && 0 < k <= |u| && u[k - 1] == t[j - 1]
    requires ScanLines(t, j - 1) == before && ScanLines(u, k - 1) == Scan(done + before.done, before.current)
    ensures ScanLines(u, k) == Scan(done + ScanLines(t, j).done, ScanLines(t, j).current)
  {
    if t[j - 1] == '\n' {
      var line := StripReturn(before.current);
      assert done + before.done + [line] == done + (before.done + [line]);
    }
  }

  lemma {:induction false} ScanLinesFrom(s: string, done: seq<string>, t: string, u: string, j: nat, k: nat)
    requires j <= |t| && u == s + t && k == |s| + j && ScanLines(s, |s|) == Scan(done, [])
    ensures ScanLines(u, k) == Scan(done + ScanLines(t, j).done, ScanLines(t, j).current)
  {
    if j == 0 {
      ScanLinesPrefix(s, t, |s|);
    } else {
      ScanLinesFrom(s, done, t, u, j - 1, k - 1);
      LineStep(t, j, u, k, done, ScanLines(t, j - 1));
    }
  }

  lemma LinesAfter(s: string, done: seq<string>, t: string, u: string)
    requires ScanLines(s, |s|) == Scan(done, []) && u == s + t
    ensures Lines(u) == done + Lines(t)
  {
    var end := ScanLines(t, |t|);
    ScanLinesFrom(s, done, t, u, |t|, |u|);
    LinePieces(t, end);
    LinePieces(u, Scan(done + end.done, end.current));
    PiecesAfter(done, end);
  }

  lemma {:induction false} LineScanned(line: string, n: nat, taken: string)
    requires n <= |line| && NoNewline(line) && taken == line[..n]
    ensures ScanLines(line, n) == Scan([], taken)
  {
    if n > 0 {
      LineScanned(line, n - 1, line[..n - 1]);
      assert taken == line[..n - 1] + [line[n - 1]];
    }
  }

  lemma LineEnds(line: string, before: Scan, u: string)
    requires ScanLines(line, |line|) == before && u == line + "\n"
    ensures ScanLines(u, |u|) == Scan(before.done + [StripReturn(before.current)], [])
  {
    ScanLinesPrefix(line, "\n", |line|);
  }

  /** Splitting into lines, for every text: each ends at a newline, which takes a carriage
      return before it along, and what follows the last newline is a line if there is any. */
  lemma LinesAre(line: string, rest: string)
    requires NoNewline(line)
    ensures Lines(line) == if line == [] then [] else [line]
    ensures Lines(line + "\n" + rest)
            == [if |line| > 0 && line[|line| - 1] == '\r' then line[..|line| - 1] else line] + Lines(rest)
  {
    LineScanned(line, |line|, line);
    LinePieces(line, Scan([], line));
    LineEnds(line, Scan([], line), line + "\n");
    LinesAfter(line + "\n", [StripReturn(line)], rest, line + "\n" + rest);
  }

  // ---- Entries -----------------------------------------------------------

  predicate SplitWord(word: string) { "splitk2=" <= word }

  function SplitOf(word: string): Option<nat>
    requires SplitWord(word)
  {
    var v := ParseU32(word[8..]);
    if v.Some? && 2 <= v.value <= 65535 then v else None
  }

  lemma {:induction false} NoSplitWord(words: seq<string>, n: nat)
    requires 5 <= n <= |words| && forall i :: 5 <= i < n ==> !SplitWord(words[i])
    ensures ReadFlags(words, n).splits == None
  {
    if n > 5 { NoSplitWord(words, n - 1); }
  }

  /** Word `i` is the last splitk2= of the first `n`. */
  predicate LastSplit(words: seq<string>, n: nat, i: nat)
    requires n <= |words|
  {
    5 <= i < n && SplitWord(words[i]) && forall j :: i < j < n ==> !SplitWord(words[j])
  }

  lemma {:induction false} LastSplitWord(words: seq<string>, n: nat, i: nat)
    requires n <= |words| && LastSplit(words, n, i)
    ensures ReadFlags(words, n).splits == SplitOf(words[i])
  {
    TagLengths(words[n - 1]);
    if i < n - 1 { LastSplitWord(words, n - 1, i); }
  }

  lemma {:induction false} F16Word(words: seq<string>, n: nat)
    requires 5 <= n <= |words|
    ensures ReadFlags(words, n).bF16 <==> exists i :: 5 <= i < n && words[i] == "bf16"
  {
    if n > 5 {
      F16Word(words, n - 1);
      TagLengths(words[n - 1]);
    }
  }

  /** Optional words: the last splitk2= decides the split count, even when it is out of range
      or no number; bf16 anywhere marks f16 weights; all others are ignored. */
  lemma FlagsAre(words: seq<string>, n: nat, i: nat)
    requires 5 <= n <= |words|
    ensures ReadFlags(words, n).bF16 <==> exists i :: 5 <= i < n && words[i] == "bf16"
    ensures (forall i :: 5 <= i < n ==> !SplitWord(words[i])) ==> ReadFlags(words, n).splits == None
    ensures LastSplit(words, n, i) ==> ReadFlags(words, n).splits == SplitOf(words[i])
  {
    F16Word(words, n);
    if forall i :: 5 <= i < n ==> !SplitWord(words[i]) { NoSplitWord(words, n); }
    if LastSplit(words, n, i) { LastSplitWord(words, n, i); }
  }

  lemma TagLengths(word: string)
    ensures SPLIT_TAG == "splitk2=" && F16_TAG == "bf16" && |SPLIT_TAG| == 8
    ensures word == "bf16" ==> !SplitWord(word)
  {
    if word == "bf16" { assert |word| == 4; }
  }

  lemma {:induction false} PositionIff(names: seq<string>, name: string, i: nat)
    requires i <= |names|
    ensures Position(names, name, i).Some? <==> name in names[i..]
    ensures Position(names, name, i).Some? ==>
              var p := Position(names, name, i).value;
              i <= p < |names| && names[p] == name && name !in names[i..p]
    decreases |names| - i
  {
    if i < |names| {
      PositionIff(names, name, i + 1);
      assert names[i..] == [names[i]] + names[i + 1..];
      if Position(names, name, i + 1).Some? && names[i] != name {
        var p := Position(names, name, i + 1).value;
        assert names[i..p] == [names[i]] + names[i + 1..p];
      }
    }
  }

  /** A line is an entry exactly when it has four numbers and a known kernel; it is skipped
      otherwise, whatever else it says. */
  lemma EntryIff(names: seq<string>, line: string)
    ensures var w := Words(line);
            ParseLine(names, line).Some? <==>
            |w| >= 5 && w[4] in names && forall i :: 0 <= i < 4 ==> ParseU32(w[i]).Some?
    ensures ParseLine(names, line).Some? ==>
              var w, e := Words(line), ParseLine(names, line).value;
              && Some(e.0.batch) == ParseU32(w[0]) && Some(e.0.m) == ParseU32(w[1])
              && Some(e.0.n) == ParseU32(w[2]) && Some(e.0.k) == ParseU32(w[3])
              && e.1.kernel < |names| && names[e.1.kernel] == w[4]
              && Flags(e.1.splitk2, e.0.bF16) == ReadFlags(w, |w|)
  {
    var w := Words(line);
    if |w| >= 5 {
      PositionIff(names, w[4], 0);
      assert names[0..] == names;
    }
  }

  predicate Names(entry: Option<(Key, Entry)>, key: Key) { entry.Some? && entry.value.0 == key }

  lemma {:induction false} BoundIff(parsed: seq<Option<(Key, Entry)>>, n: nat, key: Key)
    requires 1 <= n <= |parsed|
    ensures key in Bind(parsed, n) <==> exists i :: 1 <= i < n && Names(parsed[i], key)
  {
    if n > 1 {
      BoundIff(parsed, n - 1, key);
      assert Names(parsed[n - 1], key) ==> key in Bind(parsed, n);
    }
  }

  /** Line `i` is the last of the first `n` that has the key. */
  predicate LastNamed(parsed: seq<Option<(Key, Entry)>>, n: nat, key: Key, i: nat)
    requires n <= |parsed|
  {
    1 <= i < n && Names(parsed[i], key) && forall j :: i < j < n ==> !Names(parsed[j], key)
  }

  lemma {:induction false} BoundByLast(parsed: seq<Option<(Key, Entry)>>, n: nat, key: Key, i: nat)
    requires 1 <= n <= |parsed| && LastNamed(parsed, n, key, i)
    ensures key in Bind(parsed, n) && Bind(parsed, n)[key] == parsed[i].value.1
  {
    if i < n - 1 { BoundByLast(parsed, n - 1, key, i); }
  }

  /** The bindings of a file: a key is bound exactly when some line after the header has it,
      and to the entry of the last such line; skipped lines change nothing. */
  lemma BindingsAre(parsed: seq<Option<(Key, Entry)>>, n: nat, key: Key, i: nat)
    requires 1 <= n <= |parsed|
    ensures key in Bind(parsed, n) <==> exists i :: 1 <= i < n && Names(parsed[i], key)
    ensures LastNamed(parsed, n, key, i) ==> key in Bind(parsed, n) && Bind(parsed, n)[key] == parsed[i].value.1
  {
    BoundIff(parsed, n, key);
    if LastNamed(parsed, n, key, i) { BoundByLast(parsed, n, key, i); }
  }

  /** A file loads as its bindings when its first line is the header, and as nothing else. */
  lemma FileIs(header: string, names: seq<string>, text: string)
    ensures |Lines(text)| == 0 || Lines(text)[0] != header ==> Load(header, names, text) == map[]
    ensures |Lines(text)| > 0 && Lines(text)[0] == header ==>
              Load(header, names, text) == Bind(ParseAll(names, Lines(text)), |Lines(text)|)
  {}
}
