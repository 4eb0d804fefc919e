/**
 * The recommendation engine of the backend (music_services.py): the
 * clean-up of the title and artist a user typed, and the shaping of the
 * similar tracks LastFM returns into recommendations, each checked against
 * MusicBrainz. The two web services are parameters.
 */
module MusicServices {
  import opened Wrappers
  import JsSemantics

  // ---------------------------------------------------------------------
  // Characters and words
  // ---------------------------------------------------------------------

  /** What `str.split()` and `str.strip()` treat as whitespace among the ASCII characters. */
  predicate IsSpace(c: char) {
    c == ' ' || 9 <= c as int <= 13 || 28 <= c as int <= 31
  }

  function LowerChar(c: char): char {
    if 'A' <= c <= 'Z' then (c as int + 32) as char else c
  }

  function UpperChar(c: char): char {
    if 'a' <= c <= 'z' then (c as int - 32) as char else c
  }

  function Lower(s: string): (r: string)
    ensures |r| == |s|
  {
    if s == [] then [] else [LowerChar(s[0])] + Lower(s[1..])
  }

  /** Lower-casing works character by character. */
  lemma {:induction false} LowerAt(s: string)
    ensures forall i :: 0 <= i < |s| ==> Lower(s)[i] == LowerChar(s[i])
  {
    if s != [] {
      LowerAt(s[1..]);
    }
  }

  /** `str.strip()`. */
  function Strip(s: string): string {
    TrimEnd(TrimStart(s))
  }

  function TrimStart(s: string): (r: string)
    ensures r == [] || !IsSpace(r[0])
    ensures |r| <= |s| && r == s[|s| - |r|..]
    ensures forall i :: 0 <= i < |s| - |r| ==> IsSpace(s[i])
  {
    if s != [] && IsSpace(s[0]) then TrimStart(s[1..]) else s
  }

  function TrimEnd(s: string): (r: string)
    ensures r == [] || !IsSpace(r[|r| - 1])
    ensures r <= s
    ensures forall i :: |r| <= i < |s| ==> IsSpace(s[i])
  {
    if s != [] && IsSpace(s[|s| - 1]) then TrimEnd(s[..|s| - 1]) else s
  }

  /** The longest prefix of s without whitespace. */
  function WordPrefix(s: string): (w: string)
    ensures w <= s && (|w| == |s| || IsSpace(s[|w|]))
    ensures forall i :: 0 <= i < |w| ==> !IsSpace(w[i])
  {
    if s == [] || IsSpace(s[0]) then [] else [s[0]] + WordPrefix(s[1..])
  }

  /** A word `str.split()` can return: non-empty, without whitespace. */
  predicate IsWord(w: string) {
    w != [] && forall i :: 0 <= i < |w| ==> !IsSpace(w[i])
  }

  /** `str.split()`: the maximal runs of non-whitespace, in order. */
  function Split(s: string): (words: seq<string>)
    ensures forall k :: 0 <= k < |words| ==> IsWord(words[k])
    decreases |s|
  {
    if s == [] then []
    else if IsSpace(s[0]) then Split(s[1..])
    else
      var w := WordPrefix(s);
      [w] + Split(s[|w|..])
  }

  /** `' '.join(words)`. */
  function Join(words: seq<string>): string {
    if words == [] then []
    else if |words| == 1 then words[0]
    else words[0] + " " + Join(words[1..])
  }

  /** `str.capitalize()`: the first character upper case, the rest lower case. */
  function Capitalize(w: string): (r: string)
    ensures |r| == |w|
  {
    if w == [] then [] else [UpperChar(w[0])] + Lower(w[1..])
  }

  function CapitalizeAll(words: seq<string>): (r: seq<string>)
    ensures |r| == |words| && forall k :: 0 <= k < |words| ==> r[k] == Capitalize(words[k])
  {
    seq(|words|, k requires 0 <= k < |words| => Capitalize(words[k]))
  }

  /** Text as the clean-up promises it: words of non-whitespace separated by single spaces, nothing around them. */
  predicate WellSpaced(s: string) {
    && (s != [] ==> s[0] != ' ' && s[|s| - 1] != ' ')
    && (forall i :: 0 <= i < |s| ==> IsSpace(s[i]) ==> s[i] == ' ')
    && (forall i :: 0 <= i < |s| - 1 ==> !(s[i] == ' ' && s[i + 1] == ' '))
  }

  // ---------------------------------------------------------------------
  // _clean_input
  // ---------------------------------------------------------------------

  const Corrections: map<string, string> := map[
    "lana del ray" := "Lana Del Rey",
    "lana del rey" := "Lana Del Rey",
    "the beatles" := "The Beatles",
    "pink floyd" := "Pink Floyd"]

  /** `RecommendationEngine._clean_input`. */
  function CleanInput(text: string): string {
    CleanWith(Corrections, text)
  }

  /** The clean-up over a given corrections table. */
  function CleanWith(table: map<string, string>, text: string): string {
    var t := Strip(text);
    var lowered := Lower(t);
    if lowered in table then table[lowered] else Join(CapitalizeAll(Split(t)))
  }

  /**
   * The clean-up first strips the text; a text whose stripped, lower-cased
   * form is a key of the corrections table becomes that key's value,
   * whatever its case; any other text becomes its words, capitalized.
   */
  lemma CleanInputCases(text: string)
    ensures CleanInput(text) == CleanInput(Strip(text))
    ensures Lower(Strip(text)) in Corrections ==> CleanInput(text) == Corrections[Lower(Strip(text))]
    ensures Lower(Strip(text)) !in Corrections ==> Split(CleanInput(text)) == CapitalizeAll(Split(text))
  {
    StripIsIdempotent(text);
    SplitIgnoresStrip(text);
    if Lower(Strip(text)) !in Corrections {
      CapitalizedWords(Split(text));
      SplitJoin(CapitalizeAll(Split(text)));
    }
  }

  /** Whatever the input, the result has no leading, trailing or doubled spaces. */
  lemma CleanInputIsWellSpaced(text: string)
    ensures WellSpaced(CleanInput(text))
  {
    var t := Strip(text);
    if Lower(t) in Corrections {
      CorrectionsAreSelfCorrecting();
      var ws :| TableEntry(Corrections, ws, Corrections[Lower(t)]);
      EntryIsFixedPoint(Corrections, ws);
    } else {
      CapitalizedWords(Split(t));
      JoinIsWellSpaced(CapitalizeAll(Split(t)));
    }
  }

  /** A stripped text has nothing left to strip. */
  lemma StripIsIdempotent(s: string)
    ensures Strip(Strip(s)) == Strip(s)
  {
    var a := TrimStart(s);
    var b := TrimEnd(a);
    if b != [] {
      assert b[0] == a[0];
    }
    assert TrimStart(b) == b;
    assert TrimEnd(b) == b;
  }

  /** Whitespace around the text makes no word. */
  lemma SplitIgnoresStrip(s: string)
    ensures Split(Strip(s)) == Split(s)
  {
    var a := TrimStart(s);
    SplitSkipsSpaces(s, |s| - |a|);
    assert s[|s| - |a|..] == a;
    SplitDropsTrailing(a, |TrimEnd(a)|);
    assert a[..|TrimEnd(a)|] == TrimEnd(a);
  }

  lemma {:induction false} SplitSkipsSpaces(s: string, k: nat)
    requires k <= |s| && forall i :: 0 <= i < k ==> IsSpace(s[i])
    ensures Split(s) == Split(s[k..])
  {
    if k > 0 {
      SplitSkipsSpaces(s[1..], k - 1);
      assert s[1..][k - 1..] == s[k..];
    }
  }

  lemma {:induction false} SplitDropsTrailing(s: string, k: nat)
    requires k <= |s| && forall i :: k <= i < |s| ==> IsSpace(s[i])
    ensures Split(s) == Split(s[..k])
    decreases |s|
  {
    if s == [] {
    } else if IsSpace(s[0]) {
      if k == 0 {
        AllSpaceSplitsToNothing(s);
      } else {
        SplitDropsTrailing(s[1..], k - 1);
        assert s[..k][1..] == s[1..][..k - 1];
      }
    } else {
      var w := WordPrefix(s);
      if k < |s| {
        WordPrefixStopsAtSpace(s, k);
      }
      WordPrefixOfPrefix(s, k);
      SplitDropsTrailing(s[|w|..], k - |w|);
      assert s[|w|..][..k - |w|] == s[..k][|w|..];
    }
  }

  lemma {:induction false} WordPrefixStopsAtSpace(s: string, k: nat)
    requires k < |s| && IsSpace(s[k])
    ensures |WordPrefix(s)| <= k
  {
    if !IsSpace(s[0]) {
      WordPrefixStopsAtSpace(s[1..], k - 1);
    }
  }

  lemma {:induction false} WordPrefixOfPrefix(s: string, k: nat)
    requires |WordPrefix(s)| <= k <= |s|
    ensures WordPrefix(s[..k]) == WordPrefix(s)
  {
    if s != [] && !IsSpace(s[0]) {
      assert k > 0 by {
        assert WordPrefix(s) == [s[0]] + WordPrefix(s[1..]);
      }
      WordPrefixOfPrefix(s[1..], k - 1);
      assert s[..k][1..] == s[1..][..k - 1];
    }
  }

  lemma {:induction false} AllSpaceSplitsToNothing(s: string)
    requires forall i :: 0 <= i < |s| ==> IsSpace(s[i])
    ensures Split(s) == []
  {
    if s != [] {
      AllSpaceSplitsToNothing(s[1..]);
    }
  }

  /** Capitalizing keeps a word a word, its first letter upper case and the rest lower case. */
  lemma CapitalizedWords(words: seq<string>)
    requires forall k :: 0 <= k < |words| ==> IsWord(words[k])
    ensures forall k :: 0 <= k < |words| ==> IsWord(CapitalizeAll(words)[k])
  {
    forall k | 0 <= k < |words| ensures IsWord(Capitalize(words[k])) {
      var w := words[k];
      var c := Capitalize(w);
      LowerAt(w[1..]);
      forall i | 0 <= i < |c| ensures !IsSpace(c[i]) {
        if i == 0 {
          assert c[0] == UpperChar(w[0]);
        } else {
          assert c[i] == Lower(w[1..])[i - 1] == LowerChar(w[i]);
        }
      }
    }
  }

  /** Joining words with single spaces makes well-spaced text. */
  lemma {:induction false} JoinIsWellSpaced(words: seq<string>)
    requires forall k :: 0 <= k < |words| ==> IsWord(words[k])
    ensures WellSpaced(Join(words))
    ensures words != [] ==> Join(words) != [] && Join(words)[0] == words[0][0]
  {
    if |words| >= 2 {
      var w, rest := words[0], Join(words[1..]);
      JoinIsWellSpaced(words[1..]);
      var j := Join(words);
      assert j == w + " " + rest;
      assert rest != [] && rest[0] == words[1][0] && !IsSpace(rest[0]);
      forall i | 0 <= i < |j| - 1 ensures !(j[i] == ' ' && j[i + 1] == ' ') {
        if i >= |w| + 1 {
          assert j[i] == rest[i - |w| - 1] && j[i + 1] == rest[i - |w|];
        } else if i < |w| {
          assert j[i] == w[i];
        }
      }
      forall i | 0 <= i < |j| ensures IsSpace(j[i]) ==> j[i] == ' ' {
        if i > |w| {
          assert j[i] == rest[i - |w| - 1];
        } else if i < |w| {
          assert j[i] == w[i];
        }
      }
      assert j[|j| - 1] == rest[|rest| - 1];
    } else if |words| == 1 {
      assert !IsSpace(words[0][0]) && !IsSpace(words[0][|words[0]| - 1]);
    }
  }

  /** Splitting a join of words gives the words back. */
  lemma {:induction false} SplitJoin(words: seq<string>)
    requires forall k :: 0 <= k < |words| ==> IsWord(words[k])
    ensures Split(Join(words)) == words
  {
    if words != [] {
      var w := words[0];
      WordPrefixOfWord(w, if |words| == 1 then "" else " " + Join(words[1..]));
      if |words| == 1 {
        assert Join(words) == w + "";
        assert Join(words)[|w|..] == [];
      } else {
        var j := Join(words);
        var rest := Join(words[1..]);
        assert j == w + (" " + rest);
        assert j[|w|..] == " " + rest;
        assert (" " + rest)[1..] == rest;
        SplitJoin(words[1..]);
      }
    }
  }

  lemma {:induction false} WordPrefixOfWord(w: string, tail: string)
    requires IsWord(w) && (tail == [] || IsSpace(tail[0]))
    ensures WordPrefix(w + tail) == w
  {
    if |w| == 1 {
      assert (w + tail)[1..] == tail;
    } else {
      assert (w + tail)[1..] == w[1..] + tail;
      WordPrefixOfWord(w[1..], tail);
    }
  }

  /**
   * A text whose words are separated by more than one space misses its
   * correction: "lana  del ray" is not a key of the table, so it comes out
   * as "Lana Del Ray", and cleaning that again corrects it to "Lana Del Rey".
   */
  lemma SpacedVariantMissesCorrection(a: string, b: string, c: string)
    requires a == "lana" && b == "del" && c == "ray"
    ensures Lower(a + "  " + b + " " + c) !in Corrections
    ensures CleanInput(a + "  " + b + " " + c) == Capitalize(a) + " " + Capitalize(b) + " " + Capitalize(c)
    ensures Capitalize(a) == "Lana" && Capitalize(b) == "Del" && Capitalize(c) == "Ray"
    ensures CleanInput(CleanInput(a + "  " + b + " " + c)) == "Lana Del Rey"
    ensures CleanInput(CleanInput(a + "  " + b + " " + c)) != CleanInput(a + "  " + b + " " + c)
  {
    SpacedCleansToCapitalized(a, b, c);
    CapitalizedWordsOfTheExample(a, b, c);
    var ca, cb, cc := Capitalize(a), Capitalize(b), Capitalize(c);
    SecondPassCorrects(ca, cb, cc);
    RayIsNotRey(ca, cb, cc);
  }

  lemma RayIsNotRey(a: string, b: string, c: string)
    requires a == "Lana" && b == "Del" && c == "Ray"
    ensures a + " " + b + " " + c != "Lana Del Rey"
  {
    assert (a + " " + b + " " + c)[10] == 'a';
  }

  lemma SpacedCleansToCapitalized(a: string, b: string, c: string)
    requires a == "lana" && b == "del" && c == "ray"
    ensures Lower(a + "  " + b + " " + c) == a + "  " + b + " " + c
    ensures a + "  " + b + " " + c !in Corrections
    ensures CleanInput(a + "  " + b + " " + c) == Join(CapitalizeAll([a, b, c]))
  {
    ExampleWordsAreLowerCase(a, b, c);
    SpacedLowerWords(a, b, c);
    SpacedNotAKey(a, b, c);
    CleanUncorrected(a + "  " + b + " " + c, [a, b, c]);
  }

  lemma ExampleWordsAreLowerCase(a: string, b: string, c: string)
    requires a == "lana" && b == "del" && c == "ray"
    ensures IsWord(a) && IsWord(b) && IsWord(c)
    ensures Lower(a) == a && Lower(b) == b && Lower(c) == c
  {
    NoUpperIsLower(a);
    NoUpperIsLower(b);
    NoUpperIsLower(c);
  }

  lemma SpacedNotAKey(a: string, b: string, c: string)
    requires a == "lana" && b == "del" && c == "ray"
    ensures a + "  " + b + " " + c !in Corrections
  {
    assert |a + "  " + b + " " + c| == 13;
  }

  /** A stripped text whose lower-case form is no key is replaced by its capitalized words. */
  lemma CleanUncorrected(s: string, ws: seq<string>)
    requires Strip(s) == s && Lower(s) !in Corrections && Split(s) == ws
    ensures CleanInput(s) == Join(CapitalizeAll(ws))
  {
  }

  lemma CapitalizedWordsOfTheExample(a: string, b: string, c: string)
    requires a == "lana" && b == "del" && c == "ray"
    ensures Join(CapitalizeAll([a, b, c])) == Capitalize(a) + " " + Capitalize(b) + " " + Capitalize(c)
    ensures Capitalize(a) == "Lana" && Capitalize(b) == "Del" && Capitalize(c) == "Ray"
  {
    JoinCapitalized3(a, b, c);
    NoUpperIsLower(a[1..]);
    NoUpperIsLower(b[1..]);
    NoUpperIsLower(c[1..]);
    assert UpperChar('l') == 'L' && UpperChar('d') == 'D' && UpperChar('r') == 'R';
  }

  lemma JoinCapitalized3(a: string, b: string, c: string)
    ensures Join(CapitalizeAll([a, b, c])) == Capitalize(a) + " " + Capitalize(b) + " " + Capitalize(c)
  {
    assert CapitalizeAll([a, b, c]) == [Capitalize(a), Capitalize(b), Capitalize(c)];
    Join3(Capitalize(a), Capitalize(b), Capitalize(c));
  }

  /** The words of a capitalized name, lower-cased. */
  lemma SecondPassCorrects(a: string, b: string, c: string)
    requires a == "Lana" && b == "Del" && c == "Ray"
    ensures CleanInput(a + " " + b + " " + c) == "Lana Del Rey"
  {
    SecondPassWords(a, b, c);
    ThreeWords(a, b, c, "lana", "del", "ray");
    assert "lana" + " " + "del" + " " + "ray" == "lana del ray";
    CorrectedJoin(Corrections, [a, b, c]);
  }

  lemma SecondPassWords(a: string, b: string, c: string)
    requires a == "Lana" && b == "Del" && c == "Ray"
    ensures IsWord(a) && IsWord(b) && IsWord(c)
    ensures Lower(a) == "lana" && Lower(b) == "del" && Lower(c) == "ray"
  {
    LowerOfCapitalized(a);
    LowerOfCapitalized(b);
    LowerOfCapitalized(c);
    assert LowerChar('L') == 'l' && LowerChar('D') == 'd' && LowerChar('R') == 'r';
  }

  lemma LowerOfCapitalized(w: string)
    requires w != [] && forall i :: 1 <= i < |w| ==> !('A' <= w[i] <= 'Z')
    ensures Lower(w) == [LowerChar(w[0])] + w[1..]
  {
    NoUpperIsLower(w[1..]);
  }

  /** Three lower-case words with a double space after the first: the text strips to itself and splits into them. */
  lemma SpacedLowerWords(a: string, b: string, c: string)
    requires IsWord(a) && IsWord(b) && IsWord(c)
    requires Lower(a) == a && Lower(b) == b && Lower(c) == c
    ensures Strip(a + "  " + b + " " + c) == a + "  " + b + " " + c
    ensures Lower(a + "  " + b + " " + c) == a + "  " + b + " " + c
    ensures Split(a + "  " + b + " " + c) == [a, b, c]
  {
    StripsToItself(a + "  " + b + " " + c, a, c);
    LowerSpaced(a, b, c);
    SpacedSplit(a, b, c);
  }

  lemma StripsToItself(s: string, a: string, c: string)
    requires IsWord(a) && IsWord(c) && s != [] && s[0] == a[0] && s[|s| - 1] == c[|c| - 1]
    ensures Strip(s) == s
  {
  }

  lemma LowerSpaced(a: string, b: string, c: string)
    requires Lower(a) == a && Lower(b) == b && Lower(c) == c
    ensures Lower(a + "  " + b + " " + c) == a + "  " + b + " " + c
  {
    LowerConcat(a + "  " + b + " ", c);
    LowerConcat(a + "  " + b, " ");
    LowerConcat(a + "  ", b);
    LowerConcat(a, "  ");
  }

  /** Three words with a double space after the first split into those words. */
  lemma SpacedSplit(a: string, b: string, c: string)
    requires IsWord(a) && IsWord(b) && IsWord(c)
    ensures Split(a + "  " + b + " " + c) == [a, b, c]
  {
    assert a + "  " + b + " " + c == a + "  " + (b + " " + c);
    SplitSeparated(a, "  ", b + " " + c);
    SplitTwo(b, c);
    assert [a] + [b, c] == [a, b, c];
  }

  lemma SplitTwo(b: string, c: string)
    requires IsWord(b) && IsWord(c)
    ensures Split(b + " " + c) == [b, c]
  {
    SplitSeparated(b, " ", c);
    SplitSeparated(c, [], []);
    assert c + [] + [] == c;
  }

  /** A word, then whitespace, then text that starts with no whitespace. */
  lemma SplitSeparated(w: string, sep: string, tail: string)
    requires IsWord(w) && forall i :: 0 <= i < |sep| ==> IsSpace(sep[i])
    requires tail == [] || !IsSpace(tail[0])
    requires sep == [] ==> tail == []
    ensures Split(w + sep + tail) == [w] + Split(tail)
  {
    var t := sep + tail;
    assert w + sep + tail == w + t;
    SplitCons(w, t);
    SplitSkipsSpaces(t, |sep|);
    assert t[|sep|..] == tail;
  }

  /** Three capitalized words, joined, and their lower-case forms. */
  lemma ThreeWords(a: string, b: string, c: string, la: string, lb: string, lc: string)
    requires IsWord(a) && IsWord(b) && IsWord(c)
    requires Lower(a) == la && Lower(b) == lb && Lower(c) == lc
    ensures Join([a, b, c]) == a + " " + b + " " + c
    ensures Lower(Join([a, b, c])) == la + " " + lb + " " + lc
  {
    Join3(a, b, c);
    LowerOfThree(a, b, c);
  }

  /** Words joined by single spaces whose lower-case form is a key are cleaned to that key's correction. */
  lemma CorrectedJoin(table: map<string, string>, ws: seq<string>)
    requires forall k :: 0 <= k < |ws| ==> IsWord(ws[k])
    requires Lower(Join(ws)) in table
    ensures CleanWith(table, Join(ws)) == table[Lower(Join(ws))]
  {
    JoinIsWellSpaced(ws);
    WellSpacedIsStripped(Join(ws));
  }

  /** Splitting a word followed by whitespace (or nothing) gives that word first. */
  lemma SplitCons(w: string, tail: string)
    requires IsWord(w) && (tail == [] || IsSpace(tail[0]))
    ensures Split(w + tail) == [w] + Split(tail)
  {
    WordPrefixOfWord(w, tail);
    assert (w + tail)[|w|..] == tail;
    assert (w + tail)[0] == w[0];
  }

  lemma NoUpperIsLower(s: string)
    requires forall i :: 0 <= i < |s| ==> !('A' <= s[i] <= 'Z')
    ensures Lower(s) == s
  {
    LowerAt(s);
  }

  lemma Join2(a: string, b: string)
    ensures Join([a, b]) == a + " " + b
  {
    assert [a, b][1..] == [b];
  }

  lemma Join3(a: string, b: string, c: string)
    ensures Join([a, b, c]) == a + " " + b + " " + c
  {
    assert [a, b, c][1..] == [b, c];
    Join2(b, c);
  }

  lemma LowerOfThree(a: string, b: string, c: string)
    ensures Lower(a + " " + b + " " + c) == Lower(a) + " " + Lower(b) + " " + Lower(c)
  {
    LowerConcat(a + " " + b + " ", c);
    LowerConcat(a + " " + b, " ");
    LowerConcat(a + " ", b);
    LowerConcat(a, " ");
  }

  /** The clean-up with the whitespace collapsed before the table lookup. */
  function CleanInputNormalised(text: string): string {
    NormalisedWith(Corrections, text)
  }

  function NormalisedWith(table: map<string, string>, text: string): string {
    var words := Split(Strip(text));
    var key := Lower(Join(words));
    if key in table then table[key] else Join(CapitalizeAll(words))
  }

  /** The normalised clean-up agrees with the original on every well-spaced text. */
  lemma NormalisedAgreesOnWellSpaced(text: string)
    requires WellSpaced(Strip(text))
    ensures CleanInputNormalised(text) == CleanInput(text)
  {
    JoinSplit(Strip(text));
  }

  /** Cleaning with the normalised lookup twice is the same as cleaning once. */
  lemma NormalisedIsIdempotent(text: string)
    ensures CleanInputNormalised(CleanInputNormalised(text)) == CleanInputNormalised(text)
  {
    CorrectionsAreSelfCorrecting();
    NormalisedWithIsIdempotent(Corrections, text);
  }

  /** With a table whose every value is corrected to itself, the normalised clean-up is idempotent. */
  lemma NormalisedWithIsIdempotent(table: map<string, string>, text: string)
    requires SelfCorrecting(table)
    ensures NormalisedWith(table, NormalisedWith(table, text)) == NormalisedWith(table, text)
  {
    var words := Split(Strip(text));
    var key := Lower(Join(words));
    if key in table {
      var ws :| TableEntry(table, ws, table[key]);
      EntryIsFixedPoint(table, ws);
    } else {
      var caps := CapitalizeAll(words);
      var r := Join(caps);
      CapitalizedWords(words);
      JoinIsWellSpaced(caps);
      WellSpacedIsStripped(r);
      SplitJoin(caps);
      LowerJoinOfCapitalized(words);
      CapitalizeTwice(words);
      CapitalizedWords(caps);
    }
  }

  /** v is the single-spaced join of the words ws, and the table maps its lower-case form back to v. */
  predicate TableEntry(table: map<string, string>, ws: seq<string>, v: string) {
    && (forall i :: 0 <= i < |ws| ==> IsWord(ws[i]))
    && v == Join(ws)
    && Lower(v) in table
    && table[Lower(v)] == v
  }

  /** Every value of the table is made of words, and the table corrects it to itself. */
  ghost predicate SelfCorrecting(table: map<string, string>) {
    forall k :: k in table ==> exists ws :: TableEntry(table, ws, table[k])
  }

  /** The corrections of the source's table are single-spaced words that correct to themselves. */
  lemma CorrectionsAreSelfCorrecting()
    ensures SelfCorrecting(Corrections)
  {
    forall k | k in Corrections ensures exists ws :: TableEntry(Corrections, ws, Corrections[k]) {
      assert k == "lana del ray" || k == "lana del rey" || k == "the beatles" || k == "pink floyd";
      if k == "lana del ray" || k == "lana del rey" {
        assert Corrections[k] == "Lana Del Rey";
        LanaDelReyEntry();
      } else if k == "the beatles" {
        TheBeatlesEntry();
      } else {
        PinkFloydEntry();
      }
    }
  }

  lemma TheBeatlesEntry()
    ensures exists ws :: TableEntry(Corrections, ws, "The Beatles")
  {
    TheBeatlesWords("The", "Beatles");
  }

  lemma TheBeatlesWords(a: string, b: string)
    requires a == "The" && b == "Beatles"
    ensures TableEntry(Corrections, [a, b], "The Beatles")
  {
    LowerOfCapitalized(a);
    LowerOfCapitalized(b);
    assert LowerChar('T') == 't' && LowerChar('B') == 'b';
    EntryOfTwo(Corrections, a, b, "the", "beatles", "the beatles", "The Beatles");
  }

  lemma PinkFloydEntry()
    ensures exists ws :: TableEntry(Corrections, ws, "Pink Floyd")
  {
    LowerOfCapitalized("Pink");
    LowerOfCapitalized("Floyd");
    assert LowerChar('P') == 'p' && LowerChar('F') == 'f';
    EntryOfTwo(Corrections, "Pink", "Floyd", "pink", "floyd", "pink floyd", "Pink Floyd");
  }

  lemma LanaDelReyEntry()
    ensures exists ws :: TableEntry(Corrections, ws, "Lana Del Rey")
  {
    LowerOfCapitalized("Lana");
    LowerOfCapitalized("Del");
    LowerOfCapitalized("Rey");
    assert LowerChar('L') == 'l' && LowerChar('D') == 'd' && LowerChar('R') == 'r';
    EntryOfThree(Corrections, "Lana", "Del", "Rey", "lana", "del", "rey", "lana del rey", "Lana Del Rey");
  }

  lemma EntryOfTwo(table: map<string, string>, a: string, b: string, la: string, lb: string, key: string, value: string)
    requires IsWord(a) && IsWord(b) && Lower(a) == la && Lower(b) == lb
    requires la + " " + lb == key && a + " " + b == value
    requires key in table && table[key] == value
    ensures TableEntry(table, [a, b], value)
  {
    Join2(a, b);
    LowerConcat(a + " ", b);
    LowerConcat(a, " ");
    assert Lower(" ") == " ";
  }

  lemma EntryOfThree(table: map<string, string>, a: string, b: string, c: string,
                     la: string, lb: string, lc: string, key: string, value: string)
    requires IsWord(a) && IsWord(b) && IsWord(c) && Lower(a) == la && Lower(b) == lb && Lower(c) == lc
    requires la + " " + lb + " " + lc == key && a + " " + b + " " + c == value
    requires key in table && table[key] == value
    ensures TableEntry(table, [a, b, c], value)
  {
    ThreeWords(a, b, c, la, lb, lc);
  }

  /** A table entry is well spaced and cleans to itself. */
  lemma EntryIsFixedPoint(table: map<string, string>, ws: seq<string>)
    requires TableEntry(table, ws, Join(ws))
    ensures WellSpaced(Join(ws)) && NormalisedWith(table, Join(ws)) == Join(ws)
  {
    JoinIsWellSpaced(ws);
    WellSpacedIsStripped(Join(ws));
    SplitJoin(ws);
  }

  /** Well-spaced text has nothing to strip. */
  lemma WellSpacedIsStripped(s: string)
    requires WellSpaced(s)
    ensures Strip(s) == s
  {
  }

  /** A well-spaced text is the join of its words. */
  lemma {:induction false} JoinSplit(s: string)
    requires WellSpaced(s)
    ensures Join(Split(s)) == s
    decreases |s|
  {
    if s != [] {
      var w := WordPrefix(s);
      if |w| == |s| {
        assert w == s;
        assert Split(s) == [w] + Split([]);
      } else {
        var rest := s[|w| + 1..];
        assert s[|w|] == ' ';
        assert rest != [] && rest[0] != ' ' by {
          assert |w| + 1 < |s|;
          assert s[|w| + 1] != ' ';
        }
        assert s[|w|..][1..] == rest;
        assert Split(s[|w|..]) == Split(rest);
        assert WellSpaced(rest) by {
          forall i | 0 <= i < |rest| - 1 ensures !(rest[i] == ' ' && rest[i + 1] == ' ') {
            assert rest[i] == s[|w| + 1 + i] && rest[i + 1] == s[|w| + 2 + i];
          }
          forall i | 0 <= i < |rest| ensures IsSpace(rest[i]) ==> rest[i] == ' ' {
            assert rest[i] == s[|w| + 1 + i];
          }
        }
        JoinSplit(rest);
        var ws := Split(rest);
        assert ws != [] by {
          assert !IsSpace(rest[0]);
        }
        assert Split(s) == [w] + ws;
        assert Join([w] + ws) == w + " " + Join(ws) by {
          assert ([w] + ws)[1..] == ws;
        }
        assert s == w + " " + rest;
      }
    }
  }

  /** Lower-casing the capitalized words gives the lower-cased text. */
  lemma {:induction false} LowerJoinOfCapitalized(words: seq<string>)
    ensures Lower(Join(CapitalizeAll(words))) == Lower(Join(words))
  {
    if |words| == 1 {
      LowerCapitalize(words[0]);
      assert CapitalizeAll(words) == [Capitalize(words[0])];
    } else if |words| >= 2 {
      var caps := CapitalizeAll(words);
      assert caps[1..] == CapitalizeAll(words[1..]);
      LowerJoinOfCapitalized(words[1..]);
      LowerCapitalize(words[0]);
      LowerConcat(caps[0] + " ", Join(caps[1..]));
      LowerConcat(caps[0], " ");
      LowerConcat(words[0] + " ", Join(words[1..]));
      LowerConcat(words[0], " ");
    }
  }

  lemma LowerConcat(a: string, b: string)
    ensures Lower(a + b) == Lower(a) + Lower(b)
  {
    if a == [] {
      assert a + b == b;
    } else {
      assert (a + b)[1..] == a[1..] + b;
      LowerConcat(a[1..], b);
      assert Lower(a + b) == [LowerChar(a[0])] + (Lower(a[1..]) + Lower(b));
    }
  }

  lemma LowerCapitalize(w: string)
    ensures Lower(Capitalize(w)) == Lower(w)
  {
    if w != [] {
      var c := Capitalize(w);
      LowerAt(c);
      LowerAt(w);
      LowerAt(w[1..]);
      assert Lower(c)[0] == LowerChar(UpperChar(w[0])) == LowerChar(w[0]);
      forall i | 1 <= i < |w| ensures Lower(c)[i] == Lower(w)[i] {
        assert c[i] == Lower(w[1..])[i - 1];
      }
    }
  }

  /** A capitalized word stays as it is when capitalized again. */
  lemma CapitalizeIdempotent(w: string)
    ensures Capitalize(Capitalize(w)) == Capitalize(w)
  {
    if w != [] {
      var c := Capitalize(w);
      LowerAt(c[1..]);
      LowerAt(w[1..]);
      assert Capitalize(c)[0] == UpperChar(UpperChar(w[0])) == c[0];
      forall i | 1 <= i < |w| ensures Capitalize(c)[i] == c[i] {
        assert Capitalize(c)[i] == Lower(c[1..])[i - 1] == LowerChar(c[i]);
        assert c[i] == Lower(w[1..])[i - 1] == LowerChar(w[i]);
      }
    }
  }

  /** Capitalized words stay as they are when capitalized again. */
  lemma CapitalizeTwice(words: seq<string>)
    ensures CapitalizeAll(CapitalizeAll(words)) == CapitalizeAll(words)
  {
    forall k | 0 <= k < |words| ensures Capitalize(Capitalize(words[k])) == Capitalize(words[k]) {
      CapitalizeIdempotent(words[k]);
    }
  }

  // ---------------------------------------------------------------------
  // get_recommendations
  // ---------------------------------------------------------------------

  /** A decoded JSON value; an object keeps its members in order. */
  datatype Json =
    | JNull
    | JBool(b: bool)
    | JNum(x: real)
    | JStr(s: string)
    | JArr(items: seq<Json>)
    | JObj(members: seq<(string, Json)>)

  /**
   * `d.get(key)` on the dict `json.loads` builds, where a repeated key keeps
   * the value of its last member.
   */
  function Get(members: seq<(string, Json)>, key: string): (r: Option<Json>)
    ensures r.Some? ==> (key, r.value) in members
    ensures r.None? ==> forall i :: 0 <= i < |members| ==> members[i].0 != key
    decreases |members|
  {
    if members == [] then None
    else if members[|members| - 1].0 == key then Some(members[|members| - 1].1)
    else Get(members[..|members| - 1], key)
  }

  /** The member `Get` finds is the last one with that key. */
  lemma {:induction false} GetFindsLast(members: seq<(string, Json)>, key: string)
    ensures Get(members, key).Some? ==>
      exists i :: 0 <= i < |members| && members[i] == (key, Get(members, key).value)
                  && forall j :: i < j < |members| ==> members[j].0 != key
    decreases |members|
  {
    if members != [] && members[|members| - 1].0 != key {
      var init := members[..|members| - 1];
      GetFindsLast(init, key);
      if Get(members, key).Some? {
        var i :| 0 <= i < |init| && init[i] == (key, Get(init, key).value)
                 && forall j :: i < j < |init| ==> init[j].0 != key;
        assert members[i] == (key, Get(members, key).value);
      }
    }
  }

  function GetOr(members: seq<(string, Json)>, key: string, default: Json): Json {
    match Get(members, key)
    case Some(v) => v
    case None => default
  }

  /** The exceptions `get_recommendations` catches. */
  datatype PyExc = TypeError | ValueError

  /** A recommendation record. */
  datatype Recommendation = Recommendation(title: Json, artist: Json, similarity: real, sources: seq<string>)

  /**
   * The two services and the string-to-float conversion: `similar` is
   * `LastFMService.get_similar_tracks` (which turns its own failures into an
   * empty track list), `found` whether `MusicBrainzService.search_recording`
   * returns a recording, and `parseFloat` Python's `float` on a string.
   */
  datatype Services = Services(
    similar: (string, string, int) -> seq<(string, Json)>,
    found: (Json, Json) -> bool,
    parseFloat: string -> Option<real>)

  /** `float(x)`. */
  function ToFloat(x: Json, parseFloat: string -> Option<real>): Result<real, PyExc> {
    match x
    case JNum(v) => Success(v)
    case JBool(b) => Success(if b then 1.0 else 0.0)
    case JStr(s) => (match parseFloat(s) case Some(v) => Success(v) case None => Failure(ValueError))
    case _ => Failure(TypeError)
  }

  /** Arguments of the cached `search_recording` must be hashable. */
  predicate Hashable(x: Json) {
    !x.JArr? && !x.JObj?
  }

  /** The artist of a track: the nested name of an artist object, or the plain value. */
  function ArtistOf(track: seq<(string, Json)>): Json {
    match Get(track, "artist")
    case Some(JObj(a)) => GetOr(a, "name", JStr(""))
    case _ => GetOr(track, "artist", JStr(""))
  }

  /** The recommendation one track object yields. */
  function RecordOf(track: seq<(string, Json)>, svc: Services): Result<Recommendation, PyExc> {
    var title := GetOr(track, "name", JStr(""));
    var artist := ArtistOf(track);
    match ToFloat(GetOr(track, "match", JNum(0.5)), svc.parseFloat)
    case Failure(e) => Failure(e)
    case Success(similarity) =>
      if !Hashable(title) || !Hashable(artist) then Failure(TypeError)
      else Success(Recommendation(title, artist, similarity,
                                  if svc.found(title, artist) then ["LastFM", "MusicBrainz"] else ["LastFM"]))
  }

  /** The recommendations of the tracks, in order: every object yields one, anything else none. */
  function Records(tracks: seq<Json>, svc: Services): Result<seq<Recommendation>, PyExc>
    decreases |tracks|
  {
    if tracks == [] then Success([])
    else
      var i := |tracks| - 1;
      match Records(tracks[..i], svc)
      case Failure(e) => Failure(e)
      case Success(recs) =>
        if !tracks[i].JObj? then Success(recs)
        else match RecordOf(tracks[i].members, svc)
          case Failure(e) => Failure(e)
          case Success(rec) => Success(recs + [rec])
  }

  /** What `for track in tracks` iterates: list items, object keys, string characters; anything else raises. */
  function Iterate(tracks: Json): Result<seq<Json>, PyExc> {
    match tracks
    case JArr(items) => Success(items)
    case JObj(members) => Success(seq(|members|, i requires 0 <= i < |members| => JStr(members[i].0)))
    case JStr(s) => Success(seq(|s|, i requires 0 <= i < |s| => JStr([s[i]])))
    case _ => Failure(TypeError)
  }

  /** The track list of a response: `response['similartracks']['track']`, defaulting to empty. */
  function TracksOf(response: seq<(string, Json)>): Json {
    match GetOr(response, "similartracks", JObj([]))
    case JObj(st) => GetOr(st, "track", JArr([]))
    case _ => JArr([])
  }

  predicate HasError(response: seq<(string, Json)>) {
    Get(response, "error").Some?
  }

  /** The response the engine works from, after the one fallback; None when both carry an error. */
  function ResponseFor(title: string, artist: string, limit: int, svc: Services): Option<seq<(string, Json)>> {
    var first := svc.similar(CleanInput(artist), CleanInput(title), limit);
    if !HasError(first) then Some(first)
    else
      var second := svc.similar(Strip(artist), Strip(title), limit);
      if HasError(second) then None else Some(second)
  }

  /** `get_recommendations`: any exception gives the empty list; `genre_filter` plays no part. */
  function Recommendations(title: string, artist: string, limit: int, svc: Services): seq<Recommendation> {
    match ResponseFor(title, artist, limit, svc)
    case None => []
    case Some(response) => FromResponse(response, limit, svc)
  }

  /** The recommendations drawn from a response without an error, at most `limit` of them. */
  function FromResponse(response: seq<(string, Json)>, limit: int, svc: Services): seq<Recommendation> {
    match Iterate(TracksOf(response))
    case Failure(_) => []
    case Success(tracks) =>
      match Records(tracks, svc)
      case Failure(_) => []
      case Success(recs) => JsSemantics.PyPrefix(recs, limit)
  }

  /** `RecommendationEngine.get_recommendations`. */
  method GetRecommendations(svc: Services, title: string, artist: string, limit: int, genreFilter: Option<seq<string>>)
    returns (r: seq<Recommendation>)
    ensures r == Recommendations(title, artist, limit, svc)
  {
    var cleanTitle := CleanInput(title);
    var cleanArtist := CleanInput(artist);
    var response := svc.similar(cleanArtist, cleanTitle, limit);
    if HasError(response) {
      response := svc.similar(Strip(artist), Strip(title), limit);
      if HasError(response) {
        return [];
      }
    }
    assert ResponseFor(title, artist, limit, svc) == Some(response);
    r := TrackRecommendations(svc, response, limit, genreFilter);
  }

  /** The part of `get_recommendations` after the similar tracks arrived. */
  method TrackRecommendations(svc: Services, response: seq<(string, Json)>, limit: int, genreFilter: Option<seq<string>>)
    returns (r: seq<Recommendation>)
    ensures r == FromResponse(response, limit, svc)
  {
    var tracks := Iterate(TracksOf(response));
    if tracks.Failure? {
      return [];
    }
    var records := CollectRecords(tracks.value, svc);
    if records.Failure? {
      return [];
    }
    if genreFilter.Some? && genreFilter.value != [] {
      // genre filtering is not implemented
    }
    r := JsSemantics.PyPrefix(records.value, limit);
  }

  /** The loop over the tracks: one record per track object, and the first exception ends it. */
  method CollectRecords(items: seq<Json>, svc: Services) returns (r: Result<seq<Recommendation>, PyExc>)
    ensures r == Records(items, svc)
  {
    var recommendations: seq<Recommendation> := [];
    for i := 0 to |items|
      invariant Records(items[..i], svc) == Success(recommendations)
    {
      assert items[..i + 1][..i] == items[..i];
      var track := items[i];
      if track.JObj? {
        var rec := RecordOf(track.members, svc);
        if rec.Failure? {
          RecordsFailureStays(items, i + 1, svc);
          return Failure(rec.error);
        }
        recommendations := recommendations + [rec.value];
      }
    }
    assert items[..|items|] == items;
    return Success(recommendations);
  }

  lemma {:induction false} RecordsFailureStays(tracks: seq<Json>, k: nat, svc: Services)
    requires k <= |tracks| && Records(tracks[..k], svc).Failure?
    ensures Records(tracks, svc) == Records(tracks[..k], svc)
    decreases |tracks|
  {
    if k < |tracks| {
      var i := |tracks| - 1;
      assert tracks[..i][..k] == tracks[..k];
      RecordsFailureStays(tracks[..i], k, svc);
    } else {
      assert tracks[..k] == tracks;
    }
  }

  /** The track objects among the tracks, in order. */
  function Objects(tracks: seq<Json>): seq<seq<(string, Json)>>
    decreases |tracks|
  {
    if tracks == [] then []
    else
      var i := |tracks| - 1;
      Objects(tracks[..i]) + (if tracks[i].JObj? then [tracks[i].members] else [])
  }

  /**
   * Without an exception, each track object yields exactly one
   * recommendation, in order, whose sources begin with LastFM and add
   * MusicBrainz exactly when it knows the recording; other tracks are skipped.
   */
  lemma {:induction false} RecordsAreOnePerObject(tracks: seq<Json>, svc: Services)
    requires Records(tracks, svc).Success?
    ensures var recs := Records(tracks, svc).value;
      && |recs| == |Objects(tracks)|
      && (forall k :: 0 <= k < |recs| ==> Success(recs[k]) == RecordOf(Objects(tracks)[k], svc))
      && (forall k :: 0 <= k < |recs| ==>
            && recs[k].sources[0] == "LastFM"
            && ("MusicBrainz" in recs[k].sources <==> svc.found(recs[k].title, recs[k].artist)))
    decreases |tracks|
  {
    if tracks != [] {
      var i := |tracks| - 1;
      RecordsAreOnePerObject(tracks[..i], svc);
    }
  }

  /**
   * The result is an initial part of the tracks' recommendations, in their
   * order, with at most `limit` of them; a response whose 'similartracks' is
   * not an object has no tracks. The response is the first call's when it
   * has no error, the retry's with stripped inputs otherwise, and none when
   * both have errors, which gives no recommendations.
   */
  lemma ResultIsTruncated(title: string, artist: string, limit: int, svc: Services)
    ensures !HasError(svc.similar(CleanInput(artist), CleanInput(title), limit)) ==>
      ResponseFor(title, artist, limit, svc) == Some(svc.similar(CleanInput(artist), CleanInput(title), limit))
    ensures HasError(svc.similar(CleanInput(artist), CleanInput(title), limit)) ==>
      ResponseFor(title, artist, limit, svc)
        == (if HasError(svc.similar(Strip(artist), Strip(title), limit)) then None
            else Some(svc.similar(Strip(artist), Strip(title), limit)))
    ensures ResponseFor(title, artist, limit, svc).None? ==> Recommendations(title, artist, limit, svc) == []
    ensures limit >= 0 ==> |Recommendations(title, artist, limit, svc)| <= limit
    ensures var resp := ResponseFor(title, artist, limit, svc);
      resp.Some? && Iterate(TracksOf(resp.value)).Success? && Records(Iterate(TracksOf(resp.value)).value, svc).Success? ==>
        Recommendations(title, artist, limit, svc) <= Records(Iterate(TracksOf(resp.value)).value, svc).value
    ensures forall response :: !GetOr(response, "similartracks", JObj([])).JObj? ==> TracksOf(response) == JArr([])
  {
    var first := svc.similar(CleanInput(artist), CleanInput(title), limit);
    var second := svc.similar(Strip(artist), Strip(title), limit);
    var resp := if !HasError(first) then Some(first) else if HasError(second) then None else Some(second);
    assert ResponseFor(title, artist, limit, svc) == resp;
  }
}
