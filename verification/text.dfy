/** Character classes and case mapping of the string library the bot uses
    (voca's `lowerCase`, `upperCase` and `titleCase`), modelled over ASCII and
    the Latin-1 supplement, plus lodash's `join`. */
module Text {

  /** Upper-case letters: A-Z and U+00C0..U+00DE without the sign U+00D7. */
  predicate IsUpperLetter(c: char) {
    ('A' <= c <= 'Z') || ('\U{C0}' <= c <= '\U{DE}' && c != '\U{D7}')
  }

  /** Lower-case letters: a-z and U+00DF..U+00FF without the sign U+00F7. */
  predicate IsLowerLetter(c: char) {
    ('a' <= c <= 'z') || ('\U{DF}' <= c <= '\U{FF}' && c != '\U{F7}')
  }

  predicate IsLetter(c: char) {
    IsUpperLetter(c) || IsLowerLetter(c)
  }

  /** Lower-case letters with an upper-case partner in the range; the sharp s
      U+00DF and y-diaeresis U+00FF have none. */
  predicate HasUpperPartner(c: char) {
    ('a' <= c <= 'z') || ('\U{E0}' <= c <= '\U{FE}' && c != '\U{F7}')
  }

  /** A string without upper-case letters, as every output of `LowerCase` is. */
  predicate NoUpper(s: string) {
    forall i :: 0 <= i < |s| ==> !IsUpperLetter(s[i])
  }

  function Lower(c: char): (r: char)
    ensures !IsUpperLetter(r)
    ensures IsLetter(r) <==> IsLetter(c)
    ensures IsUpperLetter(c) ==> HasUpperPartner(r)
    ensures !IsUpperLetter(c) ==> r == c
  {
    if IsUpperLetter(c) then (c as int + 32) as char else c
  }

  function Upper(c: char): (r: char)
    ensures !HasUpperPartner(r)
    ensures IsLetter(r) <==> IsLetter(c)
    ensures HasUpperPartner(c) ==> IsUpperLetter(r)
    ensures !HasUpperPartner(c) ==> r == c
  {
    if HasUpperPartner(c) then (c as int - 32) as char else c
  }

  /** Lowering and raising undo each other on the letters that have a partner,
      and each of them absorbs the other. */
  lemma CaseRoundTrip(c: char)
    ensures IsUpperLetter(c) ==> Upper(Lower(c)) == c
    ensures HasUpperPartner(c) ==> Lower(Upper(c)) == c
    ensures Lower(Upper(c)) == Lower(c)
    ensures Upper(Lower(c)) == Upper(c)
  {
  }

  /** voca `lowerCase`. */
  function LowerCase(s: string): (r: string)
    ensures |r| == |s|
    ensures NoUpper(r)
    ensures forall i :: 0 <= i < |s| ==> Upper(r[i]) == Upper(s[i])
    ensures NoUpper(s) ==> r == s
  {
    var r := seq(|s|, i requires 0 <= i < |s| => Lower(s[i]));
    assert forall i :: 0 <= i < |s| ==> Upper(r[i]) == Upper(s[i]) by {
      forall i | 0 <= i < |s|
        ensures Upper(r[i]) == Upper(s[i])
      {
        CaseRoundTrip(s[i]);
      }
    }
    r
  }

  /** voca `upperCase`. */
  function UpperCase(s: string): (r: string)
    ensures |r| == |s|
    ensures forall i :: 0 <= i < |r| ==> !HasUpperPartner(r[i])
    ensures forall i :: 0 <= i < |s| ==> Lower(r[i]) == Lower(s[i])
  {
    var r := seq(|s|, i requires 0 <= i < |s| => Upper(s[i]));
    assert forall i :: 0 <= i < |s| ==> Lower(r[i]) == Lower(s[i]) by {
      forall i | 0 <= i < |s|
        ensures Lower(r[i]) == Lower(s[i])
      {
        CaseRoundTrip(s[i]);
      }
    }
    r
  }

  /** Lower-casing twice is lower-casing once. */
  lemma LowerCaseIdempotent(s: string)
    ensures LowerCase(LowerCase(s)) == LowerCase(s)
  {
  }

  /** Two strings equal up to case raise to the same string. */
  lemma UpperCaseIgnoresCase(a: string, b: string)
    requires LowerCase(a) == LowerCase(b)
    ensures UpperCase(a) == UpperCase(b)
  {
    forall i | 0 <= i < |a|
      ensures UpperCase(a)[i] == UpperCase(b)[i]
    {
      assert Lower(a[i]) == LowerCase(a)[i] == LowerCase(b)[i] == Lower(b[i]);
      CaseRoundTrip(a[i]);
      CaseRoundTrip(b[i]);
    }
  }

  /** Raising a string of upper-case letters after lowering it gives it back. */
  lemma UpperCaseOfLowerCase(s: string)
    requires forall i :: 0 <= i < |s| ==> IsUpperLetter(s[i])
    ensures UpperCase(LowerCase(s)) == s
    ensures UpperCase(s) == s
  {
    forall i | 0 <= i < |s|
      ensures UpperCase(LowerCase(s))[i] == s[i]
    {
      CaseRoundTrip(s[i]);
    }
  }

  /** Whether the letter at `i` begins a word of voca's Latin word pattern:
      it follows a non-letter (or the start), it is an upper-case letter after
      a lower-case one, or it is an upper-case letter in an upper-case run that
      a lower-case letter continues. */
  predicate StartsWord(s: string, i: nat)
    requires i < |s|
  {
    || i == 0
    || !IsLetter(s[i - 1])
    || (IsLowerLetter(s[i - 1]) && IsUpperLetter(s[i]))
    || (IsUpperLetter(s[i - 1]) && IsUpperLetter(s[i]) && i + 1 < |s| && IsLowerLetter(s[i + 1]))
  }

  /** voca `titleCase`: the first letter of every word raised, the rest lowered;
      everything that is not a letter is kept. */
  function TitleCase(s: string): (r: string)
    ensures |r| == |s|
    ensures forall i {:trigger r[i]} :: 0 <= i < |s| ==> Lower(r[i]) == Lower(s[i])
    ensures forall i {:trigger r[i]} :: 0 <= i < |s| && !IsLetter(s[i]) ==> r[i] == s[i]
  {
    var r := seq(|s|, i requires 0 <= i < |s| => if StartsWord(s, i) then Upper(s[i]) else Lower(s[i]));
    assert forall i :: 0 <= i < |s| ==> Lower(r[i]) == Lower(s[i]) by {
      forall i | 0 <= i < |s|
        ensures Lower(r[i]) == Lower(s[i])
      {
        CaseRoundTrip(s[i]);
      }
    }
    r
  }

  /** Which letters title-casing raises: every letter at the start of the text
      or after a non-letter is upper-cased, and a lower-case letter that
      follows a letter is kept. */
  lemma TitleCaseRaisesWordStarts(s: string)
    ensures forall i {:trigger TitleCase(s)[i]} :: 0 <= i < |s| && (i == 0 || !IsLetter(s[i - 1])) ==>
              TitleCase(s)[i] == Upper(s[i])
    ensures forall i {:trigger TitleCase(s)[i]} :: 0 < i < |s| && IsLetter(s[i - 1]) && IsLowerLetter(s[i]) ==>
              TitleCase(s)[i] == s[i]
  {
  }

  /** Title-casing never makes a dot: the letters stay letters and every
      other character is kept. */
  lemma TitleCaseKeepsDotFree(s: string)
    requires '.' !in s
    ensures '.' !in TitleCase(s)
  {
    var r := TitleCase(s);
    forall i | 0 <= i < |r|
      ensures r[i] != '.'
    {
      assert s[i] != '.';
      assert IsLetter(s[i]) ==> IsLetter(Lower(r[i]));
    }
  }

  /** Lower-casing never makes a dot either. */
  lemma LowerCaseKeepsDotFree(s: string)
    requires '.' !in s
    ensures '.' !in LowerCase(s)
  {
    var r := LowerCase(s);
    forall i | 0 <= i < |r|
      ensures r[i] != '.'
    {
      assert s[i] != '.';
    }
  }

  /** Title-casing changes only the case of letters. */
  lemma TitleCaseKeepsLowerCase(s: string)
    ensures LowerCase(TitleCase(s)) == LowerCase(s)
  {
  }

  /** On a string without upper-case letters (the lower-cased message and its
      words), a
      letter begins a word exactly when it follows a non-letter. */
  lemma StartsWordOfLowerText(s: string, i: nat)
    requires i < |s| && NoUpper(s)
    ensures StartsWord(s, i) <==> i == 0 || !IsLetter(s[i - 1])
  {
  }

  /** Title-casing text that has no upper-case letters is idempotent: the word
      starts of the result are those of the input. */
  lemma {:induction false} TitleCaseIdempotent(s: string)
    requires NoUpper(s)
    ensures TitleCase(TitleCase(s)) == TitleCase(s)
  {
    var t := TitleCase(s);
    forall i | 0 <= i < |s|
      ensures TitleCase(t)[i] == t[i]
    {
      StartsWordOfLowerText(s, i);
      CaseRoundTrip(s[i]);
      if StartsWord(s, i) {
        assert t[i] == Upper(s[i]);
        assert StartsWord(t, i);
      } else {
        assert t[i] == Lower(s[i]) == s[i];
        assert IsLetter(s[i - 1]) && IsLetter(t[i - 1]);
        assert !StartsWord(t, i);
      }
    }
  }

  /** With capitals inside a word, title-casing is not idempotent: "aB" has a
      lower-to-upper change, so "B" begins a word, but in "AB" it does not. */
  lemma TitleCaseNotIdempotentOnMixedCase()
    ensures TitleCase("aB") == "AB"
    ensures TitleCase(TitleCase("aB")) == "Ab"
  {
    assert StartsWord("aB", 1);
    assert !StartsWord("AB", 1);
  }

  /** On text without capitals, title-casing raises exactly the letters that
      follow a non-letter or the start and keeps every other character. */
  lemma TitleCaseOfLowerTextAt(s: string, i: nat)
    requires i < |s| && NoUpper(s)
    ensures TitleCase(s)[i] == if i == 0 || !IsLetter(s[i - 1]) then Upper(s[i]) else s[i]
  {
    StartsWordOfLowerText(s, i);
  }

  /** Each character of the title-cased string is the input's character,
      raised where a word begins and lowered elsewhere. */
  lemma TitleCaseAt(s: string, i: nat)
    requires i < |s|
    ensures TitleCase(s)[i] == if StartsWord(s, i) then Upper(s[i]) else Lower(s[i])
  {
  }

  /** Left of the space, the title-cased pair agrees with the first word:
      a space is neither a letter nor a lower-case letter, so it ends a word
      just as the end of the text does. */
  lemma TitleCaseLeftOfSpace(a: string, b: string, i: nat)
    requires i < |a|
    ensures TitleCase(a + " " + b)[i] == TitleCase(a)[i]
  {
    var s := a + " " + b;
    assert s[i] == a[i];
    if i > 0 {
      assert s[i - 1] == a[i - 1];
    }
    assert s[i + 1] == if i + 1 < |a| then a[i + 1] else ' ';
    assert StartsWord(s, i) == StartsWord(a, i);
    TitleCaseAt(s, i);
    TitleCaseAt(a, i);
  }

  /** Right of the space, the title-cased pair agrees with the second word:
      the space in front begins a word just as the start of the text does. */
  lemma TitleCaseRightOfSpace(a: string, b: string, j: nat)
    requires j < |b|
    ensures TitleCase(a + " " + b)[|a| + 1 + j] == TitleCase(b)[j]
  {
    var s := a + " " + b;
    var k := |a| + 1 + j;
    assert s[k] == b[j];
    var previous := if j == 0 then ' ' else b[j - 1];
    assert s[k - 1] == previous;
    if j + 1 < |b| {
      assert s[k + 1] == b[j + 1];
    }
    assert StartsWord(s, k) == StartsWord(b, j);
    TitleCaseAt(s, k);
    TitleCaseAt(b, j);
  }

  /** A space separates voca words: title-casing two words joined by a space
      title-cases each of them, whatever their case. */
  lemma TitleCaseAcrossSpace(a: string, b: string)
    ensures TitleCase(a + " " + b) == TitleCase(a) + " " + TitleCase(b)
  {
    var s := a + " " + b;
    var r := TitleCase(a) + " " + TitleCase(b);
    forall i | 0 <= i < |s|
      ensures TitleCase(s)[i] == r[i]
    {
      if i < |a| {
        TitleCaseLeftOfSpace(a, b, i);
      } else if i > |a| {
        TitleCaseRightOfSpace(a, b, i - |a| - 1);
      } else {
        assert s[i] == ' ';
        TitleCaseAt(s, i);
      }
    }
  }

  /** voca raises every word of a table value, so a lower-case inner word is
      capitalised: "District of Columbia" becomes "District Of Columbia". */
  lemma TitleCaseRaisesInnerWords(value: string)
    requires value == "District of Columbia"
    ensures TitleCase(value) == "District Of Columbia"
  {
    assert value == "District" + " " + ("of" + " " + "Columbia");
    TitleCaseAcrossSpace("of", "Columbia");
    TitleCaseOfOf();
    TitleCaseOfColumbia();
    TitleCaseAcrossSpace("District", "of" + " " + "Columbia");
    TitleCaseOfDistrict();
  }

  lemma TitleCaseOfDistrict()
    ensures TitleCase("District") == "District"
  {
  }

  lemma TitleCaseOfOf()
    ensures TitleCase("of") == "Of"
  {
  }

  lemma TitleCaseOfColumbia()
    ensures TitleCase("Columbia") == "Columbia"
  {
  }

  /** lodash `join`: the words with `sep` between consecutive ones. */
  function Join(words: seq<string>, sep: string): (r: string)
    ensures |words| == 0 ==> r == []
    ensures |words| == 1 ==> r == words[0]
    ensures NoUpper(sep) && (forall i :: 0 <= i < |words| ==> NoUpper(words[i])) ==> NoUpper(r)
    decreases |words|
  {
    if |words| == 0 then []
    else if |words| == 1 then words[0]
    else words[0] + sep + Join(words[1..], sep)
  }

  /** Appending a word appends the separator and the word: the words appear
      in order, each separated from the next by exactly one `sep`. */
  lemma {:induction false} JoinSnoc(words: seq<string>, w: string, sep: string)
    ensures Join(words + [w], sep) == if words == [] then w else Join(words, sep) + sep + w
    decreases |words|
  {
    if |words| == 1 {
      assert words + [w] == [words[0], w];
      assert (words + [w])[1..] == [w];
    } else if |words| > 1 {
      assert (words + [w])[1..] == words[1..] + [w];
      JoinSnoc(words[1..], w, sep);
    }
  }

  /** The joined text is as long as the words plus one separator between each
      pair of consecutive words. */
  lemma {:induction false} JoinLength(words: seq<string>, sep: string)
    requires |words| > 0
    ensures |Join(words, sep)| == TotalLength(words) + (|words| - 1) * |sep|
    decreases |words|
  {
    if |words| > 1 {
      JoinLength(words[1..], sep);
    }
  }

  /** Words and separator without a dot join to text without a dot. */
  lemma {:induction false} JoinKeepsDotFree(words: seq<string>, sep: string)
    requires '.' !in sep
    requires forall i :: 0 <= i < |words| ==> '.' !in words[i]
    ensures '.' !in Join(words, sep)
    decreases |words|
  {
    if |words| > 1 {
      JoinKeepsDotFree(words[1..], sep);
    }
  }

  /** The summed lengths of the words. */
  function TotalLength(words: seq<string>): nat
    decreases |words|
  {
    if |words| == 0 then 0 else |words[0]| + TotalLength(words[1..])
  }
}
