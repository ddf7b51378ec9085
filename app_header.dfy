/** The `getInitials` helper of components/layout/AppHeader.tsx, which turns a
    profile name into the (at most two) letters of the avatar fallback. */
module AppHeader {
  import opened Text

  const Space: char := ' '

  /** `n[0]` for one word, as `join('')` renders it: the first character, or
      nothing for an empty word (whose `n[0]` is `undefined`). */
  function FirstChar(word: string): (r: string)
    ensures |r| <= 1 && (word != [] ==> r == [word[0]])
  {
    if word == [] then [] else [word[0]]
  }

  /** `words.map((n) => n[0]).join('')`. */
  function FirstChars(words: seq<string>): (r: string)
    ensures |r| <= |words|
    decreases |words|
  {
    if words == [] then [] else FirstChar(words[0]) + FirstChars(words[1..])
  }

  /** `getInitials(name)`: split on single spaces, take each word's first
      character, join, upper-case, keep the first two characters. */
  function GetInitials(name: string): (r: string)
    ensures |r| <= 2
  {
    Take(ToUpper(FirstChars(Split(name, Space))), 2)
  }

  /** An independent reading of "the first character of every word": scan the
      name once, keeping each non-space character that follows a space or
      starts the name. `atStart` says whether the previous character was a
      space (or there was none). */
  function WordStarts(s: string, atStart: bool): string
    decreases |s|
  {
    if s == [] then []
    else if s[0] == Space then WordStarts(s[1..], true)
    else (if atStart then [s[0]] else []) + WordStarts(s[1..], false)
  }

  /** The split-based chain and the scan agree. The second clause is the
      induction hypothesis for a name whose first word is already under way. */
  lemma {:induction false} FirstCharsOfSplit(s: string)
    ensures FirstChars(Split(s, Space)) == WordStarts(s, true)
    ensures FirstChars(Split(s, Space)[1..]) == WordStarts(s, false)
    decreases |s|
  {
    if s != [] {
      FirstCharsOfSplit(s[1..]);
      var rest := Split(s[1..], Space);
      var ws := Split(s, Space);
      if s[0] == Space {
        assert ws == [[]] + rest;
        assert ws[1..] == rest;
      } else {
        assert ws == [[s[0]] + rest[0]] + rest[1..];
        assert ws[1..] == rest[1..];
        assert FirstChars(rest) == FirstChar(rest[0]) + FirstChars(rest[1..]);
      }
    }
  }

  /** The initials are the upper-cased first characters of the non-empty
      words, in word order, cut to two. */
  lemma InitialsAreWordStarts(name: string)
    ensures GetInitials(name) == ToUpper(Take(WordStarts(name, true), 2))
  {
    FirstCharsOfSplit(name);
    TakeToUpper(WordStarts(name, true), 2);
  }

  /** The empty name has no initials. */
  lemma EmptyNameInitials()
    ensures GetInitials("") == ""
  {
    InitialsAreWordStarts("");
  }

  /** A word without spaces contributes its first character only when it
      starts a word; the scan then continues after the space behind it. */
  lemma {:induction false} WordStartsSkipWord(word: string, t: string)
    requires Space !in word
    ensures WordStarts(word + [Space] + t, false) == WordStarts(t, true)
    decreases |word|
  {
    if word == [] {
      assert ([] + [Space] + t)[1..] == t;
    } else {
      assert (word + [Space] + t)[1..] == word[1..] + [Space] + t;
      assert word[0] in word;
      WordStartsSkipWord(word[1..], t);
    }
  }

  /** A name whose first two space-separated words are non-empty and
      followed by a space yields the initials of those two words, whatever
      comes after; `TwoWordName` covers a name of exactly two words. */
  lemma FirstTwoWords(w1: string, w2: string, rest: string)
    requires w1 != [] && w2 != [] && Space !in w1 && Space !in w2
    ensures GetInitials(w1 + [Space] + w2 + [Space] + rest) == [UpperChar(w1[0]), UpperChar(w2[0])]
  {
    var name := w1 + [Space] + w2 + [Space] + rest;
    var tail := w2 + [Space] + rest;
    assert w1[0] in w1 && w2[0] in w2;
    assert name == w1 + [Space] + tail;
    assert name[1..] == w1[1..] + [Space] + tail;
    assert tail[1..] == w2[1..] + [Space] + rest;
    WordStartsSkipWord(w1[1..], tail);
    WordStartsSkipWord(w2[1..], rest);
    assert WordStarts(name, true) == [w1[0]] + WordStarts(tail, true);
    assert WordStarts(tail, true) == [w2[0]] + WordStarts(rest, true);
    InitialsAreWordStarts(name);
  }

  /** A plain two-word name, such as a first and a last name. */
  lemma TwoWordName(w1: string, w2: string)
    requires w1 != [] && w2 != [] && Space !in w1 && Space !in w2
    ensures GetInitials(w1 + [Space] + w2) == [UpperChar(w1[0]), UpperChar(w2[0])]
  {
    assert w1 + [Space] + w2 + [Space] + [] == (w1 + [Space] + w2) + [Space];
    FirstTwoWords(w1, w2, []);
    TrailingSpace(w1 + [Space] + w2);
  }

  /** A leading space changes nothing. */
  lemma LeadingSpace(name: string)
    ensures GetInitials([Space] + name) == GetInitials(name)
  {
    assert ([Space] + name)[1..] == name;
    InitialsAreWordStarts([Space] + name);
    InitialsAreWordStarts(name);
  }

  lemma {:induction false} WordStartsTrailingSpace(s: string, atStart: bool)
    ensures WordStarts(s + [Space], atStart) == WordStarts(s, atStart)
    decreases |s|
  {
    if s == [] {
      assert ([] + [Space])[1..] == [];
    } else {
      assert (s + [Space])[1..] == s[1..] + [Space];
      WordStartsTrailingSpace(s[1..], s[0] == Space);
    }
  }

  /** A trailing space changes nothing. */
  lemma TrailingSpace(name: string)
    ensures GetInitials(name + [Space]) == GetInitials(name)
  {
    WordStartsTrailingSpace(name, true);
    InitialsAreWordStarts(name + [Space]);
    InitialsAreWordStarts(name);
  }

  lemma {:induction false} WordStartsDoubleSpace(a: string, b: string, atStart: bool)
    ensures WordStarts(a + [Space, Space] + b, atStart) == WordStarts(a + [Space] + b, atStart)
    decreases |a|
  {
    if a == [] {
      assert ([] + [Space, Space] + b)[1..] == [Space] + b;
      assert ([] + [Space] + b)[1..] == b;
      assert ([Space] + b)[1..] == b;
    } else {
      assert (a + [Space, Space] + b)[1..] == a[1..] + [Space, Space] + b;
      assert (a + [Space] + b)[1..] == a[1..] + [Space] + b;
      WordStartsDoubleSpace(a[1..], b, a[0] == Space);
    }
  }

  /** Two spaces between words act as one: the empty word between them
      contributes nothing. */
  lemma DoubleSpace(a: string, b: string)
    ensures GetInitials(a + [Space, Space] + b) == GetInitials(a + [Space] + b)
  {
    WordStartsDoubleSpace(a, b, true);
    InitialsAreWordStarts(a + [Space, Space] + b);
    InitialsAreWordStarts(a + [Space] + b);
  }
}
