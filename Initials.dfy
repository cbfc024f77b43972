/** `getInitials(name)`, written identically in the Categories and Brands sagas
    and in the Categories and Brands pages: the upper-cased first letters of the
    first two space-separated words, or the first two characters of a one-word
    name. */
module Initials {
  import opened Js

  /** `word[0]` as it behaves inside `+`: the first character, or the text
      "undefined" when the word is empty. */
  function FirstCharText(word: string): string {
    if |word| == 0 then "undefined" else [word[0]]
  }

  /** Stands for the message of the `TypeError` `getInitials` throws; its exact
      wording is the JavaScript engine's. It is never empty. */
  const InitialsTypeError := "toUpperCase is not a function"

  /** `None` is the `TypeError` thrown when both of the first two words are
      empty: `undefined + undefined` is `NaN`, which has no `toUpperCase`. */
  function GetInitials(name: Option<string>): (r: Option<string>)
    ensures !Present(name) ==> r == Some("")
    ensures Present(name) && ' ' !in name.value ==> r.Some? && 1 <= |r.value| <= 2
  {
    if !Present(name) then Some("")
    else
      var s := name.value;
      var words := Split(s, ' ');
      SplitCountsSeparator(s, ' ');
      if |words| >= 2 then
        if |words[0]| == 0 && |words[1]| == 0 then None
        else Some(Upper(FirstCharText(words[0]) + FirstCharText(words[1])))
      else
        Some(Upper(s[..if |s| < 2 then |s| else 2]))
  }

  /** Splitting a word followed by nothing, or by the separator and more text,
      yields the word as the first part. */
  lemma {:induction false} SplitAfterWord(a: string, rest: string, sep: char)
    requires sep !in a
    ensures |rest| == 0 ==> Split(a + rest, sep) == [a]
    ensures |rest| > 0 && rest[0] == sep ==> Split(a + rest, sep) == [a] + Split(rest[1..], sep)
    decreases |a|
  {
    if |a| > 0 {
      SplitAfterWord(a[1..], rest, sep);
      assert (a + rest)[1..] == a[1..] + rest;
      assert [a[0]] + a[1..] == a;
    } else {
      assert a + rest == rest;
    }
  }

  /** Splitting two space-free words joined by a space, followed by nothing or
      by a space and more text, yields the two words first. */
  lemma SplitTwoWords(first: string, second: string, tail: string)
    requires ' ' !in first && ' ' !in second
    requires |tail| == 0 || tail[0] == ' '
    ensures var words := Split(first + " " + second + tail, ' ');
      |words| >= 2 && words[0] == first && words[1] == second
  {
    var rest := " " + second + tail;
    assert first + " " + second + tail == first + rest;
    SplitAfterWord(first, rest, ' ');
    assert rest[1..] == second + tail;
    SplitAfterWord(second, tail, ' ');
  }

  /** A name of two or more words gives the first letters of the first two
      words, upper-cased. */
  lemma TwoWordInitials(first: string, second: string, tail: string)
    requires |first| > 0 && |second| > 0 && ' ' !in first && ' ' !in second
    requires |tail| == 0 || tail[0] == ' '
    ensures GetInitials(Some(first + " " + second + tail)) == Some([UpperChar(first[0]), UpperChar(second[0])])
  {
    SplitTwoWords(first, second, tail);
    var pair := FirstCharText(first) + FirstCharText(second);
    assert pair == [first[0], second[0]];
    assert Upper(pair) == [UpperChar(first[0]), UpperChar(second[0])];
  }

  /** A one-word name gives its first two characters (or its only one),
      upper-cased. */
  lemma OneWordInitials(name: string)
    requires |name| > 0 && ' ' !in name
    ensures GetInitials(Some(name)) ==
      Some(if |name| == 1 then [UpperChar(name[0])] else [UpperChar(name[0]), UpperChar(name[1])])
  {
    SplitCountsSeparator(name, ' ');
    var prefix := name[..if |name| < 2 then |name| else 2];
    assert Upper(prefix) == if |name| == 1 then [UpperChar(name[0])] else [UpperChar(name[0]), UpperChar(name[1])];
  }

  /** An empty first or second word (a leading space, or two spaces in a row)
      contributes the text "undefined" in place of its initial; when both are
      empty, `getInitials` throws. */
  lemma EmptyWordInitials(first: string, second: string, tail: string)
    requires ' ' !in first && ' ' !in second
    requires |tail| == 0 || tail[0] == ' '
    ensures |first| == 0 && |second| > 0 ==>
      GetInitials(Some(first + " " + second + tail)) == Some("UNDEFINED" + [UpperChar(second[0])])
    ensures |first| > 0 && |second| == 0 ==>
      GetInitials(Some(first + " " + second + tail)) == Some([UpperChar(first[0])] + "UNDEFINED")
    ensures |first| == 0 && |second| == 0 ==> GetInitials(Some(first + " " + second + tail)) == None
  {
    SplitTwoWords(first, second, tail);
    var pair := FirstCharText(first) + FirstCharText(second);
    if |first| == 0 && |second| > 0 {
      assert Upper("undefined") == "UNDEFINED";
      assert pair == "undefined" + [second[0]];
      assert Upper(pair) == "UNDEFINED" + [UpperChar(second[0])];
    } else if |first| > 0 && |second| == 0 {
      assert Upper("undefined") == "UNDEFINED";
      assert pair == [first[0]] + "undefined";
      assert Upper(pair) == [UpperChar(first[0])] + "UNDEFINED";
    }
  }
}
