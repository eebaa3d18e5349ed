/**
 Squeezing text: every run of gap characters becomes one filler, and fillers at the ends go.
 What is left is the words of the text, in order, one filler apart.
 */
module Words {
  import opened Seqs

  /** Every run of gap characters becomes one filler. */
  function Squeeze(s: string, gap: char -> bool, filler: char): (r: string)
    ensures forall c | c in r :: c == filler || (c in s && !gap(c))
  {
    if s == "" then ""
    else if !gap(s[0]) then [s[0]] + Squeeze(s[1..], gap, filler)
    else if |s| > 1 && gap(s[1]) then Squeeze(s[1..], gap, filler)
    else [filler] + Squeeze(s[1..], gap, filler)
  }

  function DropStart(s: string, drop: char -> bool): (r: string)
    ensures forall c | c in r :: c in s
  {
    if s != "" && drop(s[0]) then DropStart(s[1..], drop) else s
  }

  function DropEnd(s: string, drop: char -> bool): (r: string)
    ensures forall c | c in r :: c in s
  {
    if s != "" && drop(s[|s| - 1]) then DropEnd(s[..|s| - 1], drop) else s
  }

  // ─── The words of a text ────────────────────────────────────────────────────

  predicate InWord(s: string, gap: char -> bool) { s != "" && !gap(s[0]) }

  predicate IsWord(w: string, gap: char -> bool) { w != "" && forall c | c in w :: !gap(c) }

  /** The longest stretches without a gap character, in order. */
  function WordsOf(s: string, gap: char -> bool): (words: seq<string>)
    ensures InWord(s, gap) ==> words != []
    ensures forall w | w in words :: IsWord(w, gap)
  {
    if s == "" then []
    else if gap(s[0]) then WordsOf(s[1..], gap)
    else
      var rest := WordsOf(s[1..], gap);
      if InWord(s[1..], gap) then
        assert IsWord(rest[0], gap) && forall c | c in [s[0]] + rest[0] :: c == s[0] || c in rest[0];
        [[s[0]] + rest[0]] + rest[1..]
      else [[s[0]]] + rest
  }

  function Lead(s: string, gap: char -> bool, filler: char): string { if s != "" && gap(s[0]) then [filler] else "" }

  /** A filler at the end, unless it is the one at the start. */
  function Trail(s: string, gap: char -> bool, filler: char): string {
    if s != "" && gap(s[|s| - 1]) && WordsOf(s, gap) != [] then [filler] else ""
  }

  lemma {:induction false} NoWords(s: string, gap: char -> bool)
    requires s != "" && WordsOf(s, gap) == []
    ensures gap(s[|s| - 1])
  {
    if |s| > 1 { NoWords(s[1..], gap); }
  }

  /** The words of a text one filler apart, with what is left of the gaps around them. */
  function Spaced(s: string, gap: char -> bool, filler: char): string {
    Lead(s, gap, filler) + (Join(WordsOf(s, gap), [filler]) + Trail(s, gap, filler))
  }

  lemma {:induction false} Squeezed(s: string, gap: char -> bool, filler: char)
    ensures Squeeze(s, gap, filler) == Spaced(s, gap, filler)
  {
    if s != "" {
      Squeezed(s[1..], gap, filler);
      if s[1..] != "" { assert s[1..][|s| - 2] == s[|s| - 1]; }
      if gap(s[0]) {
        assert Trail(s, gap, filler) == Trail(s[1..], gap, filler);
      } else if InWord(s[1..], gap) {
        WordGoesOn(s, gap, filler);
      } else if WordsOf(s[1..], gap) == [] {
        LastWord(s, gap, filler);
      } else {
        WordEnds(s, gap, filler);
      }
    }
  }

  lemma WordGoesOn(s: string, gap: char -> bool, filler: char)
    requires s != "" && !gap(s[0]) && InWord(s[1..], gap) && s[1..][|s| - 2] == s[|s| - 1]
    ensures Spaced(s, gap, filler) == [s[0]] + Spaced(s[1..], gap, filler)
  {
    var rest, trail := WordsOf(s[1..], gap), Trail(s[1..], gap, filler);
    var words := [[s[0]] + rest[0]] + rest[1..];
    assert WordsOf(s, gap) == words && Trail(s, gap, filler) == trail && Lead(s, gap, filler) == "";
    Longer([s[0]], rest, [filler], trail);
  }

  lemma Longer(front: string, rest: seq<string>, separator: string, trail: string)
    requires rest != []
    ensures "" + (Join([front + rest[0]] + rest[1..], separator) + trail) == front + ("" + (Join(rest, separator) + trail))
  {
    JoinFirst(front, rest, separator);
    Regroup(front, Join(rest, separator), trail);
  }

  lemma LastWord(s: string, gap: char -> bool, filler: char)
    requires s != "" && !gap(s[0]) && WordsOf(s[1..], gap) == []
    ensures Spaced(s, gap, filler) == [s[0]] + Spaced(s[1..], gap, filler)
  {
    if s[1..] != "" { NoWords(s[1..], gap); }
    assert WordsOf(s, gap) == [[s[0]]] && Join([[s[0]]], [filler]) == [s[0]];
  }

  lemma WordEnds(s: string, gap: char -> bool, filler: char)
    requires s != "" && !gap(s[0]) && !InWord(s[1..], gap) && WordsOf(s[1..], gap) != []
    requires s[1..] != "" && s[1..][|s| - 2] == s[|s| - 1]
    ensures Spaced(s, gap, filler) == [s[0]] + Spaced(s[1..], gap, filler)
  {
    WordThen([s[0]], WordsOf(s[1..], gap), [filler], Trail(s, gap, filler));
  }

  lemma WordThen(word: string, rest: seq<string>, separator: string, trail: string)
    requires rest != []
    ensures Join([word] + rest, separator) + trail == word + (separator + (Join(rest, separator) + trail))
  {
    JoinNext(word, rest, separator);
    Regroup(word + separator, Join(rest, separator), trail);
    Regroup(word, separator, Join(rest, separator) + trail);
  }

  lemma JoinFirst(front: string, words: seq<string>, separator: string)
    requires words != []
    ensures Join([front + words[0]] + words[1..], separator) == front + Join(words, separator)
  {
    var longer := [front + words[0]] + words[1..];
    assert longer[1..] == words[1..];
    if |words| > 1 {
      var tail := separator + Join(words[1..], separator);
      assert Join(words, separator) == words[0] + tail;
      assert Join(longer, separator) == front + words[0] + tail;
    }
  }

  lemma JoinNext(first: string, rest: seq<string>, separator: string)
    requires rest != []
    ensures Join([first] + rest, separator) == first + separator + Join(rest, separator)
  {
    assert ([first] + rest)[1..] == rest;
  }

  /** Joined words start and end inside a word. */
  lemma {:induction false} JoinEnds(words: seq<string>, gap: char -> bool, separator: string)
    requires words != [] && forall w | w in words :: IsWord(w, gap)
    ensures var j := Join(words, separator); j != "" && !gap(j[0]) && !gap(j[|j| - 1])
  {
    var first := words[0];
    assert IsWord(first, gap) && first[0] in first && first[|first| - 1] in first;
    if |words| > 1 {
      JoinEnds(words[1..], gap, separator);
      var rest := Join(words[1..], separator);
      assert Join(words, separator) == first + separator + rest;
    }
  }

  lemma DropsLead(lead: string, text: string, drop: char -> bool)
    requires |lead| <= 1 && (forall c | c in lead :: drop(c)) && (text != "" ==> !drop(text[0]))
    ensures DropStart(lead + text, drop) == text
  {
    if lead == "" {
      assert lead + text == text;
    } else {
      assert lead[0] in lead;
      assert (lead + text)[0] == lead[0] && (lead + text)[1..] == text;
    }
  }

  lemma DropsTrail(text: string, trail: string, drop: char -> bool)
    requires |trail| <= 1 && (forall c | c in trail :: drop(c)) && (text != "" ==> !drop(text[|text| - 1]))
    ensures DropEnd(text + trail, drop) == text
  {
    var s := text + trail;
    assert DropEnd(text, drop) == text;
    if trail == "" {
      assert s == text;
    } else {
      assert trail[0] in trail;
      assert s[|s| - 1] == trail[0];
      Whole(text);
      assert s[..|s| - 1] == text;
    }
  }

  /** Squeezed and stripped of what is left at its ends, a text is its words, one filler apart. */
  lemma SqueezedIsWords(s: string, gap: char -> bool, filler: char, drop: char -> bool)
    requires drop(filler) && forall c | drop(c) :: gap(c)
    ensures DropEnd(DropStart(Squeeze(s, gap, filler), drop), drop) == Join(WordsOf(s, gap), [filler])
  {
    var words := WordsOf(s, gap);
    var joined, lead, trail := Join(words, [filler]), Lead(s, gap, filler), Trail(s, gap, filler);
    Squeezed(s, gap, filler);
    if words != [] {
      JoinEnds(words, gap, [filler]);
      assert (joined + trail)[0] == joined[0];
    }
    DropsLead(lead, joined + trail, drop);
    DropsTrail(joined, trail, drop);
  }

  // ─── Up to a character, and behind it ───────────────────────────────────────

  function Untilled(s: string, stop: char): string {
    if s == "" || s[0] == stop then "" else [s[0]] + Untilled(s[1..], stop)
  }

  /** The text behind the first occurrence of a character. */
  function Behind(s: string, stop: char): string {
    if s == "" then "" else if s[0] == stop then s[1..] else Behind(s[1..], stop)
  }

  /** The text behind the last occurrence of a character. */
  function BehindLast(s: string, stop: char): string {
    if s == "" || s[|s| - 1] == stop then "" else BehindLast(s[..|s| - 1], stop) + [s[|s| - 1]]
  }

  lemma {:induction false} UpTo(text: string, stop: char, rest: string)
    requires stop !in text
    ensures Untilled(text + [stop] + rest, stop) == text && Behind(text + [stop] + rest, stop) == rest
  {
    var s := text + [stop] + rest;
    if text == "" {
      assert s[1..] == rest;
    } else {
      assert text[0] in text;
      assert s[1..] == text[1..] + [stop] + rest;
      UpTo(text[1..], stop, rest);
    }
  }

  lemma {:induction false} Last(before: string, stop: char, text: string)
    requires stop !in text
    ensures BehindLast(before + [stop] + text, stop) == text
  {
    var s := before + [stop] + text;
    if text != "" {
      assert text[|text| - 1] in text;
      assert s[..|s| - 1] == before + [stop] + text[..|text| - 1];
      Last(before, stop, text[..|text| - 1]);
      Snoc(text, |text| - 1);
    }
  }
}
