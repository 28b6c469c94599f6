/**
 Message search (app/repositories/analytics.py, _escape_like and
 search_messages) against LIKE as in section 9.7.1 of the PostgreSQL
 documentation, with the backslash as the escape character.
 */
module LikeSearch {
  const SPECIAL := ['\\', '%', '_']

  /** str.replace of one character by itself behind a backslash. */
  function Replaced(text: string, c: char): string {
    Escaped(text, {c})
  }

  /** One pass that puts a backslash before each of `chars`. */
  function Escaped(text: string, chars: set<char>): string {
    if text == "" then "" else (if text[0] in chars then ['\\', text[0]] else [text[0]]) + Escaped(text[1..], chars)
  }

  /** Escaping one more character afterwards is escaping both at once, unless it is the backslash. */
  lemma {:induction false} EscapedAlso(text: string, chars: set<char>, c: char)
    requires c != '\\' && c !in chars
    ensures Replaced(Escaped(text, chars), c) == Escaped(text, chars + {c})
  {
    if text != "" {
      EscapedAlso(text[1..], chars, c);
      var rest := Escaped(text[1..], chars);
      if text[0] in chars {
        var e, tail := Escaped(text, chars), [text[0]] + rest;
        assert e[0] == '\\' && e[1..] == tail && tail[1..] == rest;
        assert Escaped(tail, {c}) == [text[0]] + Escaped(rest, {c});
        assert Escaped(e, {c}) == ['\\'] + Escaped(tail, {c});
      } else {
        assert ([text[0]] + rest)[1..] == rest;
      }
    }
  }

  const WILD := {'\\', '%', '_'}

  /** _escape_like: three replacements in turn amount to the one pass, because the backslash goes first. */
  method EscapeLike(query: string) returns (term: string)
    ensures term == Escaped(query, WILD)
  {
    term := query;
    NothingEscaped(query);
    ghost var done: set<char> := {};
    for i := 0 to |SPECIAL|
      invariant done == set k | 0 <= k < i :: SPECIAL[k]
      invariant term == Escaped(query, done)
    {
      var c := SPECIAL[i];
      if i > 0 {
        EscapedAlso(query, done, c);
      } else {
        assert done + {c} == {c};
      }
      term := Replaced(term, c);
      done := done + {c};
    }
    assert SPECIAL[0] in done && SPECIAL[1] in done && SPECIAL[2] in done;
    assert done == WILD;
  }

  lemma {:induction false} NothingEscaped(text: string)
    ensures Escaped(text, {}) == text
  {
    if text != "" {
      NothingEscaped(text[1..]);
    }
  }

  // ---- LIKE ------------------------------------------------------------------------------

  /** `fold` is how ILIKE disregards case: two characters match when they fold to the same one. */
  predicate Like(text: string, pattern: string, fold: char -> char)
    decreases |pattern|
  {
    if pattern == "" then text == ""
    else if pattern[0] == '\\' then
      |pattern| >= 2 && text != "" && fold(text[0]) == fold(pattern[1]) && Like(text[1..], pattern[2..], fold)
    else if pattern[0] == '%' then exists k :: 0 <= k <= |text| && Like(text[k..], pattern[1..], fold)
    else text != "" && (pattern[0] == '_' || fold(text[0]) == fold(pattern[0])) && Like(text[1..], pattern[1..], fold)
  }

  /** A pattern that ends in a lone escape character is an error. */
  predicate WellFormed(pattern: string) {
    if pattern == "" then true
    else if pattern[0] == '\\' then |pattern| >= 2 && WellFormed(pattern[2..])
    else WellFormed(pattern[1..])
  }

  ghost predicate Same(a: string, b: string, fold: char -> char) {
    |a| == |b| && forall i :: 0 <= i < |a| ==> fold(a[i]) == fold(b[i])
  }

  ghost predicate OccursAt(text: string, term: string, fold: char -> char, i: nat) {
    i + |term| <= |text| && Same(text[i..i + |term|], term, fold)
  }

  ghost predicate Contains(text: string, term: string, fold: char -> char) {
    exists i :: OccursAt(text, term, fold, i)
  }

  function Pattern(term: string): string {
    "%" + Escaped(term, WILD) + "%"
  }

  lemma AnythingLikePercent(text: string, fold: char -> char)
    ensures Like(text, "%", fold)
  {
    assert Like(text[|text|..], "%"[1..], fold);
  }

  /** The escaped term followed by % matches exactly the texts that begin with the term. */
  lemma {:induction false} BeginsWith(text: string, term: string, fold: char -> char)
    ensures Like(text, Escaped(term, WILD) + "%", fold) <==> OccursAt(text, term, fold, 0)
    decreases |term|
  {
    var pattern := Escaped(term, WILD) + "%";
    if term == "" {
      assert pattern == "%";
      AnythingLikePercent(text, fold);
    } else {
      var rest := Escaped(term[1..], WILD) + "%";
      if term[0] in WILD {
        assert pattern == ['\\', term[0]] + rest && pattern[2..] == rest;
      } else {
        assert pattern == [term[0]] + rest && pattern[1..] == rest;
      }
      if text != "" {
        BeginsWith(text[1..], term[1..], fold);
        OneCharacterMore(text, term, fold);
      }
    }
  }

  lemma OneCharacterMore(text: string, term: string, fold: char -> char)
    requires text != "" && term != ""
    ensures OccursAt(text, term, fold, 0) <==> fold(text[0]) == fold(term[0]) && OccursAt(text[1..], term[1..], fold, 0)
  {
  }

  lemma {:induction false} EscapedWellFormed(term: string)
    ensures WellFormed(Escaped(term, WILD) + "%")
  {
    var pattern := Escaped(term, WILD) + "%";
    if term == "" {
      assert pattern == "%" && "%"[1..] == "";
    } else {
      EscapedWellFormed(term[1..]);
      var rest := Escaped(term[1..], WILD) + "%";
      if term[0] in WILD {
        assert pattern == ['\\', term[0]] + rest && pattern[2..] == rest;
      } else {
        assert pattern == [term[0]] + rest && pattern[1..] == rest;
      }
    }
  }

  /** For every text and every term, wildcards and backslashes included: the search finds exactly the substrings. */
  lemma SearchFindsSubstrings(text: string, term: string, fold: char -> char)
    ensures WellFormed(Pattern(term))
    ensures Like(text, Pattern(term), fold) <==> Contains(text, term, fold)
  {
    var body := Escaped(term, WILD) + "%";
    assert Pattern(term) == "%" + body && Pattern(term)[1..] == body;
    EscapedWellFormed(term);
    forall k | 0 <= k <= |text| ensures Like(text[k..], body, fold) <==> OccursAt(text, term, fold, k) {
      BeginsWith(text[k..], term, fold);
      if k + |term| <= |text| {
        assert text[k..][0..|term|] == text[k..k + |term|];
      }
    }
  }
}
