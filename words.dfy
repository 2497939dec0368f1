/** `getWords`: the words of a camel-case field spelling, the units the
    parser compares field names by. A count or array prefix (`m_ui`, `m_pp`)
    is dropped, a space is put before every capital letter and digit, and the
    result is cut at the spaces; the non-empty pieces form the word set. */
module Words {
  import opened Chars

  /** `^m_(ui|pp)([0-9A-Z][0-9a-zA-Z]+)`, matched against the whole spelling. */
  predicate HasFieldPrefix(s: string) {
    && |s| >= 6
    && (s[..4] == "m_ui" || s[..4] == "m_pp")
    && IsUpperOrDigit(s[4])
    && AllAlnum(s[5..])
  }

  /** The spelling with a matched `m_ui`/`m_pp` prefix removed; any other
      spelling is kept whole. */
  function StripFieldPrefix(s: string): (r: string)
    ensures r == s || ((s == "m_ui" + r || s == "m_pp" + r) && |r| >= 2 && IsUpperOrDigit(r[0]) && AllAlnum(r))
  {
    if HasFieldPrefix(s) then
      assert s == s[..4] + s[4..];
      s[4..]
    else s
  }

  /** The prefix is dropped from every spelling the pattern matches. */
  lemma StripsFieldPrefix(prefix: string, rest: string)
    requires prefix == "m_ui" || prefix == "m_pp"
    requires |rest| >= 2 && IsUpperOrDigit(rest[0]) && AllAlnum(rest)
    ensures StripFieldPrefix(prefix + rest) == rest
  {
    var s := prefix + rest;
    assert s[..4] == prefix && s[4..] == rest;
    assert s[4] == rest[0];
  }

  /** `s` with its spaces taken out. */
  function Unspaced(s: string): string {
    if s == [] then []
    else (if s[0] == ' ' then [] else [s[0]]) + Unspaced(s[1..])
  }

  /** Every capital letter and digit of `s` comes right after a space. */
  predicate BreaksBeforeCapitals(s: string) {
    forall i :: 0 <= i < |s| && IsUpperOrDigit(s[i]) ==> 0 < i && s[i - 1] == ' '
  }

  /** `s` with every space that stands right before a capital letter or a
      digit taken out. */
  function Unbreak(s: string): string {
    if s == [] then []
    else if |s| >= 2 && s[0] == ' ' && IsUpperOrDigit(s[1]) then Unbreak(s[1..])
    else [s[0]] + Unbreak(s[1..])
  }

  /** `std::regex_replace(s, std::regex("[0-9A-Z]"), " $&")`: every capital
      letter and digit gets a space before it, and no other character is
      added or removed (`UnbreakWithSpaces` shows that only those spaces are
      added). */
  function WithSpaces(s: string): (r: string)
    ensures Unspaced(r) == Unspaced(s)
    ensures BreaksBeforeCapitals(r)
  {
    if s == [] then []
    else
      var rest := WithSpaces(s[1..]);
      if IsUpperOrDigit(s[0]) then
        BreaksAfterSpace(s[0], rest);
        [' ', s[0]] + rest
      else
        BreaksAfterPlain(s[0], rest);
        [s[0]] + rest
  }

  /** A space and a character put before a text whose capitals all follow a
      space keep it so. */
  lemma BreaksAfterSpace(c: char, rest: string)
    requires BreaksBeforeCapitals(rest)
    ensures BreaksBeforeCapitals([' ', c] + rest)
    ensures Unspaced([' ', c] + rest) == Unspaced([c] + rest)
  {
    var r := [' ', c] + rest;
    assert r[1..] == [c] + rest;
    forall i | 2 <= i < |r| ensures r[i] == rest[i - 2] { }
  }

  /** A character other than a capital or digit put before a text whose
      capitals all follow a space keeps it so. */
  lemma BreaksAfterPlain(c: char, rest: string)
    requires !IsUpperOrDigit(c) && BreaksBeforeCapitals(rest)
    ensures BreaksBeforeCapitals([c] + rest)
    ensures Unspaced([c] + rest) == (if c == ' ' then [] else [c]) + Unspaced(rest)
  {
    var r := [c] + rest;
    assert r[1..] == rest;
    forall i | 1 <= i < |r| ensures r[i] == rest[i - 1] { }
  }

  /** Taking out the spaces that stand before capitals and digits undoes
      `WithSpaces`: the spaces it adds are exactly those. */
  lemma {:induction false} UnbreakWithSpaces(s: string)
    ensures Unbreak(WithSpaces(s)) == s
    decreases |s|
  {
    if s != [] {
      var rest := WithSpaces(s[1..]);
      UnbreakWithSpaces(s[1..]);
      if IsUpperOrDigit(s[0]) {
        var r := [' ', s[0]] + rest;
        assert WithSpaces(s) == r && r[1..] == [s[0]] + rest && ([s[0]] + rest)[1..] == rest;
      } else {
        var r := [s[0]] + rest;
        assert WithSpaces(s) == r && r[1..] == rest;
        assert |rest| > 0 ==> !IsUpperOrDigit(rest[0]);
      }
    }
  }

  /** `std::string::find`'s answer: an index, or `npos`. */
  datatype Position = At(index: nat) | NotFound

  /** `t.find(" ", from)`: the first space at or after `from`. */
  function Find(t: string, from: nat): (r: Position)
    requires from <= |t|
    ensures r.At? ==> from <= r.index < |t| && t[r.index] == ' '
    ensures forall j :: from <= j < |t| && (r.At? ==> j < r.index) ==> t[j] != ' '
    decreases |t| - from
  {
    if from == |t| then NotFound
    else if t[from] == ' ' then At(from)
    else Find(t, from + 1)
  }

  /** A stretch of a text with no space in it holds no capital letter or
      digit after its first character, when each of those follows a space. */
  lemma NoCapitalsInside(t: string, from: nat, to: nat)
    requires from <= to <= |t| && BreaksBeforeCapitals(t)
    requires forall j :: from <= j < to ==> t[j] != ' '
    ensures forall j :: 0 < j < to - from ==> !IsUpperOrDigit(t[from..to][j])
  {
    forall j | 0 < j < to - from ensures !IsUpperOrDigit(t[from..to][j]) {
      assert t[from..to][j] == t[from + j];
      assert t[from + j - 1] != ' ';
    }
  }

  /** The pieces of `t[from..]` between its spaces, in order, empty ones included. */
  function Pieces(t: string, from: nat): (r: seq<string>)
    requires from <= |t|
    ensures |r| > 0
    ensures forall w :: w in r ==> ' ' !in w
    ensures BreaksBeforeCapitals(t) ==> forall w :: w in r ==> forall i :: 0 < i < |w| ==> !IsUpperOrDigit(w[i])
    decreases |t| - from
  {
    match Find(t, from)
    case NotFound =>
      var w := t[from..];
      assert forall i :: 0 <= i < |w| ==> w[i] == t[from + i];
      assert forall x :: x in [w] <==> x == w;
      assert t[from..|t|] == w;
      if BreaksBeforeCapitals(t) then NoCapitalsInside(t, from, |t|); [w] else [w]
    case At(i) =>
      var w := t[from..i];
      var rest := Pieces(t, i + 1);
      assert forall j :: 0 <= j < |w| ==> w[j] == t[from + j];
      assert forall x :: x in [w] + rest <==> x == w || x in rest;
      if BreaksBeforeCapitals(t) then NoCapitalsInside(t, from, i); [w] + rest else [w] + rest
  }

  /** Pieces put back together with one space between each two. */
  function Join(ws: seq<string>): string
    requires |ws| > 0
  {
    if |ws| == 1 then ws[0] else ws[0] + " " + Join(ws[1..])
  }

  /** Cutting at the spaces and joining with spaces gives the text back. */
  lemma {:induction false} JoinPieces(t: string, from: nat)
    requires from <= |t|
    ensures Join(Pieces(t, from)) == t[from..]
    decreases |t| - from
  {
    match Find(t, from)
    case NotFound =>
    case At(i) =>
      JoinPieces(t, i + 1);
      var ws := Pieces(t, from);
      assert ws[1..] == Pieces(t, i + 1);
      assert t[from..] == t[from..i] + " " + t[i + 1..];
  }

  /** The set of the non-empty strings of `ws`. */
  function NonEmpty(ws: seq<string>): set<string> {
    set w | w in ws && w != []
  }

  lemma NonEmptyCons(w: string, ws: seq<string>)
    ensures NonEmpty([w] + ws) == (if w != [] then {w} else {}) + NonEmpty(ws)
  {
    assert forall x :: x in [w] + ws <==> x == w || x in ws;
  }

  /** The words of `t[from..]` are those of the piece up to the next space
      and those after it ... */
  lemma WordsAtSpace(t: string, from: nat, i: nat, acc: set<string>)
    requires from <= |t| && Find(t, from) == At(i)
    ensures var w := t[from..i];
            (if w != [] then acc + {w} else acc) + NonEmpty(Pieces(t, i + 1)) == acc + NonEmpty(Pieces(t, from))
  {
    var w := t[from..i];
    var rest := Pieces(t, i + 1);
    assert Pieces(t, from) == [w] + rest;
    NonEmptyCons(w, rest);
  }

  /** ... or, with no space left, the rest of the text if it is not empty. */
  lemma WordsAtEnd(t: string, from: nat, acc: set<string>)
    requires from <= |t| && Find(t, from).NotFound?
    ensures var w := t[from..]; (if w != [] then acc + {w} else acc) == acc + NonEmpty(Pieces(t, from))
  {
    assert Pieces(t, from) == [t[from..]];
  }

  /** The word set of a spelling, as `getWords` builds it. */
  function WordsOf(s: string): set<string> {
    NonEmpty(Pieces(WithSpaces(StripFieldPrefix(s)), 0))
  }

  /** Every word is non-empty, holds no space, and only its first character
      can be a capital letter or a digit. */
  lemma WordShape(s: string, w: string)
    requires w in WordsOf(s)
    ensures w != [] && ' ' !in w
    ensures forall i :: 0 < i < |w| ==> !IsUpperOrDigit(w[i])
  {
  }

  /** The pieces, joined, with the spaces put in before capitals and digits
      taken out again, give back exactly the spelling after its prefix is
      dropped; the words are the non-empty pieces. */
  lemma WordsCoverSpelling(s: string)
    ensures Unbreak(Join(Pieces(WithSpaces(StripFieldPrefix(s)), 0))) == StripFieldPrefix(s)
  {
    var t := WithSpaces(StripFieldPrefix(s));
    JoinPieces(t, 0);
    assert t[0..] == t;
    UnbreakWithSpaces(StripFieldPrefix(s));
  }

  /** `getWords`' loop: the non-empty pieces of `t` between its spaces. */
  method CollectWords(t: string) returns (result: set<string>)
    ensures result == NonEmpty(Pieces(t, 0))
  {
    result := {};
    var n := At(0);
    while n.At?
      invariant n.At? ==> n.index <= |t| && result + NonEmpty(Pieces(t, n.index)) == NonEmpty(Pieces(t, 0))
      invariant n.NotFound? ==> result == NonEmpty(Pieces(t, 0))
      decreases if n.At? then |t| + 1 - n.index else 0
    {
      var lastN := n.index;
      n := Find(t, lastN);
      if n.At? {
        WordsAtSpace(t, lastN, n.index, result);
        var word := t[lastN..n.index];
        if word != [] {
          result := result + {word};
        }
        n := At(n.index + 1);
      } else {
        WordsAtEnd(t, lastN, result);
        var word := t[lastN..];
        if word != [] {
          result := result + {word};
        }
      }
    }
  }

  /** `getWords`: the prefix is dropped, spaces are put in, and the words are
      collected. */
  method GetWords(s: string) returns (result: set<string>)
    ensures result == WordsOf(s)
    ensures [] !in result
  {
    var spelling := StripFieldPrefix(s);
    var withSpaces := WithSpaces(spelling);
    result := CollectWords(withSpaces);
  }
}
