/** Cleaning a text: Unicode normalisation, then runs of white space become single spaces. */
module CleanText {

  /** Unicode's tables. */
  datatype Unicode = Unicode(nfkc: string -> string, casefold: string -> string, space: char -> bool)

  /** What is assumed of them: a space is white space, and a collapsed normal form is still normal. */
  ghost predicate Lawful(u: Unicode) {
    u.space(' ') && forall s: string :: u.nfkc(Collapse(u, u.nfkc(s))) == Collapse(u, u.nfkc(s))
  }

  /** The text up to its first white space. */
  function FirstWord(u: Unicode, s: string): (w: string)
    ensures |w| <= |s| && s[..|w|] == w
    ensures s != "" && !u.space(s[0]) ==> w != ""
  {
    if s == "" || u.space(s[0]) then "" else [s[0]] + FirstWord(u, s[1..])
  }

  /** str.split(). */
  function Words(u: Unicode, s: string): seq<string>
    decreases |s|
  {
    if s == "" then []
    else if u.space(s[0]) then Words(u, s[1..])
    else [FirstWord(u, s)] + Words(u, s[|FirstWord(u, s)|..])
  }

  /** " ".join(words). */
  function Joined(words: seq<string>): string {
    if |words| == 0 then "" else if |words| == 1 then words[0] else words[0] + " " + Joined(words[1..])
  }

  function Collapse(u: Unicode, s: string): string {
    Joined(Words(u, s))
  }

  function Clean(u: Unicode, s: string): string {
    Collapse(u, u.nfkc(s))
  }

  function Semantic(u: Unicode, s: string): string {
    u.casefold(Clean(u, s))
  }

  predicate IsWord(u: Unicode, w: string) {
    w != "" && forall c :: c in w ==> !u.space(c)
  }

  lemma {:induction false} FirstWordIsWord(u: Unicode, s: string)
    ensures forall c :: c in FirstWord(u, s) ==> !u.space(c)
  {
    if s != "" && !u.space(s[0]) {
      FirstWordIsWord(u, s[1..]);
    }
  }

  lemma {:induction false} WordsAreWords(u: Unicode, s: string)
    ensures forall w :: w in Words(u, s) ==> IsWord(u, w)
    decreases |s|
  {
    if s != "" {
      if u.space(s[0]) {
        WordsAreWords(u, s[1..]);
      } else {
        FirstWordIsWord(u, s);
        WordsAreWords(u, s[|FirstWord(u, s)|..]);
      }
    }
  }

  lemma {:induction false} FirstWordOf(u: Unicode, w: string, rest: string)
    requires forall c :: c in w ==> !u.space(c)
    requires rest == "" || u.space(rest[0])
    ensures FirstWord(u, w + rest) == w
  {
    if w == "" {
      assert w + rest == rest;
    } else {
      FirstWordOf(u, w[1..], rest);
      assert (w + rest)[1..] == w[1..] + rest;
      assert (w + rest)[0] == w[0] && w[0] in w;
    }
  }

  /** Splitting undoes joining. */
  lemma {:induction false} WordsOfJoined(u: Unicode, words: seq<string>)
    requires u.space(' ') && forall w :: w in words ==> IsWord(u, w)
    ensures Words(u, Joined(words)) == words
  {
    if |words| > 0 {
      assert IsWord(u, words[0]);
      var rest := if |words| == 1 then "" else " " + Joined(words[1..]);
      var s := words[0] + rest;
      assert Joined(words) == s;
      FirstWordOf(u, words[0], rest);
      assert s[0] == words[0][0] && s[0] in words[0];
      assert s[|words[0]|..] == rest;
      if |words| > 1 {
        WordsOfJoined(u, words[1..]);
        assert rest[1..] == Joined(words[1..]);
      }
      assert words == [words[0]] + words[1..];
    }
  }

  /** The text consists of these words, with white space between any two of them and nothing but white
      space around them. */
  predicate Spells(u: Unicode, s: string, words: seq<string>)
    decreases |s|
  {
    if s == "" then words == []
    else if u.space(s[0]) then Spells(u, s[1..], words)
    else
      && words != [] && IsWord(u, words[0]) && words[0] <= s
      && (|words[0]| < |s| ==> u.space(s[|words[0]|]))
      && Spells(u, s[|words[0]|..], words[1..])
  }

  /** str.split, exactly: the text consists of these words and white space around them. */
  lemma {:induction false} WordsExactly(u: Unicode, s: string, words: seq<string>)
    ensures Spells(u, s, words) <==> words == Words(u, s)
    decreases |s|
  {
    if s != "" {
      if u.space(s[0]) {
        WordsExactly(u, s[1..], words);
      } else {
        var w := FirstWord(u, s);
        FirstWordIsWord(u, s);
        FirstWordEnds(u, s);
        if words != [] && IsWord(u, words[0]) && words[0] <= s && (|words[0]| < |s| ==> u.space(s[|words[0]|])) {
          FirstWordOf(u, words[0], s[|words[0]|..]);
          assert s == words[0] + s[|words[0]|..];
          WordsExactly(u, s[|w|..], words[1..]);
          assert words == [words[0]] + words[1..];
        }
        if words == Words(u, s) {
          WordsExactly(u, s[|w|..], words[1..]);
        }
      }
    }
  }

  lemma {:induction false} FirstWordEnds(u: Unicode, s: string)
    ensures FirstWord(u, s) <= s
    ensures |FirstWord(u, s)| < |s| ==> u.space(s[|FirstWord(u, s)|])
  {
    if s != "" && !u.space(s[0]) {
      FirstWordEnds(u, s[1..]);
    }
  }

  /** Its only white space is single spaces between other characters. */
  predicate IsTidy(u: Unicode, s: string) {
    forall i :: 0 <= i < |s| && u.space(s[i]) ==>
      s[i] == ' ' && 0 < i < |s| - 1 && !u.space(s[i - 1]) && !u.space(s[i + 1])
  }

  lemma {:induction false} JoinedIsTidy(u: Unicode, words: seq<string>)
    requires forall w :: w in words ==> IsWord(u, w)
    ensures IsTidy(u, Joined(words))
    ensures words != [] ==> Joined(words) != "" && !u.space(Joined(words)[0])
  {
    if words != [] {
      var w, n := words[0], |words[0]|;
      assert IsWord(u, w);
      forall i | 0 <= i < n ensures !u.space(w[i]) {
        assert w[i] in w;
      }
      if |words| > 1 {
        var rest, s := Joined(words[1..]), Joined(words);
        JoinedIsTidy(u, words[1..]);
        forall i | 0 <= i < |s| && u.space(s[i])
          ensures s[i] == ' ' && 0 < i < |s| - 1 && !u.space(s[i - 1]) && !u.space(s[i + 1])
        {
          assert s[n] == ' ' && s[n + 1..] == rest;
          if i > n {
            assert s[i] == rest[i - n - 1];
          }
        }
      }
    }
  }

  /** Cleaning keeps the words of a text, in their order, and leaves only single spaces between them. */
  lemma CleanKeepsWords(u: Unicode, s: string, words: seq<string>)
    requires u.space(' ') && Spells(u, u.nfkc(s), words)
    ensures Spells(u, Clean(u, s), words) && IsTidy(u, Clean(u, s))
  {
    WordsExactly(u, u.nfkc(s), words);
    WordsAreWords(u, u.nfkc(s));
    WordsOfJoined(u, words);
    WordsExactly(u, Clean(u, s), words);
    JoinedIsTidy(u, words);
  }

  lemma {:induction false} TidyIsJoined(u: Unicode, s: string, words: seq<string>)
    requires IsTidy(u, s) && Spells(u, s, words)
    ensures s == Joined(words)
    decreases |s|
  {
    if s != "" && !u.space(s[0]) {
      var n := |words[0]|;
      assert s == words[0] + s[n..];
      if n < |s| {
        var rest := s[n + 1..];
        assert s[n] == ' ' && s[n..] == " " + rest;
        forall i | 0 <= i < |rest| && u.space(rest[i])
          ensures rest[i] == ' ' && 0 < i < |rest| - 1 && !u.space(rest[i - 1]) && !u.space(rest[i + 1])
        {
          assert rest[i] == s[i + n + 1];
        }
        assert s[n..][1..] == rest;
        TidyIsJoined(u, rest, words[1..]);
      }
    }
  }

  /** The clean form of a text, exactly: the one tidy text with the words of its normal form. */
  lemma CleanExactly(u: Unicode, s: string, words: seq<string>, t: string)
    requires u.space(' ') && Spells(u, u.nfkc(s), words)
    ensures t == Clean(u, s) <==> IsTidy(u, t) && Spells(u, t, words)
  {
    CleanKeepsWords(u, s, words);
    TidyIsJoined(u, Clean(u, s), words);
    if IsTidy(u, t) && Spells(u, t, words) {
      TidyIsJoined(u, t, words);
    }
  }

  lemma CollapseIsIdempotent(u: Unicode, s: string)
    requires u.space(' ')
    ensures Collapse(u, Collapse(u, s)) == Collapse(u, s)
  {
    WordsAreWords(u, s);
    WordsOfJoined(u, Words(u, s));
  }

  /** A clean text is its own clean form. */
  lemma CleanIsIdempotent(u: Unicode, s: string)
    requires Lawful(u)
    ensures Clean(u, Clean(u, s)) == Clean(u, s)
  {
    CollapseIsIdempotent(u, u.nfkc(s));
  }
}
